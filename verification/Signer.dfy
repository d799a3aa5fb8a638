/**
 The file-backed signer. It remembers the last height, round and step it signed for,
 together with the sign bytes and the signature, on disk before a signature leaves it.

 Sign bytes are represented by the canonical message they encode. A signature names
 its sign bytes and is otherwise arbitrary, so signing twice may give two signatures.
 */
module Signer {
  import opened Options

  const STEP_NONE := 0
  const STEP_PROPOSE := 1
  const STEP_PREVOTE := 2
  const STEP_PRECOMMIT := 3

  datatype Kind = Prevote | Precommit

  /** `code` is the fork's vote code. The sign bytes cover neither it nor the extension. */
  datatype Vote = Vote(kind: Kind, height: int, round: int, id: string, timestamp: int, extension: string, code: int)

  datatype Proposal = Proposal(height: int, round: int, polRound: int, id: string, timestamp: int)

  datatype SignBytes =
    | VoteBytes(kind: Kind, height: int, round: int, id: string, timestamp: int, chainID: string)
    | ProposalBytes(height: int, round: int, polRound: int, id: string, timestamp: int, chainID: string)
  {
    function Step(): int {
      match this
      case VoteBytes(kind, _, _, _, _, _) => if kind.Prevote? then STEP_PREVOTE else STEP_PRECOMMIT
      case ProposalBytes(_, _, _, _, _, _) => STEP_PROPOSE
    }

    function At(): (int, int, int) {
      (height, round, Step())
    }

    function WithTime(t: int): SignBytes {
      this.(timestamp := t)
    }
  }

  datatype Signature = Signature(over: SignBytes, nonce: int)

  datatype LastSign = LastSign(height: int, round: int, step: int, signature: Option<Signature>, signBytes: Option<SignBytes>)
  {
    function At(): (int, int, int) {
      (height, round, step)
    }
  }

  const NOTHING_SIGNED := LastSign(0, 0, STEP_NONE, None, None)

  /** Lexicographic order on height, round and step. */
  predicate Before(a: (int, int, int), b: (int, int, int)) {
    a.0 < b.0 || (a.0 == b.0 && (a.1 < b.1 || (a.1 == b.1 && a.2 < b.2)))
  }

  datatype Check = Regression | NoSignBytes | NoSignature | Same | Later

  function CheckHRS(lss: LastSign, height: int, round: int, step: int): (c: Check)
    ensures c.Later? <==> Before(lss.At(), (height, round, step))
    ensures c.Regression? <==> Before((height, round, step), lss.At())
  {
    if lss.height > height then Regression
    else if lss.height == height && lss.round > round then Regression
    else if lss.height == height && lss.round == round && lss.step > step then Regression
    else if lss.height == height && lss.round == round && lss.step == step then
      if lss.signBytes.Some? then (if lss.signature.None? then NoSignature else Same) else NoSignBytes
    else Later
  }

  function VoteSignBytes(chainID: string, v: Vote): SignBytes {
    VoteBytes(v.kind, v.height, v.round, v.id, v.timestamp, chainID)
  }

  function ProposalSignBytes(chainID: string, p: Proposal): SignBytes {
    ProposalBytes(p.height, p.round, p.polRound, p.id, p.timestamp, chainID)
  }

  /** Where the process dies while signing, if it does. */
  datatype Crash = Never | BeforeSave | AfterSave

  datatype Outcome<T> =
    | Signed(message: T, signature: Signature)
    | Failed
    | Died
    | Panicked

  /** The state file is consistent: the step fixes what the stored bytes are, and the signature is over them. */
  ghost predicate Consistent(lss: LastSign) {
    if lss.step == STEP_NONE then lss == NOTHING_SIGNED
    else
      && lss.signBytes.Some? && lss.signature.Some?
      && lss.signBytes.value.At() == lss.At()
      && lss.signature.value.over == lss.signBytes.value
  }

  /** Everything released so far lies at or before the last signed step, and at it there is only what is stored. */
  ghost predicate Covers(lss: LastSign, released: set<Signature>) {
    forall s | s in released :: Before(s.over.At(), lss.At()) || (lss.signature == Some(s))
  }

  /** One signature, hence one message, per height, round and step. */
  ghost predicate NoDoubleSign(released: set<Signature>) {
    forall s, t | s in released && t in released && s.over.At() == t.over.At() :: s == t
  }

  class FilePV {
    const chainID: string
    var memory: LastSign
    var disk: LastSign
    ghost var released: set<Signature>

    ghost predicate Valid()
      reads this
    {
      memory == disk && Consistent(disk) && Covers(disk, released) && NoDoubleSign(released)
    }

    constructor (chainID: string)
      ensures this.chainID == chainID && Valid() && released == {}
    {
      this.chainID := chainID;
      memory, disk, released := NOTHING_SIGNED, NOTHING_SIGNED, {};
    }

    /** What is signed for a step is on disk before it can be released; a crash brings the file back. */
    method SaveSigned(bytes: SignBytes, signature: Signature, crash: Crash) returns (alive: bool)
      requires Valid() && Before(disk.At(), bytes.At()) && signature.over == bytes
      modifies this`memory, this`disk
      ensures Valid() && alive == crash.Never? && (disk == old(disk) || disk.At() == bytes.At())
      ensures alive ==> disk.signature == Some(signature)
    {
      memory := memory.(height := bytes.height, round := bytes.round, step := bytes.Step());
      memory := memory.(signature := Some(signature), signBytes := Some(bytes));
      if crash.BeforeSave? {
        memory := disk;
        return false;
      }
      disk := memory;
      return crash.Never?;
    }

    /**
     Signing the bytes of a message, new ones or the ones stored for this very step,
     up to the timestamp. Returns the timestamp that the signature covers.
     */
    method SignOnce(bytes: SignBytes, signs: bool, nonce: int, crash: Crash) returns (o: Outcome<int>)
      requires Valid()
      modifies this
      ensures Valid() && !o.Panicked?
      ensures o.Signed? ==> o.signature.over == bytes.WithTime(o.message) && released == old(released) + {o.signature}
      ensures !o.Signed? ==> released == old(released)
      ensures disk == old(disk) || Before(old(disk).At(), disk.At())
      ensures Before(old(disk).At(), bytes.At()) ==> (o.Signed? <==> signs && crash.Never?)
      ensures Before(bytes.At(), old(disk).At()) ==> o.Failed?
      ensures old(disk).signature.Some? && old(disk).signature.value.over.At() == bytes.At() ==>
        (o.Signed? <==> old(disk).signature.value.over == bytes.WithTime(old(disk).signature.value.over.timestamp))
    {
      var lss := memory;
      match CheckHRS(lss, bytes.height, bytes.round, bytes.Step()) {
      case Regression => return Failed;
      case NoSignBytes => return Failed;
      case NoSignature => return Panicked;
      case Same =>
        var stored := lss.signBytes.value;
        if bytes == stored {
          o := Signed(bytes.timestamp, lss.signature.value);
        } else if stored.VoteBytes? != bytes.VoteBytes? {
          return Panicked;
        } else if bytes.WithTime(0) == stored.WithTime(0) {
          assert stored == bytes.WithTime(stored.timestamp);
          o := Signed(stored.timestamp, lss.signature.value);
        } else {
          return Failed;
        }
      case Later =>
        if !signs {
          return Failed;
        }
        var signature := Signature(bytes, nonce);
        var alive := SaveSigned(bytes, signature, crash);
        if !alive {
          return Died;
        }
        o := Signed(bytes.timestamp, signature);
      }
      released := released + {o.signature};
    }

    method SignVote(v: Vote, signs: bool, extensionSigns: bool, nonce: int, crash: Crash) returns (o: Outcome<Vote>)
      requires Valid()
      modifies this
      ensures Valid() && !o.Panicked?
      ensures o.Signed? ==> o.signature.over == VoteSignBytes(chainID, o.message) && o.message == v.(timestamp := o.message.timestamp)
      ensures released == if o.Signed? then old(released) + {o.signature} else old(released)
      ensures v.extension != "" && (v.kind.Prevote? || v.id == "") ==> !o.Signed?
    {
      if v.kind.Precommit? && v.id != "" {
        if !extensionSigns {
          return Failed;
        }
      } else if |v.extension| > 0 {
        return Failed;
      }
      var t := SignOnce(VoteSignBytes(chainID, v), signs, nonce, crash);
      o := match t
        case Signed(time, signature) => Signed(v.(timestamp := time), signature)
        case Failed => Failed
        case Died => Died
        case Panicked => Panicked;
    }

    method SignProposal(p: Proposal, signs: bool, nonce: int, crash: Crash) returns (o: Outcome<Proposal>)
      requires Valid()
      modifies this
      ensures Valid() && !o.Panicked?
      ensures o.Signed? ==> o.signature.over == ProposalSignBytes(chainID, o.message) && o.message == p.(timestamp := o.message.timestamp)
      ensures released == if o.Signed? then old(released) + {o.signature} else old(released)
    {
      var t := SignOnce(ProposalSignBytes(chainID, p), signs, nonce, crash);
      o := match t
        case Signed(time, signature) => Signed(p.(timestamp := time), signature)
        case Failed => Failed
        case Died => Died
        case Panicked => Panicked;
    }

    /** A restart at any time reads the file back. */
    method Reload()
      requires Consistent(disk) && Covers(disk, released) && NoDoubleSign(released)
      modifies this`memory
      ensures Valid()
    {
      memory := disk;
    }

    /** Any run of requests and crashes, without Reset: no step is ever signed twice differently. */
    method Serve(requests: seq<Request>)
      requires Valid()
      modifies this
      ensures Valid() && NoDoubleSign(released) && old(released) <= released
    {
      for i := 0 to |requests|
        invariant Valid() && old(released) <= released
      {
        match requests[i]
        case ForVote(v, signs, extensionSigns, nonce, crash) => var _ := SignVote(v, signs, extensionSigns, nonce, crash);
        case ForProposal(p, signs, nonce, crash) => var _ := SignProposal(p, signs, nonce, crash);
        case Restart => Reload();
      }
    }
  }

  datatype Request =
    | ForVote(vote: Vote, signs: bool, extensionSigns: bool, nonce: int, crash: Crash)
    | ForProposal(proposal: Proposal, signs: bool, nonce: int, crash: Crash)
    | Restart
}
