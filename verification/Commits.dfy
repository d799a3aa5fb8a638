/**
 Commit verification: whether enough voting power of a validator set signed a
 commit. Signatures are ideal: a made signature names its key and its message, and
 nothing else verifies. A hash is represented by what it is the hash of, so equal
 hashes mean equal contents.

 `Single` and `Batch` are the two ways of checking; the methods are the loops.
 */
module Commits {
  import opened Options
  import opened Power

  type Key = nat

  datatype Hash<T> = HashOf(preimage: T) | Other(bytes: int)

  /** The hash of a validator set covers keys and powers, not addresses. */
  datatype Validator = Validator(address: nat, key: Key, power: nat)

  type Members = seq<(Key, nat)>

  datatype Header = Header(
    chainID: string,
    height: int,
    time: int,
    validators: Hash<Members>,
    nextValidators: Hash<Members>,
    wellFormed: bool,
    rest: int)

  datatype BlockID = BlockID(hash: Hash<Header>, parts: int)

  /** What a precommit for no block carries. */
  const NIL_ID := BlockID(Other(0), 0)

  /** What a precommit signs. */
  datatype Message = Message(chainID: string, height: int, round: int, id: BlockID, timestamp: int)

  datatype Signature = Made(key: Key, message: Message) | Junk(wellSized: bool)

  datatype Flag = Absent | ForBlock | ForNil

  datatype CommitSig = CommitSig(flag: Flag, address: nat, timestamp: int, signature: Signature, wellFormed: bool)

  datatype Commit = Commit(height: int, round: int, id: BlockID, sigs: seq<CommitSig>, wellFormed: bool)

  datatype Verdict = Enough | NotEnough | Invalid

  function PowersOf(vals: seq<Validator>): (p: Powers)
    ensures |p| == |vals|
  {
    seq(|vals|, i requires 0 <= i < |vals| => vals[i].power)
  }

  function MembersOf(vals: seq<Validator>): (m: Members)
    ensures |m| == |vals|
  {
    seq(|vals|, i requires 0 <= i < |vals| => (vals[i].key, vals[i].power))
  }

  /** GetByAddress: the first validator with the address. */
  function IndexOf(vals: seq<Validator>, address: nat): (r: Option<nat>)
    ensures r.Some? ==> r.value < |vals| && vals[r.value].address == address
    ensures r.Some? ==> forall j | 0 <= j < r.value :: vals[j].address != address
    ensures r.None? ==> forall i | 0 <= i < |vals| :: vals[i].address != address
  {
    if vals == [] then None
    else if vals[0].address == address then Some(0)
    else match IndexOf(vals[1..], address) case None => None case Some(k) => Some(k + 1)
  }

  function SignBytes(chainID: string, c: Commit, i: nat): Message
    requires i < |c.sigs|
  {
    Message(chainID, c.height, c.round, if c.sigs[i].flag.ForBlock? then c.id else NIL_ID, c.sigs[i].timestamp)
  }

  predicate SignedBy(chainID: string, c: Commit, i: nat, key: Key)
    requires i < |c.sigs|
  {
    c.sigs[i].signature == Made(key, SignBytes(chainID, c, i))
  }

  /**
   `Light` and `LightAll` look at signatures for the block only, `Light` until they are
   enough; `Full` looks at all that are not absent. Signatures for nil never add power.
   */
  datatype Mode = Light | LightAll | Full

  /** The question put to both checks; `byIndex` says that validators and signatures correspond. */
  datatype Question = Question(chainID: string, vals: seq<Validator>, commit: Commit, needed: int, byIndex: bool, mode: Mode)
  {
    predicate Valid() {
      byIndex ==> |vals| == |commit.sigs|
    }

    predicate Ignores(i: nat)
      requires i < |commit.sigs|
    {
      if mode.Full? then commit.sigs[i].flag.Absent? else !commit.sigs[i].flag.ForBlock?
    }

    function Signer(i: nat): (r: Option<nat>)
      requires Valid() && i < |commit.sigs|
      ensures r.Some? ==> r.value < |vals|
    {
      if byIndex then Some(i) else IndexOf(vals, commit.sigs[i].address)
    }

    predicate Signed(i: nat, k: nat)
      requires i < |commit.sigs| && k < |vals|
    {
      SignedBy(chainID, commit, i, vals[k].key)
    }
  }

  /** The power that the signature adds. */
  function Weight(q: Question, j: nat): nat
    requires q.Valid() && j < |q.commit.sigs|
  {
    if q.commit.sigs[j].flag.ForBlock? && q.Signer(j).Some? then q.vals[q.Signer(j).value].power else 0
  }

  /** One signature after the other, from the i-th on; `seen` are the validators met already. */
  function Single(q: Question, i: nat, seen: set<nat>, tally: nat): Verdict
    requires q.Valid() && i <= |q.commit.sigs|
    decreases |q.commit.sigs| - i
  {
    if i == |q.commit.sigs| then
      if tally <= q.needed then NotEnough else Enough
    else if q.Ignores(i) then Single(q, i + 1, seen, tally)
    else if !q.commit.sigs[i].wellFormed then Invalid
    else match q.Signer(i)
      case None => Single(q, i + 1, seen, tally)
      case Some(k) =>
        if (!q.byIndex && k in seen) || !q.Signed(i, k) then Invalid
        else if q.mode.Light? && tally + Weight(q, i) > q.needed then Enough
        else Single(q, i + 1, seen + {k}, tally + Weight(q, i))
  }

  /** All signatures are collected first; `good` says that those collected so far verify. */
  function Batch(q: Question, i: nat, seen: set<nat>, tally: nat, good: bool): Verdict
    requires q.Valid() && i <= |q.commit.sigs|
    decreases |q.commit.sigs| - i
  {
    if i == |q.commit.sigs| then
      if tally <= q.needed then NotEnough else if good then Enough else Invalid
    else if q.Ignores(i) then Batch(q, i + 1, seen, tally, good)
    else match q.Signer(i)
      case None => Batch(q, i + 1, seen, tally, good)
      case Some(k) =>
        if (!q.byIndex && k in seen) || q.commit.sigs[i].signature == Junk(false) then Invalid
        else if q.mode.Light? && tally + Weight(q, i) > q.needed then if good && q.Signed(i, k) then Enough else Invalid
        else Batch(q, i + 1, seen + {k}, tally + Weight(q, i), good && q.Signed(i, k))
  }

  const BATCH_VERIFY_THRESHOLD := 2

  /** The single check of a whole commit. */
  function SingleCheck(q: Question): Verdict
    requires q.Valid()
  {
    Single(q, 0, {}, 0)
  }

  /** The batch check of a whole commit, which refuses commits with fewer than two entries unread. */
  function BatchCheck(q: Question): Verdict
    requires q.Valid()
  {
    if |q.commit.sigs| < BATCH_VERIFY_THRESHOLD then Invalid else Batch(q, 0, {}, 0, true)
  }

  // What the two checks say of a commit

  /** The signature is verified: it is not ignored, and by someone in the validator set. */
  ghost predicate Checked(q: Question, j: nat)
    requires q.Valid() && j < |q.commit.sigs|
  {
    !q.Ignores(j) && q.Signer(j).Some?
  }

  /** The signature is for the block, by someone in the validator set. */
  ghost predicate Counted(q: Question, j: nat)
    requires q.Valid() && j < |q.commit.sigs|
  {
    q.commit.sigs[j].flag.ForBlock? && q.Signer(j).Some?
  }

  /** Power of the signatures from the i-th up to, not including, the j-th. */
  function Between(q: Question, i: nat, j: nat): nat
    requires q.Valid() && j <= |q.commit.sigs|
    decreases j - i
  {
    if i >= j then 0 else Weight(q, i) + Between(q, i + 1, j)
  }

  /** No signature before the j-th has already ended the loop, which only happens in light mode. */
  ghost predicate Looked(q: Question, i: nat, tally: nat, j: nat)
    requires q.Valid()
  {
    && i <= j < |q.commit.sigs|
    && (q.mode.Light? ==> forall k: nat | i <= k < j && Checked(q, k) :: tally + Between(q, i, k + 1) <= q.needed)
  }

  ghost predicate Doubled(q: Question, i: nat, seen: set<nat>, j: nat)
    requires q.Valid() && j < |q.commit.sigs|
  {
    && Checked(q, j) && !q.byIndex
    && (q.Signer(j).value in seen || exists k: nat :: i <= k < j && Checked(q, k) && q.Signer(k) == q.Signer(j))
  }

  ghost predicate Forged(q: Question, j: nat)
    requires q.Valid() && j < |q.commit.sigs|
  {
    Checked(q, j) && !q.Signed(j, q.Signer(j).value)
  }

  ghost predicate Unsized(q: Question, j: nat)
    requires q.Valid() && j < |q.commit.sigs|
  {
    Checked(q, j) && q.commit.sigs[j].signature == Junk(false)
  }

  predicate IllFormed(q: Question, j: nat)
    requires j < |q.commit.sigs|
  {
    !q.Ignores(j) && !q.commit.sigs[j].wellFormed
  }

  // Whether a signature that is looked at is of the kind.

  ghost predicate AnyDoubled(q: Question, i: nat, seen: set<nat>, tally: nat)
    requires q.Valid()
  {
    exists j: nat :: Looked(q, i, tally, j) && Doubled(q, i, seen, j)
  }

  ghost predicate AnyForged(q: Question, i: nat, tally: nat)
    requires q.Valid()
  {
    exists j: nat :: Looked(q, i, tally, j) && Forged(q, j)
  }

  ghost predicate AnyUnsized(q: Question, i: nat, tally: nat)
    requires q.Valid()
  {
    exists j: nat :: Looked(q, i, tally, j) && Unsized(q, j)
  }

  ghost predicate AnyIllFormed(q: Question, i: nat, tally: nat)
    requires q.Valid()
  {
    exists j: nat :: Looked(q, i, tally, j) && IllFormed(q, j)
  }

  ghost predicate Short(q: Question, i: nat, tally: nat)
    requires q.Valid() && i <= |q.commit.sigs|
  {
    tally + Between(q, i, |q.commit.sigs|) <= q.needed
  }

  predicate WellFormed(c: Commit) {
    c.wellFormed && forall i | 0 <= i < |c.sigs| :: c.sigs[i].wellFormed
  }

  /** The validators met once the i-th signature is done. */
  function SeenNext(q: Question, i: nat, seen: set<nat>): set<nat>
    requires q.Valid() && i < |q.commit.sigs|
  {
    if !q.Ignores(i) && q.Signer(i).Some? then seen + {q.Signer(i).value} else seen
  }

  /** The loop stops after the i-th signature, which brought the tally above what is needed. */
  ghost predicate Stops(q: Question, i: nat, tally: nat)
    requires q.Valid() && i < |q.commit.sigs|
  {
    q.mode.Light? && Checked(q, i) && tally + Weight(q, i) > q.needed
  }

  lemma LookedNext(q: Question, i: nat, tally: nat, j: nat)
    requires q.Valid() && i < |q.commit.sigs|
    ensures Looked(q, i, tally, j) <==>
      (j == i || (!Stops(q, i, tally) && Looked(q, i + 1, tally + Weight(q, i), j)))
  {
    forall k: nat | i < k < |q.commit.sigs| && Checked(q, k)
      ensures Between(q, i, k + 1) == Weight(q, i) + Between(q, i + 1, k + 1)
    {
    }
    assert Between(q, i, i + 1) == Weight(q, i) + Between(q, i + 1, i + 1);
  }

  lemma DoubledNext(q: Question, i: nat, seen: set<nat>, j: nat)
    requires q.Valid() && i < j < |q.commit.sigs|
    ensures Doubled(q, i, seen, j) <==> Doubled(q, i + 1, SeenNext(q, i, seen), j)
  {
  }

  /** How the questions about the rest of a commit follow from its first signature. */
  lemma Unfold(q: Question, i: nat, seen: set<nat>, tally: nat)
    requires q.Valid() && i < |q.commit.sigs|
    ensures var s, t := SeenNext(q, i, seen), tally + Weight(q, i);
      && (AnyDoubled(q, i, seen, tally) <==> Doubled(q, i, seen, i) || (!Stops(q, i, tally) && AnyDoubled(q, i + 1, s, t)))
      && (AnyForged(q, i, tally) <==> Forged(q, i) || (!Stops(q, i, tally) && AnyForged(q, i + 1, t)))
      && (AnyUnsized(q, i, tally) <==> Unsized(q, i) || (!Stops(q, i, tally) && AnyUnsized(q, i + 1, t)))
      && (AnyIllFormed(q, i, tally) <==> IllFormed(q, i) || (!Stops(q, i, tally) && AnyIllFormed(q, i + 1, t)))
      && (Short(q, i, tally) <==> Short(q, i + 1, t))
  {
    forall j: nat ensures Looked(q, i, tally, j) <==>
      (j == i || (!Stops(q, i, tally) && Looked(q, i + 1, tally + Weight(q, i), j)))
    {
      LookedNext(q, i, tally, j);
    }
    forall j: nat | i < j < |q.commit.sigs|
      ensures Doubled(q, i, seen, j) <==> Doubled(q, i + 1, SeenNext(q, i, seen), j)
    {
      DoubledNext(q, i, seen, j);
    }
    hide Stops, Doubled, Forged, Unsized, IllFormed, SeenNext;
    assert Looked(q, i, tally, i);
    if AnyDoubled(q, i, seen, tally) {
      var j: nat :| Looked(q, i, tally, j) && Doubled(q, i, seen, j);
      assert j == i || (Looked(q, i + 1, tally + Weight(q, i), j) && Doubled(q, i + 1, SeenNext(q, i, seen), j));
    }
    if !Stops(q, i, tally) && AnyDoubled(q, i + 1, SeenNext(q, i, seen), tally + Weight(q, i)) {
      var j: nat :| Looked(q, i + 1, tally + Weight(q, i), j) && Doubled(q, i + 1, SeenNext(q, i, seen), j);
      assert Looked(q, i, tally, j) && Doubled(q, i, seen, j);
    }
  }

  /** What the first signature alone decides. */
  lemma Immediate(q: Question, i: nat, seen: set<nat>, tally: nat)
    requires q.Valid() && i < |q.commit.sigs|
    ensures Doubled(q, i, seen, i) <==> Checked(q, i) && !q.byIndex && q.Signer(i).value in seen
    ensures Stops(q, i, tally) ==> !Short(q, i, tally)
  {
  }

  /** The batch: any double vote or unusable signature first, then missing power, then bad signatures. */
  lemma {:induction false} VerdictOfBatch(q: Question, i: nat, seen: set<nat>, tally: nat, good: bool)
    requires q.Valid() && i <= |q.commit.sigs|
    ensures Batch(q, i, seen, tally, good) ==
      if AnyDoubled(q, i, seen, tally) || AnyUnsized(q, i, tally) then Invalid
      else if Short(q, i, tally) then NotEnough
      else if good && !AnyForged(q, i, tally) then Enough else Invalid
    decreases |q.commit.sigs| - i
  {
    if i < |q.commit.sigs| {
      hide AnyDoubled, AnyForged, AnyUnsized, AnyIllFormed, Short;
      Unfold(q, i, seen, tally);
      VerdictOfBatch(q, i + 1, SeenNext(q, i, seen), tally + Weight(q, i), good && !Forged(q, i));
      Immediate(q, i, seen, tally);
    }
  }

  /** The single check: anything wrong comes before missing power. */
  lemma {:induction false} VerdictOfSingle(q: Question, i: nat, seen: set<nat>, tally: nat)
    requires q.Valid() && i <= |q.commit.sigs|
    ensures Single(q, i, seen, tally) ==
      if AnyIllFormed(q, i, tally) || AnyDoubled(q, i, seen, tally) || AnyForged(q, i, tally) then Invalid
      else if Short(q, i, tally) then NotEnough else Enough
    decreases |q.commit.sigs| - i
  {
    if i < |q.commit.sigs| {
      hide AnyDoubled, AnyForged, AnyUnsized, AnyIllFormed, Short;
      Unfold(q, i, seen, tally);
      VerdictOfSingle(q, i + 1, SeenNext(q, i, seen), tally + Weight(q, i));
      Immediate(q, i, seen, tally);
    }
  }

  /** An unusable signature is a bad one. */
  lemma UnsizedIsForged(q: Question)
    requires q.Valid() && AnyUnsized(q, 0, 0)
    ensures AnyForged(q, 0, 0)
  {
    var j: nat :| Looked(q, 0, 0, j) && Unsized(q, j);
    assert Forged(q, j);
  }

  /**
   The checks differ exactly on a commit of one of three kinds: it has fewer than two
   entries and nothing is wrong with it; or it has more, without a double vote or an
   unusable signature, and power is missing while a signature that is looked at is bad; or
   one that is looked at is not well formed, which only the single check asks, unless the
   batch refuses the commit for another that is bad.
   */
  lemma BatchVersusSingle(q: Question)
    requires q.Valid()
    ensures BatchCheck(q) != SingleCheck(q) <==>
      if |q.commit.sigs| < 2 then !AnyIllFormed(q, 0, 0) && !AnyDoubled(q, 0, {}, 0) && !AnyForged(q, 0, 0)
      else
        && !AnyDoubled(q, 0, {}, 0) && !AnyUnsized(q, 0, 0)
        && ((AnyIllFormed(q, 0, 0) && (Short(q, 0, 0) || !AnyForged(q, 0, 0))) || (Short(q, 0, 0) && AnyForged(q, 0, 0)))
  {
    VerdictOfBatch(q, 0, {}, 0, true);
    VerdictOfSingle(q, 0, {}, 0);
    if AnyUnsized(q, 0, 0) {
      UnsizedIsForged(q);
    }
    hide AnyDoubled, AnyForged, AnyUnsized, AnyIllFormed, Short, Single, Batch;
  }

  /** A commit that passes its own basic checks is accepted by both or by neither, if the batch reads it at all. */
  lemma SameAcceptance(q: Question)
    requires q.Valid() && WellFormed(q.commit)
    ensures BatchCheck(q) == Enough <==> SingleCheck(q) == Enough && |q.commit.sigs| >= 2
  {
    VerdictOfBatch(q, 0, {}, 0, true);
    VerdictOfSingle(q, 0, {}, 0);
    if AnyUnsized(q, 0, 0) {
      UnsizedIsForged(q);
    }
    hide AnyDoubled, AnyForged, AnyUnsized, Short, Single, Batch;
  }

  /** Where all signatures are looked at, accepting means that every one of them is its validator's. */
  lemma AcceptedAllSigned(q: Question, j: nat)
    requires q.Valid() && !q.mode.Light? && (SingleCheck(q) == Enough || BatchCheck(q) == Enough)
    requires j < |q.commit.sigs| && Checked(q, j)
    ensures q.Signed(j, q.Signer(j).value)
  {
    VerdictOfBatch(q, 0, {}, 0, true);
    VerdictOfSingle(q, 0, {}, 0);
    assert Looked(q, 0, 0, j);
  }

  /** The first validator's signature only, as the light client asks about it. */
  function OnlyFirst(vals: seq<Validator>, signature: Signature, wellFormed: bool): Question {
    var first, absent := CommitSig(ForBlock, 0, 0, signature, wellFormed), CommitSig(Absent, 0, 0, Junk(false), true);
    var sigs := seq(|vals|, i requires 0 <= i < |vals| => if i == 0 then first else absent);
    Question("c", vals, Commit(1, 0, BlockID(Other(1), 0), sigs, wellFormed), Total(PowersOf(vals)) * 2 / 3, true, Light)
  }

  const GOOD := Made(7, Message("c", 1, 0, BlockID(Other(1), 0), 0))

  lemma TotalOfTwo(vals: seq<Validator>)
    requires |vals| == 2
    ensures Total(PowersOf(vals)) == vals[0].power + vals[1].power
  {
    var p := PowersOf(vals);
    assert TotalUpTo(p, 2) == TotalUpTo(p, 1) + p[1] && TotalUpTo(p, 1) == p[0];
  }

  /** Missing power and a bad signature: the batch reports the first, the single check the second. */
  lemma BadSignatureDiffers()
    ensures var q := OnlyFirst([Validator(0, 7, 1), Validator(1, 8, 3)], Junk(true), true);
      BatchCheck(q) == NotEnough && SingleCheck(q) == Invalid
  {
    var q := OnlyFirst([Validator(0, 7, 1), Validator(1, 8, 3)], Junk(true), true);
    TotalOfTwo(q.vals);
    assert Batch(q, 1, {0}, 1, false) == Batch(q, 2, {0}, 1, false) == NotEnough;
  }

  /** A good signature in an ill-formed entry: the batch accepts it, the single check does not. */
  lemma IllFormedDiffers()
    ensures var q := OnlyFirst([Validator(0, 7, 3), Validator(1, 8, 1)], GOOD, false);
      BatchCheck(q) == Enough && SingleCheck(q) == Invalid
  {
    TotalOfTwo([Validator(0, 7, 3), Validator(1, 8, 1)]);
  }

  /** A commit with one good signature is enough, and the batch does not read it. */
  lemma OneSignatureDiffers()
    ensures var q := OnlyFirst([Validator(0, 7, 1)], GOOD, true);
      BatchCheck(q) == Invalid && SingleCheck(q) == Enough
  {
    var q := OnlyFirst([Validator(0, 7, 1)], GOOD, true);
    assert PowersOf(q.vals) == [1];
  }

  /** Validators among the set that signed this very commit, for the block. */
  ghost predicate Signers(q: Question, s: set<nat>) {
    forall k | k in s :: k < |q.vals| && SignedSomewhere(q, k)
  }

  ghost predicate SignedSomewhere(q: Question, k: nat)
    requires k < |q.vals|
  {
    exists i: nat :: i < |q.commit.sigs| && q.commit.sigs[i].flag.ForBlock? && q.Signed(i, k)
  }

  /** Enough means that more than the needed power signed, each validator counted once. */
  lemma {:induction false} SingleSound(q: Question, i: nat, seen: set<nat>, counted: set<nat>, tally: nat) returns (s: set<nat>)
    requires q.Valid() && i <= |q.commit.sigs| && Single(q, i, seen, tally) == Enough
    requires counted <= seen && Signers(q, counted) && PowerOf(PowersOf(q.vals), counted) == tally
    requires q.byIndex ==> forall k | k in seen :: k < i
    ensures Signers(q, s) && PowerOf(PowersOf(q.vals), s) > q.needed
    decreases |q.commit.sigs| - i
  {
    if i == |q.commit.sigs| {
      s := counted;
    } else if q.Ignores(i) || q.Signer(i).None? {
      s := SingleSound(q, i + 1, seen, counted, tally);
    } else {
      var k := q.Signer(i).value;
      var now := if q.commit.sigs[i].flag.ForBlock? then counted + {k} else counted;
      assert q.Signed(i, k);
      PowerAdd(PowersOf(q.vals), counted, k);
      if q.mode.Light? && tally + Weight(q, i) > q.needed {
        s := now;
      } else {
        s := SingleSound(q, i + 1, seen + {k}, now, tally + Weight(q, i));
      }
    }
  }

  /** The same of a whole commit, whichever check accepted it, if it passes its own basic checks. */
  lemma AcceptedMeansPower(q: Question) returns (s: set<nat>)
    requires q.Valid() && WellFormed(q.commit) && (SingleCheck(q) == Enough || BatchCheck(q) == Enough)
    ensures Signers(q, s) && PowerOf(PowersOf(q.vals), s) > q.needed
  {
    SameAcceptance(q);
    PowerEmpty(PowersOf(q.vals));
    s := SingleSound(q, 0, {}, {}, 0);
  }

  /** Every signature that is verified is its validator's, and no validator appears twice. */
  ghost predicate Honest(q: Question)
    requires q.Valid()
  {
    && WellFormed(q.commit)
    && (forall j: nat | j < |q.commit.sigs| :: !Forged(q, j))
    && (forall i, j | 0 <= i < j < |q.commit.sigs| && Checked(q, i) && Checked(q, j) :: q.Signer(i) != q.Signer(j))
  }

  /** The validators counted for signatures before the i-th. */
  ghost function CountedBefore(q: Question, i: nat): set<nat>
    requires q.Valid() && i <= |q.commit.sigs|
  {
    set j: nat | j < i && Counted(q, j) :: q.Signer(j).value
  }

  lemma {:induction false} BetweenSplits(q: Question, i: nat, j: nat)
    requires q.Valid() && i <= j < |q.commit.sigs|
    ensures Between(q, i, j + 1) == Between(q, i, j) + Weight(q, j)
    decreases j - i
  {
    if i < j {
      BetweenSplits(q, i + 1, j);
    } else {
      assert Between(q, j + 1, j + 1) == 0;
    }
  }

  lemma {:induction false} CountedPower(q: Question, i: nat)
    requires q.Valid() && Honest(q) && i <= |q.commit.sigs|
    ensures PowerOf(PowersOf(q.vals), CountedBefore(q, i)) == Between(q, 0, i)
  {
    if i == 0 {
      assert CountedBefore(q, 0) == {};
      PowerEmpty(PowersOf(q.vals));
    } else {
      CountedPower(q, i - 1);
      BetweenSplits(q, 0, i - 1);
      if Counted(q, i - 1) {
        var k := q.Signer(i - 1).value;
        assert CountedBefore(q, i) == CountedBefore(q, i - 1) + {k} && k !in CountedBefore(q, i - 1);
        PowerAdd(PowersOf(q.vals), CountedBefore(q, i - 1), k);
      } else {
        assert CountedBefore(q, i) == CountedBefore(q, i - 1);
      }
    }
  }

  /** An honest commit is never called invalid by a check that reads it, and it is enough exactly when its signers have the power. */
  lemma HonestJudgedByPower(q: Question)
    requires q.Valid() && Honest(q)
    ensures var v := if PowerOf(PowersOf(q.vals), CountedBefore(q, |q.commit.sigs|)) > q.needed then Enough else NotEnough;
      SingleCheck(q) == v && BatchCheck(q) == if |q.commit.sigs| < 2 then Invalid else v
  {
    VerdictOfSingle(q, 0, {}, 0);
    VerdictOfBatch(q, 0, {}, 0, true);
    CountedPower(q, |q.commit.sigs|);
    assert forall j: nat | j < |q.commit.sigs| :: !Forged(q, j) && (Unsized(q, j) ==> Forged(q, j));
  }

  method VerifyCommitSingle(q: Question) returns (v: Verdict)
    requires q.Valid()
    ensures v == SingleCheck(q)
  {
    var seen: set<nat>, tally: nat := {}, 0;
    var i := 0;
    while i < |q.commit.sigs|
      invariant i <= |q.commit.sigs| && SingleCheck(q) == Single(q, i, seen, tally)
    {
      var sig := q.commit.sigs[i];
      if !q.Ignores(i) {
        if !sig.wellFormed {
          return Invalid;
        }
        var signer := q.Signer(i);
        if signer.Some? {
          var k := signer.value;
          if !q.byIndex && k in seen {
            return Invalid;
          }
          seen := seen + {k};
          if !q.Signed(i, k) {
            return Invalid;
          }
          if sig.flag.ForBlock? {
            tally := tally + q.vals[k].power;
          }
          if q.mode.Light? && tally > q.needed {
            return Enough;
          }
        }
      }
      i := i + 1;
    }
    return if tally <= q.needed then NotEnough else Enough;
  }

  ghost predicate AllSigned(q: Question, batch: seq<(nat, nat)>) {
    forall b | b in batch :: b.0 < |q.commit.sigs| && b.1 < |q.vals| && q.Signed(b.0, b.1)
  }

  method VerifyCommitBatch(q: Question) returns (v: Verdict)
    requires q.Valid()
    ensures v == BatchCheck(q)
  {
    if |q.commit.sigs| < BATCH_VERIFY_THRESHOLD {
      return Invalid;
    }
    var seen: set<nat>, tally: nat, batch: seq<(nat, nat)> := {}, 0, [];
    var i, enough := 0, false;
    while i < |q.commit.sigs| && !enough
      invariant i <= |q.commit.sigs|
      invariant forall b | b in batch :: b.0 < |q.commit.sigs| && b.1 < |q.vals|
      invariant !enough ==> Batch(q, 0, {}, 0, true) == Batch(q, i, seen, tally, AllSigned(q, batch))
      invariant enough ==> tally > q.needed && Batch(q, 0, {}, 0, true) == if AllSigned(q, batch) then Enough else Invalid
    {
      var sig, signer := q.commit.sigs[i], q.Signer(i);
      if !q.Ignores(i) && signer.Some? {
        var k := signer.value;
        if !q.byIndex && k in seen {
          return Invalid;
        }
        if sig.signature == Junk(false) {
          return Invalid;
        }
        assert AllSigned(q, batch + [(i, k)]) <==> AllSigned(q, batch) && q.Signed(i, k) by {
          assert (i, k) in batch + [(i, k)];
          assert forall b | b in batch :: b in batch + [(i, k)];
        }
        seen, batch := seen + {k}, batch + [(i, k)];
        if sig.flag.ForBlock? {
          tally := tally + q.vals[k].power;
        }
        enough := q.mode.Light? && tally > q.needed;
      }
      i := i + 1;
    }
    if tally <= q.needed {
      return NotEnough;
    }
    for j := 0 to |batch|
      invariant AllSigned(q, batch[..j])
    {
      if !q.Signed(batch[j].0, batch[j].1) {
        assert batch[j] in batch;
        return Invalid;
      }
    }
    assert batch[..|batch|] == batch;
    return Enough;
  }
}
