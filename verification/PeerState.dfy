/**
 What a node knows about a peer's votes. The bit arrays are objects that several
 fields may share, and a field changes its meaning when the peer moves on: precommits
 become the last commit, a catch-up commit becomes the precommits of the new round.

 Every array carries the ghost label it was made for, and `recorded` collects every
 (label, validator) that some event was about. The claim is that reading through
 GetVoteBitArray never confuses labels.
 */
module PeerState {
  import opened Options

  datatype Kind = Prevote | Precommit

  datatype Label = Label(height: int, round: int, kind: Kind)

  /** Bits in words of 64; what lies beyond `size` in the last word is never read. */
  class BitArray {
    const size: nat
    var bits: seq<bool>
    ghost const tag: Label

    ghost predicate Valid()
      reads this
    {
      size > 0 && |bits| == (size + 63) / 64 * 64
    }

    /** Every set bit was recorded for this array's label. */
    ghost predicate Sound(recorded: set<(Label, nat)>)
      reads this
    {
      Valid() && forall i: nat | i < |bits| && bits[i] :: (tag, i) in recorded
    }

    constructor (size: nat, votes: seq<bool>, ghost tag: Label)
      requires size > 0
      ensures this.size == size && this.tag == tag && Valid()
      ensures forall i | 0 <= i < |bits| :: bits[i] <==> i < |votes| && votes[i]
    {
      this.size, this.tag := size, tag;
      bits := seq((size + 63) / 64 * 64, i requires 0 <= i => i < |votes| && votes[i]);
    }

    predicate Get(i: nat)
      reads this
    {
      i < size && i < |bits| && bits[i]
    }

    method SetIndex(i: nat)
      requires Valid()
      modifies this
      ensures Valid()
      ensures bits == if i < size then old(bits)[i := true] else old(bits)
    {
      if i < size {
        bits := bits[i := true];
      }
    }

    /** Copies the words of the other array that fit. */
    method Update(other: seq<bool>)
      requires Valid()
      modifies this
      ensures Valid()
      ensures forall i | 0 <= i < |bits| :: bits[i] == if i < |other| then other[i] else old(bits)[i]
    {
      bits := seq(|bits|, i requires 0 <= i < |bits| reads this => if i < |other| then other[i] else bits[i]);
    }
  }

  ghost function SetBits(a: seq<bool>): set<nat> {
    set i: nat | i < |a| && a[i]
  }

  /** The bits of the first array that the second does not have, whatever their sizes. */
  function Sub(a: seq<bool>, b: seq<bool>): (c: seq<bool>)
    ensures |c| == |a| && SetBits(c) == SetBits(a) - SetBits(b)
  {
    seq(|a|, i requires 0 <= i < |a| => a[i] && !(i < |b| && b[i]))
  }

  /** The loop stops at the shorter array, so words that only the second array has stay clear. */
  function Or(a: seq<bool>, b: seq<bool>): (c: seq<bool>)
    ensures SetBits(c) == SetBits(a) + set i | i in SetBits(b) && i < |a|
  {
    seq(if |a| < |b| then |b| else |a|, i requires 0 <= i => i < |a| && (a[i] || (i < |b| && b[i])))
  }

  /** Padding the shorter array, as promised, would give the union: it does exactly if the second array has no bit beyond the first. */
  lemma OrIsUnion(a: seq<bool>, b: seq<bool>)
    ensures SetBits(Or(a, b)) == SetBits(a) + SetBits(b) <==> forall i | i in SetBits(b) :: i < |a|
  {
    forall i | i in SetBits(b) && i >= |a| ensures i !in SetBits(Or(a, b)) && i in SetBits(a) + SetBits(b) {
    }
  }

  /** One word or-ed with two words loses the second word. */
  lemma OrLosesWords()
    ensures var a, b := seq(64, _ => false), seq(128, i => i == 100);
      |Or(a, b)| == 128 && 100 in SetBits(b) && SetBits(Or(a, b)) == {}
  {
  }

  function CompareHRS(h1: int, r1: int, s1: int, h2: int, r2: int, s2: int): int {
    if h1 < h2 then -1 else if h1 > h2 then 1
    else if r1 < r2 then -1 else if r1 > r2 then 1
    else if s1 < s2 then -1 else if s1 > s2 then 1
    else 0
  }

  datatype PeerRoundState = PeerRoundState(
    height: int,
    round: int,
    step: int,
    proposal: bool,
    hasBlockParts: bool,
    proposalPOLRound: int,
    proposalPOL: BitArray?,
    prevotes: BitArray?,
    precommits: BitArray?,
    lastCommitRound: int,
    lastCommit: BitArray?,
    catchupCommitRound: int,
    catchupCommit: BitArray?)

  ghost predicate Holds(arrays: set<BitArray>, a: BitArray?, tag: Label) {
    a != null ==> a in arrays && a.tag == tag
  }

  /** Every field holds an array for what the field now means. */
  ghost predicate Labelled(p: PeerRoundState, arrays: set<BitArray>) {
    && Holds(arrays, p.prevotes, Label(p.height, p.round, Prevote))
    && Holds(arrays, p.precommits, Label(p.height, p.round, Precommit))
    && Holds(arrays, p.proposalPOL, Label(p.height, p.proposalPOLRound, Prevote))
    && Holds(arrays, p.catchupCommit, Label(p.height, p.catchupCommitRound, Precommit))
    && Holds(arrays, p.lastCommit, Label(p.height - 1, p.lastCommitRound, Precommit))
  }

  predicate NotBack(p: PeerRoundState, q: PeerRoundState) {
    CompareHRS(q.height, q.round, q.step, p.height, p.round, p.step) >= 0
  }

  ghost function Claimed(tag: Label, votes: seq<bool>): set<(Label, nat)> {
    set i: nat | i < |votes| && votes[i] :: (tag, i)
  }

  class PeerState {
    var prs: PeerRoundState
    ghost var recorded: set<(Label, nat)>
    ghost var arrays: set<BitArray>        // every array ever held

    ghost predicate Sound()
      reads this`recorded, this`arrays, arrays
    {
      forall a | a in arrays :: a.Sound(recorded)
    }

    ghost predicate Valid()
      reads this, arrays
    {
      Labelled(prs, arrays) && Sound()
    }

    twostate predicate Grown()
      reads this`arrays
    {
      old(arrays) <= arrays && fresh(arrays - old(arrays))
    }

    constructor ()
      ensures Valid() && recorded == {}
    {
      prs := PeerRoundState(0, -1, 0, false, false, -1, null, null, null, -1, null, -1, null);
      recorded, arrays := {}, {};
    }

    /** The array for a height, round and kind, if there is one: never one for anything else. */
    method GetVoteBitArray(h: int, r: int, kind: Kind) returns (a: BitArray?)
      requires Valid()
      ensures a != null ==> a in arrays && a.tag == Label(h, r, kind)
      ensures a != null ==> forall i: nat | a.Get(i) :: (Label(h, r, kind), i) in recorded
      ensures h == prs.height && r == prs.round ==> a == if kind.Prevote? then prs.prevotes else prs.precommits
    {
      a := Find(h, r, kind);
      if a != null {
        assert a.Sound(recorded);
      }
    }

    method Find(h: int, r: int, kind: Kind) returns (a: BitArray?)
      requires Labelled(prs, arrays)
      ensures a != null ==> a in arrays && a.tag == Label(h, r, kind)
      ensures h == prs.height && r == prs.round ==> a == if kind.Prevote? then prs.prevotes else prs.precommits
    {
      if prs.height == h {
        if prs.round == r {
          return if kind.Prevote? then prs.prevotes else prs.precommits;
        }
        if prs.catchupCommitRound == r {
          return if kind.Prevote? then null else prs.catchupCommit;
        }
        if prs.proposalPOLRound == r {
          return if kind.Prevote? then prs.proposalPOL else null;
        }
        return null;
      }
      if prs.height == h + 1 {
        if prs.lastCommitRound == r {
          return if kind.Prevote? then null else prs.lastCommit;
        }
      }
      return null;
    }

    /** The peer has this vote: the event is recorded, and only arrays for its label change. */
    method SetHasVote(h: int, r: int, kind: Kind, i: nat)
      requires Valid()
      modifies this`recorded, arrays
      ensures Valid()
      ensures recorded == old(recorded) + {(Label(h, r, kind), i)}
      ensures forall a | a in arrays && a.tag != Label(h, r, kind) :: a.bits == old(a.bits)
      ensures h == prs.height && r == prs.round ==>
        var a := if kind.Prevote? then prs.prevotes else prs.precommits;
        a != null && i < a.size ==> a.Get(i)
    {
      var a := Find(h, r, kind);
      recorded := recorded + {(Label(h, r, kind), i)};
      if a != null {
        a.SetIndex(i);
      }
    }

    method ApplyHasVoteMessage(h: int, r: int, kind: Kind, i: nat)
      requires Valid()
      modifies this`recorded, arrays
      ensures Valid()
      ensures recorded == old(recorded) + if h == prs.height then {(Label(h, r, kind), i)} else {}
    {
      if prs.height == h {
        SetHasVote(h, r, kind, i);
      }
    }

    /** The peer tells which votes it has; bits we hold ourselves are taken from its message only. */
    method ApplyVoteSetBitsMessage(h: int, r: int, kind: Kind, votes: seq<bool>, ours: Option<seq<bool>>)
      requires Valid()
      modifies this`recorded, arrays
      ensures Valid()
      ensures recorded == old(recorded) + Claimed(Label(h, r, kind), votes)
      ensures forall a | a in arrays && a.tag != Label(h, r, kind) :: a.bits == old(a.bits)
    {
      var a := Find(h, r, kind);
      recorded := recorded + Claimed(Label(h, r, kind), votes);
      if a != null {
        var has := if ours.None? then votes else Or(Sub(a.bits, ours.value), votes);
        assert a.Sound(old(recorded));
        a.Update(has);
        assert a.Sound(recorded);
      }
    }

    /** An array with the given votes; there is none without bits. */
    method NewBitArray(size: nat, votes: seq<bool>, ghost tag: Label) returns (a: BitArray?)
      requires Sound() && Claimed(tag, votes) <= recorded
      modifies this`arrays
      ensures Grown() && Sound()
      ensures a != null <==> size > 0
      ensures Holds(arrays, a, tag)
    {
      if size == 0 {
        return null;
      }
      a := new BitArray(size, votes, tag);
      assert forall i: nat | i < |a.bits| && a.bits[i] :: (tag, i) in Claimed(tag, votes);
      arrays := arrays + {a};
    }

    /** The array itself, or a new one where there is none yet. */
    method OrNew(a: BitArray?, size: nat, ghost tag: Label) returns (b: BitArray?)
      requires Sound() && Holds(arrays, a, tag)
      modifies this`arrays
      ensures Grown() && Sound()
      ensures Holds(arrays, b, tag) && (a != null ==> b == a) && (size > 0 ==> b != null)
    {
      b := a;
      if b == null {
        b := NewBitArray(size, [], tag);
      }
    }

    method EnsureCatchupCommitRound(h: int, r: int, validators: nat)
      requires Valid()
      modifies this`prs, this`arrays
      ensures Valid() && Grown() && NotBack(old(prs), prs)
      ensures h == prs.height ==> prs.catchupCommitRound == r
      ensures prs == old(prs).(catchupCommitRound := prs.catchupCommitRound, catchupCommit := prs.catchupCommit)
      ensures h == prs.height && r == prs.round && old(prs).catchupCommitRound != r ==> prs.catchupCommit == prs.precommits
      ensures h != prs.height || old(prs).catchupCommitRound == r ==> prs == old(prs)
    {
      if prs.height != h || prs.catchupCommitRound == r {
        return;
      }
      prs := prs.(catchupCommitRound := r, catchupCommit := null);
      if r == prs.round {
        prs := prs.(catchupCommit := prs.precommits);
      } else {
        var a := NewBitArray(validators, [], Label(h, r, Precommit));
        prs := prs.(catchupCommit := a);
      }
    }

    method EnsureVoteBitArrays(h: int, validators: nat)
      requires Valid()
      modifies this`prs, this`arrays
      ensures Valid() && Grown() && NotBack(old(prs), prs)
      ensures h == prs.height && validators > 0 ==>
        prs.prevotes != null && prs.precommits != null && prs.catchupCommit != null && prs.proposalPOL != null
      ensures h + 1 == prs.height && validators > 0 ==> prs.lastCommit != null
    {
      hide Sound;
      if prs.height == h {
        EnsureRoundArrays(validators);
        EnsureOtherArrays(validators);
      } else if prs.height == h + 1 {
        var last := OrNew(prs.lastCommit, validators, Label(h, prs.lastCommitRound, Precommit));
        prs := prs.(lastCommit := last);
      }
    }

    method EnsureRoundArrays(validators: nat)
      requires Valid()
      modifies this`prs, this`arrays
      ensures Valid() && Grown() && (validators > 0 ==> prs.prevotes != null && prs.precommits != null)
      ensures prs == old(prs).(prevotes := prs.prevotes, precommits := prs.precommits)
    {
      hide Sound;
      var votes := OrNew(prs.prevotes, validators, Label(prs.height, prs.round, Prevote));
      var commits := OrNew(prs.precommits, validators, Label(prs.height, prs.round, Precommit));
      prs := prs.(prevotes := votes, precommits := commits);
    }

    method EnsureOtherArrays(validators: nat)
      requires Valid()
      modifies this`prs, this`arrays
      ensures Valid() && Grown() && (validators > 0 ==> prs.catchupCommit != null && prs.proposalPOL != null)
      ensures prs == old(prs).(catchupCommit := prs.catchupCommit, proposalPOL := prs.proposalPOL)
    {
      hide Sound;
      var catchup := OrNew(prs.catchupCommit, validators, Label(prs.height, prs.catchupCommitRound, Precommit));
      var pol := OrNew(prs.proposalPOL, validators, Label(prs.height, prs.proposalPOLRound, Prevote));
      prs := prs.(catchupCommit := catchup, proposalPOL := pol);
    }

    /** The votes of a set that the peer is not known to have. */
    method MissingVotes(h: int, r: int, kind: Kind, isCommit: bool, votes: seq<bool>, size: nat) returns (missing: Option<seq<bool>>)
      requires Valid()
      modifies this`prs, this`arrays
      ensures Valid() && Grown() && NotBack(old(prs), prs)
      ensures missing.Some? ==> |missing.value| == |votes| && forall i | 0 <= i < |votes| && missing.value[i] :: votes[i]
      ensures missing.Some? ==> |missing.value| == |votes| && forall i: nat | i < |votes| && votes[i] && !missing.value[i] ::
        (Label(h, r, kind), i) in recorded
    {
      if size == 0 {
        return None;
      }
      if isCommit {
        EnsureCatchupCommitRound(h, r, size);
      }
      EnsureVoteBitArrays(h, size);
      var a := Find(h, r, kind);
      if a == null {
        return None;
      }
      assert a.Sound(recorded);
      return Some(Sub(votes, a.bits));
    }

    method SetHasProposal(h: int, r: int, polRound: int)
      requires Valid()
      modifies this`prs
      ensures Valid() && NotBack(old(prs), prs)
      ensures prs.proposalPOLRound != old(prs).proposalPOLRound ==> prs.proposalPOL == null
    {
      if prs.height != h || prs.round != r || prs.proposal {
        return;
      }
      prs := prs.(proposal := true);
      if prs.hasBlockParts {
        return;
      }
      prs := prs.(hasBlockParts := true, proposalPOLRound := polRound, proposalPOL := null);
    }

    method ApplyNewValidBlockMessage(h: int, r: int, isCommit: bool)
      requires Valid()
      modifies this`prs
      ensures Valid() && NotBack(old(prs), prs)
      ensures prs.hasBlockParts <==> old(prs).hasBlockParts || (prs.height == h && (prs.round == r || isCommit))
    {
      if prs.height == h && (prs.round == r || isCommit) {
        prs := prs.(hasBlockParts := true);
      }
    }

    method ApplyProposalPOLMessage(h: int, polRound: int, size: nat, votes: seq<bool>)
      requires Valid()
      modifies this`prs, this`recorded, this`arrays
      ensures Valid() && Grown() && NotBack(old(prs), prs)
      ensures recorded == old(recorded) + Claimed(Label(h, polRound, Prevote), votes)
    {
      recorded := recorded + Claimed(Label(h, polRound, Prevote), votes);
      assert Sound() by {
        assert forall a | a in arrays :: a.Sound(old(recorded));
      }
      if prs.height == h && prs.proposalPOLRound == polRound {
        var pol := NewBitArray(size, votes, Label(h, polRound, Prevote));
        prs := prs.(proposalPOL := pol);
      }
    }

    method ApplyNewRoundStepMessage(h: int, r: int, s: int, commitRound: int)
      requires Valid()
      modifies this`prs
      ensures Valid() && NotBack(old(prs), prs)
      ensures (prs.height, prs.round, prs.step) ==
        if CompareHRS(h, r, s, old(prs).height, old(prs).round, old(prs).step) > 0 then (h, r, s)
        else (old(prs).height, old(prs).round, old(prs).step)
      ensures (prs.height, prs.round) != (old(prs).height, old(prs).round) ==> !prs.proposal && !prs.hasBlockParts && prs.prevotes == null
      ensures (prs.height, prs.round) == (old(prs).height, old(prs).round) ==> prs == old(prs).(step := prs.step)
      // precommits survive as the last commit, a catch-up commit as the precommits of its round
      ensures h == old(prs).height + 1 && commitRound == old(prs).round ==> prs.lastCommit == old(prs).precommits
      ensures h == old(prs).height && r > old(prs).round && r == old(prs).catchupCommitRound ==> prs.precommits == old(prs).catchupCommit
    {
      hide Sound;
      if CompareHRS(h, r, s, prs.height, prs.round, prs.step) <= 0 {
        return;
      }
      var before := prs;
      var now := prs.(height := h, round := r, step := s);
      if before.height != h || before.round != r {
        now := now.(proposal := false, hasBlockParts := false, proposalPOLRound := -1, proposalPOL := null,
                    prevotes := null, precommits := null);
      }
      if before.height == h && before.round != r && r == before.catchupCommitRound {
        now := now.(precommits := before.catchupCommit);
      }
      if before.height != h {
        var shifts := before.height + 1 == h && before.round == commitRound;
        now := now.(lastCommitRound := commitRound, lastCommit := if shifts then before.precommits else null,
                    catchupCommitRound := -1, catchupCommit := null);
      }
      prs := now;
    }
  }
}
