/**
 VoteSet: the votes of one kind for one height and round. A vote is kept per
 validator, and again per block it is for; a majority is a quorum of votes for one
 block that also carry one vote code, and the first one found stays.

 This is what `RoundState` assumes of a vote set: `sum` is the power of everyone
 with a recorded vote, and a majority is backed by a quorum of recorded votes.
 */
module VoteSet {
  import opened Options
  import opened Power
  import opened RoundState

  /** A verified vote of some validator; `code` is the fork's vote code. */
  datatype Ballot = Ballot(id: BlockID, code: int)

  datatype BlockVotes = BlockVotes(peerMaj23: bool, votes: seq<Option<Ballot>>, sum: nat)
  {
    function Plus(i: nat, v: Ballot, power: nat): BlockVotes
      requires i < |votes|
    {
      BlockVotes(peerMaj23, votes[i := Some(v)], sum + power)
    }
  }

  function NoVotes(peerMaj23: bool, size: nat): BlockVotes {
    BlockVotes(peerMaj23, seq(size, _ => None), 0)
  }

  datatype Maj23 = Maj23(id: BlockID, code: int)

  datatype Outcome =
    | Duplicate                // the same validator already voted for this block
    | Added                    // a first vote
    | ConflictKept             // a second vote, tracked because a peer claims a majority for its block
    | ConflictDropped          // a second vote, not tracked
    | Panicked                 // the tally met a validator without a vote

  function Present(votes: seq<Option<Ballot>>): set<nat> {
    set i: nat | i < |votes| && votes[i].Some?
  }

  function WithCode(votes: seq<Option<Ballot>>, code: int): set<nat> {
    set i: nat | i < |votes| && votes[i].Some? && votes[i].value.code == code
  }

  ghost predicate BlockSound(powers: Powers, id: BlockID, b: BlockVotes) {
    && |b.votes| == |powers|
    && (forall i | 0 <= i < |b.votes| && b.votes[i].Some? :: b.votes[i].value.id == id)
    && b.sum == PowerOf(powers, Present(b.votes))
  }

  lemma PresentAdd(powers: Powers, votes: seq<Option<Ballot>>, i: nat, v: Ballot)
    requires |votes| == |powers| && i < |votes|
    ensures Present(votes[i := Some(v)]) == Present(votes) + {i}
    ensures votes[i].None? ==> PowerOf(powers, Present(votes) + {i}) == PowerOf(powers, Present(votes)) + powers[i]
  {
    assert Present(votes[i := Some(v)]) == Present(votes) + {i};
    if votes[i].None? {
      PowerAdd(powers, Present(votes), i);
    }
  }

  /** The blocks tracked once the vote is added, its own from now on if it was not. */
  function Tracked(powers: Powers, byBlock: map<BlockID, BlockVotes>, i: nat, v: Ballot): map<BlockID, BlockVotes>
    requires i < |powers| && (v.id in byBlock ==> |byBlock[v.id].votes| == |powers|)
  {
    var b := if v.id in byBlock then byBlock[v.id] else NoVotes(false, |powers|);
    byBlock[v.id := b.Plus(i, v, powers[i])]
  }

  ghost predicate RecordedIn(byBlock: map<BlockID, BlockVotes>, i: nat, id: BlockID) {
    id in byBlock && i in Present(byBlock[id].votes)
  }

  /** The very vote is among the votes for its block. */
  ghost predicate KeptIn(byBlock: map<BlockID, BlockVotes>, i: nat, v: Ballot) {
    v.id in byBlock && i < |byBlock[v.id].votes| && byBlock[v.id].votes[i] == Some(v)
  }

  lemma TrackedSound(powers: Powers, byBlock: map<BlockID, BlockVotes>, i: nat, v: Ballot)
    requires forall id | id in byBlock :: BlockSound(powers, id, byBlock[id])
    requires i < |powers| && !RecordedIn(byBlock, i, v.id) && (v.id in byBlock ==> |byBlock[v.id].votes| == |powers|)
    ensures var after := Tracked(powers, byBlock, i, v);
      && (forall id | id in after :: BlockSound(powers, id, after[id]))
      && (forall j: nat, id :: RecordedIn(after, j, id) <==> RecordedIn(byBlock, j, id) || (j == i && id == v.id))
      && (forall j: nat, w :: KeptIn(after, j, w) <==> KeptIn(byBlock, j, w) || (j == i && w == v))
      && Present(after[v.id].votes) == {i} + set j: nat | j < |powers| && RecordedIn(byBlock, j, v.id)
  {
    var b := if v.id in byBlock then byBlock[v.id] else NoVotes(false, |powers|);
    if v.id !in byBlock {
      assert Present(b.votes) == {};
      PowerEmpty(powers);
    }
    PresentAdd(powers, b.votes, i, v);
    assert Present(b.votes) == set j: nat | j < |powers| && RecordedIn(byBlock, j, v.id);
  }

  class Set {
    const powers: Powers
    var votes: seq<Option<Ballot>>
    var sum: nat
    var byBlock: map<BlockID, BlockVotes>
    var maj23: Option<Maj23>
    var peerMaj23s: map<string, BlockID>

    /** The votes this set has recorded, as (validator, block) pairs. */
    ghost predicate Recorded(i: nat, id: BlockID)
      reads this`byBlock
    {
      RecordedIn(byBlock, i, id)
    }

    ghost predicate Kept(i: nat, v: Ballot)
      reads this`byBlock
    {
      KeptIn(byBlock, i, v)
    }

    /** Every validator has a recorded vote for the block. */
    ghost predicate Unanimous(id: BlockID)
      reads this`byBlock
    {
      forall j: nat | j < |powers| :: Recorded(j, id)
    }

    ghost predicate Majority(m: Maj23)
      reads this`byBlock
    {
      m.id in byBlock && PowerOf(powers, WithCode(byBlock[m.id].votes, m.code)) >= Quorum(powers)
    }

    ghost predicate BlocksSound()
      reads this
    {
      && |votes| == |powers|
      && (forall id | id in byBlock :: BlockSound(powers, id, byBlock[id]))
      && (forall i: nat, id | Recorded(i, id) :: i in Present(votes))
      && (maj23.Some? ==> Majority(maj23.value))
    }

    /**
     Every primary vote is also kept among the votes for its block, and a majority means
     that everybody voted for the block: otherwise the tally would have panicked.
     */
    ghost predicate Valid()
      reads this
    {
      && BlocksSound()
      && sum == PowerOf(powers, Present(votes))
      && (forall i | i in Present(votes) :: Kept(i, votes[i].value))
      && (maj23.Some? ==> Unanimous(maj23.value.id))
    }

    /** So a vote that is new is never for the majority block, and no primary vote is ever replaced. */
    lemma NothingReplaced(i: nat, v: Ballot)
      requires Valid() && i < |powers| && !Recorded(i, v.id)
      ensures !(maj23.Some? && maj23.value.id == v.id)
    {
    }

    constructor (powers: Powers)
      ensures this.powers == powers && Valid()
      ensures maj23.None? && forall i, id :: !Recorded(i, id)
    {
      this.powers := powers;
      votes := seq(|powers|, _ => None);
      sum, byBlock, maj23, peerMaj23s := 0, map[], None, map[];
      new;
      assert Present(votes) == {};
      PowerEmpty(powers);
    }

    ghost predicate Voted(i: nat)
      reads this`byBlock
    {
      exists id :: Recorded(i, id)
    }

    lemma PresentVoted(i: nat)
      requires Valid()
      ensures i in Present(votes) <==> i < |powers| && Voted(i)
    {
      if i in Present(votes) {
        assert Kept(i, votes[i].value) && Recorded(i, votes[i].value.id);
      }
    }

    /** HasTwoThirdsAny: more than two thirds of the power has some recorded vote. */
    method HasTwoThirdsAny() returns (b: bool)
      requires Valid()
      ensures b <==> PowerOf(powers, set i: nat | i < |powers| && Voted(i)) > Total(powers) * 2 / 3
    {
      b := sum > Total(powers) * 2 / 3;
      forall i: nat {
        PresentVoted(i);
      }
      assert Present(votes) == set i: nat | i < |powers| && Voted(i);
    }

    /** TwoThirdsMajority: a quorum has a recorded vote for the block, as consensus relies on. */
    method TwoThirdsMajority() returns (m: Option<Maj23>)
      requires Valid()
      ensures m == maj23
      ensures m.Some? ==> PowerOf(powers, set i: nat | i < |powers| && Recorded(i, m.value.id)) >= Quorum(powers)
    {
      m := maj23;
      if m.Some? {
        var votes := byBlock[m.value.id].votes;
        PowerMono(powers, WithCode(votes, m.value.code), set i: nat | i < |powers| && Recorded(i, m.value.id));
      }
    }

    /** The vote joins the votes for its block: it is new, and not a conflict that nobody tracks. */
    ghost predicate Joins(i: nat, v: Ballot)
      requires i < |votes|
      reads this
    {
      && !Recorded(i, v.id) && (votes[i].None? || votes[i].value.id != v.id)
      && (votes[i].None? || (v.id in byBlock && byBlock[v.id].peerMaj23))
    }

    /** The votes for the block, with this one, reach a quorum although some validator has no vote for it. */
    ghost predicate QuorumWithGap(i: nat, id: BlockID)
      requires i < |powers|
      reads this`byBlock
    {
      var joined := {i} + set j: nat | j < |powers| && Recorded(j, id);
      PowerOf(powers, joined) >= Quorum(powers) && exists j: nat :: j < |powers| && j !in joined
    }

    method AddVote(i: nat, v: Ballot) returns (o: Outcome)
      requires Valid() && i < |powers|
      modifies this
      ensures !o.Panicked? ==> Valid()
      ensures old(maj23).Some? ==> maj23 == old(maj23)
      ensures old(maj23).None? && maj23.Some? ==> maj23.value.id == v.id && Majority(maj23.value)
      ensures (o.Added? || o.ConflictKept? || o.Panicked?) <==> old(Joins(i, v))
      ensures forall j: nat, id :: Recorded(j, id) <==> old(Recorded(j, id)) || (old(Joins(i, v)) && j == i && id == v.id)
      ensures forall j: nat, w :: Kept(j, w) <==> old(Kept(j, w)) || (old(Joins(i, v)) && j == i && w == v)
      ensures maj23 == old(maj23) ==> votes == if old(votes[i]).None? && old(Joins(i, v)) then old(votes)[i := Some(v)] else old(votes)
      ensures o.Panicked? <==> old(Joins(i, v)) && old(QuorumWithGap(i, v.id))
      ensures !o.Panicked? && old(Joins(i, v)) && (exists c: int :: Majority(Maj23(v.id, c))) ==> maj23.Some?
    {
      if votes[i].Some? && votes[i].value.id == v.id {
        return Duplicate;
      }
      if v.id in byBlock && byBlock[v.id].votes[i].Some? {
        return Duplicate;
      }
      o := AddVerifiedVote(i, v);
    }

    method AddVerifiedVote(i: nat, v: Ballot) returns (o: Outcome)
      requires Valid() && i < |powers| && !Recorded(i, v.id) && (votes[i].None? || votes[i].value.id != v.id)
      modifies this`votes, this`sum, this`byBlock, this`maj23
      ensures !o.Panicked? ==> Valid()
      ensures old(maj23).Some? ==> maj23 == old(maj23)
      ensures old(maj23).None? && maj23.Some? ==> maj23.value.id == v.id && Majority(maj23.value)
      ensures o.ConflictDropped? ==> !old(Joins(i, v)) && byBlock == old(byBlock)
      ensures !o.Duplicate? && (!o.ConflictDropped? ==> old(Joins(i, v)))
      ensures !o.ConflictDropped? ==>
        forall j: nat, id :: Recorded(j, id) <==> old(Recorded(j, id)) || (j == i && id == v.id)
      ensures !o.ConflictDropped? ==>
        forall j: nat, w :: Kept(j, w) <==> old(Kept(j, w)) || (j == i && w == v)
      ensures maj23 == old(maj23) ==> votes == if old(votes[i]).None? then old(votes)[i := Some(v)] else old(votes)
      ensures o.Panicked? <==> !o.ConflictDropped? && old(QuorumWithGap(i, v.id))
      ensures (o.Added? || o.ConflictKept?) && (exists c: int :: Majority(Maj23(v.id, c))) ==> maj23.Some?
    {
      NothingReplaced(i, v);
      hide RecordedIn, KeptIn, BlockSound, PowerOf, QuorumWithGap, Majority, Unanimous;
      var conflicting := AddPrimary(i, v);
      if v.id in byBlock {
        if conflicting && !byBlock[v.id].peerMaj23 {
          return ConflictDropped;
        }
      } else if conflicting {
        return ConflictDropped;
      }
      var ok := AddToBlock(i, v);
      o := if !ok then Panicked else if conflicting then ConflictKept else Added;
    }

    /** The first half: the validator's own entry, which a conflicting vote replaces only for the majority block. */
    method AddPrimary(i: nat, v: Ballot) returns (conflicting: bool)
      requires |votes| == |powers| && i < |votes| && sum == PowerOf(powers, Present(votes))
      modifies this`votes, this`sum
      ensures |votes| == |powers| && sum == PowerOf(powers, Present(votes))
      ensures conflicting <==> old(i in Present(votes))
      ensures Present(votes) == old(Present(votes)) + {i}
      ensures votes == if conflicting && !(maj23.Some? && maj23.value.id == v.id) then old(votes) else old(votes)[i := Some(v)]
    {
      PresentAdd(powers, votes, i, v);
      conflicting := votes[i].Some?;
      if conflicting {
        assert Present(votes) == old(Present(votes)) + {i};
        if maj23.Some? && maj23.value.id == v.id {
          votes := votes[i := Some(v)];
        }
      } else {
        votes, sum := votes[i := Some(v)], sum + powers[i];
      }
    }

    /** The second half: the votes for the block, and the tally once they have a quorum. */
    method AddToBlock(i: nat, v: Ballot) returns (ok: bool)
      requires BlocksSound() && i < |votes| && votes[i].Some? && !Recorded(i, v.id)
      requires forall j | j in Present(votes) :: Kept(j, votes[j].value) || (j == i && votes[j].value == v)
      requires maj23.Some? ==> Unanimous(maj23.value.id)
      modifies this`byBlock, this`votes, this`maj23
      ensures BlocksSound() && Present(votes) == old(Present(votes))
      ensures forall j: nat, id :: Recorded(j, id) <==> old(Recorded(j, id)) || (j == i && id == v.id)
      ensures forall j: nat, w :: Kept(j, w) <==> old(Kept(j, w)) || (j == i && w == v)
      ensures forall j | j in Present(votes) :: Kept(j, votes[j].value)
      ensures ok && maj23.Some? ==> Unanimous(maj23.value.id)
      ensures maj23 == old(maj23) ==> votes == old(votes)
      ensures ok <==> !old(QuorumWithGap(i, v.id))
      ensures old(maj23).Some? ==> maj23 == old(maj23)
      ensures old(maj23).None? && maj23.Some? ==> maj23.value.id == v.id && Majority(maj23.value)
      ensures ok && (exists c: int :: Majority(Maj23(v.id, c))) ==> maj23.Some?
    {
      Track(i, v);
      ok := true;
      ghost var b := byBlock[v.id].votes;
      if Quorum(powers) <= byBlock[v.id].sum {
        ok := Tally(v.id);
        assert Present(votes) == old(Present(votes)) by {
          assert forall j: nat | j < |powers| && b[j].Some? :: Recorded(j, v.id);
        }
      } else {
        forall c: int ensures !Majority(Maj23(v.id, c)) {
          PowerMono(powers, WithCode(b, c), Present(b));
        }
      }
    }

    method Track(i: nat, v: Ballot)
      requires BlocksSound() && i in Present(votes) && !Recorded(i, v.id)
      modifies this`byBlock
      ensures BlocksSound() && v.id in byBlock
      ensures forall j: nat, id :: Recorded(j, id) <==> old(Recorded(j, id)) || (j == i && id == v.id)
      ensures forall j: nat, w :: Kept(j, w) <==> old(Kept(j, w)) || (j == i && w == v)
      ensures Present(byBlock[v.id].votes) == {i} + set j: nat | j < |powers| && old(Recorded(j, v.id))
    {
      TrackedSound(powers, byBlock, i, v);
      if v.id !in byBlock {
        byBlock := byBlock[v.id := NoVotes(false, |powers|)];
      }
      byBlock := byBlock[v.id := byBlock[v.id].Plus(i, v, powers[i])];
      if maj23.Some? && maj23.value.id == v.id {
        var c := maj23.value.code;
        PowerMono(powers, WithCode(old(byBlock)[v.id].votes, c), WithCode(byBlock[v.id].votes, c));
      }
      assert forall j: nat, id | Recorded(j, id) && !(j == i && id == v.id) :: old(Recorded(j, id));
    }

    /** The range loop over the block's votes once it has a quorum; a missing entry is dereferenced. */
    method Tally(id: BlockID) returns (ok: bool)
      requires id in byBlock && BlockSound(powers, id, byBlock[id]) && |votes| == |powers|
      modifies this`votes, this`maj23
      ensures ok <==> forall j: nat | j < |powers| :: j in Present(byBlock[id].votes)
      ensures old(maj23).Some? ==> maj23 == old(maj23) && votes == old(votes)
      ensures old(maj23).None? && maj23.Some? ==> maj23.value.id == id && Majority(maj23.value)
      ensures votes == old(votes) || votes == Merged(old(votes), byBlock[id].votes)
      ensures maj23 == old(maj23) ==> votes == old(votes)
      ensures ok && (exists c: int :: Majority(Maj23(id, c))) ==> maj23.Some?
    {
      var b := byBlock[id].votes;
      var codePower: map<int, nat> := map[];
      hide Quorum;
      for j := 0 to |b|
        invariant forall k: nat | k < j :: k in Present(b)
        invariant forall c: int :: (if c in codePower then codePower[c] else 0) == PowerUpTo(powers, WithCode(b, c), j)
        invariant forall c: int | PowerUpTo(powers, WithCode(b, c), j) >= Quorum(powers) :: maj23.Some?
        invariant old(maj23).Some? ==> maj23 == old(maj23) && votes == old(votes)
        invariant old(maj23).None? && maj23.Some? ==> maj23.value.id == id && Majority(maj23.value)
        invariant votes == old(votes) || votes == Merged(old(votes), b)
        invariant maj23.None? ==> votes == old(votes)
      {
        if b[j].None? {
          assert j < |powers| && j !in Present(byBlock[id].votes);
          return false;
        }
        var code := b[j].value.code;
        codePower := codePower[code := (if code in codePower then codePower[code] else 0) + powers[j]];
        if codePower[code] >= Quorum(powers) && maj23.None? {
          PowerUpToGrows(powers, WithCode(b, code), j + 1, |powers|);
          maj23 := Some(Maj23(id, code));
          votes := Merged(votes, b);
        }
      }
      return true;
    }

    /** A peer claims a majority for a block: its conflicting votes are tracked from now on. */
    method SetPeerMaj23(peer: string, id: BlockID) returns (ok: bool)
      requires Valid()
      modifies this`peerMaj23s, this`byBlock
      ensures Valid()
      ensures ok <==> (old(peer !in peerMaj23s) || old(peerMaj23s)[peer] == id)
      ensures old(peer in peerMaj23s) ==> peerMaj23s == old(peerMaj23s) && byBlock == old(byBlock)
      ensures old(peer !in peerMaj23s) ==> peerMaj23s == old(peerMaj23s)[peer := id] && id in byBlock && byBlock[id].peerMaj23
      ensures forall j: nat, b :: Recorded(j, b) <==> old(Recorded(j, b))
    {
      if peer in peerMaj23s {
        return peerMaj23s[peer] == id;
      }
      peerMaj23s := peerMaj23s[peer := id];
      if id !in byBlock {
        var none := NoVotes(true, |powers|);
        assert Present(none.votes) == {};
        PowerEmpty(powers);
        byBlock := byBlock[id := none];
      } else {
        byBlock := byBlock[id := byBlock[id].(peerMaj23 := true)];
      }
      assert forall j: nat, b :: Recorded(j, b) <==> old(Recorded(j, b));
      assert forall j, b | old(Recorded(j, b)) :: Recorded(j, b);
      return true;
    }
  }

  /** Copying the votes for the majority block over the primary votes. */
  function Merged(votes: seq<Option<Ballot>>, block: seq<Option<Ballot>>): (r: seq<Option<Ballot>>)
    requires |votes| == |block|
    ensures |r| == |votes|
    ensures forall i | 0 <= i < |r| :: r[i] == if block[i].Some? then block[i] else votes[i]
  {
    seq(|votes|, i requires 0 <= i < |votes| => if block[i].Some? then block[i] else votes[i])
  }

  /** Four equal validators: the third vote for a block makes a quorum, and the tally meets the fourth's gap. */
  method ThreeOfFourPanics(v: Ballot) returns (o: Outcome)
    ensures o.Panicked?
  {
    var s := new Set(FOUR);
    ThreeIsAQuorum();
    hide RecordedIn, BlockSound, PowerOf, Quorum;
    s.PresentVoted(0);
    assert !s.Voted(0);
    assert {0} + (set j: nat | j < |FOUR| && s.Recorded(j, v.id)) == {0};
    o := s.AddVote(0, v);
    s.PresentVoted(1);
    assert s.Recorded(0, v.id) && !s.Voted(1);
    assert {1} + (set j: nat | j < |FOUR| && s.Recorded(j, v.id)) == {0, 1};
    o := s.AddVote(1, v);
    s.PresentVoted(2);
    assert s.Recorded(0, v.id) && s.Recorded(1, v.id) && !s.Voted(2);
    ghost var joined := {2} + set j: nat | j < |s.powers| && s.Recorded(j, v.id);
    assert joined == {0, 1, 2} && 3 < |s.powers| && 3 !in joined;
    o := s.AddVote(2, v);
  }

  const FOUR: Powers := [1, 1, 1, 1]

  lemma PowerInFour(s: set<nat>)
    ensures PowerOf(FOUR, s) == (if 0 in s then 1 else 0) + (if 1 in s then 1 else 0) + (if 2 in s then 1 else 0) + (if 3 in s then 1 else 0)
  {
    assert PowerUpTo(FOUR, s, 1) == if 0 in s then 1 else 0;
    assert PowerUpTo(FOUR, s, 3) == PowerUpTo(FOUR, s, 1) + (if 1 in s then 1 else 0) + (if 2 in s then 1 else 0);
  }

  lemma ThreeIsAQuorum()
    ensures PowerOf(FOUR, {0}) < PowerOf(FOUR, {0, 1}) < PowerOf(FOUR, {0, 1, 2}) == Quorum(FOUR)
  {
    assert TotalUpTo(FOUR, 2) == 2 && TotalUpTo(FOUR, 4) == 4;
    PowerInFour({0});
    PowerInFour({0, 1});
    PowerInFour({0, 1, 2});
  }
}
