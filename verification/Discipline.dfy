/**
 What one correct node keeps, whatever it receives: its locks, its votes and its
 commits are always backed by +2/3 of recorded votes. `Keeps` proves it for every
 turn of the receive routine.
 */
module Discipline {
  import opened Options
  import opened Power
  import opened RoundState
  import opened Steps

  /** What a node can show for its choices: the blocks it committed and the votes it recorded. */
  datatype Evidence = Evidence(g: Genesis, chain: seq<Hash>, votes: set<Vote>)

  function Ev(g: Genesis, n: Node): Evidence {
    Evidence(g, n.chain, n.votes)
  }

  ghost predicate Shows(e: Evidence, k: SetKey, id: BlockID) {
    HasQuorum(e.g, e.chain, e.votes, k, id)
  }

  ghost predicate Polka(e: Evidence, height: nat, round: int, id: BlockID) {
    Shows(e, SetKey(height, round, Prevote), id)
  }

  /** +2/3 prevotes for something other than `hash` (a block or nil) after `round`. */
  ghost predicate RivalPolka(e: Evidence, height: nat, round: int, hash: Hash) {
    exists r: int, id: BlockID :: r > round && id.hash != hash && Polka(e, height, r, id)
  }

  function StepOf(kind: VoteType): nat {
    if kind == Prevote then PREVOTE else PRECOMMIT
  }

  ghost predicate Shape(g: Genesis, n: Node) {
    g.initialHeight >= 1 && n.height == g.initialHeight + |n.chain| && 0 <= n.round && NEW_HEIGHT <= n.step <= COMMIT
  }

  ghost predicate VotesSound(g: Genesis, n: Node) {
    && (forall v | v in n.votes :: v.height <= n.height)
    && (forall k | k in n.majority :: k.height <= n.height && Shows(Ev(g, n), k, n.majority[k]))
  }

  /** A lock is set exactly when LockedRound >= 0, and has its polka at LockedRound. */
  ghost predicate LockSound(g: Genesis, n: Node) {
    && (n.lockedBlock.Some? <==> n.lockedRound >= 0)
    && -1 <= n.lockedRound <= n.round
    && (n.lockedRound == n.round ==> n.step >= PRECOMMIT)
    && (n.lockedBlock.Some? ==>
          n.lockedBlock.value.hash != "" &&
          exists parts :: Polka(Ev(g, n), n.height, n.lockedRound, BlockID(n.lockedBlock.value.hash, parts)))
  }

  /** At most one prevote and one precommit per height and round, none ahead of the node. */
  ghost predicate SignedOnce(n: Node) {
    && (forall v | v in n.signed ::
          && v.validator == n.validator
          && v.height <= n.height
          && (v.height == n.height ==> v.round < n.round || (v.round == n.round && StepOf(v.kind) <= n.step)))
    && (forall v, w | v in n.signed && w in n.signed && v.height == w.height && v.round == w.round && v.kind == w.kind ::
          v == w)
  }

  predicate RealPrecommit(v: Vote) {
    v.kind == Precommit && v.id.hash != ""
  }

  ghost predicate HoldsLock(n: Node, v: Vote) {
    n.lockedBlock == Some(Block(v.id.hash)) && n.lockedRound >= v.round
  }

  /** A precommit for a block has its polka, and the block stays locked until a rival polka. */
  ghost predicate PrecommitsBacked(g: Genesis, n: Node) {
    forall v | v in n.signed && RealPrecommit(v) ::
      && Polka(Ev(g, n), v.height, v.round, v.id)
      && (v.height == n.height ==> HoldsLock(n, v) || RivalPolka(Ev(g, n), v.height, v.round, v.id.hash))
  }

  predicate Turns(v: Vote, w: Vote) {
    RealPrecommit(v) && w.kind == Prevote && v.height == w.height && v.round < w.round && v.id.hash != w.id.hash
  }

  /** Prevoting against an earlier precommit needs a rival polka. */
  ghost predicate TurnsBacked(g: Genesis, n: Node) {
    forall v, w | v in n.signed && w in n.signed && Turns(v, w) :: RivalPolka(Ev(g, n), v.height, v.round, v.id.hash)
  }

  /** +2/3 precommits, in some round, for a block with this hash. */
  ghost predicate CommitExists(e: Evidence, height: nat, hash: Hash) {
    exists r: int, parts :: Shows(e, SetKey(height, r, Precommit), BlockID(hash, parts))
  }

  ghost predicate CertifiedAt(e: Evidence, i: nat)
    requires i < |e.chain|
  {
    e.chain[i] != "" && CommitExists(e, e.g.initialHeight + i, e.chain[i])
  }

  /** Every committed block has +2/3 precommits. */
  ghost predicate Certified(e: Evidence) {
    forall i: nat | i < |e.chain| :: CertifiedAt(e, i)
  }

  /** No timeout is for a height and round above the node's own. */
  ghost predicate TimeoutsNotAhead(n: Node) {
    forall t | t in n.timeouts :: t.height < n.height || (t.height == n.height && t.round <= n.round)
  }

  ghost predicate CommitSound(n: Node) {
    && (n.step == COMMIT ==> n.commitRound >= 0)
    && (n.commitRound >= 0 ==>
          Majority(n, n.commitRound, Precommit).Some? && Majority(n, n.commitRound, Precommit).value.hash != "")
  }

  ghost predicate Inv(g: Genesis, n: Node) {
    && Shape(g, n)
    && VotesSound(g, n)
    && LockSound(g, n)
    && SignedOnce(n)
    && PrecommitsBacked(g, n)
    && TurnsBacked(g, n)
    && Certified(Ev(g, n))
    && TimeoutsNotAhead(n)
    && CommitSound(n)
  }

  // ---- evidence only grows ----

  ghost predicate Within(e: Evidence, e': Evidence) {
    e.g == e'.g && e.chain <= e'.chain && e.votes <= e'.votes
  }

  lemma ShowsMore(e: Evidence, e': Evidence, k: SetKey, id: BlockID)
    requires Within(e, e') && Shows(e, k, id)
    ensures Shows(e', k, id)
  {
    PowerMono(PowersAt(e.g, e.chain, k.height), Voters(e.votes, k, id), Voters(e'.votes, k, id));
    if e.g.initialHeight <= k.height <= e.g.initialHeight + |e.chain| {
      assert e.chain[..k.height - e.g.initialHeight] == e'.chain[..k.height - e.g.initialHeight];
    }
  }

  ghost predicate EvidenceKept(e: Evidence, e': Evidence) {
    && (forall k, id | Shows(e, k, id) :: Shows(e', k, id))
    && (forall h, r, hash | RivalPolka(e, h, r, hash) :: RivalPolka(e', h, r, hash))
    && (forall h, hash | CommitExists(e, h, hash) :: CommitExists(e', h, hash))
  }

  lemma EvidenceGrows(e: Evidence, e': Evidence)
    requires Within(e, e')
    ensures EvidenceKept(e, e')
  {
    forall k, id | Shows(e, k, id)
      ensures Shows(e', k, id)
    {
      ShowsMore(e, e', k, id);
    }
    forall h, r, hash | RivalPolka(e, h, r, hash)
      ensures RivalPolka(e', h, r, hash)
    {
      var r2: int, id: BlockID :| r2 > r && id.hash != hash && Polka(e, h, r2, id);
      assert Polka(e', h, r2, id);
    }
    forall h, hash | CommitExists(e, h, hash)
      ensures CommitExists(e', h, hash)
    {
      var r: int, parts :| Shows(e, SetKey(h, r, Precommit), BlockID(hash, parts));
      assert Shows(e', SetKey(h, r, Precommit), BlockID(hash, parts));
    }
  }

  // ---- how a node may change ----

  ghost predicate NotBack(n: Node, n': Node) {
    n.round < n'.round || (n.round == n'.round && n.step <= n'.step)
  }

  /** Height, round and step never decrease. */
  ghost predicate HRSNotBack(n: Node, n': Node) {
    n.height < n'.height || (n.height == n'.height && NotBack(n, n'))
  }

  /** A vote for a height, round and step the node has not reached. */
  predicate Ahead(n: Node, v: Vote) {
    v.height > n.height ||
    (v.height == n.height && (v.round > n.round || (v.round == n.round && StepOf(v.kind) > n.step)))
  }

  /** The order in which a signer signs: height, round, and step of the vote. */
  predicate Later(v: Vote, w: Vote) {
    v.height > w.height ||
    (v.height == w.height && (v.round > w.round || (v.round == w.round && StepOf(v.kind) > StepOf(w.kind))))
  }

  /** What is signed is never taken back, and anything new is later than all of it. */
  ghost predicate SignedForward(a: set<Vote>, b: set<Vote>) {
    a <= b && forall v, w | v in b && v !in a && w in a :: Later(v, w)
  }

  /** +2/3 prevotes against the lock, after its round. */
  ghost predicate LockBeaten(g: Genesis, n: Node, n': Node)
    requires n.lockedBlock.Some?
  {
    exists r: int, id: BlockID ::
      n.lockedRound < r <= n'.round && id.hash != n.lockedBlock.value.hash && Polka(Ev(g, n'), n.height, r, id)
  }

  /** Within a height a lock is kept, moved to a later round, or beaten by a later polka. */
  ghost predicate LockKept(g: Genesis, n: Node, n': Node) {
    n.lockedBlock.Some? && n'.height == n.height ==>
      (n'.lockedBlock == n.lockedBlock && n'.lockedRound >= n.lockedRound) || LockBeaten(g, n, n')
  }

  ghost predicate Progress(g: Genesis, n: Node, n': Node) {
    && n'.validator == n.validator
    && HRSNotBack(n, n')
    && n.chain <= n'.chain && n.votes <= n'.votes && n.signed <= n'.signed
    && (forall v | v in n'.signed && v !in n.signed :: Ahead(n, v))
    && LockKept(g, n, n')
  }

  /** A step of a disciplined node: it stays disciplined and only moves forward. */
  ghost predicate Step(g: Genesis, n: Node, n': Node) {
    Inv(g, n') && Progress(g, n, n')
  }

  /** What a step signs is later than everything signed before. */
  lemma SignsForward(g: Genesis, n: Node, n': Node)
    requires Inv(g, n) && Step(g, n, n')
    ensures SignedForward(n.signed, n'.signed)
  {
    forall v, w | v in n'.signed && v !in n.signed && w in n.signed
      ensures Later(v, w)
    {
      assert Ahead(n, v) && w.height <= n.height;
    }
  }

  lemma LockKeptTwice(g: Genesis, a: Node, b: Node, c: Node)
    requires LockKept(g, a, b) && LockKept(g, b, c) && Within(Ev(g, b), Ev(g, c))
    requires HRSNotBack(a, b) && HRSNotBack(b, c)
    ensures LockKept(g, a, c)
  {
    if a.lockedBlock.Some? && c.height == a.height {
      if !(b.lockedBlock == a.lockedBlock && b.lockedRound >= a.lockedRound) {
        var r: int, id: BlockID :| a.lockedRound < r <= b.round && id.hash != a.lockedBlock.value.hash &&
                                   Polka(Ev(g, b), a.height, r, id);
        ShowsMore(Ev(g, b), Ev(g, c), SetKey(a.height, r, Prevote), id);
        assert Polka(Ev(g, c), a.height, r, id);
      } else if !(c.lockedBlock == b.lockedBlock && c.lockedRound >= b.lockedRound) {
        var r: int, id: BlockID :| b.lockedRound < r <= c.round && id.hash != b.lockedBlock.value.hash &&
                                   Polka(Ev(g, c), b.height, r, id);
        assert Polka(Ev(g, c), a.height, r, id);
      }
    }
  }

  lemma StepTwice(g: Genesis, a: Node, b: Node, c: Node)
    requires Step(g, a, b) && Step(g, b, c)
    ensures Step(g, a, c)
  {
    LockKeptTwice(g, a, b, c);
  }

  // ---- the moves a step is made of ----

  ghost predicate SameVoting(n: Node, n': Node) {
    && n'.validator == n.validator && n'.height == n.height && n'.chain == n.chain
    && n'.votes == n.votes && n'.majority == n.majority && n'.signed == n.signed
    && n'.lockedRound == n.lockedRound && n'.lockedBlock == n.lockedBlock
  }

  /** Moving on to a later round or step without voting. */
  lemma Advance(g: Genesis, n: Node, n': Node)
    requires Inv(g, n) && SameVoting(n, n') && NotBack(n, n')
    requires NEW_HEIGHT <= n'.step <= COMMIT && TimeoutsNotAhead(n') && CommitSound(n')
    ensures Step(g, n, n')
  {
    assert Ev(g, n') == Ev(g, n);
  }

  /** Signing for the current round when nothing of that kind was signed for it. */
  lemma SignsOnce(n: Node, n': Node, v: Vote)
    requires SignedOnce(n) && n.step <= n'.step && StepOf(v.kind) <= n'.step
    requires v.validator == n.validator && v.height == n.height && v.round == n.round
    requires forall w | w in n.signed && w.kind == v.kind && w.height == n.height :: w.round < n.round
    requires n'.signed == n.signed + {v} && n'.validator == n.validator && n'.height == n.height && n'.round == n.round
    ensures SignedOnce(n')
  {
  }

  /** A prevote that goes against an earlier precommit finds the lock already gone. */
  lemma PrevoteTurns(g: Genesis, n: Node, n': Node, p: Vote)
    requires PrecommitsBacked(g, n) && TurnsBacked(g, n) && Ev(g, n') == Ev(g, n)
    requires p.kind == Prevote && p.height == n.height && n'.signed == n.signed + {p}
    requires n.lockedBlock.Some? ==> p.id.hash == n.lockedBlock.value.hash
    ensures TurnsBacked(g, n')
  {
    forall v, w | v in n'.signed && w in n'.signed && Turns(v, w)
      ensures RivalPolka(Ev(g, n'), v.height, v.round, v.id.hash)
    {
      assert v in n.signed;
      if w == p {
        assert !HoldsLock(n, v);
      }
    }
  }

  /** Prevoting: nil or anything when unlocked, the locked block otherwise. */
  lemma PrevoteKeeps(g: Genesis, n: Node, id: BlockID, env: Env)
    requires Inv(g, n) && n.step < PREVOTE
    requires n.lockedBlock.Some? ==> id.hash == n.lockedBlock.value.hash
    ensures Step(g, n, SignAddVote(n, Prevote, id, env).(step := PREVOTE))
  {
    var m := n.(step := PREVOTE);
    Advance(g, n, m);
    var n' := SignAddVote(n, Prevote, id, env).(step := PREVOTE);
    var p := Vote(n.validator, n.height, n.round, Prevote, id);
    if env.signs(p) {
      assert n' == m.(signed := m.signed + {p});
      assert Ev(g, n') == Ev(g, m);
      SignsOnce(n, n', p);
      PrevoteTurns(g, m, n', p);
      assert PrecommitsBacked(g, n') by {
        assert forall v | v in n'.signed && RealPrecommit(v) :: v in m.signed && (HoldsLock(m, v) ==> HoldsLock(n', v));
      }
    }
  }

  /**
   Changing the lock (dropping it, or taking another block) on a polka for
   something else at a round after the lock; `sign` is the precommit that may go
   with it.
   */
  lemma ReplaceLock(g: Genesis, n: Node, n': Node, round: int, id: BlockID)
    requires Inv(g, n) && Polka(Ev(g, n), n.height, round, id) && n.lockedRound < round <= n.round
    requires n.lockedBlock.Some? ==> n.lockedBlock.value.hash != id.hash
    requires n' == n.(lockedRound := n'.lockedRound, lockedBlock := n'.lockedBlock, lockedParts := n'.lockedParts,
                      proposalBlock := n'.proposalBlock, proposalParts := n'.proposalParts, step := n'.step)
    requires n.step <= n'.step && (n'.step == n.step || n'.step < COMMIT) && LockSound(g, n')
    ensures Step(g, n, n')
  {
    assert Ev(g, n') == Ev(g, n);
    assert Polka(Ev(g, n'), n.height, round, id);
    forall v | v in n'.signed && RealPrecommit(v) && v.height == n'.height
      ensures HoldsLock(n', v) || RivalPolka(Ev(g, n'), v.height, v.round, v.id.hash)
    {
      if HoldsLock(n, v) {
        assert Polka(Ev(g, n'), v.height, round, id);
      }
    }
  }

  /** Relocking the same block at the node's own round. */
  lemma Relock(g: Genesis, n: Node, id: BlockID)
    requires Inv(g, n) && n.step < PRECOMMIT
    requires Majority(n, n.round, Prevote) == Some(id) && HashesTo(n.lockedBlock, id.hash)
    ensures Step(g, n, n.(lockedRound := n.round, step := PRECOMMIT))
  {
    var n' := n.(lockedRound := n.round, step := PRECOMMIT);
    assert Ev(g, n') == Ev(g, n);
    assert Polka(Ev(g, n'), n'.height, n'.lockedRound, BlockID(n'.lockedBlock.value.hash, id.parts));
    forall v | v in n'.signed && RealPrecommit(v) && v.height == n'.height
      ensures HoldsLock(n', v) || RivalPolka(Ev(g, n'), v.height, v.round, v.id.hash)
    {
      assert HoldsLock(n, v) ==> HoldsLock(n', v);
    }
  }

  /** Precommitting nil, or the block just locked, completes the step into Precommit. */
  lemma PrecommitKeeps(g: Genesis, n: Node, m: Node, id: BlockID, env: Env)
    requires Inv(g, n) && n.step < PRECOMMIT
    requires Step(g, n, m) && m.height == n.height && m.round == n.round && m.step == PRECOMMIT && m.signed == n.signed
    requires id.hash == "" ||
             (HashesTo(m.lockedBlock, id.hash) && m.lockedRound == m.round && Majority(m, m.round, Prevote) == Some(id))
    ensures Step(g, n, SignAddVote(m, Precommit, id, env))
  {
    var n' := SignAddVote(m, Precommit, id, env);
    var p := Vote(m.validator, m.height, m.round, Precommit, id);
    if env.signs(p) {
      assert n' == m.(signed := m.signed + {p});
      assert Ev(g, n') == Ev(g, m);
      SignsOnce(m, n', p);
      PrecommitBacked(g, m, n', p);
      LockKeptTwice(g, n, m, n');
    }
  }

  lemma PrecommitBacked(g: Genesis, m: Node, n': Node, p: Vote)
    requires PrecommitsBacked(g, m) && TurnsBacked(g, m) && SignedOnce(m)
    requires p.kind == Precommit && p.height == m.height && p.round == m.round
    requires n' == m.(signed := m.signed + {p}) && Ev(g, n') == Ev(g, m)
    requires p.id.hash == "" || (HoldsLock(m, p) && Polka(Ev(g, m), p.height, p.round, p.id))
    ensures PrecommitsBacked(g, n') && TurnsBacked(g, n')
  {
    forall v | v in n'.signed && RealPrecommit(v)
      ensures Polka(Ev(g, n'), v.height, v.round, v.id)
      ensures v.height == n'.height ==> HoldsLock(n', v) || RivalPolka(Ev(g, n'), v.height, v.round, v.id.hash)
    {
      assert HoldsLock(m, v) ==> HoldsLock(n', v);
    }
    forall v, w | v in n'.signed && w in n'.signed && Turns(v, w)
      ensures RivalPolka(Ev(g, n'), v.height, v.round, v.id.hash)
    {
      assert w in m.signed && v != p;
    }
  }

  // ---- entering steps ----

  lemma Stays(g: Genesis, n: Node)
    requires Inv(g, n)
    ensures Step(g, n, n)
  {
  }

  /** Fields that carry no promise may change freely. */
  lemma StaysPut(g: Genesis, n: Node, n': Node)
    requires Inv(g, n)
    requires n' == n.(halted := n'.halted, proposal := n'.proposal, proposalBlock := n'.proposalBlock,
                      proposalParts := n'.proposalParts, validRound := n'.validRound, validBlock := n'.validBlock,
                      validParts := n'.validParts)
    ensures Step(g, n, n')
  {
    Advance(g, n, n');
  }

  /** At most one vote of each kind per height and round. */
  ghost predicate NoDoubleVote(signed: set<Vote>) {
    forall v, w | v in signed && w in signed && v.height == w.height && v.round == w.round && v.kind == w.kind :: v == w
  }

  /** A vote of the node's own, for its own height and round. */
  predicate OwnVote(n: Node, kind: VoteType, v: Vote) {
    v.validator == n.validator && v.height == n.height && v.round == n.round && v.kind == kind
  }

  /** Nothing is signed twice if the step of the vote has not been reached. */
  lemma SignsNothingTwice(n: Node, kind: VoteType, id: BlockID, env: Env)
    requires SignedOnce(n) && n.step < StepOf(kind)
    ensures NoDoubleVote(SignAddVote(n, kind, id, env).signed)
  {
  }

  /** A prevote is for the locked block, or without a lock for a proposal that is valid and accepted, or nil. */
  predicate PrevoteJustified(n: Node, env: Env, v: Vote) {
    && OwnVote(n, Prevote, v)
    && (n.lockedBlock.Some? ==> v.id.hash == n.lockedBlock.value.hash)
    && (n.lockedBlock.None? && v.id.hash != "" ==>
          HashesTo(n.proposalBlock, v.id.hash) && env.valid(n.proposalBlock.value) && env.accepted(n.proposalBlock.value))
  }

  lemma PrevotesJustified(n: Node, env: Env)
    ensures forall v | v in DoPrevote(n, env).signed && v !in n.signed :: PrevoteJustified(n, env, v)
  {
  }

  /** A precommit is nil, or for a block with its polka in this round that is locked in this round. */
  predicate PrecommitJustified(n: Node, round: int, v: Vote) {
    && OwnVote(n, Precommit, v)
    && (v.id.hash != "" ==>
          Majority(n, round, Prevote) == Some(v.id) && n.lockedRound == round && HashesTo(n.lockedBlock, v.id.hash))
  }

  /** Signing after the choice is made: nil, or the block that is now locked. */
  lemma SignsJustified(n: Node, round: int, id: BlockID, env: Env)
    requires id.hash != "" ==> Majority(n, round, Prevote) == Some(id) && n.lockedRound == round && HashesTo(n.lockedBlock, id.hash)
    ensures var n' := SignAddVote(n, Precommit, id, env);
            forall v | v in n'.signed && v !in n.signed :: PrecommitJustified(n', round, v)
  {
  }

  lemma PrecommitsJustified(n: Node, round: int, env: Env)
    ensures var n' := DoPrecommit(n, round, env);
            forall v | v in n'.signed && v !in n.signed :: PrecommitJustified(n', round, v)
  {
    hide SignAddVote, PrecommitJustified;
    SignsJustified(n, round, NIL_ID, env);
    var m := Majority(n, round, Prevote);
    if m.Some? && HashesTo(n.lockedBlock, m.value.hash) {
      SignsJustified(n.(lockedRound := round), round, m.value, env);
    } else if m.Some? && HashesTo(n.proposalBlock, m.value.hash) {
      var n1 := n.(lockedRound := round, lockedBlock := n.proposalBlock, lockedParts := n.proposalParts);
      SignsJustified(n1, round, m.value, env);
    } else if m.Some? {
      SignsJustified(Unlock(n), round, NIL_ID, env);
      SignsJustified(Unlock(n).(proposalBlock := None, proposalParts := Some(m.value.parts)), round, NIL_ID, env);
    }
  }

  lemma DoPrevoteKeeps(g: Genesis, n: Node, env: Env)
    requires Inv(g, n) && n.step < PREVOTE
    ensures Step(g, n, DoPrevote(n, env).(step := PREVOTE))
  {
    hide Inv, Progress;
    if n.lockedBlock.Some? {
      PrevoteKeeps(g, n, BlockID(n.lockedBlock.value.hash, HeaderOf(n.lockedParts)), env);
    } else if n.proposalBlock.None? || !env.valid(n.proposalBlock.value) || !env.accepted(n.proposalBlock.value) {
      PrevoteKeeps(g, n, NIL_ID, env);
    } else {
      PrevoteKeeps(g, n, BlockID(n.proposalBlock.value.hash, HeaderOf(n.proposalParts)), env);
    }
  }

  lemma EnterPrevoteKeeps(g: Genesis, n: Node, height: nat, round: int, env: Env)
    requires Inv(g, n) && (n.height == height ==> round <= n.round)
    ensures Step(g, n, EnterPrevote(n, height, round, env))
  {
    hide Inv, Progress;
    if n.halted || n.height != height || round < n.round || (n.round == round && PREVOTE <= n.step) {
      Stays(g, n);
    } else {
      DoPrevoteKeeps(g, n, env);
    }
  }

  lemma EnterProposeKeeps(g: Genesis, n: Node, height: nat, round: int, env: Env)
    requires Inv(g, n) && (n.height == height ==> round <= n.round)
    ensures Step(g, n, EnterPropose(n, height, round, env))
  {
    if n.halted || n.height != height || round < n.round || (n.round == round && PROPOSE <= n.step) {
      Stays(g, n);
    } else {
      var n1 := Schedule(n, height, round, PROPOSE).(round := round, step := PROPOSE);
      Advance(g, n, n1);
      hide Inv, Progress;
      if ProposalComplete(n1) {
        EnterPrevoteKeeps(g, n1, height, n1.round, env);
        StepTwice(g, n, n1, EnterPrevote(n1, height, n1.round, env));
      }
    }
  }

  lemma EnterNewRoundKeeps(g: Genesis, n: Node, height: nat, round: int, env: Env)
    requires Inv(g, n)
    ensures Step(g, n, EnterNewRound(n, height, round, env))
  {
    if n.halted || n.height != height || round < n.round || (n.round == round && n.step != NEW_HEIGHT) {
      Stays(g, n);
    } else {
      var n2 := ResetRound(n, round);
      Advance(g, n, n2);
      Advance(g, n, Schedule(n2, height, round, NEW_ROUND));
      hide Inv, Progress;
      EnterProposeKeeps(g, n2, height, round, env);
      StepTwice(g, n, n2, EnterPropose(n2, height, round, env));
    }
  }

  lemma EnterPrevoteWaitKeeps(g: Genesis, n: Node, height: nat, round: int)
    requires Inv(g, n) && (n.height == height ==> round <= n.round)
    ensures Step(g, n, EnterPrevoteWait(g, n, height, round))
  {
    var n' := EnterPrevoteWait(g, n, height, round);
    Advance(g, n, n');
  }

  lemma EnterPrecommitWaitKeeps(g: Genesis, n: Node, height: nat, round: int)
    requires Inv(g, n) && (n.height == height ==> round <= n.round)
    ensures Step(g, n, EnterPrecommitWait(g, n, height, round))
  {
    var n' := EnterPrecommitWait(g, n, height, round);
    Advance(g, n, n');
  }

  lemma EnterPrecommitKeeps(g: Genesis, n: Node, height: nat, round: int, env: Env)
    requires Inv(g, n) && (n.height == height ==> round <= n.round)
    ensures Step(g, n, EnterPrecommit(n, height, round, env))
  {
    if n.halted || n.height != height || round < n.round || (n.round == round && PRECOMMIT <= n.step) {
      Stays(g, n);
    } else {
      DoPrecommitKeeps(g, n, env);
      hide Inv, Progress;
      DoPrecommitFrame(n, round, env);
      assert EnterPrecommit(n, height, round, env) == DoPrecommit(n, n.round, env).(step := PRECOMMIT);
    }
  }

  lemma DoPrecommitKeeps(g: Genesis, n: Node, env: Env)
    requires Inv(g, n) && n.step < PRECOMMIT
    ensures Step(g, n, DoPrecommit(n, n.round, env).(step := PRECOMMIT))
  {
    hide Inv, Progress;
    var m := Majority(n, n.round, Prevote);
    if m.None? {
      NoPolkaKeeps(g, n, env);
    } else if HashesTo(n.lockedBlock, m.value.hash) {
      RelockKeeps(g, n, m.value, env);
    } else if HashesTo(n.proposalBlock, m.value.hash) {
      LockProposalKeeps(g, n, m.value, env);
    } else if m.value.hash == "" || HasHeader(n.proposalParts, m.value.parts) {
      UnlockKeeps(g, n, m.value, n.proposalBlock, n.proposalParts, env);
    } else {
      UnlockKeeps(g, n, m.value, None, Some(m.value.parts), env);
    }
  }

  lemma NoPolkaKeeps(g: Genesis, n: Node, env: Env)
    requires Inv(g, n) && n.step < PRECOMMIT && Majority(n, n.round, Prevote).None?
    ensures Step(g, n, DoPrecommit(n, n.round, env).(step := PRECOMMIT))
  {
    var n1 := n.(step := PRECOMMIT);
    Advance(g, n, n1);
    PrecommitKeeps(g, n, n1, NIL_ID, env);
    assert DoPrecommit(n, n.round, env).(step := PRECOMMIT) == SignAddVote(n1, Precommit, NIL_ID, env);
  }

  lemma RelockKeeps(g: Genesis, n: Node, id: BlockID, env: Env)
    requires Inv(g, n) && n.step < PRECOMMIT && Majority(n, n.round, Prevote) == Some(id)
    requires HashesTo(n.lockedBlock, id.hash)
    ensures Step(g, n, DoPrecommit(n, n.round, env).(step := PRECOMMIT))
  {
    var n1 := n.(lockedRound := n.round, step := PRECOMMIT);
    Relock(g, n, id);
    PrecommitKeeps(g, n, n1, id, env);
    assert DoPrecommit(n, n.round, env).(step := PRECOMMIT) == SignAddVote(n1, Precommit, id, env);
  }

  lemma DropsLock(g: Genesis, n: Node, n1: Node, id: BlockID)
    requires Inv(g, n) && n.step < PRECOMMIT && Majority(n, n.round, Prevote) == Some(id)
    requires !HashesTo(n.lockedBlock, id.hash)
    requires n1 == Unlock(n).(proposalBlock := n1.proposalBlock, proposalParts := n1.proposalParts, step := PRECOMMIT)
    ensures Step(g, n, n1)
  {
    assert Polka(Ev(g, n), n.height, n.round, id);
    ReplaceLock(g, n, n1, n.round, id);
  }

  lemma UnlockKeeps(g: Genesis, n: Node, id: BlockID, block: Option<Block>, parts: Option<PartsHeader>, env: Env)
    requires Inv(g, n) && n.step < PRECOMMIT && Majority(n, n.round, Prevote) == Some(id)
    requires !HashesTo(n.lockedBlock, id.hash)
    ensures Step(g, n, SignAddVote(Unlock(n).(proposalBlock := block, proposalParts := parts), Precommit, NIL_ID, env)
                       .(step := PRECOMMIT))
  {
    hide Inv, Progress;
    var n1 := Unlock(n).(proposalBlock := block, proposalParts := parts, step := PRECOMMIT);
    DropsLock(g, n, n1, id);
    PrecommitKeeps(g, n, n1, NIL_ID, env);
    assert SignAddVote(Unlock(n).(proposalBlock := block, proposalParts := parts), Precommit, NIL_ID, env)
           .(step := PRECOMMIT) == SignAddVote(n1, Precommit, NIL_ID, env);
  }

  lemma LockProposalKeeps(g: Genesis, n: Node, id: BlockID, env: Env)
    requires Inv(g, n) && n.step < PRECOMMIT && Majority(n, n.round, Prevote) == Some(id)
    requires HashesTo(n.proposalBlock, id.hash) && !HashesTo(n.lockedBlock, id.hash)
    ensures Step(g, n, DoPrecommit(n, n.round, env).(step := PRECOMMIT))
  {
    if !env.valid(n.proposalBlock.value) {
      Advance(g, n, Halt(n).(step := PRECOMMIT));
    } else {
      var n1 := n.(lockedRound := n.round, lockedBlock := n.proposalBlock, lockedParts := n.proposalParts, step := PRECOMMIT);
      assert Polka(Ev(g, n), n.height, n.round, id);
      assert Polka(Ev(g, n1), n1.height, n1.lockedRound, BlockID(n1.lockedBlock.value.hash, id.parts));
      ReplaceLock(g, n, n1, n.round, id);
      hide Inv, Progress;
      PrecommitKeeps(g, n, n1, id, env);
      assert DoPrecommit(n, n.round, env).(step := PRECOMMIT) == SignAddVote(n1, Precommit, id, env);
    }
  }

  /** The committed block is the next certified one. */
  lemma CertifiesCommit(g: Genesis, n: Node, id: BlockID)
    requires Inv(g, n) && n.commitRound >= 0 && Majority(n, n.commitRound, Precommit) == Some(id)
    ensures Certified(Ev(g, UpdateToState(n, id.hash)))
  {
    hide SignedOnce, PrecommitsBacked, TurnsBacked, LockSound, TimeoutsNotAhead;
    var n' := UpdateToState(n, id.hash);
    EvidenceGrows(Ev(g, n), Ev(g, n'));
    assert Shows(Ev(g, n'), SetKey(n.height, n.commitRound, Precommit), BlockID(id.hash, id.parts));
    forall i: nat | i < |n'.chain|
      ensures CertifiedAt(Ev(g, n'), i)
    {
      if i < |n.chain| {
        assert CertifiedAt(Ev(g, n), i);
      }
    }
  }

  lemma UpdateToStateKeeps(g: Genesis, n: Node, hash: Hash, id: BlockID)
    requires Inv(g, n) && n.commitRound >= 0 && Majority(n, n.commitRound, Precommit) == Some(id) && id.hash == hash
    ensures Step(g, n, UpdateToState(n, hash))
  {
    CertifiesCommit(g, n, id);
    EvidenceGrows(Ev(g, n), Ev(g, UpdateToState(n, hash)));
    hide Certified;
  }

  lemma FinalizeCommitKeeps(g: Genesis, n: Node, height: nat, id: BlockID, env: Env)
    requires Inv(g, n) && Majority(n, n.commitRound, Precommit) == Some(id)
    ensures Step(g, n, FinalizeCommit(n, height, id, env))
  {
    Stays(g, n);
    Advance(g, n, Halt(n));
    if n.step == COMMIT {
      UpdateToStateKeeps(g, n, id.hash, id);
    }
  }

  lemma TryFinalizeCommitKeeps(g: Genesis, n: Node, height: nat, env: Env)
    requires Inv(g, n)
    ensures Step(g, n, TryFinalizeCommit(n, height, env))
  {
    Stays(g, n);
    Advance(g, n, Halt(n));
    hide Inv, Progress, FinalizeCommit;
    var m := Majority(n, n.commitRound, Precommit);
    if m.Some? {
      FinalizeCommitKeeps(g, n, height, m.value, env);
    }
  }

  lemma EnterCommitKeeps(g: Genesis, n: Node, height: nat, commitRound: int, env: Env)
    requires Inv(g, n) && commitRound >= 0
    requires n.height == height ==>
               Majority(n, commitRound, Precommit).Some? && Majority(n, commitRound, Precommit).value.hash != ""
    ensures Step(g, n, EnterCommit(n, height, commitRound, env))
  {
    if n.halted || n.height != height || COMMIT <= n.step {
      Stays(g, n);
    } else {
      var id := Majority(n, commitRound, Precommit).value;
      var n3 := AimAt(n, id).(step := COMMIT, commitRound := commitRound);
      Advance(g, n, n3);
      hide Inv, Progress;
      TryFinalizeCommitKeeps(g, n3, height, env);
      StepTwice(g, n, n3, TryFinalizeCommit(n3, height, env));
    }
  }

  // ---- messages ----

  /** Locks, signed votes and commits keep their backing when evidence is added. */
  lemma BackingCarries(g: Genesis, n: Node, n': Node)
    requires LockSound(g, n) && PrecommitsBacked(g, n) && TurnsBacked(g, n) && Certified(Ev(g, n))
    requires EvidenceKept(Ev(g, n), Ev(g, n')) && n'.chain == n.chain && n'.signed == n.signed
    requires n'.height == n.height && n'.round == n.round && n'.step == n.step
    requires n'.lockedRound == n.lockedRound && n'.lockedBlock == n.lockedBlock
    ensures LockSound(g, n') && PrecommitsBacked(g, n') && TurnsBacked(g, n') && Certified(Ev(g, n'))
  {
    if n.lockedBlock.Some? {
      var parts :| Polka(Ev(g, n), n.height, n.lockedRound, BlockID(n.lockedBlock.value.hash, parts));
      assert Polka(Ev(g, n'), n'.height, n'.lockedRound, BlockID(n'.lockedBlock.value.hash, parts));
    }
    forall i: nat | i < |n'.chain|
      ensures CertifiedAt(Ev(g, n'), i)
    {
      assert CertifiedAt(Ev(g, n), i);
    }
    assert forall w | w in n'.signed && RealPrecommit(w) :: HoldsLock(n, w) ==> HoldsLock(n', w);
  }

  lemma RecordVotesSound(g: Genesis, n: Node, v: Vote, env: Env)
    requires VotesSound(g, n) && v.height == n.height && EvidenceKept(Ev(g, n), Ev(g, Record(g, n, v, env)))
    ensures VotesSound(g, Record(g, n, v, env))
  {
    var n' := Record(g, n, v, env);
    forall k | k in n'.majority
      ensures k.height <= n'.height && Shows(Ev(g, n'), k, n'.majority[k])
    {
      assert k in n.majority ==> Shows(Ev(g, n), k, n.majority[k]) && n'.majority[k] == n.majority[k];
    }
  }

  lemma RecordKeeps(g: Genesis, n: Node, v: Vote, env: Env)
    requires Inv(g, n) && v.height == n.height
    ensures Step(g, n, Record(g, n, v, env))
  {
    hide VotesSound, LockSound, PrecommitsBacked, TurnsBacked, Certified, EvidenceKept, HasQuorum;
    var n' := Record(g, n, v, env);
    EvidenceGrows(Ev(g, n), Ev(g, n'));
    BackingCarries(g, n, n');
    RecordVotesSound(g, n, v, env);
  }

  lemma UnlockOnPolkaKeeps(g: Genesis, n: Node, round: int, id: BlockID)
    requires Inv(g, n) && Majority(n, round, Prevote) == Some(id)
    ensures Step(g, n, UnlockOnPolka(n, round, id))
  {
    var n1 := UnlockOnPolka(n, round, id);
    if n1 == n {
      Stays(g, n);
    } else {
      assert Polka(Ev(g, n), n.height, round, id);
      ReplaceLock(g, n, n1, round, id);
    }
  }

  lemma UpdateValidFrame(n: Node, round: int, id: BlockID)
    ensures var n' := UpdateValid(n, round, id);
            n' == n.(validRound := n'.validRound, validBlock := n'.validBlock, validParts := n'.validParts,
                     proposalBlock := n'.proposalBlock, proposalParts := n'.proposalParts)
  {
  }

  lemma UpdateValidKeeps(g: Genesis, n: Node, round: int, id: BlockID)
    requires Inv(g, n)
    ensures Step(g, n, UpdateValid(n, round, id))
  {
    hide UpdateValid, Inv, Progress;
    UpdateValidFrame(n, round, id);
    StaysPut(g, n, UpdateValid(n, round, id));
  }

  lemma OnPolkaKeeps(g: Genesis, n: Node, round: int, id: BlockID)
    requires Inv(g, n) && Majority(n, round, Prevote) == Some(id)
    ensures Step(g, n, UpdateValid(UnlockOnPolka(n, round, id), round, id))
  {
    hide Inv, Progress;
    var n1 := UnlockOnPolka(n, round, id);
    UnlockOnPolkaKeeps(g, n, round, id);
    UpdateValidKeeps(g, n1, round, id);
    StepTwice(g, n, n1, UpdateValid(n1, round, id));
  }

  lemma OnPrevoteKeeps(g: Genesis, n: Node, v: Vote, env: Env)
    requires Inv(g, n)
    ensures Step(g, n, OnPrevote(g, n, v, env))
  {
    var m := Majority(n, v.round, Prevote);
    var n1 := if m.Some? then UpdateValid(UnlockOnPolka(n, v.round, m.value), v.round, m.value) else n;
    if m.Some? {
      OnPolkaKeeps(g, n, v.round, m.value);
    } else {
      Stays(g, n);
    }
    hide Inv, Progress;
    var n2 := OnPrevote(g, n, v, env);
    if n2 != n1 {
      if n1.round < v.round && TwoThirdsAny(g, n1, v.round, Prevote) {
        EnterNewRoundKeeps(g, n1, n1.height, v.round, env);
      } else if n1.round == v.round && PREVOTE <= n1.step {
        if m.Some? && (ProposalComplete(n1) || m.value.hash == "") {
          EnterPrecommitKeeps(g, n1, n1.height, v.round, env);
        } else {
          EnterPrevoteWaitKeeps(g, n1, n1.height, v.round);
        }
      } else {
        EnterPrevoteKeeps(g, n1, n1.height, n1.round, env);
      }
      StepTwice(g, n, n1, n2);
    }
  }

  /** Entering a round never touches votes or height and leaves the node at least in that round. */
  lemma NewRoundFrame(n: Node, round: int, env: Env)
    ensures var n' := EnterNewRound(n, n.height, round, env);
            && n'.height == n.height && n'.votes == n.votes && n'.majority == n.majority
            && (n.halted || round <= n'.round)
  {
  }

  ghost predicate SameVotes(n: Node, n': Node) {
    n'.height == n.height && n'.votes == n.votes && n'.majority == n.majority && n'.round == n.round
  }

  lemma DoPrecommitFrame(n: Node, round: int, env: Env)
    ensures SameVotes(n, DoPrecommit(n, round, env))
  {
    var m := Majority(n, round, Prevote);
    if m.Some? && !HashesTo(n.lockedBlock, m.value.hash) && HashesTo(n.proposalBlock, m.value.hash) {
      var n1 := n.(lockedRound := round, lockedBlock := n.proposalBlock, lockedParts := n.proposalParts);
      assert SameVotes(n1, SignAddVote(n1, Precommit, m.value, env));
    } else if m.Some? && HashesTo(n.lockedBlock, m.value.hash) {
      var n1 := n.(lockedRound := round);
      assert SameVotes(n1, SignAddVote(n1, Precommit, m.value, env));
    } else if m.Some? {
      var n1 := Unlock(n);
      var n2 := n1.(proposalBlock := None, proposalParts := Some(m.value.parts));
      assert SameVotes(n1, SignAddVote(n1, Precommit, NIL_ID, env));
      assert SameVotes(n2, SignAddVote(n2, Precommit, NIL_ID, env));
    }
  }

  lemma PrecommitFrame(n: Node, round: int, env: Env)
    requires round <= n.round
    ensures SameVotes(n, EnterPrecommit(n, n.height, round, env))
  {
    DoPrecommitFrame(n, round, env);
  }

  /** The two calls that open the +2/3 branch of a precommit. */
  lemma CatchUpKeeps(g: Genesis, n: Node, round: int, env: Env)
    requires Inv(g, n) && !n.halted
    ensures var n1 := EnterPrecommit(EnterNewRound(n, n.height, round, env), n.height, round, env);
            Step(g, n, n1) && n1.height == n.height && n1.majority == n.majority && round <= n1.round
  {
    hide Inv, Progress;
    var n0 := EnterNewRound(n, n.height, round, env);
    EnterNewRoundKeeps(g, n, n.height, round, env);
    NewRoundFrame(n, round, env);
    var n1 := EnterPrecommit(n0, n.height, round, env);
    EnterPrecommitKeeps(g, n0, n.height, round, env);
    PrecommitFrame(n0, round, env);
    StepTwice(g, n, n0, n1);
  }

  lemma OnPrecommitKeeps(g: Genesis, n: Node, v: Vote, env: Env)
    requires Inv(g, n) && !n.halted
    ensures Step(g, n, OnPrecommit(g, n, v, env))
  {
    Stays(g, n);
    hide Inv, Progress;
    var m := Majority(n, v.round, Precommit);
    if m.Some? {
      var n1 := EnterPrecommit(EnterNewRound(n, n.height, v.round, env), n.height, v.round, env);
      CatchUpKeeps(g, n, v.round, env);
      if m.value.hash != "" {
        CommitKeeps(g, n, n1, v.round, env);
      } else {
        EnterPrecommitWaitKeeps(g, n1, n.height, v.round);
        StepTwice(g, n, n1, EnterPrecommitWait(g, n1, n.height, v.round));
      }
    } else {
      var n0 := EnterNewRound(n, n.height, v.round, env);
      EnterNewRoundKeeps(g, n, n.height, v.round, env);
      NewRoundFrame(n, v.round, env);
      if n.round <= v.round && TwoThirdsAny(g, n, v.round, Precommit) {
        RoundUnmoved(n, v.round, env);
        EnterPrecommitWaitKeeps(g, n0, n.height, v.round);
        StepTwice(g, n, n0, EnterPrecommitWait(g, n0, n.height, v.round));
      }
    }
  }

  lemma RoundUnmoved(n: Node, round: int, env: Env)
    requires !n.halted && n.round <= round
    ensures EnterNewRound(n, n.height, round, env).round == round
  {
  }

  lemma CommitKeeps(g: Genesis, n: Node, n1: Node, round: nat, env: Env)
    requires Inv(g, n) && Step(g, n, n1) && n1.height == n.height
    requires Majority(n1, round, Precommit).Some? && Majority(n1, round, Precommit).value.hash != ""
    ensures var n2 := EnterCommit(n1, n.height, round, env);
            Step(g, n, n2) && Step(g, n, EnterNewRound(n2, n2.height, 0, env))
  {
    hide Inv, Progress;
    var n2 := EnterCommit(n1, n.height, round, env);
    EnterCommitKeeps(g, n1, n.height, round, env);
    StepTwice(g, n, n1, n2);
    EnterNewRoundKeeps(g, n2, n2.height, 0, env);
    StepTwice(g, n, n2, EnterNewRound(n2, n2.height, 0, env));
  }

  lemma AddVoteKeeps(g: Genesis, n: Node, v: Vote, env: Env)
    requires Inv(g, n)
    ensures Step(g, n, AddVote(g, n, v, env))
  {
    Stays(g, n);
    Advance(g, n, Halt(n));
    hide Inv, Progress, OnPrevote, OnPrecommit, EnterNewRound, Record;
    EnterNewRoundKeeps(g, n, n.height, 0, env);
    if v.height == n.height && !n.halted {
      var n1 := Record(g, n, v, env);
      RecordKeeps(g, n, v, env);
      if v.kind == Prevote {
        OnPrevoteKeeps(g, n1, v, env);
        StepTwice(g, n, n1, OnPrevote(g, n1, v, env));
      } else {
        OnPrecommitKeeps(g, n1, v, env);
        StepTwice(g, n, n1, OnPrecommit(g, n1, v, env));
      }
    }
  }

  lemma MoveOnKeeps(g: Genesis, n: Node, height: nat, hasTwoThirds: bool, env: Env)
    requires Inv(g, n) && n.height == height
    ensures Step(g, n, MoveOnWithBlock(n, height, hasTwoThirds, env))
  {
    Stays(g, n);
    hide Inv, Progress;
    if n.step <= PROPOSE && ProposalComplete(n) {
      var n1 := EnterPrevote(n, height, n.round, env);
      EnterPrevoteKeeps(g, n, height, n.round, env);
      EnterPrecommitKeeps(g, n1, height, n1.round, env);
      StepTwice(g, n, n1, EnterPrecommit(n1, height, n1.round, env));
    } else {
      TryFinalizeCommitKeeps(g, n, height, env);
    }
  }

  lemma HandleCompleteProposalKeeps(g: Genesis, n: Node, height: nat, env: Env)
    requires Inv(g, n) && n.height == height
    ensures Step(g, n, HandleCompleteProposal(n, height, env))
  {
    hide Inv, Progress, MoveOnWithBlock;
    var m := Majority(n, n.round, Prevote);
    var n1 := n.(validRound := n.round, validBlock := n.proposalBlock, validParts := n.proposalParts);
    StaysPut(g, n, Halt(n));
    StaysPut(g, n, n1);
    MoveOnKeeps(g, n, height, m.Some?, env);
    MoveOnKeeps(g, n1, height, m.Some?, env);
    StepTwice(g, n, n1, MoveOnWithBlock(n1, height, m.Some?, env));
  }

  lemma AddCompleteBlockKeeps(g: Genesis, n: Node, height: nat, block: Option<Block>, env: Env)
    requires Inv(g, n)
    ensures Step(g, n, AddCompleteBlock(n, height, block, env))
  {
    Stays(g, n);
    if n.height == height {
      hide Inv, Progress, HandleCompleteProposal;
      var n0 := if block.Some? then n.(proposalBlock := block) else n;
      StaysPut(g, n, n0);
      HandleCompleteProposalKeeps(g, n0, height, env);
      StepTwice(g, n, n0, HandleCompleteProposal(n0, height, env));
    }
  }

  /** A timeout that is not stale is for exactly the node's height and round. */
  lemma TimeoutIsCurrent(g: Genesis, n: Node, t: Timeout)
    requires Inv(g, n) && t in n.timeouts && !Stale(n, t)
    ensures t.height == n.height && t.round == n.round && t.step >= n.step
  {
  }

  lemma HandleTimeoutKeeps(g: Genesis, n: Node, t: Timeout, env: Env)
    requires Inv(g, n) && t in n.timeouts
    ensures Step(g, n, HandleTimeout(n, t, env))
  {
    Stays(g, n);
    if !n.halted && !Stale(n, t) {
      TimeoutIsCurrent(g, n, t);
      Advance(g, n, Halt(n));
      hide Inv, Progress;
      if t.step == NEW_HEIGHT {
        EnterNewRoundKeeps(g, n, t.height, 0, env);
      } else if t.step == NEW_ROUND {
        EnterProposeKeeps(g, n, t.height, t.round, env);
      } else if t.step == PROPOSE {
        EnterPrevoteKeeps(g, n, t.height, t.round, env);
      } else if t.step == PREVOTE_WAIT || t.step == PRECOMMIT_WAIT {
        var n1 := EnterPrecommit(n, t.height, t.round, env);
        EnterPrecommitKeeps(g, n, t.height, t.round, env);
        EnterNewRoundKeeps(g, n1, t.height, t.round + 1, env);
        StepTwice(g, n, n1, EnterNewRound(n1, t.height, t.round + 1, env));
      }
    }
  }

  lemma HandleTxsAvailableKeeps(g: Genesis, n: Node, env: Env)
    requires Inv(g, n)
    ensures Step(g, n, HandleTxsAvailable(n, env))
  {
    Stays(g, n);
    if n.round == 0 {
      Advance(g, n, Schedule(n, n.height, 0, NEW_ROUND));
      hide Inv, Progress;
      EnterProposeKeeps(g, n, n.height, 0, env);
    }
  }

  /** Every turn of the receive routine keeps the discipline and only moves forward. */
  lemma Keeps(g: Genesis, n: Node, e: Event, env: Env)
    requires Inv(g, n) && (e.TimeoutMsg? ==> e.timeout in n.timeouts)
    ensures Step(g, n, Handle(g, n, e, env))
  {
    match e
    case ProposalMsg(p) => StaysPut(g, n, SetProposal(n, p, env));
    case CompleteBlockMsg(h, b) => AddCompleteBlockKeeps(g, n, h, b, env);
    case VoteMsg(v) => AddVoteKeeps(g, n, v, env);
    case TimeoutMsg(t) => HandleTimeoutKeeps(g, n, t, env);
    case TxsAvailable => HandleTxsAvailableKeeps(g, n, env);
  }

  lemma Starts(g: Genesis, validator: nat)
    requires g.initialHeight >= 1
    ensures Inv(g, Initial(g, validator))
  {
  }

  // ---- over whole runs of one node ----

  ghost predicate Turn(g: Genesis, n: Node, n': Node) {
    exists e: Event, env: Env :: (e.TimeoutMsg? ==> e.timeout in n.timeouts) && n' == Handle(g, n, e, env)
  }

  /** Any messages at all, and any of the timeouts the node asked for, in any order. */
  ghost predicate NodeRun(g: Genesis, validator: nat, run: seq<Node>) {
    && g.initialHeight >= 1 && run != [] && run[0] == Initial(g, validator)
    && forall i: nat | i + 1 < |run| :: Turn(g, run[i], run[i + 1])
  }

  lemma {:induction false} NodeRunKeeps(g: Genesis, validator: nat, run: seq<Node>, j: nat)
    requires NodeRun(g, validator, run) && j < |run|
    ensures Inv(g, run[j])
  {
    hide Inv, Progress;
    if j == 0 {
      Starts(g, validator);
    } else {
      NodeRunKeeps(g, validator, run, j - 1);
      assert Turn(g, run[j - 1], run[j - 1 + 1]);
      TurnKeeps(g, run[j - 1], run[j]);
    }
  }

  lemma TurnKeeps(g: Genesis, n: Node, n': Node)
    requires Inv(g, n) && Turn(g, n, n')
    ensures Step(g, n, n')
  {
    hide Inv, Progress;
    var e: Event, env: Env :| (e.TimeoutMsg? ==> e.timeout in n.timeouts) && n' == Handle(g, n, e, env);
    Keeps(g, n, e, env);
  }

  lemma {:induction false} RunMovesForward(g: Genesis, validator: nat, run: seq<Node>, i: nat, j: nat)
    requires NodeRun(g, validator, run) && i <= j < |run|
    ensures Step(g, run[i], run[j])
    decreases j
  {
    hide Inv, Progress, Turn;
    NodeRunKeeps(g, validator, run, i);
    Stays(g, run[i]);
    if i < j {
      RunMovesForward(g, validator, run, i, j - 1);
      assert Turn(g, run[j - 1], run[j - 1 + 1]);
      TurnKeeps(g, run[j - 1], run[j]);
      StepTwice(g, run[i], run[j - 1], run[j]);
    }
  }

  /**
   The vote discipline, over every run of a node, whatever the other nodes do. Between
   any two moments: height, round and step do not go back; the later signed votes hold
   at most one prevote and one precommit per height and round; a lock is set exactly if
   its round is, with +2/3 prevotes for it at that round; within the height it is kept
   or moved on, unless +2/3 prevotes for something else came at a later round; and a
   timeout that passes the staleness test is for the current height and round.
   */
  lemma VoteDiscipline(g: Genesis, validator: nat, run: seq<Node>, i: nat, j: nat)
    requires NodeRun(g, validator, run) && i <= j < |run|
    ensures HRSNotBack(run[i], run[j])
    ensures forall v, w | v in run[j].signed && w in run[j].signed && (v.height, v.round, v.kind) == (w.height, w.round, w.kind) :: v == w
    ensures run[j].lockedBlock.Some? <==> run[j].lockedRound >= 0
    ensures run[j].lockedBlock.Some? ==>
      exists parts :: Polka(Ev(g, run[j]), run[j].height, run[j].lockedRound, BlockID(run[j].lockedBlock.value.hash, parts))
    ensures run[i].lockedBlock.Some? && run[j].height == run[i].height ==>
      (run[j].lockedBlock == run[i].lockedBlock && run[j].lockedRound >= run[i].lockedRound) || LockBeaten(g, run[i], run[j])
    ensures forall t | t in run[j].timeouts && !Stale(run[j], t) ::
      t.height == run[j].height && t.round == run[j].round && t.step >= run[j].step
  {
    RunMovesForward(g, validator, run, i, j);
  }
}
