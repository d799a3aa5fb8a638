/**
 Blocks that a correct node locks, precommits or commits passed its validation. Whether a
 block is valid depends on the chain before it; a node validates in the course of a turn,
 for the chain it then has.
 */
module Validity {
  import opened Options
  import opened RoundState
  import opened Steps
  import opened Discipline
  import opened Agreement

  /** Which blocks are valid after which chain. */
  type Rule = (seq<Hash>, Block) -> bool

  /** In this turn, validation lets through only what the rule allows after the chain. */
  ghost predicate Judges(good: Rule, chain: seq<Hash>, env: Env) {
    forall b | env.valid(b) :: good(chain, b)
  }

  ghost predicate VoteVouched(g: Genesis, good: Rule, chain: seq<Hash>, v: Vote) {
    g.initialHeight <= v.height <= g.initialHeight + |chain| && good(chain[..v.height - g.initialHeight], Block(v.id.hash))
  }

  ghost predicate ChainVouched(good: Rule, chain: seq<Hash>) {
    forall i | 0 <= i < |chain| :: good(chain[..i], Block(chain[i]))
  }

  /** The lock, every precommit for a block, and every committed block are valid where they stand. */
  ghost predicate Vouched(g: Genesis, good: Rule, n: Node) {
    && n.height == g.initialHeight + |n.chain|
    && (n.lockedBlock.Some? ==> good(n.chain, n.lockedBlock.value))
    && (forall v | v in n.signed && RealPrecommit(v) :: VoteVouched(g, good, n.chain, v))
    && ChainVouched(good, n.chain)
  }

  /** Nothing new to vouch for. */
  ghost predicate Quiet(n: Node, n': Node) {
    && n'.chain == n.chain && n'.height == n.height && (n'.lockedBlock == n.lockedBlock || n'.lockedBlock.None?)
    && forall v | v in n'.signed && RealPrecommit(v) :: v in n.signed
  }

  lemma QuietKeeps(g: Genesis, good: Rule, n: Node, n': Node)
    requires Vouched(g, good, n) && Quiet(n, n')
    ensures Vouched(g, good, n')
  {
  }

  lemma SignQuiet(n: Node, kind: VoteType, id: BlockID, env: Env)
    requires kind == Prevote || id.hash == ""
    ensures Quiet(n, SignAddVote(n, kind, id, env))
  {
  }

  lemma EnterPrevoteQuiet(n: Node, height: nat, round: int, env: Env)
    ensures Quiet(n, EnterPrevote(n, height, round, env))
  {
    hide SignAddVote;
    SignQuiet(n, Prevote, NIL_ID, env);
    if n.lockedBlock.Some? {
      SignQuiet(n, Prevote, BlockID(n.lockedBlock.value.hash, HeaderOf(n.lockedParts)), env);
    } else if n.proposalBlock.Some? {
      SignQuiet(n, Prevote, BlockID(n.proposalBlock.value.hash, HeaderOf(n.proposalParts)), env);
    }
  }

  lemma EnterProposeQuiet(n: Node, height: nat, round: int, env: Env)
    ensures Quiet(n, EnterPropose(n, height, round, env))
  {
    hide EnterPrevote;
    EnterPrevoteQuiet(Schedule(n, height, round, PROPOSE).(round := round, step := PROPOSE), height, round, env);
  }

  lemma EnterNewRoundQuiet(n: Node, height: nat, round: int, env: Env)
    ensures Quiet(n, EnterNewRound(n, height, round, env))
  {
    hide EnterPropose;
    EnterProposeQuiet(ResetRound(n, round), height, round, env);
  }

  lemma WaitQuiet(g: Genesis, n: Node, height: nat, round: int)
    ensures Quiet(n, EnterPrevoteWait(g, n, height, round)) && Quiet(n, EnterPrecommitWait(g, n, height, round))
  {
  }

  lemma OnPolkaQuiet(n: Node, round: int, id: BlockID)
    ensures Quiet(n, UpdateValid(UnlockOnPolka(n, round, id), round, id))
  {
    var a := UnlockOnPolka(n, round, id);
    assert Quiet(n, a);
    hide UnlockOnPolka, UpdateValid;
    UpdateValidFrame(a, round, id);
  }

  /** A precommit for a block whose lock is vouched for. */
  lemma SignVouched(g: Genesis, good: Rule, n: Node, id: BlockID, env: Env)
    requires Vouched(g, good, n) && HashesTo(n.lockedBlock, id.hash)
    ensures var n' := SignAddVote(n, Precommit, id, env);
      Vouched(g, good, n') && n'.chain == n.chain && n'.height == n.height
  {
    assert n.chain[..|n.chain|] == n.chain;
    assert n.lockedBlock.value == Block(id.hash);
  }

  lemma EnterPrecommitVouched(g: Genesis, good: Rule, n: Node, height: nat, round: int, env: Env)
    requires Vouched(g, good, n) && Judges(good, n.chain, env)
    ensures var n' := EnterPrecommit(n, height, round, env);
      Vouched(g, good, n') && n'.chain == n.chain && n'.height == n.height
  {
    hide SignAddVote;
    var polka := Majority(n, round, Prevote);
    SignQuiet(n, Precommit, NIL_ID, env);
    SignQuiet(Unlock(n), Precommit, NIL_ID, env);
    if polka.Some? {
      var id := polka.value;
      SignQuiet(Unlock(n).(proposalBlock := None, proposalParts := Some(id.parts)), Precommit, NIL_ID, env);
      if HashesTo(n.lockedBlock, id.hash) {
        SignVouched(g, good, n.(lockedRound := round), id, env);
      } else if HashesTo(n.proposalBlock, id.hash) && env.valid(n.proposalBlock.value) {
        SignVouched(g, good, n.(lockedRound := round, lockedBlock := n.proposalBlock, lockedParts := n.proposalParts), id, env);
      }
    }
  }

  lemma MoreChain(g: Genesis, good: Rule, chain: seq<Hash>, hash: Hash, v: Vote)
    requires VoteVouched(g, good, chain, v)
    ensures VoteVouched(g, good, chain + [hash], v)
  {
    assert (chain + [hash])[..v.height - g.initialHeight] == chain[..v.height - g.initialHeight];
  }

  lemma UpdateToStateVouched(g: Genesis, good: Rule, n: Node, hash: Hash)
    requires Vouched(g, good, n) && good(n.chain, Block(hash))
    ensures Vouched(g, good, UpdateToState(n, hash))
  {
    var chain := n.chain + [hash];
    forall v | v in n.signed && RealPrecommit(v)
      ensures VoteVouched(g, good, chain, v)
    {
      MoreChain(g, good, n.chain, hash, v);
    }
    forall i | 0 <= i < |chain|
      ensures good(chain[..i], Block(chain[i]))
    {
      assert i < |n.chain| ==> chain[..i] == n.chain[..i];
      assert chain[..|n.chain|] == n.chain;
    }
  }

  lemma TryFinalizeCommitVouched(g: Genesis, good: Rule, n: Node, height: nat, env: Env)
    requires Vouched(g, good, n) && Judges(good, n.chain, env)
    ensures Vouched(g, good, TryFinalizeCommit(n, height, env))
  {
    hide UpdateToState;
    var m := Majority(n, n.commitRound, Precommit);
    if m.Some? && HashesTo(n.proposalBlock, m.value.hash) && env.valid(n.proposalBlock.value) {
      assert n.proposalBlock.value == Block(m.value.hash);
      UpdateToStateVouched(g, good, n, m.value.hash);
    }
  }

  lemma EnterCommitVouched(g: Genesis, good: Rule, n: Node, height: nat, round: int, env: Env)
    requires Vouched(g, good, n) && Judges(good, n.chain, env)
    ensures Vouched(g, good, EnterCommit(n, height, round, env))
  {
    hide TryFinalizeCommit;
    var m := Majority(n, round, Precommit);
    if m.Some? {
      var a := AimAt(n, m.value).(step := COMMIT, commitRound := round);
      QuietKeeps(g, good, n, a);
      TryFinalizeCommitVouched(g, good, a, height, env);
    }
  }

  lemma OnPrevoteVouched(g: Genesis, good: Rule, n: Node, v: Vote, env: Env)
    requires Vouched(g, good, n) && Judges(good, n.chain, env)
    ensures Vouched(g, good, OnPrevote(g, n, v, env))
  {
    hide Vouched, Quiet, Judges, EnterNewRound, EnterPrecommit, EnterPrevoteWait, EnterPrevote, UpdateValid, UnlockOnPolka;
    var m := Majority(n, v.round, Prevote);
    var a := n;
    if m.Some? {
      a := UpdateValid(UnlockOnPolka(n, v.round, m.value), v.round, m.value);
      OnPolkaQuiet(n, v.round, m.value);
      QuietKeeps(g, good, n, a);
      SameChain(n, a);
    }
    EnterNewRoundQuiet(a, a.height, v.round, env);
    QuietKeeps(g, good, a, EnterNewRound(a, a.height, v.round, env));
    EnterPrecommitVouched(g, good, a, a.height, v.round, env);
    WaitQuiet(g, a, a.height, v.round);
    QuietKeeps(g, good, a, EnterPrevoteWait(g, a, a.height, v.round));
    EnterPrevoteQuiet(a, a.height, a.round, env);
    QuietKeeps(g, good, a, EnterPrevote(a, a.height, a.round, env));
  }

  lemma SameChain(n: Node, n': Node)
    requires Quiet(n, n')
    ensures n'.chain == n.chain && n'.height == n.height
  {
  }

  lemma OnPrecommitVouched(g: Genesis, good: Rule, n: Node, v: Vote, env: Env)
    requires Vouched(g, good, n) && Judges(good, n.chain, env)
    ensures Vouched(g, good, OnPrecommit(g, n, v, env))
  {
    hide Vouched, Quiet, Judges, EnterNewRound, EnterPrecommit, EnterPrecommitWait, EnterCommit;
    var a := EnterNewRound(n, n.height, v.round, env);
    EnterNewRoundQuiet(n, n.height, v.round, env);
    QuietKeeps(g, good, n, a);
    SameChain(n, a);
    WaitQuiet(g, a, n.height, v.round);
    QuietKeeps(g, good, a, EnterPrecommitWait(g, a, n.height, v.round));
    var b := EnterPrecommit(a, n.height, v.round, env);
    EnterPrecommitVouched(g, good, a, n.height, v.round, env);
    WaitQuiet(g, b, n.height, v.round);
    QuietKeeps(g, good, b, EnterPrecommitWait(g, b, n.height, v.round));
    var c := EnterCommit(b, n.height, v.round, env);
    EnterCommitVouched(g, good, b, n.height, v.round, env);
    EnterNewRoundQuiet(c, c.height, 0, env);
    QuietKeeps(g, good, c, EnterNewRound(c, c.height, 0, env));
  }

  lemma AddVoteVouched(g: Genesis, good: Rule, n: Node, v: Vote, env: Env)
    requires Vouched(g, good, n) && Judges(good, n.chain, env)
    ensures Vouched(g, good, AddVote(g, n, v, env))
  {
    var a := Record(g, n, v, env);
    assert Quiet(n, a) && Quiet(n, Halt(n));
    QuietKeeps(g, good, n, a);
    QuietKeeps(g, good, n, Halt(n));
    SameChain(n, a);
    hide Vouched, Quiet, Judges, Record, OnPrevote, OnPrecommit, EnterNewRound;
    EnterNewRoundQuiet(n, n.height, 0, env);
    QuietKeeps(g, good, n, EnterNewRound(n, n.height, 0, env));
    OnPrevoteVouched(g, good, a, v, env);
    OnPrecommitVouched(g, good, a, v, env);
  }

  lemma MoveOnVouched(g: Genesis, good: Rule, n: Node, height: nat, hasTwoThirds: bool, env: Env)
    requires Vouched(g, good, n) && Judges(good, n.chain, env)
    ensures Vouched(g, good, MoveOnWithBlock(n, height, hasTwoThirds, env))
  {
    hide Vouched, Quiet, Judges, EnterPrevote, EnterPrecommit, TryFinalizeCommit;
    var a := EnterPrevote(n, height, n.round, env);
    EnterPrevoteQuiet(n, height, n.round, env);
    QuietKeeps(g, good, n, a);
    SameChain(n, a);
    EnterPrecommitVouched(g, good, a, height, a.round, env);
    TryFinalizeCommitVouched(g, good, n, height, env);
  }

  lemma HandleCompleteProposalVouched(g: Genesis, good: Rule, n: Node, height: nat, env: Env)
    requires Vouched(g, good, n) && Judges(good, n.chain, env)
    ensures Vouched(g, good, HandleCompleteProposal(n, height, env))
  {
    hide MoveOnWithBlock, Judges;
    var two := Majority(n, n.round, Prevote).Some?;
    var a := n.(validRound := n.round, validBlock := n.proposalBlock, validParts := n.proposalParts);
    QuietKeeps(g, good, n, a);
    MoveOnVouched(g, good, n, height, two, env);
    MoveOnVouched(g, good, a, height, two, env);
  }

  lemma HandleTimeoutVouched(g: Genesis, good: Rule, n: Node, t: Timeout, env: Env)
    requires Vouched(g, good, n) && Judges(good, n.chain, env)
    ensures Vouched(g, good, HandleTimeout(n, t, env))
  {
    QuietKeeps(g, good, n, Halt(n));
    hide Vouched, Quiet, Judges, EnterNewRound, EnterPropose, EnterPrevote, EnterPrecommit;
    EnterNewRoundQuiet(n, t.height, 0, env);
    QuietKeeps(g, good, n, EnterNewRound(n, t.height, 0, env));
    EnterProposeQuiet(n, t.height, t.round, env);
    QuietKeeps(g, good, n, EnterPropose(n, t.height, t.round, env));
    EnterPrevoteQuiet(n, t.height, t.round, env);
    QuietKeeps(g, good, n, EnterPrevote(n, t.height, t.round, env));
    var a := EnterPrecommit(n, t.height, t.round, env);
    EnterPrecommitVouched(g, good, n, t.height, t.round, env);
    EnterNewRoundQuiet(a, t.height, t.round + 1, env);
    QuietKeeps(g, good, a, EnterNewRound(a, t.height, t.round + 1, env));
  }

  /** No turn makes a node stand for a block that its validation did not let through. */
  lemma HandleVouched(g: Genesis, good: Rule, n: Node, e: Event, env: Env)
    requires Vouched(g, good, n) && Judges(good, n.chain, env)
    ensures Vouched(g, good, Handle(g, n, e, env))
  {
    match e
    case ProposalMsg(p) => QuietKeeps(g, good, n, SetProposal(n, p, env));
    case CompleteBlockMsg(h, b) =>
      hide HandleCompleteProposal, Judges;
      var a := if b.Some? then n.(proposalBlock := b) else n;
      QuietKeeps(g, good, n, a);
      HandleCompleteProposalVouched(g, good, a, h, env);
    case VoteMsg(v) => AddVoteVouched(g, good, n, v, env);
    case TimeoutMsg(t) => HandleTimeoutVouched(g, good, n, t, env);
    case TxsAvailable =>
      QuietKeeps(g, good, n, Schedule(n, n.height, 0, NEW_ROUND));
      hide EnterPropose, Vouched, Quiet;
      EnterProposeQuiet(n, n.height, 0, env);
      QuietKeeps(g, good, n, EnterPropose(n, n.height, 0, env));
  }

  // ---- over whole runs ----

  ghost predicate JudgedStep(g: Genesis, good: Rule, s: Net, s': Net, p: nat, e: Event, env: Env) {
    NodeStep(g, s, s', p, e, env) && Judges(good, s.nodes[p].chain, env)
  }

  ghost predicate JudgedNext(g: Genesis, good: Rule, s: Net, s': Net) {
    || (exists p, e, env :: JudgedStep(g, good, s, s', p, e, env))
    || (exists v :: FaultyStep(s, s', v))
  }

  /** A run of the network whose correct nodes validate by the rule; the others do as they like. */
  ghost predicate JudgedRun(g: Genesis, good: Rule, run: seq<Net>) {
    && |run| > 0 && Init(g, run[0])
    && forall i: nat | i + 1 < |run| :: JudgedNext(g, good, run[i], run[i + 1])
  }

  ghost predicate AllVouched(g: Genesis, good: Rule, s: Net) {
    forall p | p in s.nodes :: Vouched(g, good, s.nodes[p])
  }

  lemma JudgedNextKeeps(g: Genesis, good: Rule, s: Net, s': Net)
    requires AllVouched(g, good, s) && JudgedNext(g, good, s, s')
    ensures AllVouched(g, good, s') && Next(g, s, s')
  {
    hide Vouched, Handle, Judges;
    if p, e, env :| JudgedStep(g, good, s, s', p, e, env) {
      assert NodeStep(g, s, s', p, e, env);
      HandleVouched(g, good, s.nodes[p], e, env);
    }
  }

  /** In every such run, all a correct node ever locks, precommits or commits is valid, whatever the others do. */
  lemma {:induction false} JudgedRunKeeps(g: Genesis, good: Rule, run: seq<Net>, i: nat)
    requires JudgedRun(g, good, run) && i < |run|
    ensures AllVouched(g, good, run[i])
  {
    if i > 0 {
      JudgedRunKeeps(g, good, run, i - 1);
      assert JudgedNext(g, good, run[i - 1], run[i - 1 + 1]);
      JudgedNextKeeps(g, good, run[i - 1], run[i]);
    }
  }

  lemma JudgedRunIsRun(g: Genesis, good: Rule, run: seq<Net>)
    requires JudgedRun(g, good, run)
    ensures Run(g, run)
  {
    hide JudgedNext, Next;
    forall i: nat | i + 1 < |run|
      ensures Next(g, run[i], run[i + 1])
    {
      JudgedRunKeeps(g, good, run, i);
      JudgedNextKeeps(g, good, run[i], run[i + 1]);
    }
  }
}
