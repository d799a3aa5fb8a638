/**
 The network models are not empty: a single validator, alone, commits a block in five
 turns of its receive routine; and it may crash.
 */
module Solo {
  import opened Options
  import opened Power
  import opened RoundState
  import opened Steps
  import opened Agreement
  import opened Discipline
  import opened Validity
  import Restarts
  import Replay

  const ID := BlockID("A", "P")
  const GENESIS := Genesis(1, _ => [1])
  const ENV := Env(false, false, false, false, _ => true, b => b == Block("A"), _ => true, true, true, true, true, true)
  const ONLY_A: Rule := (_, b) => b == Block("A")
  const START := Timeout(1, 0, NEW_HEIGHT)
  const PREVOTED := Vote(0, 1, 0, Prevote, ID)
  const PRECOMMITTED := Vote(0, 1, 0, Precommit, ID)

  function Turn(k: nat): Event
    requires k < 5
  {
    if k == 0 then TimeoutMsg(START)
    else if k == 1 then ProposalMsg(Proposal(1, 0, -1, ID))
    else if k == 2 then CompleteBlockMsg(1, Some(Block("A")))
    else if k == 3 then VoteMsg(PREVOTED)
    else VoteMsg(PRECOMMITTED)
  }

  function NodeAfter(k: nat): Node
    requires k <= 5
  {
    if k == 0 then Initial(GENESIS, 0) else Handle(GENESIS, NodeAfter(k - 1), Turn(k - 1), ENV)
  }

  lemma AfterPropose()
    ensures NodeAfter(2).step == PROPOSE && NodeAfter(2).proposal == Some(Proposal(1, 0, -1, ID))
    ensures NodeAfter(2) == Initial(GENESIS, 0).(step := PROPOSE, proposal := Some(Proposal(1, 0, -1, ID)),
      proposalParts := Some("P"), timeouts := NodeAfter(2).timeouts)
  {
    var n := NodeAfter(1);
    assert n == Initial(GENESIS, 0).(step := PROPOSE, timeouts := n.timeouts);
  }

  lemma AfterPrevote()
    ensures NodeAfter(3) == NodeAfter(2).(proposalBlock := Some(Block("A")), step := PREVOTE, signed := {PREVOTED})
  {
    AfterPropose();
  }

  lemma OneVoteIsAQuorum(votes: set<Vote>, v: Vote)
    requires v in votes && v.validator == 0 && v.height == 1
    ensures HasQuorum(GENESIS, [], votes, SetKey(1, v.round, v.kind), v.id)
  {
    var voters := Voters(votes, SetKey(1, v.round, v.kind), v.id);
    assert 0 in voters;
    assert PowerUpTo([1], voters, 1) == PowerUpTo([1], voters, 0) + 1;
    assert TotalUpTo([1], 1) == TotalUpTo([1], 0) + 1;
  }

  lemma AfterPrecommit()
    ensures var n := NodeAfter(4);
      && n.height == 1 && n.round == 0 && n.step == PRECOMMIT && !n.halted && n.chain == []
      && n.signed == {PREVOTED, PRECOMMITTED} && n.lockedBlock == Some(Block("A")) && n.lockedParts == Some("P")
      && SetKey(1, 0, Precommit) !in n.majority
  {
    AfterPropose();
    AfterPrevote();
    var n := NodeAfter(3);
    OneVoteIsAQuorum(n.votes + {PREVOTED}, PREVOTED);
    var n1 := Record(GENESIS, n, PREVOTED, ENV);
    assert n1 == n.(votes := {PREVOTED}, majority := map[SetKey(1, 0, Prevote) := ID]);
  }

  lemma CommitTurn(n: Node)
    requires n.height == 1 && n.round == 0 && n.step == PRECOMMIT && !n.halted && n.chain == []
    requires n.lockedBlock == Some(Block("A")) && n.lockedParts == Some("P") && SetKey(1, 0, Precommit) !in n.majority
    ensures AddVote(GENESIS, n, PRECOMMITTED, ENV).chain == ["A"]
  {
    OneVoteIsAQuorum(n.votes + {PRECOMMITTED}, PRECOMMITTED);
    var n1 := Record(GENESIS, n, PRECOMMITTED, ENV);
    assert n1 == n.(votes := n.votes + {PRECOMMITTED}, majority := n.majority[SetKey(1, 0, Precommit) := ID]);
    assert EnterPrecommit(EnterNewRound(n1, 1, 0, ENV), 1, 0, ENV) == n1;
    assert EnterCommit(n1, 1, 0, ENV).chain == ["A"];
  }

  function NetAfter(k: nat): Net
    requires k <= 5
  {
    Net(map[0 := NodeAfter(k)], if k == 0 then {} else NetAfter(k - 1).votes + NodeAfter(k).signed)
  }

  lemma TakesTurn(k: nat)
    requires k < 5
    ensures JudgedStep(GENESIS, ONLY_A, NetAfter(k), NetAfter(k + 1), 0, Turn(k), ENV)
  {
    if k == 3 {
      AfterPrevote();
    } else if k == 4 {
      AfterPrecommit();
    }
    hide Handle;
  }

  /** A run of the network model, within the fault assumption, that commits a valid block. */
  lemma SomeRunCommits() returns (run: seq<Net>)
    ensures JudgedRun(GENESIS, ONLY_A, run) && Run(GENESIS, run)
    ensures forall j: nat | j < |run| :: FaultAssumption(GENESIS, run[j])
    ensures |run| == 6 && run[5].nodes.Keys == {0} && run[5].nodes[0].chain == ["A"] && PRECOMMITTED in run[5].votes
  {
    hide NodeAfter, Handle, Turn, Initial, AddVote, JudgedStep, Init, FaultAssumption;
    run := seq(6, k requires 0 <= k < 6 => NetAfter(k));
    forall k: nat | k + 1 < |run| ensures JudgedNext(GENESIS, ONLY_A, run[k], run[k + 1]) {
      TakesTurn(k);
    }
    AfterPrecommit();
    CommitTurn(NodeAfter(4));
    FinalNode();
    FirstNet();
    assert PRECOMMITTED in NetAfter(4).votes;
    JudgedRunIsRun(GENESIS, ONLY_A, run);
    forall j: nat | j < |run| ensures FaultAssumption(GENESIS, run[j]) {
      NobodyFaulty(run[j]);
    }
  }

  lemma FinalNode()
    ensures NodeAfter(5) == AddVote(GENESIS, NodeAfter(4), PRECOMMITTED, ENV)
  {
  }

  lemma FirstNet()
    ensures Init(GENESIS, NetAfter(0))
  {
  }

  lemma NobodyFaulty(s: Net)
    requires 0 in s.nodes
    ensures FaultAssumption(GENESIS, s)
  {
    PowerEmpty([1]);
    assert Faulty(s, [1]) == {};
    assert TotalUpTo([1], 1) == TotalUpTo([1], 0) + 1;
  }

  // A crash

  function ProcAfter(k: nat): Restarts.Proc
    requires k <= 2
  {
    var n := Initial(GENESIS, 0);
    if k == 1 then
      Restarts.Proc(Handle(GENESIS, n, Turn(0), ENV), [Replay.Entry(Turn(0), ENV)], n, 0, {})
    else Restarts.Proc(n, [], n, 0, {})
  }

  function SysAfter(k: nat): Restarts.Sys
    requires k <= 2
  {
    Restarts.Sys(map[0 := ProcAfter(k)], {})
  }

  lemma TakesATurn()
    ensures Restarts.TurnStep(GENESIS, SysAfter(0), SysAfter(1), 0, Turn(0), ENV)
  {
    var x, n := ProcAfter(0), Handle(GENESIS, Initial(GENESIS, 0), Turn(0), ENV);
    assert n == Initial(GENESIS, 0).(step := PROPOSE, timeouts := n.timeouts);
    hide Handle;
    assert Restarts.Logged(x, n, Replay.Entry(Turn(0), ENV)) == ProcAfter(1);
    assert SysAfter(1).procs == SysAfter(0).procs[0 := ProcAfter(1)];
  }

  lemma Crashes()
    ensures Restarts.CrashStep(GENESIS, SysAfter(1), SysAfter(2), 0, 0, [])
  {
  }

  /** A run of the network with crashes, within the fault assumption, in which a turn is lost. */
  lemma SomeRunCrashes() returns (run: seq<Restarts.Sys>)
    ensures Restarts.SysRun(GENESIS, run) && Restarts.FewFaults(GENESIS, run)
    ensures |run| == 3 && 0 in run[1].procs && 0 in run[2].procs && run[1].procs[0].node != run[2].procs[0].node
  {
    run := [SysAfter(0), SysAfter(1), SysAfter(2)];
    TakesATurn();
    Crashes();
    forall i: nat | i < |run| ensures Restarts.SysFaultAssumption(GENESIS, run[i]) {
      NobodyFaulty(Restarts.Durable(run[i]));
      AnyChain(Restarts.Durable(run[i]));
    }
  }

  lemma AnyChain(s: Net)
    requires 0 in s.nodes
    ensures forall chain :: FaultyBelowThird(GENESIS, s, chain)
  {
    PowerEmpty([1]);
    assert Faulty(s, [1]) == {};
    assert TotalUpTo([1], 1) == TotalUpTo([1], 0) + 1;
  }
}
