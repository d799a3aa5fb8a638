/**
 The consensus state machine as the code has it: one object whose fields are
 changed in place. Every method gives the value of the function of the same name in
 `Steps`, and keeps a disciplined node disciplined (`Discipline.Step`): votes, locks
 and commits stay backed, and height, round and step do not go back.
 */
module ConsensusState {
  import opened Options
  import opened RoundState
  import S = Steps
  import D = Discipline

  class State {
    const g: Genesis
    const validator: nat
    var height: nat
    var round: int
    var step: nat
    var proposal: Option<Proposal>
    var proposalBlock: Option<Block>
    var proposalParts: Option<PartsHeader>
    var lockedRound: int
    var lockedBlock: Option<Block>
    var lockedParts: Option<PartsHeader>
    var validRound: int
    var validBlock: Option<Block>
    var validParts: Option<PartsHeader>
    var votes: set<Vote>
    var majority: map<SetKey, BlockID>
    var commitRound: int
    var triggeredTimeoutPrecommit: bool
    var chain: seq<Hash>
    var signed: set<Vote>
    var timeouts: set<Timeout>
    var halted: bool

    function View(): Node
      reads this
    {
      Node(validator, height, round, step, proposal, proposalBlock, proposalParts, lockedRound, lockedBlock, lockedParts,
           validRound, validBlock, validParts, votes, majority, commitRound, triggeredTimeoutPrecommit, chain, signed,
           timeouts, halted)
    }

    constructor (g: Genesis, validator: nat)
      requires g.initialHeight >= 1
      ensures this.g == g && View() == S.Initial(g, validator) && D.Inv(g, View())
    {
      this.g, this.validator := g, validator;
      height, round, step := g.initialHeight, 0, NEW_HEIGHT;
      proposal, proposalBlock, proposalParts := None, None, None;
      lockedRound, lockedBlock, lockedParts := -1, None, None;
      validRound, validBlock, validParts := -1, None, None;
      votes, majority := {}, map[];
      commitRound, triggeredTimeoutPrecommit := -1, false;
      chain, signed, halted := [], {}, false;
      timeouts := {Timeout(g.initialHeight, 0, NEW_HEIGHT)};
      new;
      D.Starts(g, validator);
    }

    method ScheduleTimeout(height: nat, round: int, step: nat)
      modifies this`timeouts
      ensures View() == S.Schedule(old(View()), height, round, step)
    {
      timeouts := timeouts + {Timeout(height, round, step)};
    }

    method SignAddVote(kind: VoteType, id: BlockID, env: Env)
      modifies this`signed
      ensures View() == S.SignAddVote(old(View()), kind, id, env)
      ensures old(signed) <= signed
      ensures forall v | v in signed && v !in old(signed) :: D.OwnVote(View(), kind, v) && v.id == id
      ensures old(D.SignedOnce(View()) && step < D.StepOf(kind)) ==> D.NoDoubleVote(signed)
    {
      if D.SignedOnce(View()) && step < D.StepOf(kind) {
        D.SignsNothingTwice(View(), kind, id, env);
      }
      hide D.SignedOnce, D.NoDoubleVote;
      if round < 0 { return; }
      var vote := Vote(validator, height, round, kind, id);
      if env.signs(vote) {
        signed := signed + {vote};
      }
    }

    method EnterNewRound(height: nat, round: int, env: Env)
      modifies this
      ensures View() == S.EnterNewRound(old(View()), height, round, env)
      ensures old(D.Inv(g, View())) ==> D.Step(g, old(View()), View())
    {
      if D.Inv(g, View()) {
        D.EnterNewRoundKeeps(g, View(), height, round, env);
      }
      hide D.Inv, D.Progress, D.Step;
      if halted || this.height != height || round < this.round || (this.round == round && step != NEW_HEIGHT) {
        return;
      }
      hide S.EnterPropose, S.Schedule;
      ResetRound(round);
      if env.waitForTxs && round == 0 && !env.needProofBlock {
        if env.emptyBlocksInterval {
          ScheduleTimeout(height, round, NEW_ROUND);
        }
      } else {
        EnterPropose(height, round, env);
      }
    }

    method ClearProposal()
      modifies this`proposal, this`proposalBlock, this`proposalParts
      ensures View() == old(View()).(proposal := None, proposalBlock := None, proposalParts := None)
    {
      proposal, proposalBlock, proposalParts := None, None, None;
    }

    method ResetRound(round: int)
      modifies this`round, this`step, this`proposal, this`proposalBlock, this`proposalParts, this`triggeredTimeoutPrecommit
      ensures View() == S.ResetRound(old(View()), round)
    {
      this.round, step, triggeredTimeoutPrecommit := round, NEW_ROUND, false;
      if round != 0 {
        ClearProposal();
      }
    }

    method UpdateRoundStep(round: int, step: nat)
      modifies this`round, this`step
      ensures View() == old(View()).(round := round, step := step)
    {
      this.round, this.step := round, step;
    }

    method EnterPropose(height: nat, round: int, env: Env)
      modifies this
      ensures View() == S.EnterPropose(old(View()), height, round, env)
      ensures old(D.Inv(g, View()) && (this.height == height ==> round <= this.round)) ==> D.Step(g, old(View()), View())
    {
      if D.Inv(g, View()) && (this.height == height ==> round <= this.round) {
        D.EnterProposeKeeps(g, View(), height, round, env);
      }
      hide D.Inv, D.Progress, D.Step;
      if halted || this.height != height || round < this.round || (this.round == round && PROPOSE <= step) {
        return;
      }
      ScheduleTimeout(height, round, PROPOSE);
      UpdateRoundStep(round, PROPOSE);
      if ProposalComplete(View()) {
        EnterPrevote(height, this.round, env);
      }
    }

    method EnterPrevote(height: nat, round: int, env: Env)
      modifies this
      ensures View() == S.EnterPrevote(old(View()), height, round, env)
      ensures old(D.Inv(g, View()) && (this.height == height ==> round <= this.round)) ==> D.Step(g, old(View()), View())
    {
      if D.Inv(g, View()) && (this.height == height ==> round <= this.round) {
        D.EnterPrevoteKeeps(g, View(), height, round, env);
      }
      hide D.Inv, D.Progress, D.Step, D.PrevoteJustified, S.DoPrevote;
      if halted || this.height != height || round < this.round || (this.round == round && PREVOTE <= step) {
        return;
      }
      DoPrevote(env);
      UpdateRoundStep(round, PREVOTE);
    }

    method DoPrevote(env: Env)
      modifies this`signed
      ensures View() == S.DoPrevote(old(View()), env)
      ensures forall v | v in signed && v !in old(signed) :: D.PrevoteJustified(old(View()), env, v)
      ensures old(D.Inv(g, View()) && step < PREVOTE) ==> D.Step(g, old(View()), View().(step := PREVOTE))
    {
      D.PrevotesJustified(View(), env);
      if D.Inv(g, View()) && step < PREVOTE {
        D.DoPrevoteKeeps(g, View(), env);
      }
      hide D.Inv, D.Progress, D.Step, D.PrevoteJustified;
      if lockedBlock.Some? {
        SignAddVote(Prevote, BlockID(lockedBlock.value.hash, HeaderOf(lockedParts)), env);
        return;
      }
      if proposalBlock.None? {
        SignAddVote(Prevote, NIL_ID, env);
        return;
      }
      if !env.valid(proposalBlock.value) {
        SignAddVote(Prevote, NIL_ID, env);
        return;
      }
      if !env.accepted(proposalBlock.value) {
        SignAddVote(Prevote, NIL_ID, env);
        return;
      }
      SignAddVote(Prevote, BlockID(proposalBlock.value.hash, HeaderOf(proposalParts)), env);
    }

    method EnterPrevoteWait(height: nat, round: int)
      modifies this
      ensures View() == S.EnterPrevoteWait(g, old(View()), height, round)
      ensures old(D.Inv(g, View()) && (this.height == height ==> round <= this.round)) ==> D.Step(g, old(View()), View())
    {
      if D.Inv(g, View()) && (this.height == height ==> round <= this.round) {
        D.EnterPrevoteWaitKeeps(g, View(), height, round);
      }
      hide D.Inv, D.Progress, D.Step;
      if halted || this.height != height || round < this.round || (this.round == round && PREVOTE_WAIT <= step) {
        return;
      }
      if !TwoThirdsAny(g, View(), round, Prevote) {
        halted := true;
        return;
      }
      ScheduleTimeout(height, round, PREVOTE_WAIT);
      UpdateRoundStep(round, PREVOTE_WAIT);
    }

    method Unlock()
      modifies this`lockedRound, this`lockedBlock, this`lockedParts
      ensures View() == S.Unlock(old(View()))
    {
      lockedRound, lockedBlock, lockedParts := -1, None, None;
    }

    method EnterPrecommit(height: nat, round: int, env: Env)
      modifies this
      ensures View() == S.EnterPrecommit(old(View()), height, round, env)
      ensures old(D.Inv(g, View()) && (this.height == height ==> round <= this.round)) ==> D.Step(g, old(View()), View())
    {
      if D.Inv(g, View()) && (this.height == height ==> round <= this.round) {
        D.EnterPrecommitKeeps(g, View(), height, round, env);
      }
      hide D.Inv, D.Progress, D.Step, D.PrecommitJustified, S.DoPrecommit;
      if halted || this.height != height || round < this.round || (this.round == round && PRECOMMIT <= step) {
        return;
      }
      DoPrecommit(round, env);
      UpdateRoundStep(round, PRECOMMIT);
    }

    method DoPrecommit(round: int, env: Env)
      modifies this`lockedRound, this`lockedBlock, this`lockedParts, this`proposalBlock, this`proposalParts
      modifies this`signed, this`halted
      ensures View() == S.DoPrecommit(old(View()), round, env)
      ensures forall v | v in signed && v !in old(signed) :: D.PrecommitJustified(View(), round, v)
      ensures old(D.Inv(g, View()) && step < PRECOMMIT && round == this.round) ==>
        D.Step(g, old(View()), View().(step := PRECOMMIT))
    {
      D.PrecommitsJustified(View(), round, env);
      if D.Inv(g, View()) && step < PRECOMMIT && round == this.round {
        D.DoPrecommitKeeps(g, View(), env);
      }
      hide *;
      LockAndPrecommit(round, env);
    }

    method LockAndPrecommit(round: int, env: Env)
      modifies this`lockedRound, this`lockedBlock, this`lockedParts, this`proposalBlock, this`proposalParts
      modifies this`signed, this`halted
      ensures View() == S.DoPrecommit(old(View()), round, env)
    {
      hide S.SignAddVote, D.OwnVote, D.SignedOnce, D.NoDoubleVote;
      var polka := Majority(View(), round, Prevote);
      if polka.None? {
        SignAddVote(Precommit, NIL_ID, env);
        return;
      }
      var id := polka.value;
      if id.hash == "" {
        Unlock();
        SignAddVote(Precommit, NIL_ID, env);
        return;
      }
      if HashesTo(lockedBlock, id.hash) {
        lockedRound := round;
        SignAddVote(Precommit, id, env);
        return;
      }
      if HashesTo(proposalBlock, id.hash) {
        if !env.valid(proposalBlock.value) {
          halted := true;
          return;
        }
        LockProposal(round);
        SignAddVote(Precommit, id, env);
        return;
      }
      Unlock();
      if !HasHeader(proposalParts, id.parts) {
        AwaitParts(id.parts);
      }
      SignAddVote(Precommit, NIL_ID, env);
    }

    method LockProposal(round: int)
      modifies this`lockedRound, this`lockedBlock, this`lockedParts
      ensures View() == old(View()).(lockedRound := round, lockedBlock := proposalBlock, lockedParts := proposalParts)
    {
      lockedRound, lockedBlock, lockedParts := round, proposalBlock, proposalParts;
    }

    method AwaitParts(parts: PartsHeader)
      modifies this`proposalBlock, this`proposalParts
      ensures View() == old(View()).(proposalBlock := None, proposalParts := Some(parts))
    {
      proposalBlock, proposalParts := None, Some(parts);
    }

    method MarkValid(round: int)
      modifies this`validRound, this`validBlock, this`validParts
      ensures View() == old(View()).(validRound := round, validBlock := proposalBlock, validParts := proposalParts)
    {
      validRound, validBlock, validParts := round, proposalBlock, proposalParts;
    }

    method EnterPrecommitWait(height: nat, round: int)
      modifies this
      ensures View() == S.EnterPrecommitWait(g, old(View()), height, round)
      ensures old(D.Inv(g, View()) && (this.height == height ==> round <= this.round)) ==> D.Step(g, old(View()), View())
    {
      if D.Inv(g, View()) && (this.height == height ==> round <= this.round) {
        D.EnterPrecommitWaitKeeps(g, View(), height, round);
      }
      hide D.Inv, D.Progress, D.Step;
      if halted || this.height != height || round < this.round || (this.round == round && triggeredTimeoutPrecommit) {
        return;
      }
      if !TwoThirdsAny(g, View(), round, Precommit) {
        halted := true;
        return;
      }
      ScheduleTimeout(height, round, PRECOMMIT_WAIT);
      triggeredTimeoutPrecommit := true;
    }

    /** +2/3 precommits for a block in this round. */
    predicate HasDecision(round: int)
      reads this
    {
      Majority(View(), round, Precommit).Some? && Majority(View(), round, Precommit).value.hash != ""
    }

    function Decision(round: int): Hash
      requires HasDecision(round)
      reads this
    {
      Majority(View(), round, Precommit).value.hash
    }

    method EnterCommit(height: nat, commitRound: int, env: Env)
      modifies this
      ensures View() == S.EnterCommit(old(View()), height, commitRound, env)
      ensures old(D.Inv(g, View()) && 0 <= commitRound && (this.height == height ==> HasDecision(commitRound))) ==> D.Step(g, old(View()), View())
    {
      if D.Inv(g, View()) && 0 <= commitRound && (this.height == height ==> HasDecision(commitRound)) {
        D.EnterCommitKeeps(g, View(), height, commitRound, env);
      }
      hide D.Inv, D.Progress, D.Step;
      if halted || this.height != height || COMMIT <= step {
        return;
      }
      var m := Majority(View(), commitRound, Precommit);
      if m.None? {
        halted := true;
        return;
      }
      hide S.TryFinalizeCommit, S.AimAt;
      AimAt(m.value);
      BeginCommit(commitRound);
      TryFinalizeCommit(height, env);
    }

    method BeginCommit(commitRound: int)
      modifies this`step, this`commitRound
      ensures View() == old(View()).(step := COMMIT, commitRound := commitRound)
    {
      step, this.commitRound := COMMIT, commitRound;
    }

    method AimAt(id: BlockID)
      modifies this`proposalBlock, this`proposalParts
      ensures View() == S.AimAt(old(View()), id)
    {
      if HashesTo(lockedBlock, id.hash) {
        proposalBlock, proposalParts := lockedBlock, lockedParts;
      }
      if !HashesTo(proposalBlock, id.hash) {
        if !HasHeader(proposalParts, id.parts) {
          AwaitParts(id.parts);
        }
      }
    }

    method TryFinalizeCommit(height: nat, env: Env)
      modifies this
      ensures View() == S.TryFinalizeCommit(old(View()), height, env)
      ensures old(D.Inv(g, View())) ==> D.Step(g, old(View()), View())
    {
      if D.Inv(g, View()) {
        D.TryFinalizeCommitKeeps(g, View(), height, env);
      }
      hide D.Inv, D.Progress, D.Step;
      if halted { return; }
      if this.height != height {
        halted := true;
        return;
      }
      var m := Majority(View(), commitRound, Precommit);
      if m.None? || m.value.hash == "" { return; }
      if !HashesTo(proposalBlock, m.value.hash) { return; }
      FinalizeCommit(height, m.value, env);
    }

    method FinalizeCommit(height: nat, id: BlockID, env: Env)
      modifies this
      ensures View() == S.FinalizeCommit(old(View()), height, id, env)
      ensures old(D.Inv(g, View()) && Majority(View(), commitRound, Precommit) == Some(id)) ==>
        D.Step(g, old(View()), View())
      ensures chain == old(chain) || (chain == old(chain) + [id.hash] && old(step == COMMIT && HashesTo(proposalBlock, id.hash)))
    {
      if D.Inv(g, View()) && Majority(View(), commitRound, Precommit) == Some(id) {
        D.FinalizeCommitKeeps(g, View(), height, id, env);
      }
      hide D.Inv, D.Progress, D.Step, S.UpdateToState;
      if this.height != height || step != COMMIT { return; }
      if !HasHeader(proposalParts, id.parts) || !HashesTo(proposalBlock, id.hash) {
        halted := true;
        return;
      }
      if !env.valid(proposalBlock.value) || !env.applies {
        halted := true;
        return;
      }
      UpdateToState(id.hash);
    }

    method UpdateToState(committed: Hash)
      modifies this
      ensures View() == S.UpdateToState(old(View()), committed) && chain == old(chain) + [committed]
      ensures old(D.Inv(g, View()) && HasDecision(commitRound) && 0 <= commitRound && Decision(commitRound) == committed) ==>
        D.Step(g, old(View()), View())
    {
      if D.Inv(g, View()) && HasDecision(commitRound) && 0 <= commitRound && Decision(commitRound) == committed {
        D.UpdateToStateKeeps(g, View(), committed, Majority(View(), commitRound, Precommit).value);
      }
      hide D.Inv, D.Progress, D.Step;
      ghost var n := View();
      ClearProposal();
      Unlock();
      ClearValid();
      assert View() == n.(proposal := None, proposalBlock := None, proposalParts := None,
                          lockedRound := -1, lockedBlock := None, lockedParts := None,
                          validRound := -1, validBlock := None, validParts := None);
      StartHeight(committed);
    }

    method ClearValid()
      modifies this`validRound, this`validBlock, this`validParts
      ensures View() == old(View()).(validRound := -1, validBlock := None, validParts := None)
    {
      validRound, validBlock, validParts := -1, None, None;
    }

    method StartHeight(committed: Hash)
      modifies this`height, this`round, this`step, this`commitRound, this`triggeredTimeoutPrecommit
      modifies this`chain, this`timeouts
      ensures View() == old(View()).(height := old(height) + 1, round := 0, step := NEW_HEIGHT, commitRound := -1,
                                     triggeredTimeoutPrecommit := false, chain := old(chain) + [committed],
                                     timeouts := old(timeouts) + {Timeout(old(height) + 1, 0, NEW_HEIGHT)})
    {
      chain, commitRound, triggeredTimeoutPrecommit := chain + [committed], -1, false;
      ghost var n := View();
      MoveTo(height + 1, 0, NEW_HEIGHT);
      assert View() == n.(height := n.height + 1, round := 0, step := NEW_HEIGHT);
      ScheduleTimeout(height, 0, NEW_HEIGHT);
    }

    method MoveTo(height: nat, round: int, step: nat)
      modifies this`height, this`round, this`step
      ensures View() == old(View()).(height := height, round := round, step := step)
    {
      this.height, this.round, this.step := height, round, step;
    }

    method AddVote(vote: Vote, env: Env)
      modifies this
      ensures View() == S.AddVote(g, old(View()), vote, env)
      ensures old(D.Inv(g, View())) ==> D.Step(g, old(View()), View())
    {
      if D.Inv(g, View()) {
        D.AddVoteKeeps(g, View(), vote, env);
      }
      hide D.Inv, D.Progress, D.Step;
      if halted { return; }
      if vote.height + 1 == height && vote.kind == Precommit {
        if step != NEW_HEIGHT { return; }
        if chain == [] {
          halted := true;
          return;
        }
        if env.lastCommitAdded && env.skipTimeoutCommit && env.lastCommitHasAll {
          EnterNewRound(height, 0, env);
        }
        return;
      }
      if vote.height != height || !env.added { return; }
      RecordVote(vote, env);
      if vote.kind == Prevote {
        OnPrevote(vote, env);
      } else {
        OnPrecommit(vote, env);
      }
    }

    method RecordVote(vote: Vote, env: Env)
      modifies this`votes, this`majority
      ensures View() == S.Record(g, old(View()), vote, env)
    {
      votes := votes + {vote};
      var k := SetKey(vote.height, vote.round, vote.kind);
      if env.reached && k !in majority && HasQuorum(g, chain, votes, k, vote.id) {
        majority := majority[k := vote.id];
      }
    }

    method UnlockOnPolka(round: int, id: BlockID)
      modifies this`lockedRound, this`lockedBlock, this`lockedParts
      ensures View() == S.UnlockOnPolka(old(View()), round, id)
      ensures old(D.Inv(g, View()) && Majority(View(), round, Prevote) == Some(id)) ==> D.Step(g, old(View()), View())
    {
      if D.Inv(g, View()) && Majority(View(), round, Prevote) == Some(id) {
        D.UnlockOnPolkaKeeps(g, View(), round, id);
      }
      hide D.Inv, D.Progress, D.Step;
      if lockedBlock.Some? && lockedRound < round && round <= this.round && !HashesTo(lockedBlock, id.hash) {
        Unlock();
      }
    }

    method UpdateValid(round: int, id: BlockID)
      modifies this`proposalBlock, this`proposalParts, this`validRound, this`validBlock, this`validParts
      ensures View() == S.UpdateValid(old(View()), round, id)
      ensures old(D.Inv(g, View())) ==> D.Step(g, old(View()), View())
    {
      if D.Inv(g, View()) {
        D.UpdateValidKeeps(g, View(), round, id);
      }
      hide D.Inv, D.Progress, D.Step;
      if id.hash != "" && validRound < round && round == this.round {
        if HashesTo(proposalBlock, id.hash) {
          MarkValid(round);
        } else {
          proposalBlock := None;
        }
        if !HasHeader(proposalParts, id.parts) {
          proposalParts := Some(id.parts);
        }
      }
    }

    method OnPrevote(vote: Vote, env: Env)
      modifies this
      ensures View() == S.OnPrevote(g, old(View()), vote, env)
      ensures old(D.Inv(g, View())) ==> D.Step(g, old(View()), View())
    {
      if D.Inv(g, View()) {
        D.OnPrevoteKeeps(g, View(), vote, env);
      }
      hide D.Inv, D.Progress, D.Step;
      var m := Majority(View(), vote.round, Prevote);
      hide S.UnlockOnPolka, S.UpdateValid, S.EnterNewRound, S.EnterPrecommit, S.EnterPrevoteWait, S.EnterPrevote;
      if m.Some? {
        UnlockOnPolka(vote.round, m.value);
        UpdateValid(vote.round, m.value);
      }
      if round < vote.round && TwoThirdsAny(g, View(), vote.round, Prevote) {
        EnterNewRound(height, vote.round, env);
      } else if round == vote.round && PREVOTE <= step {
        if m.Some? && (ProposalComplete(View()) || m.value.hash == "") {
          EnterPrecommit(height, vote.round, env);
        } else if TwoThirdsAny(g, View(), vote.round, Prevote) {
          EnterPrevoteWait(height, vote.round);
        }
      } else if proposal.Some? && 0 <= proposal.value.polRound && proposal.value.polRound == vote.round {
        if ProposalComplete(View()) {
          EnterPrevote(height, round, env);
        }
      }
    }

    method OnPrecommit(vote: Vote, env: Env)
      modifies this
      ensures View() == S.OnPrecommit(g, old(View()), vote, env)
      ensures old(D.Inv(g, View()) && !halted) ==> D.Step(g, old(View()), View())
    {
      if D.Inv(g, View()) && !halted {
        D.OnPrecommitKeeps(g, View(), vote, env);
      }
      hide D.Inv, D.Progress, D.Step;
      var h := height;
      var m := Majority(View(), vote.round, Precommit);
      var all := HasAll(g, View(), vote.round, Precommit);
      if m.Some? {
        EnterNewRound(h, vote.round, env);
        EnterPrecommit(h, vote.round, env);
        if m.value.hash != "" {
          EnterCommit(h, vote.round, env);
          if env.skipTimeoutCommit && all {
            EnterNewRound(height, 0, env);
          }
        } else {
          EnterPrecommitWait(h, vote.round);
        }
      } else if round <= vote.round && TwoThirdsAny(g, View(), vote.round, Precommit) {
        EnterNewRound(h, vote.round, env);
        EnterPrecommitWait(h, vote.round);
      }
    }

    method SetProposal(p: Proposal, env: Env)
      modifies this
      ensures View() == S.SetProposal(old(View()), p, env)
      ensures old(D.Inv(g, View())) ==> D.Step(g, old(View()), View())
    {
      if D.Inv(g, View()) {
        D.StaysPut(g, View(), S.SetProposal(View(), p, env));
      }
      hide D.Inv, D.Progress, D.Step;
      if halted || proposal.Some? { return; }
      if p.height != height || p.round != round { return; }
      if p.polRound < -1 || (p.polRound >= 0 && p.polRound >= p.round) || !env.added { return; }
      proposal := Some(p);
      if proposalParts.None? {
        proposalParts := Some(p.id.parts);
      }
    }

    method AddCompleteBlock(height: nat, block: Option<Block>, env: Env)
      modifies this
      ensures View() == S.AddCompleteBlock(old(View()), height, block, env)
      ensures old(D.Inv(g, View())) ==> D.Step(g, old(View()), View())
    {
      if D.Inv(g, View()) {
        D.AddCompleteBlockKeeps(g, View(), height, block, env);
      }
      hide D.Inv, D.Progress, D.Step;
      if halted || this.height != height || proposalParts.None? || !env.added { return; }
      if block.Some? {
        proposalBlock := block;
      }
      HandleCompleteProposal(height, env);
    }

    method HandleCompleteProposal(height: nat, env: Env)
      modifies this
      ensures View() == S.HandleCompleteProposal(old(View()), height, env)
      ensures old(D.Inv(g, View()) && this.height == height) ==> D.Step(g, old(View()), View())
    {
      if D.Inv(g, View()) && this.height == height {
        D.HandleCompleteProposalKeeps(g, View(), height, env);
      }
      hide D.Inv, D.Progress, D.Step;
      hide S.MoveOnWithBlock;
      if proposalBlock.None? {
        halted := true;
        return;
      }
      var m := Majority(View(), round, Prevote);
      if m.Some? && validRound < round && HashesTo(proposalBlock, m.value.hash) {
        MarkValid(round);
      }
      MoveOnWithBlock(height, m.Some?, env);
    }

    method MoveOnWithBlock(height: nat, hasTwoThirds: bool, env: Env)
      modifies this
      ensures View() == S.MoveOnWithBlock(old(View()), height, hasTwoThirds, env)
      ensures old(D.Inv(g, View()) && this.height == height) ==> D.Step(g, old(View()), View())
    {
      if D.Inv(g, View()) && this.height == height {
        D.MoveOnKeeps(g, View(), height, hasTwoThirds, env);
      }
      hide D.Inv, D.Progress, D.Step;
      hide S.EnterPrevote, S.EnterPrecommit, S.TryFinalizeCommit;
      if step <= PROPOSE && ProposalComplete(View()) {
        EnterPrevote(height, round, env);
        if hasTwoThirds {
          EnterPrecommit(height, round, env);
        }
      } else if step == COMMIT {
        TryFinalizeCommit(height, env);
      }
    }

    method HandleTimeout(t: Timeout, env: Env)
      modifies this
      ensures View() == S.HandleTimeout(old(View()), t, env)
      ensures old(D.Inv(g, View()) && t in timeouts) ==> D.Step(g, old(View()), View())
    {
      if D.Inv(g, View()) && t in timeouts {
        D.HandleTimeoutKeeps(g, View(), t, env);
      }
      hide D.Inv, D.Progress, D.Step;
      if halted { return; }
      if t.height != height || t.round < round || (t.round == round && t.step < step) { return; }
      if t.step == NEW_HEIGHT {
        EnterNewRound(t.height, 0, env);
      } else if t.step == NEW_ROUND {
        EnterPropose(t.height, t.round, env);
      } else if t.step == PROPOSE {
        EnterPrevote(t.height, t.round, env);
      } else if t.step == PREVOTE_WAIT {
        EnterPrecommit(t.height, t.round, env);
      } else if t.step == PRECOMMIT_WAIT {
        EnterPrecommit(t.height, t.round, env);
        EnterNewRound(t.height, t.round + 1, env);
      } else {
        halted := true;
      }
    }

    method HandleTxsAvailable(env: Env)
      modifies this
      ensures View() == S.HandleTxsAvailable(old(View()), env)
      ensures old(D.Inv(g, View())) ==> D.Step(g, old(View()), View())
    {
      if D.Inv(g, View()) {
        D.HandleTxsAvailableKeeps(g, View(), env);
      }
      hide D.Inv, D.Progress, D.Step;
      if halted || round != 0 { return; }
      if step == NEW_HEIGHT {
        if env.needProofBlock { return; }
        ScheduleTimeout(height, 0, NEW_ROUND);
      } else if step == NEW_ROUND {
        EnterPropose(height, 0, env);
      }
    }

    /** One turn of the receive routine; the discipline survives it. */
    method Receive(e: S.Event, env: Env)
      requires D.Inv(g, View()) && (e.TimeoutMsg? ==> e.timeout in timeouts)
      modifies this
      ensures View() == S.Handle(g, old(View()), e, env)
      ensures D.Step(g, old(View()), View())
    {
      D.Keeps(g, View(), e, env);
      match e
      case ProposalMsg(p) => SetProposal(p, env);
      case CompleteBlockMsg(h, b) => AddCompleteBlock(h, b, env);
      case VoteMsg(v) => AddVote(v, env);
      case TimeoutMsg(t) => HandleTimeout(t, env);
      case TxsAvailable => HandleTxsAvailable(env);
    }
  }
}
