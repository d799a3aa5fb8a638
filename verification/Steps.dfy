/**
 What each step of the consensus state machine does to a node, as functions.
 A panic becomes `halted`: the receive routine stops and nothing later in the
 same handler runs. A vote that is signed carries the node's own round, not the
 round the step was entered with.
 */
module Steps {
  import opened Options
  import opened RoundState

  datatype Event =
    | ProposalMsg(proposal: Proposal)
    | CompleteBlockMsg(height: nat, block: Option<Block>)
    | VoteMsg(vote: Vote)
    | TimeoutMsg(timeout: Timeout)
    | TxsAvailable

  function Initial(g: Genesis, validator: nat): Node {
    Node(validator, g.initialHeight, 0, NEW_HEIGHT, None, None, None, -1, None, None, -1, None, None,
         {}, map[], -1, false, [], {}, {Timeout(g.initialHeight, 0, NEW_HEIGHT)}, false)
  }

  function Halt(n: Node): (n': Node)
    ensures n'.votes == n.votes
  {
    n.(halted := true)
  }

  function Schedule(n: Node, height: nat, round: int, step: nat): (n': Node)
    ensures n'.votes == n.votes
  {
    n.(timeouts := n.timeouts + {Timeout(height, round, step)})
  }

  /** signAddVote with signVote: the vote is for the node's own height and round. */
  function SignAddVote(n: Node, kind: VoteType, id: BlockID, env: Env): (n': Node)
    ensures n'.votes == n.votes
  {
    if n.round < 0 then n
    else
      var v := Vote(n.validator, n.height, n.round, kind, id);
      if env.signs(v) then n.(signed := n.signed + {v}) else n
  }

  // ---- entering the steps of a round ----

  function EnterNewRound(n: Node, height: nat, round: int, env: Env): (n': Node)
    ensures n'.votes == n.votes
  {
    if n.halted || n.height != height || round < n.round || (n.round == round && n.step != NEW_HEIGHT) then n
    else
      var n1 := ResetRound(n, round);
      if env.waitForTxs && round == 0 && !env.needProofBlock then
        if env.emptyBlocksInterval then Schedule(n1, height, round, NEW_ROUND) else n1
      else EnterPropose(n1, height, round, env)
  }

  /** The fields enterNewRound sets; the proposal of round 0 may have come early and is kept. */
  function ResetRound(n: Node, round: int): (n': Node)
    ensures n'.votes == n.votes
  {
    if round != 0 then
      n.(round := round, step := NEW_ROUND, triggeredTimeoutPrecommit := false,
         proposal := None, proposalBlock := None, proposalParts := None)
    else n.(round := round, step := NEW_ROUND, triggeredTimeoutPrecommit := false)
  }

  function EnterPropose(n: Node, height: nat, round: int, env: Env): (n': Node)
    ensures n'.votes == n.votes
  {
    if n.halted || n.height != height || round < n.round || (n.round == round && PROPOSE <= n.step) then n
    else
      var n1 := Schedule(n, height, round, PROPOSE).(round := round, step := PROPOSE);
      if ProposalComplete(n1) then EnterPrevote(n1, height, n1.round, env) else n1
  }

  function EnterPrevote(n: Node, height: nat, round: int, env: Env): (n': Node)
    ensures n'.votes == n.votes
  {
    if n.halted || n.height != height || round < n.round || (n.round == round && PREVOTE <= n.step) then n
    else DoPrevote(n, env).(round := round, step := PREVOTE)
  }

  /** defaultDoPrevote: the locked block first, else the proposal if it is good, else nil. */
  function DoPrevote(n: Node, env: Env): (n': Node)
    ensures n'.votes == n.votes
  {
    if n.lockedBlock.Some? then
      SignAddVote(n, Prevote, BlockID(n.lockedBlock.value.hash, HeaderOf(n.lockedParts)), env)
    else if n.proposalBlock.None? || !env.valid(n.proposalBlock.value) || !env.accepted(n.proposalBlock.value) then
      SignAddVote(n, Prevote, NIL_ID, env)
    else
      SignAddVote(n, Prevote, BlockID(n.proposalBlock.value.hash, HeaderOf(n.proposalParts)), env)
  }

  function EnterPrevoteWait(g: Genesis, n: Node, height: nat, round: int): (n': Node)
    ensures n'.votes == n.votes
  {
    if n.halted || n.height != height || round < n.round || (n.round == round && PREVOTE_WAIT <= n.step) then n
    else if !TwoThirdsAny(g, n, round, Prevote) then Halt(n)
    else Schedule(n, height, round, PREVOTE_WAIT).(round := round, step := PREVOTE_WAIT)
  }

  function EnterPrecommit(n: Node, height: nat, round: int, env: Env): (n': Node)
    ensures n'.votes == n.votes
  {
    if n.halted || n.height != height || round < n.round || (n.round == round && PRECOMMIT <= n.step) then n
    else DoPrecommit(n, round, env).(round := round, step := PRECOMMIT)
  }

  function Unlock(n: Node): (n': Node)
    ensures n'.votes == n.votes
  {
    n.(lockedRound := -1, lockedBlock := None, lockedParts := None)
  }

  /** The body of enterPrecommit: no polka, polka for nil, relock, lock, or unlock. */
  function DoPrecommit(n: Node, round: int, env: Env): (n': Node)
    ensures n'.votes == n.votes
  {
    match Majority(n, round, Prevote)
    case None => SignAddVote(n, Precommit, NIL_ID, env)
    case Some(id) =>
      if id.hash == "" then
        SignAddVote(Unlock(n), Precommit, NIL_ID, env)
      else if HashesTo(n.lockedBlock, id.hash) then
        SignAddVote(n.(lockedRound := round), Precommit, id, env)
      else if HashesTo(n.proposalBlock, id.hash) then
        if !env.valid(n.proposalBlock.value) then Halt(n)
        else
          SignAddVote(n.(lockedRound := round, lockedBlock := n.proposalBlock, lockedParts := n.proposalParts),
                      Precommit, id, env)
      else
        var n1 := Unlock(n);
        var n2 := if HasHeader(n1.proposalParts, id.parts) then n1
                  else n1.(proposalBlock := None, proposalParts := Some(id.parts));
        SignAddVote(n2, Precommit, NIL_ID, env)
  }

  function EnterPrecommitWait(g: Genesis, n: Node, height: nat, round: int): (n': Node)
    ensures n'.votes == n.votes
  {
    if n.halted || n.height != height || round < n.round || (n.round == round && n.triggeredTimeoutPrecommit) then n
    else if !TwoThirdsAny(g, n, round, Precommit) then Halt(n)
    else Schedule(n, height, round, PRECOMMIT_WAIT).(triggeredTimeoutPrecommit := true)
  }

  function EnterCommit(n: Node, height: nat, commitRound: int, env: Env): (n': Node)
    ensures n'.votes == n.votes
  {
    if n.halted || n.height != height || COMMIT <= n.step then n
    else
      match Majority(n, commitRound, Precommit)
      case None => Halt(n)
      case Some(id) =>
        TryFinalizeCommit(AimAt(n, id).(step := COMMIT, commitRound := commitRound), height, env)
  }

  /** Use the locked block if it is the committed one, else make ready to receive that block. */
  function AimAt(n: Node, id: BlockID): (n': Node)
    ensures n'.votes == n.votes
  {
    if HashesTo(n.lockedBlock, id.hash) then n.(proposalBlock := n.lockedBlock, proposalParts := n.lockedParts)
    else if HashesTo(n.proposalBlock, id.hash) || HasHeader(n.proposalParts, id.parts) then n
    else n.(proposalBlock := None, proposalParts := Some(id.parts))
  }

  function TryFinalizeCommit(n: Node, height: nat, env: Env): (n': Node)
    ensures n'.votes == n.votes
  {
    if n.halted then n
    else if n.height != height then Halt(n)
    else
      match Majority(n, n.commitRound, Precommit)
      case None => n
      case Some(id) =>
        if id.hash == "" || !HashesTo(n.proposalBlock, id.hash) then n
        else FinalizeCommit(n, height, id, env)
  }

  /** finalizeCommit once the majority `id` of the commit round is known. */
  function FinalizeCommit(n: Node, height: nat, id: BlockID, env: Env): (n': Node)
    ensures n'.votes == n.votes
  {
    if n.height != height || n.step != COMMIT then n
    else if !HasHeader(n.proposalParts, id.parts) || !HashesTo(n.proposalBlock, id.hash) then Halt(n)
    else if !env.valid(n.proposalBlock.value) || !env.applies then Halt(n)
    else UpdateToState(n, id.hash)
  }

  /** updateToState with the state after the committed block, then scheduleRound0. */
  function UpdateToState(n: Node, committed: Hash): (n': Node)
    ensures n'.votes == n.votes
  {
    n.(height := n.height + 1, round := 0, step := NEW_HEIGHT,
       proposal := None, proposalBlock := None, proposalParts := None,
       lockedRound := -1, lockedBlock := None, lockedParts := None,
       validRound := -1, validBlock := None, validParts := None,
       commitRound := -1, triggeredTimeoutPrecommit := false, chain := n.chain + [committed],
       timeouts := n.timeouts + {Timeout(n.height + 1, 0, NEW_HEIGHT)})
  }

  // ---- messages ----

  /** HeightVoteSet.AddVote for a vote that was added. */
  function Record(g: Genesis, n: Node, v: Vote, env: Env): Node {
    var votes := n.votes + {v};
    var k := SetKey(v.height, v.round, v.kind);
    if env.reached && k !in n.majority && HasQuorum(g, n.chain, votes, k, v.id)
    then n.(votes := votes, majority := n.majority[k := v.id])
    else n.(votes := votes)
  }

  function AddVote(g: Genesis, n: Node, v: Vote, env: Env): Node {
    if n.halted then n
    else if v.height + 1 == n.height && v.kind == Precommit then
      if n.step != NEW_HEIGHT then n
      else if n.chain == [] then Halt(n)
      else if env.lastCommitAdded && env.skipTimeoutCommit && env.lastCommitHasAll then EnterNewRound(n, n.height, 0, env)
      else n
    else if v.height != n.height || !env.added then n
    else if v.kind == Prevote then OnPrevote(g, Record(g, n, v, env), v, env)
    else OnPrecommit(g, Record(g, n, v, env), v, env)
  }

  /** Unlock on a polka for something else at a round after the lock and not after our own. */
  function UnlockOnPolka(n: Node, round: int, id: BlockID): (n': Node)
    ensures n'.votes == n.votes
  {
    if n.lockedBlock.Some? && n.lockedRound < round <= n.round && !HashesTo(n.lockedBlock, id.hash)
    then Unlock(n) else n
  }

  function UpdateValid(n: Node, round: int, id: BlockID): (n': Node)
    ensures n'.votes == n.votes
  {
    if id.hash != "" && n.validRound < round == n.round then
      var n1 := if HashesTo(n.proposalBlock, id.hash)
                then n.(validRound := round, validBlock := n.proposalBlock, validParts := n.proposalParts)
                else n.(proposalBlock := None);
      if HasHeader(n1.proposalParts, id.parts) then n1 else n1.(proposalParts := Some(id.parts))
    else n
  }

  function OnPrevote(g: Genesis, n: Node, v: Vote, env: Env): (n': Node)
    ensures n'.votes == n.votes
  {
    var m := Majority(n, v.round, Prevote);
    var n1 := if m.Some? then UpdateValid(UnlockOnPolka(n, v.round, m.value), v.round, m.value) else n;
    if n1.round < v.round && TwoThirdsAny(g, n1, v.round, Prevote) then
      EnterNewRound(n1, n1.height, v.round, env)
    else if n1.round == v.round && PREVOTE <= n1.step then
      if m.Some? && (ProposalComplete(n1) || m.value.hash == "") then EnterPrecommit(n1, n1.height, v.round, env)
      else if TwoThirdsAny(g, n1, v.round, Prevote) then EnterPrevoteWait(g, n1, n1.height, v.round)
      else n1
    else if n1.proposal.Some? && 0 <= n1.proposal.value.polRound == v.round && ProposalComplete(n1) then
      EnterPrevote(n1, n1.height, n1.round, env)
    else n1
  }

  function OnPrecommit(g: Genesis, n: Node, v: Vote, env: Env): (n': Node)
    ensures n'.votes == n.votes
  {
    match Majority(n, v.round, Precommit)
    case Some(id) =>
      var n1 := EnterPrecommit(EnterNewRound(n, n.height, v.round, env), n.height, v.round, env);
      if id.hash != "" then
        var n2 := EnterCommit(n1, n.height, v.round, env);
        if env.skipTimeoutCommit && HasAll(g, n, v.round, Precommit) then EnterNewRound(n2, n2.height, 0, env) else n2
      else EnterPrecommitWait(g, n1, n.height, v.round)
    case None =>
      if n.round <= v.round && TwoThirdsAny(g, n, v.round, Precommit) then
        EnterPrecommitWait(g, EnterNewRound(n, n.height, v.round, env), n.height, v.round)
      else n
  }

  /** defaultSetProposal; `env.added` says the signature and the size are accepted. */
  function SetProposal(n: Node, p: Proposal, env: Env): (n': Node)
    ensures n'.votes == n.votes
  {
    if n.halted || n.proposal.Some? || p.height != n.height || p.round != n.round then n
    else if p.polRound < -1 || (p.polRound >= 0 && p.polRound >= p.round) || !env.added then n
    else
      n.(proposal := Some(p),
         proposalParts := if n.proposalParts.None? then Some(p.id.parts) else n.proposalParts)
  }

  /** addProposalBlockPart for a part that completes the set; None is a block that does not decode. */
  function AddCompleteBlock(n: Node, height: nat, block: Option<Block>, env: Env): (n': Node)
    ensures n'.votes == n.votes
  {
    if n.halted || n.height != height || n.proposalParts.None? || !env.added then n
    else HandleCompleteProposal(if block.Some? then n.(proposalBlock := block) else n, height, env)
  }

  function HandleCompleteProposal(n: Node, height: nat, env: Env): (n': Node)
    ensures n'.votes == n.votes
  {
    if n.proposalBlock.None? then Halt(n)
    else
      var m := Majority(n, n.round, Prevote);
      var n1 := if m.Some? && n.validRound < n.round && HashesTo(n.proposalBlock, m.value.hash)
                then n.(validRound := n.round, validBlock := n.proposalBlock, validParts := n.proposalParts) else n;
      MoveOnWithBlock(n1, height, m.Some?, env)
  }

  /** The second half of handleCompleteProposal: vote at once, or finish the commit that waits for the block. */
  function MoveOnWithBlock(n: Node, height: nat, hasTwoThirds: bool, env: Env): (n': Node)
    ensures n'.votes == n.votes
  {
    if n.step <= PROPOSE && ProposalComplete(n) then
      var n1 := EnterPrevote(n, height, n.round, env);
      if hasTwoThirds then EnterPrecommit(n1, height, n1.round, env) else n1
    else if n.step == COMMIT then TryFinalizeCommit(n, height, env)
    else n
  }

  /** The staleness test of handleTimeout. */
  predicate Stale(n: Node, t: Timeout) {
    t.height != n.height || t.round < n.round || (t.round == n.round && t.step < n.step)
  }

  function HandleTimeout(n: Node, t: Timeout, env: Env): (n': Node)
    ensures n'.votes == n.votes
  {
    if n.halted || Stale(n, t) then n
    else if t.step == NEW_HEIGHT then EnterNewRound(n, t.height, 0, env)
    else if t.step == NEW_ROUND then EnterPropose(n, t.height, t.round, env)
    else if t.step == PROPOSE then EnterPrevote(n, t.height, t.round, env)
    else if t.step == PREVOTE_WAIT then EnterPrecommit(n, t.height, t.round, env)
    else if t.step == PRECOMMIT_WAIT then
      EnterNewRound(EnterPrecommit(n, t.height, t.round, env), t.height, t.round + 1, env)
    else Halt(n)
  }

  function HandleTxsAvailable(n: Node, env: Env): (n': Node)
    ensures n'.votes == n.votes
  {
    if n.halted || n.round != 0 then n
    else if n.step == NEW_HEIGHT then
      if env.needProofBlock then n else Schedule(n, n.height, 0, NEW_ROUND)
    else if n.step == NEW_ROUND then EnterPropose(n, n.height, 0, env)
    else n
  }

  /** One turn of the receive routine. */
  function Handle(g: Genesis, n: Node, e: Event, env: Env): (n': Node)
    ensures n'.votes <= n.votes + if e.VoteMsg? then {e.vote} else {}
  {
    match e
    case ProposalMsg(p) => SetProposal(n, p, env)
    case CompleteBlockMsg(h, b) => AddCompleteBlock(n, h, b, env)
    case VoteMsg(v) => AddVote(g, n, v, env)
    case TimeoutMsg(t) => HandleTimeout(n, t, env)
    case TxsAvailable => HandleTxsAvailable(n, env)
  }
}
