/**
 The data of one consensus node: votes, blocks, proposals, timeouts and the
 RoundState fields, with the questions asked about them.
 */
module RoundState {
  import opened Options
  import opened Power

  /** Hash of a block; "" is the missing hash that a nil vote carries. */
  type Hash = string

  /** Hash of a part set; "" is the zero header. */
  type PartsHeader = string

  datatype BlockID = BlockID(hash: Hash, parts: PartsHeader)

  const NIL_ID := BlockID("", "")

  /** Hashing is injective, so a block is known by its hash. */
  datatype Block = Block(hash: Hash)

  datatype VoteType = Prevote | Precommit

  datatype Vote = Vote(validator: nat, height: nat, round: nat, kind: VoteType, id: BlockID)

  datatype Proposal = Proposal(height: nat, round: nat, polRound: int, id: BlockID)

  datatype Timeout = Timeout(height: nat, round: int, step: nat)

  // Steps of a round, numbered as in the code.
  const NEW_HEIGHT: nat := 1
  const NEW_ROUND: nat := 2
  const PROPOSE: nat := 3
  const PREVOTE: nat := 4
  const PREVOTE_WAIT: nat := 5
  const PRECOMMIT: nat := 6
  const PRECOMMIT_WAIT: nat := 7
  const COMMIT: nat := 8

  /** Names one VoteSet: the votes of one kind for one height and round. */
  datatype SetKey = SetKey(height: nat, round: int, kind: VoteType)

  /**
   What every node agrees on beforehand: the first height and the validator set
   that a chain of committed blocks leads to.
   */
  datatype Genesis = Genesis(initialHeight: nat, validators: seq<Hash> -> Powers)

  /**
   One node. `votes` holds every vote recorded so far and `majority` the first
   +2/3 majority recorded in each VoteSet; only entries of the current height are
   read. `signed` is every vote the node has signed, `timeouts` every timeout it
   has asked for, and `chain` the hashes of the blocks it has committed.
   */
  datatype Node = Node(
    validator: nat,
    height: nat,
    round: int,
    step: nat,
    proposal: Option<Proposal>,
    proposalBlock: Option<Block>,
    proposalParts: Option<PartsHeader>,
    lockedRound: int,
    lockedBlock: Option<Block>,
    lockedParts: Option<PartsHeader>,
    validRound: int,
    validBlock: Option<Block>,
    validParts: Option<PartsHeader>,
    votes: set<Vote>,
    majority: map<SetKey, BlockID>,
    commitRound: int,
    triggeredTimeoutPrecommit: bool,
    chain: seq<Hash>,
    signed: set<Vote>,
    timeouts: set<Timeout>,
    halted: bool)

  /**
   What the outside contributes to one step: configuration, the application's
   and the validation's verdicts, whether a signature is produced, and what the
   VoteSet reports about the vote just offered to it.
   */
  datatype Env = Env(
    waitForTxs: bool,
    emptyBlocksInterval: bool,
    needProofBlock: bool,
    skipTimeoutCommit: bool,
    signs: Vote -> bool,
    valid: Block -> bool,
    accepted: Block -> bool,
    applies: bool,
    added: bool,
    reached: bool,
    lastCommitAdded: bool,
    lastCommitHasAll: bool)

  predicate HashesTo(b: Option<Block>, hash: Hash) {
    b.Some? && hash != "" && b.value.hash == hash
  }

  predicate HasHeader(parts: Option<PartsHeader>, header: PartsHeader) {
    parts == Some(header)
  }

  function HeaderOf(parts: Option<PartsHeader>): PartsHeader {
    if parts.Some? then parts.value else ""
  }

  /** Validator powers at a height, for a node that has committed `chain`. */
  function PowersAt(g: Genesis, chain: seq<Hash>, height: nat): Powers {
    if g.initialHeight <= height <= g.initialHeight + |chain|
    then g.validators(chain[..height - g.initialHeight])
    else []
  }

  function Voters(votes: set<Vote>, k: SetKey, id: BlockID): set<nat> {
    set v | v in votes && SetKey(v.height, v.round, v.kind) == k && v.id == id :: v.validator
  }

  function AllVoters(votes: set<Vote>, k: SetKey): set<nat> {
    set v | v in votes && SetKey(v.height, v.round, v.kind) == k :: v.validator
  }

  /** +2/3 of the height's power voted for exactly `id`. */
  predicate HasQuorum(g: Genesis, chain: seq<Hash>, votes: set<Vote>, k: SetKey, id: BlockID) {
    PowerOf(PowersAt(g, chain, k.height), Voters(votes, k, id)) >= Quorum(PowersAt(g, chain, k.height))
  }

  /** VoteSet.TwoThirdsMajority. */
  function Majority(n: Node, round: int, kind: VoteType): Option<BlockID> {
    var k := SetKey(n.height, round, kind);
    if k in n.majority then Some(n.majority[k]) else None
  }

  /** VoteSet.HasTwoThirdsAny. */
  predicate TwoThirdsAny(g: Genesis, n: Node, round: int, kind: VoteType) {
    var p := PowersAt(g, n.chain, n.height);
    PowerOf(p, AllVoters(n.votes, SetKey(n.height, round, kind))) > Total(p) * 2 / 3
  }

  /** VoteSet.HasAll. */
  predicate HasAll(g: Genesis, n: Node, round: int, kind: VoteType) {
    var p := PowersAt(g, n.chain, n.height);
    PowerOf(p, AllVoters(n.votes, SetKey(n.height, round, kind))) == Total(p)
  }

  /** State.isProposalComplete. */
  predicate ProposalComplete(n: Node) {
    && n.proposal.Some?
    && n.proposalBlock.Some?
    && (n.proposal.value.polRound < 0 || Majority(n, n.proposal.value.polRound, Prevote).Some?)
  }
}
