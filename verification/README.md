# Verified model of the consensus engine

A Dafny model of the hard parts of this chain's consensus engine (a fork of CometBFT
v0.38), with proofs of what the engine is for: agreement, light client soundness, crash
recovery, no double signing, and the book-keeping around them. To verify the whole project:
`dafny verify dfyconfig.toml`.

Where the code changes things in place, the model is a class with the same fields and
methods, each tied to a function or to an invariant of its state. Where the code only
computes, the model is functions and lemmas. The outside world (the application, block
validation, configuration, key errors, what a peer answers) enters as parameters, so every
result holds for all of its choices. A panic is an outcome of its own, and most results say
that it cannot happen, or exactly when it does.

| file | part of the engine |
|---|---|
| `Power`, `RoundState`, `Steps` | voting power; the data of one node; what each consensus step does |
| `Discipline`, `ConsensusState` | what every turn of one node keeps; the state machine object |
| `Agreement`, `Validity`, `Solo` | the network with faulty validators; blocks pass validation; runs that commit and crash |
| `Replay`, `Restarts` | replay of the log; the network with nodes that crash |
| `VoteSet` | votes, majorities and the fork's vote codes |
| `Commits`, `TrustLevel`, `Verifier`, `LightClient` | commit checks, 64-bit trust levels, the light verifier, skipping verification |
| `NetworkTrust` | the light client's assumption, from the network |
| `Recovery` | block store, log, state and application across crashes |
| `Signer` | the file-backed signer |
| `PeerState` | what is known of a peer's votes |
| `BlockSync` | the window of block requests |
| `Mempool`, `EvidencePool` | pools of transactions and of evidence |
| `Wal` | log records, repair and search |
| `Validators` | the delayed validator sets and how they are stored |
| `Ticker`, `PeerSet`, `PeerIDs` | timeouts, the peer table, short peer IDs |

The main results:

- **Agreement** (`Agreement.AgreementTheorem`). In every run of any number of nodes, with
  validator sets that may change at every height and faulty power below one third of each,
  correct nodes commit along one chain, and no two of them decide differently at one height.
  The proof uses the unlock rule of this code. Its core is that a rival polka at a later round
  means that +2/3 precommits for the earlier block can no longer be reached.
- **Agreement across crashes** (`Restarts.RestartAgreement`). The same when correct nodes crash,
  lose what they had not synced and replay the rest, while the application and the signer answer
  anew: what any correct node has decided at any time agrees with what any has decided at any
  other time, lost decisions included. Replay brings back everything but signatures, and the
  signer's memory keeps them in order, which is all that agreement needs of them.
- **Vote discipline** (`Discipline.VoteDiscipline`), over every run of one node, whatever the
  other nodes send: nothing is signed twice for a height, round and kind, locks are backed and
  only given up for a later polka, and no timeout is early.
- **Light client** (`LightClient.VerifySkipping`, `SkippingSound`, `FullNodeCooperative`). The
  bisection terminates with every provider that answers with the height it was asked for; what
  it returns is the chain's own blocks; and with a provider that serves the chain it succeeds.
  What it assumes of the chain at a height is proved of every run of the network in which a correct
  node has decided there (`NetworkTrust.RunTrustworthy`).
- **Crash recovery** (`Recovery.Node.Live`). After any sequence of commits, crashes between any
  two writes, lost application commits and restarts, the handshake brings store, state and
  application to one height, each block committed once and in order.
- **Signer, peer state, block sync, pools, log, validator pipeline**: see the table.

The assumptions that quantify over all inputs can be met: `Solo.SomeRunCommits` and
`Solo.SomeRunCrashes` for the networks, `NetworkTrust.SoloTrustworthy` for the light client's view
of one, `LightClient.SampleSucceeds` for a chain and its provider, `Wal.SomeCodec` for the log.

Some promises of the code turned out not to hold as written. The model keeps the code and
gives the exact condition and an instance.

- Counting vote codes reads every validator's entry for the block, present or not. It
  panics exactly when the block reaches a quorum while some validator has no vote for it
  (`VoteSet.Set.AddVote`, instance `VoteSet.ThreeOfFourPanics`). Agreement is not affected: a
  node that stops signs nothing more. A majority is therefore only ever found once everybody
  has voted for the block, and the branch that replaces a primary vote by one for the majority
  block is never taken (`VoteSet.Set.NothingReplaced`).
- Batch verification of a commit is documented as equivalent to single verification. In every
  mode the two answers differ exactly in three situations (`Commits.BatchVersusSingle`): the commit
  has fewer than two entries, which the batch refuses unread, and nothing is wrong with it
  (`Commits.OneSignatureDiffers`); power is missing and some signature that is looked at is bad
  (`Commits.BadSignatureDiffers`); or one of them is not well formed, which only the single check
  asks, and the batch does not refuse the commit for another reason (`Commits.IllFormedDiffers`). A
  commit of two entries or more that passes its own basic checks is accepted by both or by neither
  (`Commits.SameAcceptance`).
- An allowed trust level should mean at least a third of the power. It does exactly if the
  level is not degenerate: its parts, read as signed, do not make the needed power negative or
  too small (`TrustLevel.NeededIsAThird`, instance `TrustLevel.DegenerateLevel`). A level that was
  parsed is never degenerate (`TrustLevel.ParsedLevel`).
- The first handshake panics exactly when InitChain returns no hash, the genesis file has one
  and the store is empty (`Recovery.Node.Handshake`, instance `Recovery.EmptyInitHashPanics`).
- `Or` of two bit arrays should pad the shorter one. It is their union exactly if the second has
  no bit beyond the first (`PeerState.OrIsUnion`, instance `PeerState.OrLosesWords`).
- Evidence should be on chain once. The handshake replays blocks past the evidence pool, and what
  it replays is not marked. Applying a block keeps the chain free of duplicates exactly if the
  block has none of that evidence (`EvidencePool.Pool.Update`, instance
  `EvidencePool.ReplayedEvidenceTwice`).

## Model

| member | source | states |
|---|---|---|
| Power.QuorumsShareHonest | cometbft/types/vote_set.go:309-310 | two groups with power of at least total*2/3+1 share a validator outside any group below one third |
| Discipline.VoteDiscipline | cometbft/consensus/state.go:784-872 | over every run of a node: height/round/step never go back, at most one prevote and one precommit per height and round, a lock is set iff its round is and has its polka, it is dropped within a height only for a later polka for something else, non-stale timeouts are current |
| Discipline.Keeps | cometbft/consensus/state.go:784-872 | every turn of the receive routine keeps the node invariant and only moves forward, for every event and every outside choice |
| Discipline.TimeoutIsCurrent | cometbft/consensus/state.go:966-986 | a requested timeout that passes the staleness test is for exactly the current height and round |
| Discipline.PrevoteKeeps | cometbft/consensus/state.go:1341-1398 | a signed prevote is the only one of its round, and prevoting against an earlier precommit needs a rival polka |
| Discipline.PrecommitKeeps | cometbft/consensus/state.go:1436-1554 | a signed precommit is the only one of its round and, for a block, has its polka and its lock |
| Discipline.ReplaceLock | cometbft/consensus/state.go:2250-2272 | a lock may be dropped or replaced on a polka for something else at a later round, and nothing else is lost |
| Discipline.EnterNewRoundKeeps | cometbft/consensus/state.go:1052-1113 | entering a round keeps the invariant and moves forward |
| Discipline.EnterPrecommitKeeps | cometbft/consensus/state.go:1436-1554 | entering precommit, by any of its five branches, keeps the invariant and moves forward |
| Discipline.EnterCommitKeeps | cometbft/consensus/state.go:1588-1648 | entering commit with a majority keeps the invariant; the commit round has +2/3 precommits for a block |
| Discipline.TryFinalizeCommitKeeps | cometbft/consensus/state.go:1651-1803 | finalizing appends a block with +2/3 precommits to the chain and keeps the invariant |
| Discipline.CertifiesCommit | cometbft/consensus/state.go:1680-1803 | every block of the chain, with the one being committed, has +2/3 precommits |
| Discipline.OnPrevoteKeeps | cometbft/consensus/state.go:2246-2324 | a prevote, with the unlock and valid-block rules and the step changes it causes, keeps the invariant and moves forward |
| Discipline.OnPrecommitKeeps | cometbft/consensus/state.go:2325-2351 | a precommit, with the round, commit and wait changes it causes, keeps the invariant and moves forward |
| Discipline.HandleTimeoutKeeps | cometbft/consensus/state.go:966-1013 | every timeout the node asked for keeps the invariant and moves forward |
| ConsensusState.State.Receive | cometbft/consensus/state.go:784-872 | the object after a turn is the step function's result, and the turn is a disciplined step |
| ConsensusState.State.EnterNewRound | cometbft/consensus/state.go:1052-1113 | from a disciplined node, entering any round leaves it disciplined, and it only moves forward |
| ConsensusState.State.EnterPropose | cometbft/consensus/state.go:1138-1195 | the same for a round that is not ahead of the node's |
| ConsensusState.State.EnterPrevote | cometbft/consensus/state.go:1316-1339 | the same for a round that is not ahead: the prevote is the only one of its round and respects the lock |
| ConsensusState.State.DoPrevote | cometbft/consensus/state.go:1341-1398 | every vote it adds is the node's own prevote of its height and round, for the locked block if there is a lock, otherwise nil or a proposal that is valid and accepted; with the step after it, the node stays disciplined |
| ConsensusState.State.EnterPrevoteWait | cometbft/consensus/state.go:1401-1428 | for a round that is not ahead, the node stays disciplined and moves forward, panic included |
| ConsensusState.State.EnterPrecommit | cometbft/consensus/state.go:1436-1453 | for a round that is not ahead, the node stays disciplined and moves forward: a lock only changes on a later polka |
| ConsensusState.State.DoPrecommit | cometbft/consensus/state.go:1454-1554 | every vote it adds is the node's own precommit of its height and round, and for a block only with its polka in the round and with the lock on it; with the step after it, the node stays disciplined |
| ConsensusState.State.EnterPrecommitWait | cometbft/consensus/state.go:1557-1585 | for a round that is not ahead, the node stays disciplined and moves forward, panic included |
| ConsensusState.State.EnterCommit | cometbft/consensus/state.go:1588-1648 | with +2/3 precommits for a block in the commit round, the node stays disciplined and moves forward |
| ConsensusState.State.TryFinalizeCommit | cometbft/consensus/state.go:1651-1677 | a disciplined node stays so: if it commits, the block has +2/3 precommits |
| ConsensusState.State.FinalizeCommit | cometbft/consensus/state.go:1680-1803 | the chain grows by at most one block, the complete one, in the commit step; with the majority of the commit round, every block on it has +2/3 precommits afterwards |
| ConsensusState.State.UpdateToState | cometbft/consensus/state.go:647-756 | the chain grows by the block; if it is the decision of the commit round, the node stays disciplined at the next height |
| ConsensusState.State.AddVote | cometbft/consensus/state.go:2114-2358 | whatever vote comes, last commit votes included, a disciplined node stays so and moves forward |
| ConsensusState.State.OnPrevote | cometbft/consensus/state.go:2246-2324 | the unlock and valid-block rules and the step changes keep the node disciplined: a lock only goes for a later polka |
| ConsensusState.State.OnPrecommit | cometbft/consensus/state.go:2325-2351 | the round, commit and wait changes keep a running node disciplined |
| ConsensusState.State.SignAddVote | cometbft/consensus/state.go:2361-2473 | at most one vote more, the node's own for its height and round; none is ever signed twice if the step of its kind was not reached |
| ConsensusState.State.SetProposal | cometbft/consensus/state.go:1896-1943 | no proposal changes what the node has promised: it stays disciplined |
| ConsensusState.State.AddCompleteBlock | cometbft/consensus/state.go:1948-2024 | whatever block is completed, a disciplined node stays so and moves forward |
| ConsensusState.State.HandleCompleteProposal | cometbft/consensus/state.go:2026-2060 | at its own height, prevoting, precommitting or committing on a complete block keeps the node disciplined |
| ConsensusState.State.HandleTimeout | cometbft/consensus/state.go:966-1013 | every timeout the node asked for keeps it disciplined and moves it forward |
| ConsensusState.State.HandleTxsAvailable | cometbft/consensus/state.go:1015-1038 | a notice of transactions keeps the node disciplined |
| Agreement.AgreementTheorem | cometbft/consensus/state.go:1341-1677 | in every run with less than one third faulty power, chains of correct nodes are comparable and no two decide different blocks at a height, in whatever rounds |
| Agreement.RunKeeps | cometbft/consensus/state.go:1341-1677 | the network invariant holds in every state of every such run |
| Agreement.NextKeeps | cometbft/consensus/state.go:784-872 | every step of the network, correct or faulty, keeps the network invariant |
| Agreement.FirstRival | cometbft/consensus/state.go:1341-1398 | the first rival polka at a later round puts +2/3 precommits for the earlier block out of reach |
| Agreement.OutOfReachMeansNoCommit | cometbft/consensus/state.go:1588-1606 | when enough correct nodes have signed for a later round without the precommit, that block has no quorum of precommits there |
| Agreement.TwoCommits | cometbft/consensus/state.go:1588-1677 | two quorums of precommits at one height, in any rounds, are for one hash |
| Agreement.StaysOneChain | cometbft/consensus/state.go:1680-1803 | a node that commits stays on the chain of all other correct nodes |
| Agreement.MoveKeeps | cometbft/consensus/state.go:784-872 | any move of one node that leaves it disciplined, lengthens its chain and signs in order keeps the network invariant, however many turns it stands for |
| Validity.HandleVouched | cometbft/consensus/state.go:1436-1803 | no turn makes a node lock, precommit or commit a block that validation did not let through after the chain it has |
| Validity.JudgedRunKeeps | cometbft/state/validation.go:15-143 | in every run whose correct nodes validate by a rule, whatever the others do, all that a correct node locks, precommits or commits is valid where it stands |
| Restarts.RestartAgreement | cometbft/consensus/replay.go:94-171 | in every run with turns, syncs, crashes and replays, states of correct nodes from any two times lie on one chain and decide the same at a height, also if a crash lost one of them, whatever application and signer answer on replay |
| Restarts.SysNextKeeps | cometbft/consensus/state.go:826-872 | every turn, sync, crash with replay, and faulty vote keeps the invariant: the network as the last syncs left it is safe, and every node is where its log leads, with signatures in order |
| Restarts.AsIfSynced | cometbft/consensus/state.go:838-856 | sending all that a node has signed so far, replays included, leaves the network safe |
| Restarts.RestartNoDoubleVote | cometbft/consensus/replay.go:158-163 | over every such run, a correct validator never has two votes out for one height, round and kind |
| Restarts.SignerAllows | cometbft/privval/file.go:100-132 | the comparison with the last vote allows exactly that vote again and what is later than everything ever signed |
| Restarts.SignerDecides | cometbft/privval/file.go:100-132 | in every run with crashes a signer's votes are in order, and its file, which holds the last one, decides what it still signs |
| Replay.HandleUnder | cometbft/consensus/state.go:784-872 | no turn looks at what was signed: with another signer and application, everything but signatures comes out the same, and signatures only differ in what was asked for |
| Replay.SimilarUnder | cometbft/consensus/replay.go:39-90 | replay with any answers restores everything but signatures, and asks for no other precommit |
| Replay.ReplayAsks | cometbft/consensus/replay.go:94-171 | a replay signs only what its records ask for, once for each height, round and kind |
| Replay.MixedKeeps | cometbft/consensus/replay.go:94-171 | a node with signatures from any of its replays is disciplined if none is double |
| Solo.SomeRunCommits | cometbft/consensus/state.go:784-872 | there is a run within the fault assumption, with blocks validated, that commits a block |
| Solo.SomeRunCrashes | cometbft/consensus/replay.go:94-171 | there is a run with crashes, within the fault assumption, that loses a turn |
| VoteSet.Set.constructor | cometbft/types/vote_set.go:85-103 | a new set has no votes and no majority |
| VoteSet.Set.AddVote | cometbft/types/vote_set.go:173-247 | exactly the votes that are new and not an untracked conflict are recorded, nothing else changes; every primary vote is kept among the votes of its block; a majority never changes once set, is a quorum for one block with one code, and means that everybody voted for the block; the tally panics iff the block reaches a quorum with some validator's vote missing; otherwise a quorum with one code is found |
| VoteSet.Set.AddVerifiedVote | cometbft/types/vote_set.go:262-343 | the same for a vote that is not a duplicate |
| VoteSet.Set.AddPrimary | cometbft/types/vote_set.go:267-286 | what the validator's entry becomes, and the sum stays the power of everyone with a primary vote |
| VoteSet.Set.NothingReplaced | cometbft/types/vote_set.go:269-280 | no vote that is new is for the majority block, so a primary vote is never replaced |
| VoteSet.Set.Track | cometbft/types/vote_set.go:288-314 | the vote is recorded for its block, whose sum stays the power of its voters |
| VoteSet.Set.Tally | cometbft/types/vote_set.go:316-341 | succeeds iff nobody's vote for the block is missing, and then finds a code with a quorum if there is one |
| VoteSet.Set.SetPeerMaj23 | cometbft/types/vote_set.go:350-383 | a peer's first claim makes its block tracked, a different later claim is refused, and no vote changes |
| VoteSet.Set.HasTwoThirdsAny | cometbft/types/vote_set.go:468-475 | true iff more than two thirds of the power has some recorded vote |
| VoteSet.Set.TwoThirdsMajority | cometbft/types/vote_set.go:488-498 | a reported majority has a quorum of recorded votes for the block |
| VoteSet.ThreeOfFourPanics | cometbft/types/vote_set.go:318-323 | four equal validators: the third vote for a block panics |
| Commits.IndexOf | cometbft/types/validator_set.go:286-293 | the first validator with the address, none iff there is none |
| Commits.VerifyCommitSingle | cometbft/types/validation.go:327-402 | in every mode, the loop computes the single check, whose verdict `VerdictOfSingle` gives on the commit |
| Commits.VerifyCommitBatch | cometbft/types/validation.go:214-317 | in every mode, refusing short commits, collecting and verifying afterwards computes the batch check, whose verdict `VerdictOfBatch` gives on the commit |
| Commits.BatchVersusSingle | cometbft/types/validation.go:208-213 | for every commit and mode: the answers differ iff there are fewer than two entries and nothing is wrong, or there are more, without double vote and unusable signature, and power is missing with a bad signature or a signature is not well formed with nothing worse |
| Commits.VerdictOfBatch | cometbft/types/validation.go:239-317 | of the entries that are read: invalid iff a double vote, an unusable signature, or a bad one with enough power; otherwise not enough iff the counted power is too small |
| Commits.VerdictOfSingle | cometbft/types/validation.go:327-402 | invalid iff a double vote, a bad signature or one not well formed is looked at; otherwise not enough iff the counted power is too small |
| Commits.SameAcceptance | cometbft/types/validation.go:208-213 | a commit that passes its own basic checks is accepted by the batch iff by the single check and it has two entries or more |
| Commits.BadSignatureDiffers | cometbft/types/validation.go:289-311 | an instance with powers 1 and 3: the batch reports missing power, the single check a wrong signature |
| Commits.IllFormedDiffers | cometbft/types/validation.go:349-351 | an instance with powers 3 and 1: the batch accepts an ill-formed entry with a good signature, the single check does not |
| Commits.OneSignatureDiffers | cometbft/types/validation.go:233-237 | an instance: one good signature of the only validator is enough, and the batch refuses it |
| Commits.AcceptedAllSigned | cometbft/types/validation.go:20-53 | where all signatures are to be checked, accepting means that each one looked at is its validator's |
| Commits.AcceptedMeansPower | cometbft/types/validation.go:20-192 | a commit that either check accepts, in any mode, was signed for the block by validators with more than the needed power |
| Commits.SingleSound | cometbft/types/validation.go:327-402 | an accepted commit was signed by distinct validators with more than the needed power |
| Commits.HonestJudgedByPower | cometbft/types/validation.go:327-402 | an honest commit is never called invalid by a check that reads it, and is enough iff its signers for the block have more than the needed power |
| TrustLevel.NeededIsAThird | cometbft/types/validation.go:168-173 | for every allowed pair of 64-bit parts and every total: more than the needed power is more than a third of the total iff the level is not degenerate |
| TrustLevel.DegenerateLevel | cometbft/light/verifier.go:197-204 | an instance: one third written with the largest parts is allowed, and needs negative power |
| TrustLevel.ParsedLevel | cometbft/libs/math/fraction.go:27-48 | what can be parsed is never degenerate |
| Verifier.ParsedLevelSound | cometbft/libs/math/fraction.go:44-46 | so the soundness of the verifier holds for every parsed level |
| Verifier.Verify | cometbft/light/verifier.go:135-151 | anything not rejected is strictly higher and later; only non-adjacent blocks are put off |
| Verifier.CheckSound | cometbft/types/validation.go:84-192 | a commit that passes either check was signed by more than the needed power |
| Verifier.ValidatorsRight | cometbft/light/verifier.go:32-130 | an accepted header carries the validator set of its height, adjacent or not |
| Verifier.VerifySound | cometbft/light/verifier.go:135-151 | only the chain's block is accepted, if the trusted one is the chain's, unexpired, the trust assumption holds and the level is not degenerate |
| Verifier.SigningOnlyTheChain | cometbft/light/verifier.go:14-18 | the trust assumption holds when correct validators sign only the chain's headers and fewer than a third are faulty |
| LightClient.Pivot | cometbft/light/client.go:749-750 | the 9/16 pivot lies strictly between two heights that are not adjacent |
| LightClient.VerifySkipping | cometbft/light/client.go:706-773 | terminates for every provider that answers with the requested height; a verified trace leads from the trusted to the target block, each block accepted by the one before; a cooperative provider makes it succeed |
| LightClient.Accept | cometbft/light/client.go:731-744 | an accepted cache entry is the first of its two copies, so everything left in the cache is strictly farther |
| LightClient.Fetch | cometbft/light/client.go:746-767 | the pivot is nearer than the whole cache and is appended twice; what is below the depth has failed |
| LightClient.SkippingSound | cometbft/light/client.go:706-773 | every block of a verified trace is the chain's, with strictly rising heights and times |
| LightClient.ProperNotRejected | cometbft/light/verifier.go:32-151 | two blocks as a full node serves them are never rejected, and accepted if adjacent |
| LightClient.FullNodeCooperative | cometbft/light/client.go:706-773 | a provider that serves the chain is cooperative |
| LightClient.SampleSucceeds | cometbft/light/client.go:706-773 | there is a chain that meets the trust assumption, and a provider with which verification to any of its heights succeeds |
| NetworkTrust.NetworkTrustworthy | cometbft/light/verifier.go:14-18 | at a height where a correct node has decided the chain's header, the network invariant gives the light client's assumption: few faulty, correct signers only of headers with the right validators, and no other header with a quorum of signatures |
| NetworkTrust.SignedIsRight | cometbft/state/validation.go:65-70 | since validation compares the validator set of a header, a correct validator signs only headers with the right one |
| NetworkTrust.RunTrustworthy | cometbft/light/verifier.go:14-18 | so in every run of the network with few faults whose correct nodes validate blocks |
| NetworkTrust.SoloTrustworthy | cometbft/light/verifier.go:14-18 | there is such a run, and a light client's view of it |
| Recovery.Node.SaveBlock | cometbft/consensus/state.go:1721-1738 | the block is stored or the process died before; recoverable either way |
| Recovery.Node.WriteEndHeight | cometbft/consensus/state.go:1756-1762 | no height above the block store is ever marked as ended |
| Recovery.Node.ApplyBlock | cometbft/state/execution.go:227-323 | a crash between any two of its writes leaves the stores recoverable; if it ends, application, state and store agree |
| Recovery.Node.FinalizeCommit | cometbft/consensus/state.go:1721-1786 | a crash anywhere leaves the stores recoverable and loses no block; if it ends, all are at the new block |
| Recovery.Node.ReplayBlock | cometbft/consensus/replay.go:524-543 | the stored block always fits the state; with the application, which may ask for pruning, or the stand-in all ends at one height |
| Recovery.Node.ReplayBlocks | cometbft/consensus/replay.go:461-521 | no hash check fails, and all ends at one height unless the process dies |
| Recovery.Node.Handshake | cometbft/consensus/replay.go:300-459 | ends with application, state and store at one height, or the process died; the application only gains blocks; panics and refusals happen exactly in the stated cases |
| Recovery.EmptyInitHashPanics | cometbft/consensus/replay.go:336-371 | an instance: a genesis hash and an application that returns none |
| Recovery.Node.Live | cometbft/consensus/replay.go:300-521 | any life with crashes and restarts keeps the stores recoverable, loses no block, and whenever the node is up the application has committed exactly the stored blocks in order |
| Signer.CheckHRS | cometbft/privval/file.go:100-132 | reports a later step iff the request is after the last signed one, a regression iff before |
| Signer.FilePV.SaveSigned | cometbft/privval/file.go:413-423 | what is signed is on disk before it can be released; a crash brings a consistent file back |
| Signer.FilePV.SignOnce | cometbft/privval/file.go:308-410 | no panic; a released signature covers the request up to the timestamp that is returned; for a step already signed it is the stored one iff only the timestamp differs; regressions fail and the file never goes back |
| Signer.FilePV.SignVote | cometbft/privval/file.go:308-368 | the released vote, with its new timestamp, is what the signature covers |
| Signer.FilePV.SignProposal | cometbft/privval/file.go:373-410 | the released proposal, with its new timestamp, is what the signature covers |
| Signer.FilePV.Serve | cometbft/privval/file.go:308-466 | over any run of requests, crashes and reloads, one signature per height, round and step |
| PeerState.Sub | cometbft/libs/bits/bit_array.go:203-224 | its bits are those of the first array that the second does not have, whatever their sizes |
| PeerState.Or | cometbft/libs/bits/bit_array.go:135-155 | its bits are those of the first array, and those of the second that lie within the first |
| PeerState.OrIsUnion | cometbft/libs/bits/bit_array.go:132-155 | the union of both, as promised, iff the second array has no bit beyond the first |
| PeerState.OrLosesWords | cometbft/libs/bits/bit_array.go:132-155 | an instance: one word or-ed with two loses the second word |
| PeerState.PeerState.GetVoteBitArray | cometbft/consensus/reactor.go:1193-1237 | the array returned is for the height, round and kind asked for, and each set bit was recorded for exactly them |
| PeerState.PeerState.SetHasVote | cometbft/consensus/reactor.go:1338-1358 | records the event; arrays for other labels do not change |
| PeerState.PeerState.ApplyHasVoteMessage | cometbft/consensus/reactor.go:1449-1458 | records the event at the peer's height only, labels stay sound |
| PeerState.PeerState.ApplyVoteSetBitsMessage | cometbft/consensus/reactor.go:1465-1479 | set bits afterwards were recorded for the label; arrays for other labels do not change |
| PeerState.PeerState.EnsureCatchupCommitRound | cometbft/consensus/reactor.go:1240-1265 | labels stay sound although the array may be shared with the precommits |
| PeerState.PeerState.EnsureVoteBitArrays | cometbft/consensus/reactor.go:1272-1297 | missing arrays appear with the right labels |
| PeerState.PeerState.MissingVotes | cometbft/consensus/reactor.go:1167-1191 | a vote left out of what could be sent was recorded for exactly its height, round and kind |
| PeerState.PeerState.SetHasProposal | cometbft/consensus/reactor.go:1095-1118 | a new proof-of-lock round drops the array of the old one |
| PeerState.PeerState.ApplyNewValidBlockMessage | cometbft/consensus/reactor.go:1415-1429 | block parts are noted for the peer's round, or for a commit |
| PeerState.PeerState.ApplyProposalPOLMessage | cometbft/consensus/reactor.go:1432-1446 | the message's array is kept only for the label it is about |
| PeerState.PeerState.ApplyNewRoundStepMessage | cometbft/consensus/reactor.go:1361-1412 | height, round and step never go back; precommits shift into the last commit and a catch-up commit into the precommits, with labels sound |
| BlockSync.Sync.constructor | cometbft/blocksync/reactor.go:79-107 | the pool starts right after the state, or at the initial height |
| BlockSync.Sync.ReadNextHeight | cometbft/blocksync/pool.go:134-143 | what is read is the height after the window |
| BlockSync.Sync.MakeNextRequester | cometbft/blocksync/pool.go:489-501 | what was read earlier is still the height after the window and not yet requested |
| BlockSync.Sync.AddBlock | cometbft/blocksync/pool.go:311-351 | a block is stored, under its own height, iff it was requested from this peer and matches its commit |
| BlockSync.Sync.PeekTwoBlocks | cometbft/blocksync/reactor.go:456-471 | both height panics are unreachable |
| BlockSync.Sync.PopRequest | cometbft/blocksync/pool.go:247-267 | never panics, its notify loop meets no missing requester, and the window moves by one |
| BlockSync.Sync.Process | cometbft/blocksync/reactor.go:472-565 | the peeked block is applied iff it passes all checks; otherwise the senders of both blocks, whose requesters exist, are removed and banned, and all requests made to them are to be tried again |
| BlockSync.Sync.Interleave | cometbft/blocksync/pool.go:120-155 | under any interleaving the keys are the window from the pool's height, nothing panics, and applied blocks are consecutive, each after its commit check |
| Mempool.CListMempool.AddTx | cometbft/mempool/clist_mempool.go:355-360 | list, map and byte total keep agreeing, within both limits |
| Mempool.CListMempool.RemoveTxByKey | cometbft/mempool/clist_mempool.go:366-376 | exactly that transaction leaves, the order of the others stays |
| Mempool.CListMempool.ResCbFirstTime | cometbft/mempool/clist_mempool.go:329-470 | panics iff a recheck is under way; adds iff accepted, not full and not yet listed |
| Mempool.CListMempool.FindNextEntryMatching | cometbft/mempool/clist_mempool.go:736-782 | for an answer at or after the cursor, the cursor ends right after it, and the recheck is over iff it was the last |
| Mempool.CListMempool.ResCbRecheck | cometbft/mempool/clist_mempool.go:480-503 | one answer settles its entry and leaves the cursor at the next |
| Mempool.CListMempool.RecheckTxs | cometbft/mempool/clist_mempool.go:647-690 | the list is the order-preserving filter of entries not answered as invalid; it times out iff the last entry has no answer |
| Mempool.CListMempool.Update | cometbft/mempool/clist_mempool.go:582-643 | committed transactions leave, the rest is rechecked, and everything agrees again |
| Mempool.KeptIsFilter | cometbft/mempool/clist_mempool.go:647-690 | an entry survives iff it was not answered as invalid, without duplicates |
| Mempool.WithoutAllIs | cometbft/mempool/clist_mempool.go:600-626 | exactly the committed transactions leave |
| EvidencePool.HexOrder | cometbft/evidence/pool.go:558-561 | padded hexadecimal order is numeric order |
| EvidencePool.KeyOrder | cometbft/evidence/pool.go:563-573 | the byte order of keys is height order, then digest order, and keys are unique |
| EvidencePool.Iterates | cometbft/evidence/pool.go:403-410 | an iterator over the store gives exactly what is pending, in key order |
| EvidencePool.Pool.AddEvidence | cometbft/evidence/pool.go:134-168 | exactly new valid evidence becomes pending and gossiped, once |
| EvidencePool.Pool.CheckEvidence | cometbft/evidence/pool.go:192-230 | a list is accepted iff its hashes are distinct and each item passes; nothing in it was committed before, although pending evidence skips that check |
| EvidencePool.Pool.ProcessConsensusBuffer | cometbft/evidence/pool.go:459-535 | exactly the conflicts up to the new height that are not committed become pending, with their block's time, and the buffer is emptied |
| EvidencePool.Pool.MarkEvidenceAsCommitted | cometbft/evidence/pool.go:328-356 | the block's evidence leaves pending and list and is committed; the two stay disjoint |
| EvidencePool.Pool.Update | cometbft/evidence/pool.go:105-131 | panics iff the height does not rise; otherwise exactly which evidence is pending afterwards, the scan for expired evidence running iff its height and time are passed; and the chain has no evidence twice iff it had none and the block has none that a replay missed |
| EvidencePool.Pool.Live | cometbft/evidence/pool.go:105-230 | over any blocks that were checked before they were applied, and any restarts, no evidence is on chain twice if no evidence was replayed past the pool |
| EvidencePool.Pool.Restart | cometbft/evidence/pool.go:55-84 | exactly the unexpired evidence is pending again, and the list is what is pending; replayed evidence is on chain and not marked |
| EvidencePool.ReplayedEvidenceTwice | cometbft/consensus/replay.go:524-543 | an instance from a new pool: evidence in a replayed block is accepted once more |
| EvidencePool.Pool.OlderExpires | cometbft/evidence/pool.go:265-273 | with rising block times, expiry is inherited by everything older |
| EvidencePool.Pool.RemoveExpiredPendingEvidence | cometbft/evidence/pool.go:403-447 | the scan that stops early removes exactly the expired pending evidence, and the same from the list; the next scan is not put off beyond the height at which the oldest evidence left can expire |
| Wal.BigEndianInverse | cometbft/consensus/wal.go:322-325 | reading a written 32-bit number gives it back |
| Wal.DecodeOne | cometbft/consensus/wal.go:301-420 | a whole record is read back, by either reader, and nothing after it is touched |
| Wal.RoundTrip | cometbft/consensus/wal.go:301-420 | decoding the concatenation of records gives the messages, then the end of the file |
| Wal.SomeCodec | cometbft/consensus/wal.go:301-420 | there is a codec as the results about the log ask for |
| Wal.Reader.DecodeNext | cometbft/consensus/wal.go:366-420 | the reader computes the decoding of what is left |
| Wal.RepairWalFile | cometbft/consensus/state.go:2565-2597 | the result is the encoding of what can be decoded before the first error |
| Wal.RepairIdempotent | cometbft/consensus/state.go:2565-2597 | a repaired log ends cleanly and repairing it again changes nothing |
| Wal.SearchForEndHeight | cometbft/consensus/wal.go:231-284 | on an uncorrupted log with non-decreasing positive markers, a positive height is found iff it is marked, stray zero markers notwithstanding, and the reader is left right after it |
| Wal.LowerMarkerSettles | cometbft/consensus/wal.go:254-261 | a lower positive marker at the end rules the height out in all older files |
| Wal.GroupReads | cometbft/libs/autofile/group.go:460-496 | reading on from one file of the group gives the messages of all later files |
| Validators.MergedIs | cometbft/types/validator_set.go:624-677 | new powers are set, those of zero dropped, all others kept |
| Validators.Pipeline | cometbft/state/execution.go:599-667 | after block H the three sets are the genesis set with the changes up to H, H-1 and H-2, and the last change height is the last changing block's plus 2 |
| Validators.SaveHolds | cometbft/state/store.go:187-219 | saving after a block is never refused and adds the entry of the height two ahead |
| Validators.LoadRight | cometbft/state/store.go:548-591 | the reference in an entry leads to the full copy that is right for its height, checkpoints included |
| Validators.LoadsEveryHeight | cometbft/state/store.go:548-591 | along every run, every height up to two past the last block loads the set responsible for it |
| Ticker.TimeoutTicker.Tick | cometbft/consensus/ticker.go:99-127 | a timeout takes over iff it is later in height, round and step than everything before, or repeats a step of 0 |
| Ticker.StrictUnlessRepeated | cometbft/consensus/ticker.go:104-117 | accepted timeouts rise strictly iff none with step 0 is repeated |
| Ticker.TimeoutTicker.Relay | cometbft/consensus/ticker.go:128-136 | what fires is the latest accepted timeout |
| Ticker.TimeoutTicker.Run | cometbft/consensus/ticker.go:99-143 | over any run, accepted timeouts rise, strictly if no step is 0, and each fires at most once, in order |
| PeerSet.PeerSet.Add | cometbft/p2p/peer_set.go:43-60 | appended iff new and not marked; map and list stay a bijection with right places |
| PeerSet.PeerSet.Append | cometbft/p2p/peer_set.go:54-57 | appending in place or into a new array changes no slice handed out before |
| PeerSet.PeerSet.Remove | cometbft/p2p/peer_set.go:107-144 | the last peer takes the removed one's place, in a copy; map and list stay a bijection |
| PeerSet.PeerSet.List | cometbft/p2p/peer_set.go:153-157 | the slice handed out shows the peers, and will for ever |
| PeerIDs.MempoolIDs.NextPeerID | cometbft/mempool/ids.go:30-43 | panics iff the limit is reached; otherwise the search ends, around the wrap, with an unused ID that is not 0 |
| PeerIDs.MempoolIDs.ReserveForPeer | cometbft/mempool/ids.go:19-26 | the peer gets an ID nobody has; distinct peers never share one |
| PeerIDs.MempoolIDs.Reclaim | cometbft/mempool/ids.go:46-55 | the ID is free again and nobody else's changes |
| PeerIDs.MempoolIDs.GetForPeer | cometbft/mempool/ids.go:58-63 | 0 iff the peer has no ID, and never another peer's |

## Left out

- Proposals as signed messages in the network model: any proposal and any block may arrive at any time, which only adds behaviours.
- Restarts.SysNextKeeps: on replay the node's own checks of blocks and votes come out as before, except where it panicked, which is handled anew with any answers; notices of new transactions, which the code does not log, are taken as logged. What the stores keep is the subject of `Recovery`.
- NetworkTrust.NetworkTrustworthy: that a correct validator that is not in the set of a height signs nothing there is part of how the world shows the network.
- Commits.BatchCheck: an empty batch counts as verified, as the interface of batch verifiers says; this only matters for a needed power below zero.
- Vote extensions in consensus: their checks are part of whether a vote is added.
- Round bookkeeping of HeightVoteSet (catch-up rounds of a peer): part of whether a vote is added.
- Event bus and metrics.
- Liveness, durations and clocks: timers fire at any time.
- Signatures, hashes, checksums and protobuf: ideal signatures, injective hashes, a parser that undoes the marshaller.
- Int64 overflow of heights and of total voting power in the light client: heights and powers are unbounded; the trust level and its product with the total are 64-bit.
- Verifier.CheckSound: keys all of one batchable type, as the batch path requires.
- Light client detector, witnesses, primary replacement and backwards verification.
- Sequential verification, which is VerifyAdjacent in a loop.
- Recovery.Node.Handshake: initial height 1, and an application whose hash ignores the vote code, which replay does not send.
- State sync and rollback.
- Signer.FilePV.SignVote: the signature over the vote extension, which is made anew each time.
- The vote code of a vote: the sign bytes do not cover it, so the signer may release one signature for two votes that differ in it alone.
- PeerState.PeerState.MissingVotes: the random pick among the missing votes.
- Malformed bit arrays in messages, whose words do not match their size.
- Exact counts of pending block requests per peer; the count of pending evidence is only bounded below, as the code counts some twice.
- BlockSync.Sync.Interleave: peer ranking and the lengths of bans and timeouts; which peer is asked is arbitrary.
- Switching from block sync to consensus.
- The transaction cache and senders of the mempool; reaping.
- Mempool.CListMempool.RecheckTxs: answers that are not for a listed transaction at or after the cursor.
- EvidencePool.Pool.Update: AddEvidence racing with it; methods run one at a time.
- EvidencePool.Iterates: the key-value store iterates in the order of its keys.
- Wal.SearchForEndHeight: skipping corrupted entries; records that span two files.
- Validators.Pipeline: proposer priorities, consensus parameters, and how the total power limit is checked.
- Delivery order of fired timeouts, which leave the ticker through goroutines.
- Gossip, p2p transport, RPC, remote signers, node wiring and configuration.
