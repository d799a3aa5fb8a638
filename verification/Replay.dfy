/**
 What replay of the log does. The records of the log are what the node handled, with what
 the outside said at the time. On replay the signer and the application may answer
 differently: the signer may have signed on, and the application is asked again whether it
 accepts a proposal. The node comes back with everything but its signatures as before.
 */
module Replay {
  import opened Options
  import opened RoundState
  import opened Steps
  import opened Discipline

  /** What was handled, and the outside's part in it. */
  datatype Entry = Entry(event: Event, env: Env)

  /** A signer that signs everything. */
  function Willing(): Vote -> bool {
    (v: Vote) => true
  }

  ghost function Prevotes(): iset<Vote> {
    iset v: Vote | v.kind == Prevote
  }

  /** The same but for signatures, of which the first has no others, except for those that are spare. */
  ghost predicate Under(n: Node, m: Node, spare: iset<Vote>) {
    n == m.(signed := n.signed) && forall v | v in n.signed :: v in m.signed || v in spare
  }

  /** The same outside, but for a willing signer; an application that answers differently changes prevotes. */
  ghost predicate Loosens(env: Env, full: Env, spare: iset<Vote>) {
    && full == env.(signs := Willing(), accepted := full.accepted)
    && (env.accepted == full.accepted || Prevotes() <= spare)
  }

  // ---- no step looks at what was signed ----

  lemma SignAddVoteUnder(n: Node, m: Node, kind: VoteType, id: BlockID, env: Env, full: Env, spare: iset<Vote>)
    requires Under(n, m, spare) && Loosens(env, full, spare)
    ensures Under(SignAddVote(n, kind, id, env), SignAddVote(m, kind, id, full), spare)
  {
  }

  /** Two prevotes may differ if all of them are spare. */
  lemma PrevotesUnder(n: Node, m: Node, id: BlockID, id': BlockID, env: Env, full: Env, spare: iset<Vote>)
    requires Under(n, m, spare) && Loosens(env, full, spare) && Prevotes() <= spare
    ensures Under(SignAddVote(n, Prevote, id, env), SignAddVote(m, Prevote, id', full), spare)
  {
  }

  lemma DoPrevoteUnder(n: Node, m: Node, env: Env, full: Env, spare: iset<Vote>)
    requires Under(n, m, spare) && Loosens(env, full, spare)
    ensures Under(DoPrevote(n, env), DoPrevote(m, full), spare)
  {
    hide SignAddVote;
    if n.lockedBlock.Some? {
      SignAddVoteUnder(n, m, Prevote, BlockID(n.lockedBlock.value.hash, HeaderOf(n.lockedParts)), env, full, spare);
    } else {
      SignAddVoteUnder(n, m, Prevote, NIL_ID, env, full, spare);
      if n.proposalBlock.Some? {
        var id := BlockID(n.proposalBlock.value.hash, HeaderOf(n.proposalParts));
        SignAddVoteUnder(n, m, Prevote, id, env, full, spare);
        if env.accepted != full.accepted {
          PrevotesUnder(n, m, NIL_ID, id, env, full, spare);
          PrevotesUnder(n, m, id, NIL_ID, env, full, spare);
        }
      }
    }
  }

  lemma EnterPrevoteUnder(n: Node, m: Node, height: nat, round: int, env: Env, full: Env, spare: iset<Vote>)
    requires Under(n, m, spare) && Loosens(env, full, spare)
    ensures Under(EnterPrevote(n, height, round, env), EnterPrevote(m, height, round, full), spare)
  {
    DoPrevoteUnder(n, m, env, full, spare);
    hide DoPrevote;
  }

  lemma EnterProposeUnder(n: Node, m: Node, height: nat, round: int, env: Env, full: Env, spare: iset<Vote>)
    requires Under(n, m, spare) && Loosens(env, full, spare)
    ensures Under(EnterPropose(n, height, round, env), EnterPropose(m, height, round, full), spare)
  {
    hide EnterPrevote;
    var a := Schedule(n, height, round, PROPOSE).(round := round, step := PROPOSE);
    var b := Schedule(m, height, round, PROPOSE).(round := round, step := PROPOSE);
    EnterPrevoteUnder(a, b, height, round, env, full, spare);
  }

  lemma EnterNewRoundUnder(n: Node, m: Node, height: nat, round: int, env: Env, full: Env, spare: iset<Vote>)
    requires Under(n, m, spare) && Loosens(env, full, spare)
    ensures Under(EnterNewRound(n, height, round, env), EnterNewRound(m, height, round, full), spare)
  {
    hide EnterPropose;
    EnterProposeUnder(ResetRound(n, round), ResetRound(m, round), height, round, env, full, spare);
  }

  lemma DoPrecommitUnder(n: Node, m: Node, round: int, env: Env, full: Env, spare: iset<Vote>)
    requires Under(n, m, spare) && Loosens(env, full, spare)
    ensures Under(DoPrecommit(n, round, env), DoPrecommit(m, round, full), spare)
  {
    hide SignAddVote;
    SignAddVoteUnder(n, m, Precommit, NIL_ID, env, full, spare);
    var polka := Majority(n, round, Prevote);
    if polka.Some? {
      var id := polka.value;
      SignAddVoteUnder(Unlock(n), Unlock(m), Precommit, NIL_ID, env, full, spare);
      SignAddVoteUnder(Unlock(n).(proposalBlock := None, proposalParts := Some(id.parts)),
                       Unlock(m).(proposalBlock := None, proposalParts := Some(id.parts)), Precommit, NIL_ID, env, full, spare);
      SignAddVoteUnder(n.(lockedRound := round), m.(lockedRound := round), Precommit, id, env, full, spare);
      SignAddVoteUnder(n.(lockedRound := round, lockedBlock := n.proposalBlock, lockedParts := n.proposalParts),
                       m.(lockedRound := round, lockedBlock := m.proposalBlock, lockedParts := m.proposalParts),
                       Precommit, id, env, full, spare);
    }
  }

  lemma EnterPrecommitUnder(n: Node, m: Node, height: nat, round: int, env: Env, full: Env, spare: iset<Vote>)
    requires Under(n, m, spare) && Loosens(env, full, spare)
    ensures Under(EnterPrecommit(n, height, round, env), EnterPrecommit(m, height, round, full), spare)
  {
    DoPrecommitUnder(n, m, round, env, full, spare);
    hide DoPrecommit;
  }

  lemma TryFinalizeCommitUnder(n: Node, m: Node, height: nat, env: Env, full: Env, spare: iset<Vote>)
    requires Under(n, m, spare) && Loosens(env, full, spare)
    ensures Under(TryFinalizeCommit(n, height, env), TryFinalizeCommit(m, height, full), spare)
  {
  }

  lemma EnterCommitUnder(n: Node, m: Node, height: nat, round: int, env: Env, full: Env, spare: iset<Vote>)
    requires Under(n, m, spare) && Loosens(env, full, spare)
    ensures Under(EnterCommit(n, height, round, env), EnterCommit(m, height, round, full), spare)
  {
    hide TryFinalizeCommit;
    var polka := Majority(n, round, Precommit);
    if polka.Some? {
      TryFinalizeCommitUnder(AimAt(n, polka.value).(step := COMMIT, commitRound := round),
                             AimAt(m, polka.value).(step := COMMIT, commitRound := round), height, env, full, spare);
    }
  }

  lemma WaitUnder(g: Genesis, n: Node, m: Node, height: nat, round: int, spare: iset<Vote>)
    requires Under(n, m, spare)
    ensures Under(EnterPrevoteWait(g, n, height, round), EnterPrevoteWait(g, m, height, round), spare)
    ensures Under(EnterPrecommitWait(g, n, height, round), EnterPrecommitWait(g, m, height, round), spare)
  {
  }

  lemma UnlockOnPolkaUnder(n: Node, m: Node, round: int, id: BlockID, spare: iset<Vote>)
    requires Under(n, m, spare)
    ensures Under(UnlockOnPolka(n, round, id), UnlockOnPolka(m, round, id), spare)
  {
  }

  lemma UpdateValidUnder(n: Node, m: Node, round: int, id: BlockID, spare: iset<Vote>)
    requires Under(n, m, spare)
    ensures Under(UpdateValid(n, round, id), UpdateValid(m, round, id), spare)
  {
    assert n.proposalBlock == m.proposalBlock && n.proposalParts == m.proposalParts;
    assert n.validRound == m.validRound && n.round == m.round;
  }

  lemma OnPolkaUnder(n: Node, m: Node, round: int, id: BlockID, spare: iset<Vote>)
    requires Under(n, m, spare)
    ensures Under(UpdateValid(UnlockOnPolka(n, round, id), round, id), UpdateValid(UnlockOnPolka(m, round, id), round, id), spare)
  {
    hide Under, UnlockOnPolka, UpdateValid;
    UnlockOnPolkaUnder(n, m, round, id, spare);
    UpdateValidUnder(UnlockOnPolka(n, round, id), UnlockOnPolka(m, round, id), round, id, spare);
  }

  /** What the handlers ask of a node is the same for both. */
  lemma UnderAlike(g: Genesis, n: Node, m: Node, round: int, kind: VoteType, spare: iset<Vote>)
    requires Under(n, m, spare)
    ensures n.height == m.height && n.round == m.round && n.step == m.step && n.proposal == m.proposal
    ensures Majority(n, round, kind) == Majority(m, round, kind) && ProposalComplete(n) == ProposalComplete(m)
    ensures TwoThirdsAny(g, n, round, kind) == TwoThirdsAny(g, m, round, kind)
  {
  }

  lemma OnPrevoteUnder(g: Genesis, n: Node, m: Node, v: Vote, env: Env, full: Env, spare: iset<Vote>)
    requires Under(n, m, spare) && Loosens(env, full, spare)
    ensures Under(OnPrevote(g, n, v, env), OnPrevote(g, m, v, full), spare)
  {
    hide Under, Majority, TwoThirdsAny, ProposalComplete;
    hide UpdateValid, UnlockOnPolka, EnterNewRound, EnterPrecommit, EnterPrevoteWait, EnterPrevote;
    UnderAlike(g, n, m, v.round, Prevote, spare);
    var polka := Majority(n, v.round, Prevote);
    var a, b := n, m;
    if polka.Some? {
      OnPolkaUnder(n, m, v.round, polka.value, spare);
      a := UpdateValid(UnlockOnPolka(n, v.round, polka.value), v.round, polka.value);
      b := UpdateValid(UnlockOnPolka(m, v.round, polka.value), v.round, polka.value);
    }
    UnderAlike(g, a, b, v.round, Prevote, spare);
    EnterNewRoundUnder(a, b, a.height, v.round, env, full, spare);
    EnterPrecommitUnder(a, b, a.height, v.round, env, full, spare);
    WaitUnder(g, a, b, a.height, v.round, spare);
    EnterPrevoteUnder(a, b, a.height, a.round, env, full, spare);
  }

  lemma OnPrecommitUnder(g: Genesis, n: Node, m: Node, v: Vote, env: Env, full: Env, spare: iset<Vote>)
    requires Under(n, m, spare) && Loosens(env, full, spare)
    ensures Under(OnPrecommit(g, n, v, env), OnPrecommit(g, m, v, full), spare)
  {
    hide EnterNewRound, EnterPrecommit, EnterPrecommitWait, EnterCommit;
    var a, b := EnterNewRound(n, n.height, v.round, env), EnterNewRound(m, n.height, v.round, full);
    EnterNewRoundUnder(n, m, n.height, v.round, env, full, spare);
    WaitUnder(g, a, b, n.height, v.round, spare);
    var a1, b1 := EnterPrecommit(a, n.height, v.round, env), EnterPrecommit(b, n.height, v.round, full);
    EnterPrecommitUnder(a, b, n.height, v.round, env, full, spare);
    WaitUnder(g, a1, b1, n.height, v.round, spare);
    var a2, b2 := EnterCommit(a1, n.height, v.round, env), EnterCommit(b1, n.height, v.round, full);
    EnterCommitUnder(a1, b1, n.height, v.round, env, full, spare);
    EnterNewRoundUnder(a2, b2, a2.height, 0, env, full, spare);
  }

  lemma AddVoteUnder(g: Genesis, n: Node, m: Node, v: Vote, env: Env, full: Env, spare: iset<Vote>)
    requires Under(n, m, spare) && Loosens(env, full, spare)
    ensures Under(AddVote(g, n, v, env), AddVote(g, m, v, full), spare)
  {
    var a, b := Record(g, n, v, env), Record(g, m, v, full);
    assert Under(a, b, spare);
    hide Record, OnPrevote, OnPrecommit, EnterNewRound;
    EnterNewRoundUnder(n, m, n.height, 0, env, full, spare);
    OnPrevoteUnder(g, a, b, v, env, full, spare);
    OnPrecommitUnder(g, a, b, v, env, full, spare);
  }

  lemma AddCompleteBlockUnder(n: Node, m: Node, height: nat, block: Option<Block>, env: Env, full: Env, spare: iset<Vote>)
    requires Under(n, m, spare) && Loosens(env, full, spare)
    ensures Under(AddCompleteBlock(n, height, block, env), AddCompleteBlock(m, height, block, full), spare)
  {
    hide HandleCompleteProposal;
    var a := if block.Some? then n.(proposalBlock := block) else n;
    var b := if block.Some? then m.(proposalBlock := block) else m;
    HandleCompleteProposalUnder(a, b, height, env, full, spare);
  }

  lemma HandleCompleteProposalUnder(n: Node, m: Node, height: nat, env: Env, full: Env, spare: iset<Vote>)
    requires Under(n, m, spare) && Loosens(env, full, spare)
    ensures Under(HandleCompleteProposal(n, height, env), HandleCompleteProposal(m, height, full), spare)
  {
    hide MoveOnWithBlock;
    var two := Majority(n, n.round, Prevote).Some?;
    var a := n.(validRound := n.round, validBlock := n.proposalBlock, validParts := n.proposalParts);
    var b := m.(validRound := m.round, validBlock := m.proposalBlock, validParts := m.proposalParts);
    MoveOnUnder(n, m, height, two, env, full, spare);
    MoveOnUnder(a, b, height, two, env, full, spare);
  }

  lemma MoveOnUnder(n: Node, m: Node, height: nat, hasTwoThirds: bool, env: Env, full: Env, spare: iset<Vote>)
    requires Under(n, m, spare) && Loosens(env, full, spare)
    ensures Under(MoveOnWithBlock(n, height, hasTwoThirds, env), MoveOnWithBlock(m, height, hasTwoThirds, full), spare)
  {
    hide EnterPrevote, EnterPrecommit, TryFinalizeCommit;
    var a, b := EnterPrevote(n, height, n.round, env), EnterPrevote(m, height, m.round, full);
    EnterPrevoteUnder(n, m, height, n.round, env, full, spare);
    EnterPrecommitUnder(a, b, height, a.round, env, full, spare);
    TryFinalizeCommitUnder(n, m, height, env, full, spare);
  }

  lemma HandleTimeoutUnder(n: Node, m: Node, t: Timeout, env: Env, full: Env, spare: iset<Vote>)
    requires Under(n, m, spare) && Loosens(env, full, spare)
    ensures Under(HandleTimeout(n, t, env), HandleTimeout(m, t, full), spare)
  {
    hide EnterNewRound, EnterPropose, EnterPrevote, EnterPrecommit;
    EnterNewRoundUnder(n, m, t.height, 0, env, full, spare);
    EnterProposeUnder(n, m, t.height, t.round, env, full, spare);
    EnterPrevoteUnder(n, m, t.height, t.round, env, full, spare);
    EnterPrecommitUnder(n, m, t.height, t.round, env, full, spare);
    EnterNewRoundUnder(EnterPrecommit(n, t.height, t.round, env), EnterPrecommit(m, t.height, t.round, full),
                       t.height, t.round + 1, env, full, spare);
  }

  lemma HandleUnder(g: Genesis, n: Node, m: Node, e: Event, env: Env, full: Env, spare: iset<Vote>)
    requires Under(n, m, spare) && Loosens(env, full, spare)
    ensures Under(Handle(g, n, e, env), Handle(g, m, e, full), spare)
  {
    match e
    case ProposalMsg(p) =>
    case CompleteBlockMsg(h, b) => AddCompleteBlockUnder(n, m, h, b, env, full, spare);
    case VoteMsg(v) => AddVoteUnder(g, n, m, v, env, full, spare);
    case TimeoutMsg(t) => HandleTimeoutUnder(n, m, t, env, full, spare);
    case TxsAvailable =>
      hide EnterPropose;
      EnterProposeUnder(n, m, n.height, 0, env, full, spare);
  }

  // ---- what replay brings back ----

  /** The node after these records. */
  function Replayed(g: Genesis, validator: nat, records: seq<Entry>): Node {
    if records == [] then Initial(g, validator)
    else
      var last := records[|records| - 1];
      Handle(g, Replayed(g, validator, records[..|records| - 1]), last.event, last.env)
  }

  function Eager(e: Entry): Entry {
    e.(env := e.env.(signs := Willing()))
  }

  /** The node these records lead to if everything asked for is signed. */
  function Full(g: Genesis, validator: nat, records: seq<Entry>): Node {
    if records == [] then Initial(g, validator)
    else
      var last := Eager(records[|records| - 1]);
      Handle(g, Full(g, validator, records[..|records| - 1]), last.event, last.env)
  }

  /** The same records, but for what the signer and the application answer. */
  ghost predicate Similar(a: seq<Entry>, b: seq<Entry>) {
    |a| == |b| && forall i | 0 <= i < |a| :: SimilarEntry(a[i], b[i])
  }

  ghost predicate SimilarEntry(a: Entry, b: Entry) {
    a.event == b.event && a.env == b.env.(signs := a.env.signs, accepted := a.env.accepted)
  }

  ghost predicate SameButSigned(n: Node, m: Node) {
    n == m.(signed := n.signed)
  }

  /** Only timeouts that were asked for have fired. */
  ghost predicate Legal(g: Genesis, validator: nat, records: seq<Entry>) {
    forall i: nat | i < |records| && records[i].event.TimeoutMsg? ::
      records[i].event.timeout in Full(g, validator, records[..i]).timeouts
  }

  lemma LegalPrefix(g: Genesis, validator: nat, records: seq<Entry>, k: nat)
    requires Legal(g, validator, records) && k <= |records|
    ensures Legal(g, validator, records[..k])
  {
    forall i: nat | i < k
      ensures records[..k][..i] == records[..i]
    {
    }
  }

  lemma LegalMore(g: Genesis, validator: nat, records: seq<Entry>, x: Entry)
    requires Legal(g, validator, records)
    requires x.event.TimeoutMsg? ==> x.event.timeout in Full(g, validator, records).timeouts
    ensures Legal(g, validator, records + [x])
  {
    forall i: nat | i <= |records|
      ensures (records + [x])[..i] == records[..i]
    {
    }
    assert records[..|records|] == records;
  }

  lemma FullMore(g: Genesis, validator: nat, records: seq<Entry>, x: Entry)
    ensures Full(g, validator, records + [x]) == Handle(g, Full(g, validator, records), x.event, x.env.(signs := Willing()))
  {
    assert (records + [x])[..|records|] == records;
  }

  lemma UnderItself(n: Node, spare: iset<Vote>)
    ensures Under(n, n, spare)
  {
  }

  /** Whatever is answered on replay, everything but signatures comes back, and no precommit is new. */
  lemma {:induction false} SimilarUnder(g: Genesis, validator: nat, a: seq<Entry>, b: seq<Entry>)
    requires Similar(a, b)
    ensures Under(Replayed(g, validator, a), Full(g, validator, b), Prevotes())
    ensures Under(Full(g, validator, a), Full(g, validator, b), Prevotes())
  {
    hide Handle, Under;
    if a == [] {
      UnderItself(Initial(g, validator), Prevotes());
    } else {
      var k := |a| - 1;
      SimilarUnder(g, validator, a[..k], b[..k]);
      assert SimilarEntry(a[k], b[k]);
      var full := Eager(b[k]).env;
      HandleUnder(g, Replayed(g, validator, a[..k]), Full(g, validator, b[..k]), a[k].event, a[k].env, full, Prevotes());
      HandleUnder(g, Full(g, validator, a[..k]), Full(g, validator, b[..k]), a[k].event, Eager(a[k]).env, full, Prevotes());
    }
  }

  lemma {:induction false} ReplayedUnder(g: Genesis, validator: nat, records: seq<Entry>)
    ensures Under(Replayed(g, validator, records), Full(g, validator, records), iset{})
  {
    hide Handle, Under;
    if records == [] {
      UnderItself(Initial(g, validator), iset{});
    } else {
      var k := |records| - 1;
      ReplayedUnder(g, validator, records[..k]);
      HandleUnder(g, Replayed(g, validator, records[..k]), Full(g, validator, records[..k]), records[k].event,
                  records[k].env, Eager(records[k]).env, iset{});
    }
  }

  ghost predicate Forward(n: Node, m: Node) {
    n.validator == m.validator && n.chain <= m.chain && n.votes <= m.votes && n.signed <= m.signed
  }

  lemma {:induction false} FullKeeps(g: Genesis, validator: nat, records: seq<Entry>, k: nat)
    requires g.initialHeight >= 1 && Legal(g, validator, records) && k <= |records|
    ensures Inv(g, Full(g, validator, records)) && Full(g, validator, records).validator == validator
    ensures Forward(Full(g, validator, records[..k]), Full(g, validator, records))
    decreases |records|
  {
    hide Handle, Inv, LockKept, HRSNotBack;
    assert records[..|records|] == records;
    if records == [] {
      Starts(g, validator);
    } else {
      var last := |records| - 1;
      LegalPrefix(g, validator, records, last);
      FullKeeps(g, validator, records[..last], if k < last then k else last);
      assert k < last ==> records[..last][..k] == records[..k];
      assert records[..last][..last] == records[..last];
      Keeps(g, Full(g, validator, records[..last]), records[last].event, Eager(records[last]).env);
    }
  }

  lemma SimilarLegal(g: Genesis, validator: nat, a: seq<Entry>, b: seq<Entry>)
    requires Similar(a, b) && Legal(g, validator, b)
    ensures Legal(g, validator, a)
  {
    hide Handle, Full;
    forall i: nat | i < |a| && a[i].event.TimeoutMsg?
      ensures a[i].event.timeout in Full(g, validator, a[..i]).timeouts
    {
      assert SimilarEntry(a[i], b[i]);
      SimilarUnder(g, validator, a[..i], b[..i]);
    }
  }

  // ---- what may be signed in the course of many replays ----

  /** The vote is asked for, by these records with some answers of the application. */
  ghost predicate Asked(g: Genesis, validator: nat, records: seq<Entry>, v: Vote) {
    exists a: seq<Entry> :: Similar(a, records) && v in Full(g, validator, a).signed
  }

  lemma AskedMore(g: Genesis, validator: nat, records: seq<Entry>, k: nat, v: Vote)
    requires g.initialHeight >= 1 && Legal(g, validator, records) && k <= |records| && Asked(g, validator, records[..k], v)
    ensures Asked(g, validator, records, v)
  {
    hide Full, Legal, Inv;
    var a: seq<Entry> :| Similar(a, records[..k]) && v in Full(g, validator, a).signed;
    var b := a + records[k..];
    assert Similar(b, records);
    SimilarLegal(g, validator, b, records);
    assert b[..k] == a;
    FullKeeps(g, validator, b, k);
  }

  /** A precommit is asked for whatever the application answers. */
  lemma PrecommitAsked(g: Genesis, validator: nat, a: seq<Entry>, b: seq<Entry>, v: Vote)
    requires Similar(a, b) && v in Full(g, validator, a).signed && v.kind == Precommit
    ensures v in Full(g, validator, b).signed
  {
    hide Full;
    SimilarUnder(g, validator, a, b);
  }

  lemma SimilarBoth(a: seq<Entry>, b: seq<Entry>, c: seq<Entry>)
    requires Similar(a, c) && Similar(b, c)
    ensures Similar(a, b)
  {
    forall i | 0 <= i < |a|
      ensures SimilarEntry(a[i], b[i])
    {
      assert SimilarEntry(a[i], c[i]) && SimilarEntry(b[i], c[i]);
    }
  }

  /** What is asked for, by whatever answers, is backed where the records have led the node. */
  lemma AskedBacked(g: Genesis, n: Node, records: seq<Entry>, v: Vote)
    requires g.initialHeight >= 1 && Legal(g, n.validator, records) && Asked(g, n.validator, records, v)
    requires SameButSigned(n, Full(g, n.validator, records))
    ensures v.validator == n.validator && v.height <= n.height
    ensures v.height == n.height ==> v.round < n.round || (v.round == n.round && StepOf(v.kind) <= n.step)
    ensures RealPrecommit(v) ==> Polka(Ev(g, n), v.height, v.round, v.id)
    ensures RealPrecommit(v) && v.height == n.height ==> HoldsLock(n, v) || RivalPolka(Ev(g, n), v.height, v.round, v.id.hash)
  {
    hide Full, Legal;
    var a: seq<Entry> :| Similar(a, records) && v in Full(g, n.validator, a).signed;
    SimilarUnder(g, n.validator, a, records);
    SimilarLegal(g, n.validator, a, records);
    FullKeeps(g, n.validator, a, |a|);
    var m := Full(g, n.validator, a);
    assert Ev(g, m) == Ev(g, n);
    assert HoldsLock(m, v) ==> HoldsLock(n, v);
  }

  lemma AskedTurns(g: Genesis, n: Node, records: seq<Entry>, v: Vote, w: Vote)
    requires g.initialHeight >= 1 && Legal(g, n.validator, records) && Turns(v, w)
    requires Asked(g, n.validator, records, v) && Asked(g, n.validator, records, w)
    requires SameButSigned(n, Full(g, n.validator, records))
    ensures RivalPolka(Ev(g, n), v.height, v.round, v.id.hash)
  {
    hide Full, Legal;
    var a: seq<Entry> :| Similar(a, records) && v in Full(g, n.validator, a).signed;
    var b: seq<Entry> :| Similar(b, records) && w in Full(g, n.validator, b).signed;
    SimilarBoth(a, b, records);
    PrecommitAsked(g, n.validator, a, b, v);
    SimilarUnder(g, n.validator, b, records);
    SimilarLegal(g, n.validator, b, records);
    FullKeeps(g, n.validator, b, |b|);
    assert Ev(g, Full(g, n.validator, b)) == Ev(g, n);
  }

  /**
   A node that is where its records led it, with signatures that were asked for in any of
   its replays, is disciplined if it has not signed twice.
   */
  lemma MixedKeeps(g: Genesis, n: Node, records: seq<Entry>)
    requires g.initialHeight >= 1 && Legal(g, n.validator, records)
    requires SameButSigned(n, Full(g, n.validator, records))
    requires (forall v | v in n.signed :: Asked(g, n.validator, records, v)) && NoDoubleVote(n.signed)
    ensures Inv(g, n)
  {
    FullKeeps(g, n.validator, records, |records|);
    hide Full, Legal, Asked, Inv, Polka, RivalPolka;
    assert PrecommitsBacked(g, n) && SignedOnce(n) by {
      forall v | v in n.signed
        ensures v.validator == n.validator && v.height <= n.height
        ensures v.height == n.height ==> v.round < n.round || (v.round == n.round && StepOf(v.kind) <= n.step)
        ensures RealPrecommit(v) ==> Polka(Ev(g, n), v.height, v.round, v.id)
        ensures RealPrecommit(v) && v.height == n.height ==> HoldsLock(n, v) || RivalPolka(Ev(g, n), v.height, v.round, v.id.hash)
      {
        AskedBacked(g, n, records, v);
      }
    }
    assert TurnsBacked(g, n) by {
      forall v, w | v in n.signed && w in n.signed && Turns(v, w)
        ensures RivalPolka(Ev(g, n), v.height, v.round, v.id.hash)
      {
        AskedTurns(g, n, records, v, w);
      }
    }
    hide SignedOnce, PrecommitsBacked, TurnsBacked, SameButSigned, NoDoubleVote;
    OtherSignatures(g, n, Full(g, n.validator, records));
  }

  lemma OtherSignatures(g: Genesis, n: Node, m: Node)
    requires Inv(g, m) && SameButSigned(n, m) && SignedOnce(n) && PrecommitsBacked(g, n) && TurnsBacked(g, n)
    ensures Inv(g, n)
  {
    hide SignedOnce, PrecommitsBacked, TurnsBacked;
    assert Ev(g, n) == Ev(g, m);
  }

  /** Replay with any answers asks only for what these records ask for, once for each height, round and kind. */
  lemma ReplayAsks(g: Genesis, validator: nat, a: seq<Entry>, records: seq<Entry>)
    requires g.initialHeight >= 1 && Legal(g, validator, records) && Similar(a, records)
    ensures var n := Replayed(g, validator, a);
      && SameButSigned(n, Full(g, validator, records)) && NoDoubleVote(n.signed)
      && forall v | v in n.signed :: Asked(g, validator, records, v)
  {
    hide Full, Legal, Replayed;
    SimilarUnder(g, validator, a, records);
    SimilarLegal(g, validator, a, records);
    ReplayedUnder(g, validator, a);
    FullKeeps(g, validator, a, |a|);
  }
}
