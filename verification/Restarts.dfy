/**
 The network of `Agreement` with correct nodes that crash. A node logs what it handles; a
 vote leaves it only once the log is synced. A crash loses some of what was not synced.
 Replay handles the rest again: the application is asked again about proposals, and the
 signer for every vote, and it may sign some that it did not sign before, or refuse some
 that it did. It keeps its own file, and signs only what is later than everything it has
 ever signed, or its last vote again. Agreement holds across crashes, also with decisions
 that a crash has lost.
 */
module Restarts {
  import opened RoundState
  import opened Steps
  import opened Discipline
  import opened Agreement
  import opened Replay
  import Signer

  /**
   A correct node with its log. `durable` is the node at the last sync, after `synced`
   records; `memory` is every vote its signer has ever signed.
   */
  datatype Proc = Proc(node: Node, records: seq<Entry>, durable: Node, synced: nat, memory: set<Vote>)

  /** `votes` have left their signer. */
  datatype Sys = Sys(procs: map<nat, Proc>, votes: set<Vote>)

  /** What the signer still signs. */
  predicate Allowed(memory: set<Vote>, v: Vote) {
    forall w | w in memory :: v == w || Later(v, w)
  }

  function SignStep(kind: VoteType): int {
    if kind == Prevote then Signer.STEP_PREVOTE else Signer.STEP_PRECOMMIT
  }

  /** Any two votes of the signer are for different heights, rounds or steps. */
  ghost predicate InOrder(memory: set<Vote>) {
    forall v, w | v in memory && w in memory :: v == w || Later(v, w) || Later(w, v)
  }

  ghost predicate IsLast(memory: set<Vote>, last: Vote) {
    last in memory && forall w | w in memory :: w == last || Later(last, w)
  }

  lemma LastExists(memory: set<Vote>) returns (last: Vote)
    requires InOrder(memory) && memory != {}
    ensures IsLast(memory, last)
  {
    var v :| v in memory;
    if memory == {v} {
      last := v;
    } else {
      var other := LastExists(memory - {v});
      last := if Later(other, v) then other else v;
      forall w | w in memory
        ensures w == last || Later(last, w)
      {
        assert w == v || w in memory - {v};
        assert Later(other, v) || Later(v, other);
      }
    }
  }

  /** This is what the file of the signer, which holds the last vote only, decides. */
  lemma SignerAllows(memory: set<Vote>, last: Vote, lss: Signer.LastSign, v: Vote)
    requires IsLast(memory, last)
    requires lss.height == last.height && lss.round == last.round && lss.step == SignStep(last.kind)
    ensures Allowed(memory, v) <==> v == last || Signer.CheckHRS(lss, v.height, v.round, SignStep(v.kind)).Later?
  {
  }

  /** The node handles something; its new votes stay inside. */
  ghost predicate TurnStep(g: Genesis, s: Sys, s': Sys, p: nat, e: Event, env: Env) {
    && p in s.procs
    && var x := s.procs[p];
       var n' := Handle(g, x.node, e, env);
       && (e.VoteMsg? ==> e.vote in s.votes) && (e.TimeoutMsg? ==> e.timeout in x.node.timeouts)
       && (forall v | v in n'.signed && v !in x.node.signed :: Allowed(x.memory, v))
       && s' == s.(procs := s.procs[p := Logged(x, n', Entry(e, env))])
  }

  function Logged(x: Proc, n: Node, entry: Entry): Proc {
    x.(node := n, records := x.records + [entry], memory := x.memory + n.signed)
  }

  /**
   The log is synced, and the votes signed until then are sent. A node that panicked sends
   nothing more; what it panicked at is handled anew, with new answers of everyone, once a
   crash has taken it back to the record before.
   */
  ghost predicate SyncStep(s: Sys, s': Sys, p: nat) {
    && p in s.procs && !s.procs[p].node.halted
    && var x := s.procs[p];
       s' == Sys(s.procs[p := x.(durable := x.node, synced := |x.records|)], s.votes + x.node.signed)
  }

  /** A crash, and replay of the records that are left, with the answers then given. */
  ghost predicate CrashStep(g: Genesis, s: Sys, s': Sys, p: nat, k: nat, again: seq<Entry>) {
    && p in s.procs
    && var x := s.procs[p];
       && x.synced <= k <= |x.records| && Similar(again, x.records[..k])
       && (forall v | v in Replayed(g, p, again).signed && v !in x.durable.signed :: Allowed(x.memory, v))
       && s' == s.(procs := s.procs[p := AfterCrash(g, p, x, k, again)])
  }

  /** What was signed and synced is out and stays so. */
  function AfterCrash(g: Genesis, p: nat, x: Proc, k: nat, again: seq<Entry>): Proc
    requires k <= |x.records|
  {
    var r := Replayed(g, p, again);
    var n := r.(signed := x.durable.signed + r.signed);
    x.(node := n, records := x.records[..k], memory := x.memory + n.signed)
  }

  ghost predicate OtherStep(s: Sys, s': Sys, v: Vote) {
    v.validator !in s.procs && s' == s.(votes := s.votes + {v})
  }

  ghost predicate SysNext(g: Genesis, s: Sys, s': Sys) {
    || (exists p, e, env :: TurnStep(g, s, s', p, e, env))
    || (exists p :: SyncStep(s, s', p))
    || (exists p, k, again :: CrashStep(g, s, s', p, k, again))
    || (exists v :: OtherStep(s, s', v))
  }

  ghost predicate SysInit(g: Genesis, s: Sys) {
    && g.initialHeight >= 1
    && (forall p | p in s.procs :: s.procs[p] == Proc(Initial(g, p), [], Initial(g, p), 0, {}))
    && (forall v | v in s.votes :: v.validator !in s.procs)
  }

  // ---- the network as the last syncs left it ----

  ghost function Durable(s: Sys): Net {
    Net(map p | p in s.procs :: s.procs[p].durable, s.votes)
  }

  /** As in `Agreement`, for every node as it is and as it was at its last sync. */
  ghost predicate SysFaultAssumption(g: Genesis, s: Sys) {
    && FaultAssumption(g, Durable(s))
    && forall p, k: nat | p in s.procs && k <= |s.procs[p].node.chain| ::
         FaultyBelowThird(g, Durable(s), s.procs[p].node.chain[..k])
  }

  /** The node is where these records lead, with signatures that they ask for. */
  ghost predicate LedTo(g: Genesis, p: nat, records: seq<Entry>, n: Node) {
    && n.validator == p && SameButSigned(n, Full(g, p, records)) && NoDoubleVote(n.signed)
    && forall v | v in n.signed :: Asked(g, p, records, v)
  }

  ghost predicate ProcSound(g: Genesis, votes: set<Vote>, p: nat, x: Proc) {
    && x.synced <= |x.records| && Legal(g, p, x.records)
    && LedTo(g, p, x.records, x.node) && LedTo(g, p, x.records[..x.synced], x.durable)
    && SignedForward(x.durable.signed, x.node.signed)
    && x.node.signed <= x.memory && InOrder(x.memory) && x.node.votes <= votes
  }

  ghost predicate ProcsSound(g: Genesis, s: Sys) {
    forall p | p in s.procs :: ProcSound(g, s.votes, p, s.procs[p])
  }

  ghost predicate SysInv(g: Genesis, s: Sys) {
    g.initialHeight >= 1 && ProcsSound(g, s) && NetInv(g, Durable(s))
  }

  // ---- one node ----

  lemma ProcKeeps(g: Genesis, votes: set<Vote>, p: nat, x: Proc)
    requires g.initialHeight >= 1 && ProcSound(g, votes, p, x)
    ensures Inv(g, x.node) && x.node.validator == p && x.durable.chain <= x.node.chain
  {
    hide Full, Legal, Inv, Asked;
    FullKeeps(g, p, x.records, x.synced);
    MixedKeeps(g, x.node, x.records);
  }

  /** Something more is handled: whatever is signed was asked for by the records, and so was all before. */
  lemma LedFurther(g: Genesis, p: nat, records: seq<Entry>, n: Node, entry: Entry)
    requires g.initialHeight >= 1 && Legal(g, p, records + [entry]) && LedTo(g, p, records, n)
    ensures var n' := Handle(g, n, entry.event, entry.env);
      SameButSigned(n', Full(g, p, records + [entry])) && forall v | v in n'.signed :: Asked(g, p, records + [entry], v)
  {
    var spare := iset v | v in n.signed;
    var more := records + [entry];
    var n' := Handle(g, n, entry.event, entry.env);
    HandleUnder(g, n, Full(g, p, records), entry.event, entry.env, entry.env.(signs := Willing()), spare);
    FullMore(g, p, records, entry);
    hide Full, Legal, Handle;
    assert Similar(more, more);
    assert more[..|records|] == records;
    forall v | v in n'.signed
      ensures Asked(g, p, more, v)
    {
      if v in n.signed {
        AskedMore(g, p, more, |records|, v);
      }
    }
  }

  /** Nothing is signed twice, as the signer looks at its memory. */
  lemma OnceMore(memory: set<Vote>, signed: set<Vote>, more: set<Vote>)
    requires NoDoubleVote(signed) && NoDoubleVote(more) && signed <= memory
    requires forall v | v in more && v !in signed :: Allowed(memory, v)
    ensures NoDoubleVote(signed + more) && SignedForward(signed, signed + more)
  {
  }

  lemma OrderKept(memory: set<Vote>, known: set<Vote>, more: set<Vote>)
    requires InOrder(memory) && known <= memory && NoDoubleVote(more)
    requires forall v | v in more && v !in known :: Allowed(memory, v)
    ensures InOrder(memory + more)
  {
    forall v, w | v in memory + more && w in memory + more
      ensures v == w || Later(v, w) || Later(w, v)
    {
      assert v in more && w in more ==> v == w || Later(v, w) || Later(w, v);
      assert v in more && v !in memory ==> Allowed(memory, v);
      assert w in more && w !in memory ==> Allowed(memory, w);
    }
  }

  /** What is newly signed in one turn is asked for by one history. */
  lemma NewOnce(g: Genesis, p: nat, records: seq<Entry>, n: Node, entry: Entry)
    requires g.initialHeight >= 1 && Legal(g, p, records + [entry]) && SameButSigned(n, Full(g, p, records))
    ensures NoDoubleVote(Handle(g, n, entry.event, entry.env).signed - n.signed)
  {
    var spare := iset v | v in n.signed;
    HandleUnder(g, n, Full(g, p, records), entry.event, entry.env, entry.env.(signs := Willing()), spare);
    FullMore(g, p, records, entry);
    FullKeeps(g, p, records + [entry], 0);
    hide Full, Legal, Handle;
  }

  lemma TurnSound(g: Genesis, votes: set<Vote>, p: nat, x: Proc, e: Event, env: Env)
    requires g.initialHeight >= 1 && ProcSound(g, votes, p, x)
    requires (e.VoteMsg? ==> e.vote in votes) && (e.TimeoutMsg? ==> e.timeout in x.node.timeouts)
    requires forall v | v in Handle(g, x.node, e, env).signed && v !in x.node.signed :: Allowed(x.memory, v)
    ensures ProcSound(g, votes, p, Logged(x, Handle(g, x.node, e, env), Entry(e, env)))
  {
    hide Handle, Full, Legal, Inv, LockKept, HRSNotBack, Asked, Allowed;
    var n', entry := Handle(g, x.node, e, env), Entry(e, env);
    ProcKeeps(g, votes, p, x);
    HandleVotes(g, x.node, e, env);
    Keeps(g, x.node, e, env);
    LegalMore(g, p, x.records, entry);
    LedFurther(g, p, x.records, x.node, entry);
    NewOnce(g, p, x.records, x.node, entry);
    OnceMore(x.memory, x.node.signed, n'.signed - x.node.signed);
    OrderKept(x.memory, x.node.signed, n'.signed - x.node.signed);
    assert n'.signed == x.node.signed + (n'.signed - x.node.signed);
    assert x.memory + n'.signed == x.memory + (n'.signed - x.node.signed);
    ForwardTwice(x.durable.signed, x.node.signed, n'.signed);
    assert (x.records + [entry])[..x.synced] == x.records[..x.synced];
  }

  lemma ForwardTwice(a: set<Vote>, b: set<Vote>, c: set<Vote>)
    requires SignedForward(a, b) && SignedForward(b, c)
    ensures SignedForward(a, c)
  {
  }

  lemma CrashSound(g: Genesis, votes: set<Vote>, p: nat, x: Proc, k: nat, again: seq<Entry>)
    requires g.initialHeight >= 1 && ProcSound(g, votes, p, x) && x.synced <= k <= |x.records|
    requires Similar(again, x.records[..k])
    requires forall v | v in Replayed(g, p, again).signed && v !in x.durable.signed :: Allowed(x.memory, v)
    ensures ProcSound(g, votes, p, AfterCrash(g, p, x, k, again))
  {
    hide Replayed, Full, Inv, Legal, Asked, Allowed;
    FullKeeps(g, p, x.records, k);
    LegalPrefix(g, p, x.records, k);
    FullKeeps(g, p, x.records[..k], x.synced);
    ReplayAsks(g, p, again, x.records[..k]);
    OnceMore(x.memory, x.durable.signed, Replayed(g, p, again).signed);
    OrderKept(x.memory, x.durable.signed, Replayed(g, p, again).signed);
    assert x.memory + (x.durable.signed + Replayed(g, p, again).signed) == x.memory + Replayed(g, p, again).signed;
    assert x.records[..k][..x.synced] == x.records[..x.synced];
    forall v | v in x.durable.signed
      ensures Asked(g, p, x.records[..k], v)
    {
      AskedMore(g, p, x.records[..k], x.synced, v);
    }
  }

  lemma MoreVotes(g: Genesis, votes: set<Vote>, votes': set<Vote>, p: nat, x: Proc)
    requires ProcSound(g, votes, p, x) && votes <= votes'
    ensures ProcSound(g, votes', p, x)
  {
  }

  lemma SyncSound(g: Genesis, votes: set<Vote>, p: nat, x: Proc)
    requires ProcSound(g, votes, p, x)
    ensures ProcSound(g, votes, p, x.(durable := x.node, synced := |x.records|))
  {
    assert x.records[..|x.records|] == x.records;
  }

  // ---- the network with one node as far as it is ----

  ghost function WithState(s: Net, p: nat, n: Node): Net {
    Net(s.nodes[p := n], s.votes + n.signed)
  }

  lemma SameFaulty(g: Genesis, s: Net, s': Net, chain: seq<Hash>)
    requires s.nodes.Keys == s'.nodes.Keys
    ensures FaultyBelowThird(g, s, chain) <==> FaultyBelowThird(g, s', chain)
  {
    assert Faulty(s, g.validators(chain)) == Faulty(s', g.validators(chain));
  }

  lemma FaultsThen(g: Genesis, s: Sys, p: nat)
    requires SysFaultAssumption(g, s) && p in s.procs
    ensures FaultAssumption(g, WithState(Durable(s), p, s.procs[p].node))
  {
    hide FaultyBelowThird;
    var before, net := Durable(s), WithState(Durable(s), p, s.procs[p].node);
    forall q, k: nat | q in net.nodes && k <= |net.nodes[q].chain|
      ensures FaultyBelowThird(g, net, net.nodes[q].chain[..k])
    {
      assert q != p ==> net.nodes[q] == before.nodes[q];
      SameFaulty(g, before, net, net.nodes[q].chain[..k]);
    }
  }

  lemma LinkedThen(g: Genesis, s: Net, p: nat, n: Node)
    requires Linked(g, s) && p in s.nodes && Inv(g, n) && n.validator == p && n.votes <= s.votes
    requires s.nodes[p].signed <= n.signed
    ensures Linked(g, WithState(s, p, n))
  {
    hide Inv;
    SignsForItself(g, n);
    var net := WithState(s, p, n);
    forall v | v in net.votes && v.validator in net.nodes
      ensures v in net.nodes[v.validator].signed
    {
      if v in s.votes {
        assert v in s.nodes[v.validator].signed;
      }
    }
  }

  lemma ForwardItself(signed: set<Vote>)
    ensures SignedForward(signed, signed)
  {
  }

  /** The move from the last sync to where the node is now is one that the network can bear. */
  lemma MovedThen(g: Genesis, s: Net, p: nat, n: Node)
    requires Linked(g, s) && p in s.nodes && n.votes <= s.votes
    requires s.nodes[p].chain <= n.chain && SignedForward(s.nodes[p].signed, n.signed)
    ensures Agreement.Moved(s, WithState(s, p, n))
  {
    hide Inv, SignedForward;
    forall q | q in s.nodes
      ensures SignedForward(s.nodes[q].signed, WithState(s, p, n).nodes[q].signed)
    {
      ForwardItself(s.nodes[q].signed);
    }
  }

  lemma AsIfSynced(g: Genesis, s: Sys, p: nat)
    requires SysInv(g, s) && SysFaultAssumption(g, s) && p in s.procs
    ensures var net := WithState(Durable(s), p, s.procs[p].node);
            NetInv(g, net) && FaultAssumption(g, net)
  {
    hide Linked, Safe, OneChain, Inv, SysFaultAssumption, FaultAssumption, Agreement.Moved;
    var x := s.procs[p];
    assert ProcSound(g, s.votes, p, x);
    FaultsThen(g, s, p);
    ProcKeeps(g, s.votes, p, x);
    LinkedThen(g, Durable(s), p, x.node);
    MovedThen(g, Durable(s), p, x.node);
    MoveKeeps(g, Durable(s), WithState(Durable(s), p, x.node), p);
  }

  // ---- steps ----

  lemma TurnStepKeeps(g: Genesis, s: Sys, s': Sys, p: nat, e: Event, env: Env)
    requires SysInv(g, s) && TurnStep(g, s, s', p, e, env)
    ensures SysInv(g, s')
  {
    hide NetInv, ProcSound, Handle, Allowed;
    TurnSound(g, s.votes, p, s.procs[p], e, env);
    assert Durable(s') == Durable(s);
  }

  lemma SyncStepSound(g: Genesis, s: Sys, s': Sys, p: nat)
    requires ProcsSound(g, s) && SyncStep(s, s', p)
    ensures ProcsSound(g, s')
  {
    hide ProcSound;
    forall q | q in s'.procs
      ensures ProcSound(g, s'.votes, q, s'.procs[q])
    {
      MoreVotes(g, s.votes, s'.votes, q, s.procs[q]);
      if q == p {
        SyncSound(g, s'.votes, p, s.procs[p]);
      }
    }
  }

  lemma SyncedNet(s: Sys, s': Sys, p: nat)
    requires SyncStep(s, s', p)
    ensures Durable(s') == WithState(Durable(s), p, s.procs[p].node)
  {
    assert Durable(s').nodes == Durable(s).nodes[p := s.procs[p].node];
  }

  lemma SyncStepKeeps(g: Genesis, s: Sys, s': Sys, p: nat)
    requires SysInv(g, s) && SysFaultAssumption(g, s) && SyncStep(s, s', p)
    ensures SysInv(g, s')
  {
    AsIfSynced(g, s, p);
    SyncStepSound(g, s, s', p);
    SyncedNet(s, s', p);
    hide NetInv, ProcsSound, SysFaultAssumption, FaultAssumption, Durable, WithState, SyncStep;
  }

  lemma CrashStepKeeps(g: Genesis, s: Sys, s': Sys, p: nat, k: nat, again: seq<Entry>)
    requires SysInv(g, s) && CrashStep(g, s, s', p, k, again)
    ensures SysInv(g, s')
  {
    hide NetInv, ProcSound, Replayed, Allowed;
    CrashSound(g, s.votes, p, s.procs[p], k, again);
    assert Durable(s') == Durable(s);
  }

  lemma OtherStepKeeps(g: Genesis, s: Sys, s': Sys, v: Vote)
    requires SysInv(g, s) && OtherStep(s, s', v)
    ensures SysInv(g, s')
  {
    hide NetInv, ProcSound;
    forall q | q in s'.procs
      ensures ProcSound(g, s'.votes, q, s'.procs[q])
    {
      MoreVotes(g, s.votes, s'.votes, q, s.procs[q]);
    }
    FaultyStepKeeps(g, Durable(s), Durable(s'), v);
  }

  lemma SysNextKeeps(g: Genesis, s: Sys, s': Sys)
    requires SysInv(g, s) && SysFaultAssumption(g, s) && SysNext(g, s, s')
    ensures SysInv(g, s') && s.votes <= s'.votes && s'.procs.Keys == s.procs.Keys
  {
    hide NetInv, ProcsSound, SysFaultAssumption, Handle, Replayed, Allowed;
    if p, e, env :| TurnStep(g, s, s', p, e, env) {
      TurnStepKeeps(g, s, s', p, e, env);
    } else if p :| SyncStep(s, s', p) {
      SyncStepKeeps(g, s, s', p);
    } else if p, k, again :| CrashStep(g, s, s', p, k, again) {
      CrashStepKeeps(g, s, s', p, k, again);
    } else {
      var v :| OtherStep(s, s', v);
      OtherStepKeeps(g, s, s', v);
    }
  }

  lemma SysInitKeeps(g: Genesis, s: Sys)
    requires SysInit(g, s)
    ensures SysInv(g, s)
  {
    InitKeeps(g, Durable(s));
    hide NetInv;
  }

  // ---- over whole runs ----

  ghost predicate SysRun(g: Genesis, run: seq<Sys>) {
    && |run| > 0
    && SysInit(g, run[0])
    && (forall i: nat | i + 1 < |run| :: SysNext(g, run[i], run[i + 1]))
  }

  ghost predicate FewFaults(g: Genesis, run: seq<Sys>) {
    forall i: nat | i < |run| :: SysFaultAssumption(g, run[i])
  }

  lemma {:induction false} SysRunKeeps(g: Genesis, run: seq<Sys>, i: nat)
    requires SysRun(g, run) && i < |run| && FewFaults(g, run)
    ensures SysInv(g, run[i])
  {
    hide SysInv, SysFaultAssumption, SysNext;
    if i == 0 {
      SysInitKeeps(g, run[0]);
    } else {
      SysRunKeeps(g, run, i - 1);
      assert SysNext(g, run[i - 1], run[i - 1 + 1]);
      SysNextKeeps(g, run[i - 1], run[i]);
    }
  }

  lemma {:induction false} VotesStay(g: Genesis, run: seq<Sys>, i: nat, j: nat)
    requires SysRun(g, run) && FewFaults(g, run) && i <= j < |run|
    ensures run[i].votes <= run[j].votes
    decreases j
  {
    hide SysInv, SysFaultAssumption, SysNext;
    if i < j {
      VotesStay(g, run, i, j - 1);
      SysRunKeeps(g, run, j - 1);
      assert SysNext(g, run[j - 1], run[j - 1 + 1]);
      SysNextKeeps(g, run[j - 1], run[j]);
    }
  }

  /** A state from any time, against a node of now, on the chain they share. */
  lemma SameThere(g: Genesis, s: Net, q: nat, n: Node, c: seq<Hash>, a: Hash, b: Hash)
    requires NetInv(g, s) && FaultAssumption(g, s) && q in s.nodes && Inv(g, n) && n.votes <= s.votes
    requires c <= n.chain && c <= s.nodes[q].chain
    requires Decided(g, n, g.initialHeight + |c|, a) && Decided(g, s.nodes[q], g.initialHeight + |c|, b)
    ensures a == b
  {
    hide Inv, Decided, CommitExists, SafeAt, FaultyBelowThird;
    var m, h := s.nodes[q], g.initialHeight + |c|;
    DecidedHasCommit(g, n, h, a);
    DecidedHasCommit(g, m, h, b);
    CommitInNet(g, s, n, c, a);
    CommitInNet(g, s, m, c, b);
    PrefixFits(g, s, q, c);
    assert c == m.chain[..|c|];
    assert FaultyBelowThird(g, s, m.chain[..|c|]);
    TwoCommits(g, s, c, a, b);
  }

  lemma ChainsMeet(g: Genesis, s: Net, q: nat, n: Node)
    requires NetInv(g, s) && FaultAssumption(g, s) && q in s.nodes && Inv(g, n) && n.votes <= s.votes
    ensures Comparable(n.chain, s.nodes[q].chain)
  {
    hide NetInv, FaultAssumption, Inv;
    var a, b := n.chain, s.nodes[q].chain;
    if !Comparable(a, b) {
      var k := FirstDifference(a, b);
      var c := a[..k];
      assert Decided(g, n, g.initialHeight + |c|, a[k]) && Decided(g, s.nodes[q], g.initialHeight + |c|, b[k]);
      SameThere(g, s, q, n, c, a[k], b[k]);
    }
  }

  lemma DecisionsMeet(g: Genesis, s: Net, q: nat, n: Node, height: nat, a: Hash, b: Hash)
    requires NetInv(g, s) && FaultAssumption(g, s) && q in s.nodes && Inv(g, n) && n.votes <= s.votes
    requires Decided(g, n, height, a) && Decided(g, s.nodes[q], height, b)
    ensures a == b
  {
    ChainsMeet(g, s, q, n);
    InvIn(g, s, q);
    DecidedHasCommit(g, n, height, a);
    DecidedHasCommit(g, s.nodes[q], height, b);
    hide NetInv, FaultAssumption, Inv, Decided, CommitExists;
    SameThere(g, s, q, n, n.chain[..height - g.initialHeight], a, b);
  }

  lemma InvIn(g: Genesis, s: Net, p: nat)
    requires NetInv(g, s) && p in s.nodes
    ensures Inv(g, s.nodes[p])
  {
  }

  lemma AgreeOrdered(g: Genesis, run: seq<Sys>, i: nat, j: nat, p: nat, q: nat)
    requires SysRun(g, run) && FewFaults(g, run) && i <= j < |run| && p in run[i].procs && q in run[j].procs
    ensures var n, m := run[i].procs[p].node, run[j].procs[q].node;
            && Comparable(n.chain, m.chain)
            && forall height, a, b | Decided(g, n, height, a) && Decided(g, m, height, b) :: a == b
  {
    SysRunKeeps(g, run, i);
    SysRunKeeps(g, run, j);
    VotesStay(g, run, i, j);
    assert ProcSound(g, run[i].votes, p, run[i].procs[p]);
    ProcKeeps(g, run[i].votes, p, run[i].procs[p]);
    AsIfSynced(g, run[j], q);
    hide NetInv, SysRun, SysInv, FaultAssumption, SysFaultAssumption, Inv, Decided;
    var n, m := run[i].procs[p].node, run[j].procs[q].node;
    var net := WithState(Durable(run[j]), q, m);
    ChainsMeet(g, net, q, n);
    forall height, a, b | Decided(g, n, height, a) && Decided(g, m, height, b)
      ensures a == b
    {
      DecisionsMeet(g, net, q, n, height, a, b);
    }
  }

  /**
   In every run with crashes, with less than one third faulty power: what a correct node
   has committed at one time and what a correct node has at another time lie on one chain,
   and they decide the same block at a height, even if a crash came in between.
   */
  lemma RestartAgreement(g: Genesis, run: seq<Sys>, i: nat, j: nat, p: nat, q: nat, height: nat, a: Hash, b: Hash)
    requires SysRun(g, run) && FewFaults(g, run) && i < |run| && j < |run| && p in run[i].procs && q in run[j].procs
    ensures Comparable(run[i].procs[p].node.chain, run[j].procs[q].node.chain)
    ensures Decided(g, run[i].procs[p].node, height, a) && Decided(g, run[j].procs[q].node, height, b) ==> a == b
  {
    hide SysRun, FewFaults, Decided;
    if i <= j {
      AgreeOrdered(g, run, i, j, p, q);
    } else {
      AgreeOrdered(g, run, j, i, q, p);
    }
  }

  /** In every run, a signer that has signed anything has a last vote, and its file decides what it signs. */
  lemma SignerDecides(g: Genesis, run: seq<Sys>, i: nat, p: nat) returns (last: Vote)
    requires SysRun(g, run) && FewFaults(g, run) && i < |run| && p in run[i].procs && run[i].procs[p].memory != {}
    ensures IsLast(run[i].procs[p].memory, last)
    ensures forall lss: Signer.LastSign, v | lss.height == last.height && lss.round == last.round && lss.step == SignStep(last.kind) ::
      Allowed(run[i].procs[p].memory, v) <==> v == last || Signer.CheckHRS(lss, v.height, v.round, SignStep(v.kind)).Later?
  {
    SysRunKeeps(g, run, i);
    assert ProcSound(g, run[i].votes, p, run[i].procs[p]);
    hide SysRun, FewFaults, SysInv, Allowed;
    last := LastExists(run[i].procs[p].memory);
    forall lss: Signer.LastSign, v | lss.height == last.height && lss.round == last.round && lss.step == SignStep(last.kind)
      ensures Allowed(run[i].procs[p].memory, v) <==>
        v == last || Signer.CheckHRS(lss, v.height, v.round, SignStep(v.kind)).Later?
    {
      SignerAllows(run[i].procs[p].memory, last, lss, v);
    }
  }

  /** And no validator ever has two votes out for one height, round and kind. */
  lemma RestartNoDoubleVote(g: Genesis, run: seq<Sys>, i: nat, v: Vote, w: Vote)
    requires SysRun(g, run) && FewFaults(g, run) && i < |run| && v in run[i].votes && w in run[i].votes
    requires v.validator in run[i].procs && w.validator == v.validator
    requires v.height == w.height && v.round == w.round && v.kind == w.kind
    ensures v == w
  {
    SysRunKeeps(g, run, i);
    hide SysRun, FewFaults, ProcSound;
    InvIn(g, Durable(run[i]), v.validator);
    OnePrecommit(g, Durable(run[i]).nodes[v.validator], v, w);
  }
}
