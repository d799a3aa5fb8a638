/**
 A network of nodes. Correct nodes run the receive routine; everyone else may
 sign any vote at any time, but nobody can sign for a correct node. As long as
 those others hold less than one third of every validator set in use, all
 correct nodes commit along one chain (`AgreementTheorem`).

 The proof keeps, for every chain prefix: a rival polka at a later round means
 that +2/3 precommits for the block at the earlier round are already out of
 reach, because enough correct nodes have signed for a later round without
 such a precommit.
 */
module Agreement {
  import opened Options
  import opened Power
  import opened RoundState
  import opened Steps
  import opened Discipline

  /** `nodes` are the correct nodes by validator; `votes` all votes anyone has signed. */
  datatype Net = Net(nodes: map<nat, Node>, votes: set<Vote>)

  ghost predicate NodeStep(g: Genesis, s: Net, s': Net, p: nat, e: Event, env: Env) {
    && p in s.nodes
    && (e.VoteMsg? ==> e.vote in s.votes)
    && (e.TimeoutMsg? ==> e.timeout in s.nodes[p].timeouts)
    && var n' := Handle(g, s.nodes[p], e, env);
       s' == Net(s.nodes[p := n'], s.votes + n'.signed)
  }

  ghost predicate FaultyStep(s: Net, s': Net, v: Vote) {
    v.validator !in s.nodes && s' == s.(votes := s.votes + {v})
  }

  ghost predicate Next(g: Genesis, s: Net, s': Net) {
    || (exists p, e, env :: NodeStep(g, s, s', p, e, env))
    || (exists v :: FaultyStep(s, s', v))
  }

  ghost predicate Init(g: Genesis, s: Net) {
    && g.initialHeight >= 1
    && (forall p | p in s.nodes :: s.nodes[p] == Initial(g, p))
    && (forall v | v in s.votes :: v.validator !in s.nodes)
  }

  /** Every validator that is not one of the correct nodes. */
  function Faulty(s: Net, powers: Powers): set<nat> {
    set i: nat | i < |powers| && i !in s.nodes
  }

  ghost predicate FaultyBelowThird(g: Genesis, s: Net, chain: seq<Hash>) {
    BelowOneThird(g.validators(chain), Faulty(s, g.validators(chain)))
  }

  ghost predicate Comparable(a: seq<Hash>, b: seq<Hash>) {
    a <= b || b <= a
  }

  ghost predicate OneChain(s: Net) {
    forall p, q | p in s.nodes && q in s.nodes :: Comparable(s.nodes[p].chain, s.nodes[q].chain)
  }

  // ---- the invariant ----

  ghost predicate Linked(g: Genesis, s: Net) {
    && (forall p | p in s.nodes ::
          && Inv(g, s.nodes[p])
          && s.nodes[p].validator == p
          && s.nodes[p].votes <= s.votes
          && s.nodes[p].signed <= s.votes)
    && (forall v | v in s.votes && v.validator in s.nodes :: v in s.nodes[v.validator].signed)
  }

  /** Every correct node that has got that far has this chain. */
  ghost predicate Fits(s: Net, chain: seq<Hash>) {
    forall p | p in s.nodes && |chain| <= |s.nodes[p].chain| :: chain <= s.nodes[p].chain
  }

  /** The node has signed for a later round than this, or for a later height. */
  predicate Past(n: Node, height: nat, round: int) {
    exists w | w in n.signed :: w.height > height || (w.height == height && w.round > round)
  }

  predicate Precommitted(n: Node, height: nat, round: int, hash: Hash) {
    exists v | v in n.signed :: v.kind == Precommit && v.height == height && v.round == round && v.id.hash == hash
  }

  function Refusers(s: Net, height: nat, round: int, hash: Hash): set<nat> {
    set p | p in s.nodes && Past(s.nodes[p], height, round) && !Precommitted(s.nodes[p], height, round, hash)
  }

  /** Those who went on without the precommit already deny it a quorum. */
  ghost predicate OutOfReach(g: Genesis, s: Net, chain: seq<Hash>, height: nat, round: int, hash: Hash) {
    PowerOf(g.validators(chain), Refusers(s, height, round, hash)) + Quorum(g.validators(chain)) > Total(g.validators(chain))
  }

  ghost predicate SafeAt(g: Genesis, s: Net, chain: seq<Hash>) {
    var h := g.initialHeight + |chain|;
    forall r: int, hash | hash != "" && RivalPolka(Evidence(g, chain, s.votes), h, r, hash) ::
      OutOfReach(g, s, chain, h, r, hash)
  }

  ghost predicate Safe(g: Genesis, s: Net) {
    forall c: seq<Hash> | Fits(s, c) && FaultyBelowThird(g, s, c) :: SafeAt(g, s, c)
  }

  ghost predicate NetInv(g: Genesis, s: Net) {
    Linked(g, s) && OneChain(s) && Safe(g, s)
  }

  // ---- counting ----

  lemma PowersHere(g: Genesis, chain: seq<Hash>)
    ensures PowersAt(g, chain, g.initialHeight + |chain|) == g.validators(chain)
  {
    assert chain[..|chain|] == chain;
  }

  /** Out of reach really means no quorum of precommits for the hash. */
  lemma OutOfReachMeansNoCommit(g: Genesis, s: Net, chain: seq<Hash>, round: int, id: BlockID)
    requires Linked(g, s)
    requires OutOfReach(g, s, chain, g.initialHeight + |chain|, round, id.hash)
    ensures !Shows(Evidence(g, chain, s.votes), SetKey(g.initialHeight + |chain|, round, Precommit), id)
  {
    var h := g.initialHeight + |chain|;
    var p := g.validators(chain);
    var k := SetKey(h, round, Precommit);
    PowersHere(g, chain);
    var voters := Voters(s.votes, k, id);
    var refusers := Refusers(s, h, round, id.hash);
    forall i | i in voters
      ensures i !in refusers
    {
      var v :| v in s.votes && SetKey(v.height, v.round, v.kind) == k && v.id == id && v.validator == i;
      if i in s.nodes {
        assert v in s.nodes[i].signed;
        assert Precommitted(s.nodes[i], h, round, id.hash);
      }
    }
    assert voters * refusers == {};
    PowerEmpty(p);
    PowerSplit(p, voters, refusers);
    PowerMono(p, voters + refusers, voters + refusers);
  }

  /** Voters that are not correct nodes are faulty, so they hold less than one third. */
  lemma OthersBelowThird(g: Genesis, s: Net, chain: seq<Hash>, others: set<nat>)
    requires FaultyBelowThird(g, s, chain) && forall i | i in others :: i !in s.nodes
    ensures BelowOneThird(g.validators(chain), others)
  {
    PowerMono(g.validators(chain), others, Faulty(s, g.validators(chain)));
  }

  /** A quorum a correct node has recorded at a past or current height is a quorum of the network's votes. */
  lemma ShowsInNet(g: Genesis, s: Net, votes: set<Vote>, n: Node, chain: seq<Hash>, k: SetKey, id: BlockID)
    requires chain <= n.chain && k.height == g.initialHeight + |chain| && n.votes <= votes
    requires Shows(Ev(g, n), k, id)
    ensures Shows(Evidence(g, chain, votes), k, id)
  {
    PowersHere(g, chain);
    assert n.chain[..|chain|] == chain;
    PowerMono(g.validators(chain), Voters(n.votes, k, id), Voters(votes, k, id));
  }

  lemma RivalInNet(g: Genesis, s: Net, votes: set<Vote>, n: Node, chain: seq<Hash>, round: int, hash: Hash)
    requires chain <= n.chain && n.votes <= votes
    requires RivalPolka(Ev(g, n), g.initialHeight + |chain|, round, hash)
    ensures RivalPolka(Evidence(g, chain, votes), g.initialHeight + |chain|, round, hash)
  {
    var h := g.initialHeight + |chain|;
    var r: int, id: BlockID :| r > round && id.hash != hash && Polka(Ev(g, n), h, r, id);
    ShowsInNet(g, s, votes, n, chain, SetKey(h, r, Prevote), id);
    assert Polka(Evidence(g, chain, votes), h, r, id);
  }

  // ---- steps ----

  /** What the proof needs of a step: chains only grow, signatures are made in order, votes are added. */
  ghost predicate Moved(s: Net, s': Net) {
    && s'.nodes.Keys == s.nodes.Keys
    && s.votes <= s'.votes
    && (forall p | p in s.nodes ::
          && s.nodes[p].chain <= s'.nodes[p].chain
          && SignedForward(s.nodes[p].signed, s'.nodes[p].signed)
          && s'.nodes[p].votes <= s.votes)
  }

  lemma NodeStepMoves(g: Genesis, s: Net, s': Net, p: nat, e: Event, env: Env)
    requires Linked(g, s) && NodeStep(g, s, s', p, e, env)
    ensures Linked(g, s') && Moved(s, s')
  {
    hide Inv, Handle, LockKept, HRSNotBack;
    var n' := Handle(g, s.nodes[p], e, env);
    Keeps(g, s.nodes[p], e, env);
    SignsForward(g, s.nodes[p], n');
    HandleVotes(g, s.nodes[p], e, env);
    SignsForItself(g, n');
  }

  lemma HandleVotes(g: Genesis, n: Node, e: Event, env: Env)
    ensures Handle(g, n, e, env).votes <= n.votes + if e.VoteMsg? then {e.vote} else {}
  {
  }

  lemma SignsForItself(g: Genesis, n: Node)
    requires Inv(g, n)
    ensures forall v | v in n.signed :: v.validator == n.validator
  {
  }

  lemma FaultyStepMoves(g: Genesis, s: Net, s': Net, v: Vote)
    requires Linked(g, s) && FaultyStep(s, s', v)
    ensures Linked(g, s') && Moved(s, s')
  {
  }

  /** Refusing is for good: a node that signed for a later round signs nothing more for this one. */
  lemma RefusersGrow(g: Genesis, s: Net, s': Net, height: nat, round: int, hash: Hash)
    requires Moved(s, s')
    ensures Refusers(s, height, round, hash) <= Refusers(s', height, round, hash)
  {
    forall p | p in Refusers(s, height, round, hash)
      ensures p in Refusers(s', height, round, hash)
    {
      var w :| w in s.nodes[p].signed && (w.height > height || (w.height == height && w.round > round));
      assert forall v | v in s'.nodes[p].signed && v.kind == Precommit && v.height == height && v.round == round ::
          v in s.nodes[p].signed;
    }
  }

  /** A correct node that prevoted a rival is past the round, and refused unless it had seen a rival before. */
  lemma RivalVoterRefuses(g: Genesis, s: Net, s': Net, chain: seq<Hash>, round: int, hash: Hash, w: Vote)
    requires Linked(g, s') && Moved(s, s') && Fits(s', chain) && hash != ""
    requires w in s'.votes && w.validator in s'.nodes
    requires w.kind == Prevote && w.height == g.initialHeight + |chain| && w.round > round && w.id.hash != hash
    requires !RivalPolka(Evidence(g, chain, s.votes), g.initialHeight + |chain|, round, hash)
    ensures w.validator in Refusers(s', g.initialHeight + |chain|, round, hash)
  {
    var h := g.initialHeight + |chain|;
    var n := s'.nodes[w.validator];
    assert w in n.signed;
    assert chain <= n.chain;
    if Precommitted(n, h, round, hash) {
      var v :| v in n.signed && v.kind == Precommit && v.height == h && v.round == round && v.id.hash == hash;
      assert Turns(v, w);
      RivalInNet(g, s, s.votes, n, chain, round, hash);
    }
  }

  lemma OutOfReachStays(g: Genesis, s: Net, s': Net, chain: seq<Hash>, round: int, hash: Hash)
    requires Moved(s, s') && OutOfReach(g, s, chain, g.initialHeight + |chain|, round, hash)
    ensures OutOfReach(g, s', chain, g.initialHeight + |chain|, round, hash)
  {
    var h := g.initialHeight + |chain|;
    RefusersGrow(g, s, s', h, round, hash);
    PowerMono(g.validators(chain), Refusers(s, h, round, hash), Refusers(s', h, round, hash));
  }

  /** The first rival polka puts the block out of reach by its own correct voters. */
  lemma FirstRival(g: Genesis, s: Net, s': Net, chain: seq<Hash>, round: int, hash: Hash, r2: int, id: BlockID)
    requires Linked(g, s') && Moved(s, s') && Fits(s', chain) && FaultyBelowThird(g, s', chain) && hash != ""
    requires !RivalPolka(Evidence(g, chain, s.votes), g.initialHeight + |chain|, round, hash)
    requires r2 > round && id.hash != hash && Polka(Evidence(g, chain, s'.votes), g.initialHeight + |chain|, r2, id)
    ensures OutOfReach(g, s', chain, g.initialHeight + |chain|, round, hash)
  {
    hide Linked, Moved;
    var h := g.initialHeight + |chain|;
    var k := SetKey(h, r2, Prevote);
    var p := g.validators(chain);
    var voters := Voters(s'.votes, k, id);
    var others := set i | i in voters && i !in s'.nodes;
    PowersHere(g, chain);
    OthersBelowThird(g, s', chain, others);
    HonestPartBlocks(p, voters, others);
    forall i | i in voters - others
      ensures i in Refusers(s', h, round, hash)
    {
      var w :| w in s'.votes && SetKey(w.height, w.round, w.kind) == k && w.id == id && w.validator == i;
      RivalVoterRefuses(g, s, s', chain, round, hash, w);
    }
    PowerMono(p, voters - others, Refusers(s', h, round, hash));
  }

  lemma FitsBefore(g: Genesis, s: Net, s': Net, chain: seq<Hash>)
    requires Moved(s, s') && Fits(s', chain)
    ensures Fits(s, chain)
  {
    forall p | p in s.nodes && |chain| <= |s.nodes[p].chain|
      ensures chain <= s.nodes[p].chain
    {
      assert s.nodes[p].chain <= s'.nodes[p].chain;
    }
  }

  lemma StaysSafe(g: Genesis, s: Net, s': Net)
    requires Safe(g, s) && Linked(g, s') && Moved(s, s')
    ensures Safe(g, s')
  {
    forall c: seq<Hash> | Fits(s', c) && FaultyBelowThird(g, s', c)
      ensures SafeAt(g, s', c)
    {
      FitsBefore(g, s, s', c);
      assert Faulty(s', g.validators(c)) == Faulty(s, g.validators(c));
      assert SafeAt(g, s, c);
      SafeAtStays(g, s, s', c);
    }
  }

  lemma SafeAtStays(g: Genesis, s: Net, s': Net, c: seq<Hash>)
    requires SafeAt(g, s, c) && Linked(g, s') && Moved(s, s') && Fits(s', c) && FaultyBelowThird(g, s', c)
    ensures SafeAt(g, s', c)
  {
    hide Linked, Moved;
    var h := g.initialHeight + |c|;
    forall r: int, hash | hash != "" && RivalPolka(Evidence(g, c, s'.votes), h, r, hash)
      ensures OutOfReach(g, s', c, h, r, hash)
    {
      if RivalPolka(Evidence(g, c, s.votes), h, r, hash) {
        OutOfReachStays(g, s, s', c, r, hash);
      } else {
        var r2: int, id: BlockID :| r2 > r && id.hash != hash && Polka(Evidence(g, c, s'.votes), h, r2, id);
        FirstRival(g, s, s', c, r, hash, r2, id);
      }
    }
  }

  // ---- agreement ----

  /** A precommit quorum for a block rules out any other block at a later round. */
  lemma LaterCommitSame(g: Genesis, s: Net, c: seq<Hash>, r1: int, id1: BlockID, r2: int, id2: BlockID)
    requires Linked(g, s) && SafeAt(g, s, c) && Fits(s, c) && FaultyBelowThird(g, s, c) && r1 < r2
    requires id1.hash != "" && id2.hash != ""
    requires Shows(Evidence(g, c, s.votes), SetKey(g.initialHeight + |c|, r1, Precommit), id1)
    requires Shows(Evidence(g, c, s.votes), SetKey(g.initialHeight + |c|, r2, Precommit), id2)
    ensures id1.hash == id2.hash
  {
    var h := g.initialHeight + |c|;
    var v, n := CorrectPrecommit(g, s, c, r2, id2);
    ShowsInNet(g, s, s.votes, n, c, SetKey(h, r2, Prevote), id2);
    if id1.hash != id2.hash {
      assert Polka(Evidence(g, c, s.votes), h, r2, id2);
      assert RivalPolka(Evidence(g, c, s.votes), h, r1, id1.hash);
      OutOfReachMeansNoCommit(g, s, c, r1, id1);
    }
  }

  /** Behind every precommit quorum for a block stands a correct node that saw the polka. */
  lemma CorrectPrecommit(g: Genesis, s: Net, c: seq<Hash>, r: int, id: BlockID) returns (v: Vote, n: Node)
    requires Linked(g, s) && Fits(s, c) && FaultyBelowThird(g, s, c) && id.hash != ""
    requires Shows(Evidence(g, c, s.votes), SetKey(g.initialHeight + |c|, r, Precommit), id)
    ensures v.validator in s.nodes && n == s.nodes[v.validator] && v in n.signed
    ensures c <= n.chain && n.votes <= s.votes && Polka(Ev(g, n), g.initialHeight + |c|, r, id)
  {
    var h := g.initialHeight + |c|;
    var k := SetKey(h, r, Precommit);
    PowersHere(g, c);
    var voters := Voters(s.votes, k, id);
    var others := set i | i in voters && i !in s.nodes;
    OthersBelowThird(g, s, c, others);
    var i := QuorumsShareHonest(g.validators(c), voters, voters, others);
    v :| v in s.votes && SetKey(v.height, v.round, v.kind) == k && v.id == id && v.validator == i;
    n := s.nodes[i];
    assert RealPrecommit(v);
  }

  /** In one round, one correct node stands in both quorums, and it precommits once. */
  lemma SameRoundSame(g: Genesis, s: Net, c: seq<Hash>, r: int, id1: BlockID, id2: BlockID)
    requires Linked(g, s) && FaultyBelowThird(g, s, c)
    requires Shows(Evidence(g, c, s.votes), SetKey(g.initialHeight + |c|, r, Precommit), id1)
    requires Shows(Evidence(g, c, s.votes), SetKey(g.initialHeight + |c|, r, Precommit), id2)
    ensures id1 == id2
  {
    var k := SetKey(g.initialHeight + |c|, r, Precommit);
    PowersHere(g, c);
    var a, b := Voters(s.votes, k, id1), Voters(s.votes, k, id2);
    var others := set i | i in a && i !in s.nodes;
    OthersBelowThird(g, s, c, others);
    var i := QuorumsShareHonest(g.validators(c), a, b, others);
    var v :| v in s.votes && SetKey(v.height, v.round, v.kind) == k && v.id == id1 && v.validator == i;
    var w :| w in s.votes && SetKey(w.height, w.round, w.kind) == k && w.id == id2 && w.validator == i;
    OnePrecommit(g, s.nodes[i], v, w);
  }

  lemma OnePrecommit(g: Genesis, n: Node, v: Vote, w: Vote)
    requires Inv(g, n) && v in n.signed && w in n.signed
    requires v.height == w.height && v.round == w.round && v.kind == w.kind
    ensures v == w
  {
  }

  lemma TwoCommits(g: Genesis, s: Net, c: seq<Hash>, a: Hash, b: Hash)
    requires Linked(g, s) && SafeAt(g, s, c) && Fits(s, c) && FaultyBelowThird(g, s, c) && a != "" && b != ""
    requires CommitExists(Evidence(g, c, s.votes), g.initialHeight + |c|, a)
    requires CommitExists(Evidence(g, c, s.votes), g.initialHeight + |c|, b)
    ensures a == b
  {
    hide Linked, SafeAt;
    var e, h := Evidence(g, c, s.votes), g.initialHeight + |c|;
    var r1: int, parts1 :| Shows(e, SetKey(h, r1, Precommit), BlockID(a, parts1));
    var r2: int, parts2 :| Shows(e, SetKey(h, r2, Precommit), BlockID(b, parts2));
    if r1 == r2 {
      SameRoundSame(g, s, c, r1, BlockID(a, parts1), BlockID(b, parts2));
    } else if r1 < r2 {
      LaterCommitSame(g, s, c, r1, BlockID(a, parts1), r2, BlockID(b, parts2));
    } else {
      LaterCommitSame(g, s, c, r2, BlockID(b, parts2), r1, BlockID(a, parts1));
    }
  }

  /** The node has settled on this hash at this height: committed it, or holds its +2/3 precommits. */
  ghost predicate Decided(g: Genesis, n: Node, height: nat, hash: Hash) {
    || (g.initialHeight <= height < g.initialHeight + |n.chain| && n.chain[height - g.initialHeight] == hash)
    || (height == n.height && n.commitRound >= 0 && Majority(n, n.commitRound, Precommit).Some? &&
        Majority(n, n.commitRound, Precommit).value.hash == hash)
  }

  lemma DecidedHasCommit(g: Genesis, n: Node, height: nat, hash: Hash)
    requires Inv(g, n) && Decided(g, n, height, hash)
    ensures g.initialHeight <= height <= g.initialHeight + |n.chain|
    ensures hash != "" && CommitExists(Ev(g, n), height, hash)
  {
    if g.initialHeight <= height < g.initialHeight + |n.chain| && n.chain[height - g.initialHeight] == hash {
      assert CertifiedAt(Ev(g, n), height - g.initialHeight);
    } else {
      var id := Majority(n, n.commitRound, Precommit).value;
      assert Shows(Ev(g, n), SetKey(height, n.commitRound, Precommit), BlockID(hash, id.parts));
    }
  }

  lemma CommitInNet(g: Genesis, s: Net, n: Node, c: seq<Hash>, hash: Hash)
    requires c <= n.chain && n.votes <= s.votes && CommitExists(Ev(g, n), g.initialHeight + |c|, hash)
    ensures CommitExists(Evidence(g, c, s.votes), g.initialHeight + |c|, hash)
  {
    var h := g.initialHeight + |c|;
    var r: int, parts :| Shows(Ev(g, n), SetKey(h, r, Precommit), BlockID(hash, parts));
    ShowsInNet(g, s, s.votes, n, c, SetKey(h, r, Precommit), BlockID(hash, parts));
  }

  /** Two nodes that reached the same height along one chain decide the same there. */
  lemma SameDecision(g: Genesis, s: Net, p: nat, q: nat, c: seq<Hash>, a: Hash, b: Hash)
    requires Linked(g, s) && Safe(g, s) && p in s.nodes && q in s.nodes
    requires Fits(s, c) && FaultyBelowThird(g, s, c) && |c| <= |s.nodes[p].chain| && |c| <= |s.nodes[q].chain|
    requires Decided(g, s.nodes[p], g.initialHeight + |c|, a) && Decided(g, s.nodes[q], g.initialHeight + |c|, b)
    ensures a == b
  {
    hide Inv, Decided, CommitExists, SafeAt;
    var h := g.initialHeight + |c|;
    DecidedHasCommit(g, s.nodes[p], h, a);
    DecidedHasCommit(g, s.nodes[q], h, b);
    CommitInNet(g, s, s.nodes[p], c, a);
    CommitInNet(g, s, s.nodes[q], c, b);
    TwoCommits(g, s, c, a, b);
  }

  lemma {:induction false} FirstDifference(a: seq<Hash>, b: seq<Hash>) returns (k: nat)
    requires !Comparable(a, b)
    ensures k < |a| && k < |b| && a[..k] == b[..k] && a[k] != b[k]
  {
    k := 0;
    while k < |a| && k < |b| && a[k] == b[k]
      invariant k <= |a| && k <= |b| && a[..k] == b[..k]
    {
      k := k + 1;
    }
    assert a[..|a|] == a && b[..|b|] == b;
  }

  /** Every validator set a correct node has used so far keeps the others below one third. */
  ghost predicate FaultAssumption(g: Genesis, s: Net) {
    forall p, k: nat | p in s.nodes && k <= |s.nodes[p].chain| :: FaultyBelowThird(g, s, s.nodes[p].chain[..k])
  }

  /** If chains met before the step, a chain two nodes share now is shared by all. */
  lemma SharedPrefixFits(g: Genesis, s: Net, s': Net, q: nat, p: nat, c: seq<Hash>)
    requires OneChain(s) && s'.nodes.Keys == s.nodes.Keys && p in s.nodes && q in s.nodes
    requires forall t | t in s.nodes && t != p :: s'.nodes[t].chain == s.nodes[t].chain
    requires q != p && c <= s'.nodes[p].chain && c <= s'.nodes[q].chain
    ensures Fits(s', c)
  {
    forall t | t in s'.nodes && |c| <= |s'.nodes[t].chain|
      ensures c <= s'.nodes[t].chain
    {
      if t != p {
        assert Comparable(s.nodes[t].chain, s.nodes[q].chain);
      }
    }
  }

  /** A chain that one node has is everyone's as far as they got. */
  lemma PrefixFits(g: Genesis, s: Net, q: nat, c: seq<Hash>)
    requires OneChain(s) && q in s.nodes && c <= s.nodes[q].chain
    ensures Fits(s, c)
  {
    forall t | t in s.nodes && |c| <= |s.nodes[t].chain|
      ensures c <= s.nodes[t].chain
    {
      assert Comparable(s.nodes[t].chain, s.nodes[q].chain);
    }
  }

  /** Only `p` may have committed in this step; its chain still meets everyone else's. */
  lemma StaysOneChain(g: Genesis, s: Net, s': Net, p: nat)
    requires OneChain(s) && Linked(g, s') && Safe(g, s') && FaultAssumption(g, s')
    requires s'.nodes.Keys == s.nodes.Keys && p in s.nodes
    requires forall t | t in s.nodes && t != p :: s'.nodes[t].chain == s.nodes[t].chain
    ensures OneChain(s')
  {
    hide Linked, Safe;
    forall q | q in s'.nodes && q != p
      ensures Comparable(s'.nodes[p].chain, s'.nodes[q].chain)
    {
      var a, b := s'.nodes[p].chain, s'.nodes[q].chain;
      if !Comparable(a, b) {
        var k := FirstDifference(a, b);
        var c := a[..k];
        SharedPrefixFits(g, s, s', q, p, c);
        assert Decided(g, s'.nodes[p], g.initialHeight + |c|, a[k]);
        assert Decided(g, s'.nodes[q], g.initialHeight + |c|, b[k]);
        SameDecision(g, s', p, q, c, a[k], b[k]);
      }
    }
    forall q, t | q in s'.nodes && t in s'.nodes
      ensures Comparable(s'.nodes[q].chain, s'.nodes[t].chain)
    {
      if q != p && t != p {
        assert Comparable(s.nodes[q].chain, s.nodes[t].chain);
      }
    }
  }

  /** Any move of one node that keeps it disciplined keeps the network safe. */
  lemma MoveKeeps(g: Genesis, s: Net, s': Net, p: nat)
    requires NetInv(g, s) && Linked(g, s') && Moved(s, s') && FaultAssumption(g, s') && p in s.nodes
    requires forall t | t in s.nodes && t != p :: s'.nodes[t].chain == s.nodes[t].chain
    ensures NetInv(g, s')
  {
    hide Linked, Safe, Moved, FaultAssumption;
    StaysSafe(g, s, s');
    assert s'.nodes.Keys == s.nodes.Keys by {
      SameKeys(s, s');
    }
    StaysOneChain(g, s, s', p);
  }

  lemma SameKeys(s: Net, s': Net)
    requires Moved(s, s')
    ensures s'.nodes.Keys == s.nodes.Keys
  {
  }

  lemma NodeStepKeeps(g: Genesis, s: Net, s': Net, p: nat, e: Event, env: Env)
    requires NetInv(g, s) && NodeStep(g, s, s', p, e, env) && FaultAssumption(g, s')
    ensures NetInv(g, s')
  {
    hide Linked, Safe, Handle, Moved, FaultAssumption;
    NodeStepMoves(g, s, s', p, e, env);
    MoveKeeps(g, s, s', p);
  }

  lemma FaultyStepKeeps(g: Genesis, s: Net, s': Net, v: Vote)
    requires NetInv(g, s) && FaultyStep(s, s', v)
    ensures NetInv(g, s')
  {
    hide Linked, Safe, Moved;
    FaultyStepMoves(g, s, s', v);
    StaysSafe(g, s, s');
  }

  lemma NextKeeps(g: Genesis, s: Net, s': Net)
    requires NetInv(g, s) && Next(g, s, s') && FaultAssumption(g, s')
    ensures NetInv(g, s')
  {
    hide NetInv, FaultAssumption, NodeStep, FaultyStep;
    if exists p, e, env :: NodeStep(g, s, s', p, e, env) {
      var p, e, env :| NodeStep(g, s, s', p, e, env);
      NodeStepKeeps(g, s, s', p, e, env);
    } else {
      var v :| FaultyStep(s, s', v);
      FaultyStepKeeps(g, s, s', v);
    }
  }

  /** Nobody has voted yet, so a polka would need a quorum of faulty validators. */
  lemma InitKeeps(g: Genesis, s: Net)
    requires Init(g, s)
    ensures NetInv(g, s)
  {
    forall p | p in s.nodes
      ensures Inv(g, s.nodes[p])
    {
      Starts(g, p);
    }
    forall c: seq<Hash> | Fits(s, c) && FaultyBelowThird(g, s, c)
      ensures SafeAt(g, s, c)
    {
      NoPolkaYet(g, s, c);
    }
  }

  lemma NoPolkaYet(g: Genesis, s: Net, c: seq<Hash>)
    requires Init(g, s) && FaultyBelowThird(g, s, c)
    ensures SafeAt(g, s, c)
  {
    var h := g.initialHeight + |c|;
    var e := Evidence(g, c, s.votes);
    PowersHere(g, c);
    forall r: int, id
      ensures !Polka(e, h, r, id)
    {
      OthersBelowThird(g, s, c, Voters(s.votes, SetKey(h, r, Prevote), id));
    }
  }

  // ---- over whole runs ----

  ghost predicate Run(g: Genesis, run: seq<Net>) {
    && |run| > 0
    && Init(g, run[0])
    && (forall i: nat | i + 1 < |run| :: Next(g, run[i], run[i + 1]))
  }

  lemma {:induction false} RunKeeps(g: Genesis, run: seq<Net>, i: nat)
    requires Run(g, run) && i < |run| && forall j: nat | j < |run| :: FaultAssumption(g, run[j])
    ensures NetInv(g, run[i])
  {
    if i == 0 {
      InitKeeps(g, run[0]);
    } else {
      RunKeeps(g, run, i - 1);
      assert Next(g, run[i - 1], run[i - 1 + 1]);
      NextKeeps(g, run[i - 1], run[i]);
    }
  }

  /**
   In every run with less than one third faulty power, any two correct nodes
   have committed along one chain, and no two of them decide (commit, or hold a
   commit for) different blocks at one height, in whatever rounds.
   */
  lemma AgreementTheorem(g: Genesis, run: seq<Net>, i: nat, p: nat, q: nat, height: nat, a: Hash, b: Hash)
    requires Run(g, run) && i < |run| && forall j: nat | j < |run| :: FaultAssumption(g, run[j])
    requires p in run[i].nodes && q in run[i].nodes
    ensures Comparable(run[i].nodes[p].chain, run[i].nodes[q].chain)
    ensures Decided(g, run[i].nodes[p], height, a) && Decided(g, run[i].nodes[q], height, b) ==> a == b
  {
    hide Run, NetInv, FaultAssumption, Decided;
    RunKeeps(g, run, i);
    assert FaultAssumption(g, run[i]);
    AllAgree(g, run[i], p, q, height, a, b);
  }

  lemma AllAgree(g: Genesis, s: Net, p: nat, q: nat, height: nat, a: Hash, b: Hash)
    requires NetInv(g, s) && FaultAssumption(g, s) && p in s.nodes && q in s.nodes
    ensures Comparable(s.nodes[p].chain, s.nodes[q].chain)
    ensures Decided(g, s.nodes[p], height, a) && Decided(g, s.nodes[q], height, b) ==> a == b
  {
    assert Comparable(s.nodes[p].chain, s.nodes[q].chain);
    if Decided(g, s.nodes[p], height, a) && Decided(g, s.nodes[q], height, b) {
      hide Inv, Safe, Decided, CommitExists;
      DecidedHasCommit(g, s.nodes[p], height, a);
      DecidedHasCommit(g, s.nodes[q], height, b);
      hide Linked;
      var c := s.nodes[p].chain[..height - g.initialHeight];
      forall t | t in s.nodes && |c| <= |s.nodes[t].chain|
        ensures c <= s.nodes[t].chain
      {
        assert Comparable(s.nodes[t].chain, s.nodes[p].chain);
      }
      SameDecision(g, s, p, q, c, a, b);
    }
  }
}
