/**
 What the light client assumes of the chain, the network provides: where the signatures
 that were made are the precommits of the network, and the chain is what a correct node
 has decided, `Agreement` and `Validity` give the light client's trust assumption.
 */
module NetworkTrust {
  import opened Power
  import R = RoundState
  import D = Discipline
  import A = Agreement
  import L = Validity
  import C = Commits
  import V = Verifier
  import Solo

  /** How the network names headers and part sets. */
  datatype Naming = Naming(hash: C.Header -> R.Hash, parts: int -> R.PartsHeader)

  /** The header is the only one with its name, and no header is named as nil is. */
  ghost predicate Ideal(name: Naming, header: C.Header) {
    forall a :: name.hash(a) != "" && (name.hash(a) == name.hash(header) ==> a == header)
  }

  function Named(name: Naming, header: C.Header, id: C.BlockID): R.BlockID {
    R.BlockID(name.hash(header), name.parts(id.parts))
  }

  /**
   The world's view of one height: its members are the validators that the chain before
   leads to, those with faulty keys are no correct nodes, a signature of a member is one of
   the network's precommits, and other correct keys do not sign.
   */
  ghost predicate Shown(w: V.World, g: R.Genesis, s: A.Net, c: seq<R.Hash>, name: Naming)
    requires V.ChainLinked(w)
  {
    var h := g.initialHeight + |c|;
    var m := V.ChainMembers(w, h);
    && V.MemberPowers(m) == g.validators(c)
    && (forall i: nat | i < |m| && m[i].0 in w.faulty :: i !in s.nodes)
    && (forall i: nat, header, id, round: int | i < |m| && V.Signs(w, m[i].0, header, id, h, round) ::
          round >= 0 && R.Vote(i, h, round, R.Precommit, Named(name, header, id)) in s.votes)
    && (forall key, header, id, round: int | key !in w.faulty && V.Signs(w, key, header, id, h, round) ::
          exists i: nat :: i < |m| && m[i].0 == key && i in s.nodes)
  }

  /** Block validation compares the validator set that a header names with the chain's. */
  ghost predicate ChecksValidators(w: V.World, g: R.Genesis, good: L.Rule, c: seq<R.Hash>, name: Naming) {
    forall header: C.Header | good(c, R.Block(name.hash(header))) ::
      header.validators == w.chain(g.initialHeight + |c|).validators
  }

  lemma FewFaulty(w: V.World, g: R.Genesis, s: A.Net, c: seq<R.Hash>, name: Naming)
    requires V.ChainLinked(w) && Shown(w, g, s, c, name) && A.FaultyBelowThird(g, s, c)
    ensures var m := V.ChainMembers(w, g.initialHeight + |c|);
      BelowOneThird(V.MemberPowers(m), V.FaultyIn(w, m))
  {
    var m := V.ChainMembers(w, g.initialHeight + |c|);
    PowerMono(g.validators(c), V.FaultyIn(w, m), A.Faulty(s, g.validators(c)));
  }

  /** A quorum of signatures is a quorum of precommits. */
  lemma CommitShown(w: V.World, g: R.Genesis, s: A.Net, c: seq<R.Hash>, name: Naming, header: C.Header, id: C.BlockID, round: int)
    requires V.ChainLinked(w) && Shown(w, g, s, c, name)
    requires V.CommittedBy(w, V.ChainMembers(w, g.initialHeight + |c|), header, id, g.initialHeight + |c|, round)
    ensures D.CommitExists(D.Evidence(g, c, s.votes), g.initialHeight + |c|, name.hash(header))
  {
    var h := g.initialHeight + |c|;
    var m := V.ChainMembers(w, h);
    var k, named := R.SetKey(h, round, R.Precommit), Named(name, header, id);
    var signers, voters := V.SignersIn(w, m, header, id, h, round), R.Voters(s.votes, k, named);
    forall i | i in signers
      ensures i in voters
    {
      assert V.Signs(w, m[i].0, header, id, h, round);
      var v := R.Vote(i, h, round, R.Precommit, named);
      assert v in s.votes;
    }
    PowerMono(g.validators(c), signers, voters);
    A.PowersHere(g, c);
    assert D.Shows(D.Evidence(g, c, s.votes), k, R.BlockID(name.hash(header), named.parts));
  }

  /** What a correct validator signs passed its validation. */
  lemma SignedIsRight(w: V.World, g: R.Genesis, good: L.Rule, s: A.Net, c: seq<R.Hash>, name: Naming)
    requires V.ChainLinked(w) && Shown(w, g, s, c, name) && ChecksValidators(w, g, good, c, name)
    requires A.Linked(g, s) && A.Fits(s, c) && L.AllVouched(g, good, s) && forall a :: name.hash(a) != ""
    ensures V.RightValidators(w, g.initialHeight + |c|)
  {
    hide D.Inv;
    var h := g.initialHeight + |c|;
    var m := V.ChainMembers(w, h);
    forall key, header: C.Header, id, round: int | key !in w.faulty && V.Signs(w, key, header, id, h, round)
      ensures header.validators == w.chain(h).validators
    {
      var i: nat :| i < |m| && m[i].0 == key && i in s.nodes;
      var v := R.Vote(i, h, round, R.Precommit, Named(name, header, id));
      assert v in s.nodes[i].signed && D.RealPrecommit(v);
      assert L.VoteVouched(g, good, s.nodes[i].chain, v);
      assert s.nodes[i].chain[..|c|] == c;
    }
  }

  /** Where a correct node has decided the chain's header, the light client's assumption holds. */
  lemma NetworkTrustworthy(w: V.World, g: R.Genesis, good: L.Rule, s: A.Net, p: nat, k: nat, name: Naming)
    requires A.NetInv(g, s) && A.FaultAssumption(g, s) && L.AllVouched(g, good, s) && p in s.nodes && k <= |s.nodes[p].chain|
    requires V.ChainLinked(w) && Ideal(name, w.chain(g.initialHeight + k)) && Shown(w, g, s, s.nodes[p].chain[..k], name)
    requires ChecksValidators(w, g, good, s.nodes[p].chain[..k], name)
    requires A.Decided(g, s.nodes[p], g.initialHeight + k, name.hash(w.chain(g.initialHeight + k)))
    ensures V.TrustworthyAt(w, g.initialHeight + k)
  {
    hide A.Decided, D.Inv, A.SafeAt, A.FaultyBelowThird, Shown, D.CommitExists, V.CommittedBy, V.RightValidators;
    hide ChecksValidators, L.AllVouched;
    var c, h, n := s.nodes[p].chain[..k], g.initialHeight + k, s.nodes[p];
    FewFaulty(w, g, s, c, name);
    A.PrefixFits(g, s, p, c);
    SignedIsRight(w, g, good, s, c, name);
    A.DecidedHasCommit(g, n, h, name.hash(w.chain(h)));
    A.CommitInNet(g, s, n, c, name.hash(w.chain(h)));
    forall header: C.Header, id, round: int | V.CommittedBy(w, V.ChainMembers(w, h), header, id, h, round)
      ensures header == w.chain(h)
    {
      CommitShown(w, g, s, c, name, header, id, round);
      A.TwoCommits(g, s, c, name.hash(header), name.hash(w.chain(h)));
    }
  }

  /** So it does in every run of the network with few faults whose correct nodes validate blocks. */
  lemma RunTrustworthy(w: V.World, g: R.Genesis, good: L.Rule, run: seq<A.Net>, i: nat, p: nat, k: nat, name: Naming)
    requires L.JudgedRun(g, good, run) && i < |run| && forall j: nat | j < |run| :: A.FaultAssumption(g, run[j])
    requires p in run[i].nodes && k <= |run[i].nodes[p].chain| && V.ChainLinked(w)
    requires Ideal(name, w.chain(g.initialHeight + k)) && Shown(w, g, run[i], run[i].nodes[p].chain[..k], name)
    requires ChecksValidators(w, g, good, run[i].nodes[p].chain[..k], name)
    requires A.Decided(g, run[i].nodes[p], g.initialHeight + k, name.hash(w.chain(g.initialHeight + k)))
    ensures V.TrustworthyAt(w, g.initialHeight + k)
  {
    hide *;
    L.JudgedRunIsRun(g, good, run);
    L.JudgedRunKeeps(g, good, run, i);
    A.RunKeeps(g, run, i);
    NetworkTrustworthy(w, g, good, run[i], p, k, name);
  }

  // The single validator of `Solo`, seen by a light client

  ghost function SoloWorld(): V.World {
    var id := C.BlockID(C.HashOf(V.SampleHeader(1)), 0);
    V.World(h => V.SampleHeader(h), iset{C.Made(7, C.Message("c", 1, 0, id, 0))}, iset{})
  }

  function SoloNaming(): Naming {
    Naming(header => if header == V.SampleHeader(1) then "A" else "B", _ => "P")
  }

  lemma SoloShown(s: A.Net)
    requires 0 in s.nodes && Solo.PRECOMMITTED in s.votes
    ensures V.ChainLinked(SoloWorld()) && Shown(SoloWorld(), Solo.GENESIS, s, [], SoloNaming())
  {
    var m: C.Members := [(7, 1)];
    assert V.MemberPowers(m) == [1];
    assert V.ChainMembers(SoloWorld(), 1) == m;
  }

  /** All that is asked for above can be met. */
  lemma SoloTrustworthy()
    ensures V.ChainLinked(SoloWorld()) && V.TrustworthyAt(SoloWorld(), 1)
  {
    var run := Solo.SomeRunCommits();
    SoloShown(run[5]);
    assert run[5].nodes[0].chain[..0] == [];
    assert ChecksValidators(SoloWorld(), Solo.GENESIS, Solo.ONLY_A, [], SoloNaming());
    assert Ideal(SoloNaming(), SoloWorld().chain(1));
    assert A.Decided(Solo.GENESIS, run[5].nodes[0], 1, SoloNaming().hash(SoloWorld().chain(1)));
    RunTrustworthy(SoloWorld(), Solo.GENESIS, Solo.ONLY_A, run, 5, 0, 0, SoloNaming());
  }
}
