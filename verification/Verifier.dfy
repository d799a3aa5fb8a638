/**
 The light client's verifier: whether an untrusted header can be trusted because a
 trusted one is. `World` holds what is true of the chain, and `Trustworthy` the
 assumption under which trusting is sound.
 */
module Verifier {
  import opened Options
  import opened Power
  import opened Commits
  import opened TrustLevel

  datatype LightBlock = LightBlock(header: Header, commit: Commit, vals: seq<Validator>)

  /** `batch` says whether the key type supports batch verification. */
  datatype Config = Config(trustingPeriod: int, now: int, maxClockDrift: int, trustLevel: Fraction, batch: bool)

  datatype Outcome = Accepted | CantBeTrusted | Rejected

  // The checks

  predicate HeaderExpired(h: Header, cfg: Config) {
    !(h.time + cfg.trustingPeriod > cfg.now)
  }

  predicate ValidateBasic(b: LightBlock, chainID: string) {
    && b.header.wellFormed && b.header.height >= 1
    && WellFormed(b.commit)
    && b.header.chainID == chainID
    && b.commit.height == b.header.height
    && b.commit.id.hash == HashOf(b.header)
  }

  predicate NewHeaderAndVals(untrusted: LightBlock, trusted: Header, cfg: Config) {
    && ValidateBasic(untrusted, trusted.chainID)
    && untrusted.header.height > trusted.height
    && untrusted.header.time > trusted.time
    && untrusted.header.time < cfg.now + cfg.maxClockDrift
    && untrusted.header.validators == HashOf(MembersOf(untrusted.vals))
  }

  function Check(q: Question, cfg: Config): Verdict
    requires q.Valid()
  {
    if |q.commit.sigs| >= BATCH_VERIFY_THRESHOLD && cfg.batch then BatchCheck(q) else SingleCheck(q)
  }

  function VerifyCommitLight(b: LightBlock, chainID: string, cfg: Config): Verdict {
    if |b.vals| != |b.commit.sigs| || b.header.height != b.commit.height then Invalid
    else Check(Question(chainID, b.vals, b.commit, Total(PowersOf(b.vals)) * 2 / 3, true, Light), cfg)
  }

  function VerifyCommitLightTrusting(vals: seq<Validator>, chainID: string, c: Commit, cfg: Config): Verdict {
    match PowerNeeded(Total(PowersOf(vals)), cfg.trustLevel)
    case None => Invalid
    case Some(needed) => Check(Question(chainID, vals, c, needed, false, Light), cfg)
  }

  function VerifyNonAdjacent(trusted: LightBlock, untrusted: LightBlock, cfg: Config): Outcome {
    if untrusted.header.height == trusted.header.height + 1 then Rejected
    else if HeaderExpired(trusted.header, cfg) then Rejected
    else if !NewHeaderAndVals(untrusted, trusted.header, cfg) then Rejected
    else match VerifyCommitLightTrusting(trusted.vals, trusted.header.chainID, untrusted.commit, cfg)
      case NotEnough => CantBeTrusted
      case Invalid => Rejected
      case Enough =>
        if VerifyCommitLight(untrusted, trusted.header.chainID, cfg) == Enough then Accepted else Rejected
  }

  function VerifyAdjacent(trusted: LightBlock, untrusted: LightBlock, cfg: Config): Outcome {
    if untrusted.header.height != trusted.header.height + 1 then Rejected
    else if HeaderExpired(trusted.header, cfg) then Rejected
    else if !NewHeaderAndVals(untrusted, trusted.header, cfg) then Rejected
    else if untrusted.header.validators != trusted.header.nextValidators then Rejected
    else if VerifyCommitLight(untrusted, trusted.header.chainID, cfg) == Enough then Accepted else Rejected
  }

  function Verify(trusted: LightBlock, untrusted: LightBlock, cfg: Config): (o: Outcome)
    ensures !o.Rejected? ==> untrusted.header.height > trusted.header.height && untrusted.header.time > trusted.header.time
    ensures o.CantBeTrusted? ==> untrusted.header.height > trusted.header.height + 1
  {
    if untrusted.header.height != trusted.header.height + 1 then VerifyNonAdjacent(trusted, untrusted, cfg)
    else VerifyAdjacent(trusted, untrusted, cfg)
  }

  // Soundness

  /** The chain by height, every signature that was ever made, and the keys that are not correct. */
  datatype World = World(chain: int -> Header, signed: iset<Signature>, faulty: iset<Key>)

  ghost predicate ChainLinked(w: World) {
    && (forall h: int :: w.chain(h).height == h)
    && (forall h, k: int | h < k :: w.chain(h).time < w.chain(k).time)
    && (forall h: int :: w.chain(h).validators.HashOf? && w.chain(h + 1).validators == w.chain(h).nextValidators)
  }

  /** The key has signed a precommit of the header under this ID, at some time. */
  ghost predicate Signs(w: World, key: Key, header: Header, id: BlockID, height: int, round: int) {
    id.hash == HashOf(header) && exists t: int :: Made(key, Message(header.chainID, height, round, id, t)) in w.signed
  }

  function MemberPowers(m: Members): (p: Powers)
    ensures |p| == |m|
  {
    seq(|m|, i requires 0 <= i < |m| => m[i].1)
  }

  ghost function ChainMembers(w: World, h: int): Members
    requires ChainLinked(w)
  {
    assert w.chain(h).validators.HashOf?;
    w.chain(h).validators.preimage
  }

  ghost function FaultyIn(w: World, m: Members): set<nat> {
    set i: nat | i < |m| && m[i].0 in w.faulty
  }

  ghost function SignersIn(w: World, m: Members, header: Header, id: BlockID, height: int, round: int): set<nat> {
    set i: nat | i < |m| && Signs(w, m[i].0, header, id, height, round)
  }

  ghost predicate Unexpired(w: World, h: int, cfg: Config) {
    w.chain(h).time + cfg.trustingPeriod > cfg.now
  }

  /**
   The assumption, for heights inside the trusting period: less than a third of the
   chain's validator set is faulty, a correct validator signs a header only if it
   carries the validator set of its height, and a header that more than two thirds
   of that set signed in one round under one ID is the chain's.
   */
  ghost predicate Trustworthy(w: World, cfg: Config) {
    && ChainLinked(w)
    && forall h: int | Unexpired(w, h, cfg) :: TrustworthyAt(w, h)
  }

  ghost predicate TrustworthyAt(w: World, h: int)
    requires ChainLinked(w)
  {
    var m := ChainMembers(w, h);
    BelowOneThird(MemberPowers(m), FaultyIn(w, m)) && RightValidators(w, h) && OneCommit(w, h)
  }

  ghost predicate RightValidators(w: World, h: int) {
    forall key, header: Header, id, round: int | key !in w.faulty && Signs(w, key, header, id, h, round) ::
      header.validators == w.chain(h).validators
  }

  ghost predicate OneCommit(w: World, h: int)
    requires ChainLinked(w)
  {
    forall header: Header, id, round: int | CommittedBy(w, ChainMembers(w, h), header, id, h, round) :: header == w.chain(h)
  }

  ghost predicate CommittedBy(w: World, m: Members, header: Header, id: BlockID, height: int, round: int) {
    Quorum(MemberPowers(m)) <= PowerOf(MemberPowers(m), SignersIn(w, m, header, id, height, round))
  }

  /** The block is the chain's block at its height. */
  ghost predicate OnChain(w: World, b: LightBlock) {
    b.header == w.chain(b.header.height) && b.header.validators == HashOf(MembersOf(b.vals))
  }

  /** No signature is forged: the ones a commit carries were made. */
  ghost predicate Unforged(w: World, b: LightBlock) {
    forall i | 0 <= i < |b.commit.sigs| && b.commit.sigs[i].signature.Made? :: b.commit.sigs[i].signature in w.signed
  }

  lemma MemberPowersOf(vals: seq<Validator>)
    ensures MemberPowers(MembersOf(vals)) == PowersOf(vals)
  {
  }

  /** A commit that passes the check was signed by more than the needed power. */
  lemma CheckSound(w: World, q: Question, cfg: Config, b: LightBlock)
    requires q.Valid() && Check(q, cfg) == Enough
    requires ValidateBasic(b, q.chainID) && Unforged(w, b) && q.commit == b.commit
    ensures PowerOf(PowersOf(q.vals), CommitSigners(w, MembersOf(q.vals), b)) > q.needed
  {
    var s := AcceptedMeansPower(q);
    var signers := CommitSigners(w, MembersOf(q.vals), b);
    forall k | k in s ensures k in signers {
      var i: nat :| i < |q.commit.sigs| && q.commit.sigs[i].flag.ForBlock? && q.Signed(i, k);
      assert b.commit.sigs[i].signature in w.signed;
      assert Signs(w, q.vals[k].key, b.header, b.commit.id, b.header.height, b.commit.round);
    }
    PowerMono(PowersOf(q.vals), s, signers);
  }

  /** The members that signed what the block's commit is about. */
  ghost function CommitSigners(w: World, m: Members, b: LightBlock): set<nat> {
    SignersIn(w, m, b.header, b.commit.id, b.header.height, b.commit.round)
  }

  /** More than a third of the power holds a correct validator. */
  lemma CorrectAmong(p: Powers, s: set<nat>, faulty: set<nat>) returns (i: nat)
    requires BelowOneThird(p, faulty) && 3 * PowerOf(p, s) > Total(p)
    ensures i < |p| && i in s && i !in faulty
  {
    if forall j: nat | j < |p| && j in s :: j in faulty {
      PowerMono(p, s, faulty);
      assert false;
    }
    i :| i < |p| && i in s && i !in faulty;
  }

  /** The level passed its check and is not degenerate for any validator set inside the trusting period. */
  ghost predicate LevelSound(w: World, cfg: Config)
    requires ChainLinked(w)
  {
    && ValidTrustLevel(cfg.trustLevel)
    && forall h: int | Unexpired(w, h, cfg) :: !Degenerate(Total(MemberPowers(ChainMembers(w, h))), cfg.trustLevel)
  }

  /** Every level that can be parsed is sound. */
  lemma ParsedLevelSound(w: World, cfg: Config)
    requires ChainLinked(w) && ValidTrustLevel(cfg.trustLevel) && cfg.trustLevel.denominator <= MAX_INT64
    ensures LevelSound(w, cfg)
  {
  }

  /** The new header carries the validator set of its height, whichever way it was accepted. */
  lemma ValidatorsRight(w: World, trusted: LightBlock, untrusted: LightBlock, cfg: Config)
    requires Trustworthy(w, cfg) && LevelSound(w, cfg)
    requires OnChain(w, trusted) && Unforged(w, untrusted) && Verify(trusted, untrusted, cfg) == Accepted
    requires Unexpired(w, untrusted.header.height, cfg)
    ensures untrusted.header.validators == w.chain(untrusted.header.height).validators
  {
    var h, v := trusted.header.height, untrusted.header.height;
    if v == h + 1 {
      assert w.chain(h + 1).validators == w.chain(h).nextValidators;
    } else {
      var needed := PowerNeeded(Total(PowersOf(trusted.vals)), cfg.trustLevel).value;
      var m := MembersOf(trusted.vals);
      MemberPowersOf(trusted.vals);
      assert ChainMembers(w, h) == m;
      NeededIsAThird(Total(PowersOf(trusted.vals)), cfg.trustLevel);
      CheckSound(w, Question(trusted.header.chainID, trusted.vals, untrusted.commit, needed, false, Light), cfg, untrusted);
      MemberPowersOf(trusted.vals);
      var signers := CommitSigners(w, m, untrusted);
      assert MoreThanThird(PowerOf(MemberPowers(m), signers), Total(MemberPowers(m)));
      assert TrustworthyAt(w, h) && ChainMembers(w, h) == m;
      var i := CorrectAmong(MemberPowers(m), signers, FaultyIn(w, m));
      assert TrustworthyAt(w, v) && m[i].0 !in w.faulty && Signs(w, m[i].0, untrusted.header, untrusted.commit.id, v, untrusted.commit.round);
    }
  }

  /** Verify accepts only the chain's block. */
  lemma VerifySound(w: World, trusted: LightBlock, untrusted: LightBlock, cfg: Config)
    requires Trustworthy(w, cfg) && LevelSound(w, cfg)
    requires OnChain(w, trusted) && Unforged(w, untrusted) && Verify(trusted, untrusted, cfg) == Accepted
    ensures OnChain(w, untrusted)
  {
    var h, v := trusted.header.height, untrusted.header.height;
    assert w.chain(h).time < w.chain(v).time;
    ValidatorsRight(w, trusted, untrusted, cfg);
    var m := MembersOf(untrusted.vals);
    MemberPowersOf(untrusted.vals);
    var q := Question(trusted.header.chainID, untrusted.vals, untrusted.commit, Total(PowersOf(untrusted.vals)) * 2 / 3, true, Light);
    CheckSound(w, q, cfg, untrusted);
    assert TrustworthyAt(w, v) && ChainMembers(w, v) == m;
    assert CommittedBy(w, m, untrusted.header, untrusted.commit.id, v, untrusted.commit.round);
  }

  /** The assumption holds when correct validators sign nothing but the chain's headers. */
  lemma SigningOnlyTheChain(w: World, cfg: Config)
    requires ChainLinked(w)
    requires forall h: int | Unexpired(w, h, cfg) :: BelowOneThird(MemberPowers(ChainMembers(w, h)), FaultyIn(w, ChainMembers(w, h)))
    requires forall key, header: Header, id, h: int, round: int | key !in w.faulty && Signs(w, key, header, id, h, round) ::
      header == w.chain(h)
    ensures Trustworthy(w, cfg)
  {
    forall h: int | Unexpired(w, h, cfg) ensures TrustworthyAt(w, h) {
      var m := ChainMembers(w, h);
      var p := MemberPowers(m);
      forall header: Header, id, round: int | CommittedBy(w, m, header, id, h, round) ensures header == w.chain(h) {
        var i := CorrectAmong(p, SignersIn(w, m, header, id, h, round), FaultyIn(w, m));
        assert Signs(w, m[i].0, header, id, h, round);
      }
    }
  }

  // A chain of one validator, for which all of this holds

  function SampleHeader(h: int): Header {
    Header("c", h, h, HashOf([(7, 1)]), HashOf([(7, 1)]), true, 0)
  }

  /** Everyone signs the chain's headers, and nothing else. */
  ghost function SampleWorld(): World {
    World(h => SampleHeader(h), iset s: Signature | s.Made? && s.message.id.hash == HashOf(SampleHeader(s.message.height)), iset{})
  }

  lemma SampleLinked()
    ensures ChainLinked(SampleWorld()) && forall h: int :: ChainMembers(SampleWorld(), h) == [(7, 1)]
  {
  }

  lemma SampleSound(h: int)
    ensures ChainLinked(SampleWorld())
    ensures var m := ChainMembers(SampleWorld(), h); BelowOneThird(MemberPowers(m), FaultyIn(SampleWorld(), m))
  {
    SampleLinked();
    var m: Members := [(7, 1)];
    assert MemberPowers(m) == [1] && FaultyIn(SampleWorld(), m) == {};
    PowerEmpty(MemberPowers(m));
  }

  lemma SampleSigns(key: Key, header: Header, id: BlockID, h: int, round: int)
    requires Signs(SampleWorld(), key, header, id, h, round)
    ensures header == SampleWorld().chain(h)
  {
  }

  /** The assumption can be met. */
  lemma SampleTrustworthy(cfg: Config)
    ensures Trustworthy(SampleWorld(), cfg)
  {
    SampleLinked();
    hide *;
    var w := SampleWorld();
    forall h: int ensures BelowOneThird(MemberPowers(ChainMembers(w, h)), FaultyIn(w, ChainMembers(w, h))) {
      SampleSound(h);
    }
    forall key, header: Header, id, h: int, round: int | key !in w.faulty && Signs(w, key, header, id, h, round)
      ensures header == w.chain(h)
    {
      SampleSigns(key, header, id, h, round);
    }
    SigningOnlyTheChain(w, cfg);
  }
}
