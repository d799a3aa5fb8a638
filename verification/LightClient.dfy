/**
 Skipping verification: bisection over a cache of untrusted blocks. A block that
 cannot be trusted yet is put off and a block nearer to the verified one is fetched;
 each accepted block becomes the verified one and the search starts again from the
 target.
 */
module LightClient {
  import opened Options
  import opened Power
  import opened Commits
  import opened Verifier
  import opened TrustLevel

  const NUMERATOR := 9
  const DENOMINATOR := 16

  datatype Response = Found(block: LightBlock) | Benign | Malevolent

  /** A provider may answer each call as it likes; the first argument counts the calls. */
  type Provider = (nat, int) -> Response

  datatype Answer = Verified(trace: seq<LightBlock>) | CannotTrust | Failed

  ghost predicate HeightsMatch(source: Provider) {
    forall n: nat, h: int | source(n, h).Found? :: source(n, h).block.header.height == h
  }

  ghost predicate Offered(source: Provider, trusted: LightBlock, target: LightBlock, b: LightBlock) {
    || b == trusted || b == target
    || exists n: nat, h: int :: trusted.header.height < h < target.header.height && source(n, h) == Found(b)
  }

  /** Each block was accepted on the strength of the one before it. */
  ghost predicate Chained(cfg: Config, trace: seq<LightBlock>) {
    forall i | 0 < i < |trace| :: Verify(trace[i - 1], trace[i], cfg) == Accepted
  }

  ghost predicate AllOffered(source: Provider, trusted: LightBlock, target: LightBlock, s: seq<LightBlock>) {
    forall b | b in s :: Offered(source, trusted, target, b)
  }

  ghost predicate IsTrace(cfg: Config, source: Provider, trusted: LightBlock, target: LightBlock, trace: seq<LightBlock>) {
    && |trace| >= 2 && trace[0] == trusted && trace[|trace| - 1] == target
    && Chained(cfg, trace) && AllOffered(source, trusted, target, trace)
  }

  /** The provider answers every request, and nothing it offers is rejected outright. */
  ghost predicate Cooperative(cfg: Config, source: Provider, trusted: LightBlock, target: LightBlock) {
    && (forall n: nat, h: int | trusted.header.height < h < target.header.height :: source(n, h).Found?)
    && (forall a, b | Offered(source, trusted, target, a) && Offered(source, trusted, target, b)
          && a.header.height < b.header.height :: Verify(a, b, cfg) != Rejected)
  }

  /** The trace leads from the trusted block to the verified one. */
  ghost predicate TraceTo(cfg: Config, source: Provider, trusted: LightBlock, target: LightBlock, trace: seq<LightBlock>, verified: LightBlock) {
    && |trace| > 0 && trace[0] == trusted && trace[|trace| - 1] == verified
    && Chained(cfg, trace) && AllOffered(source, trusted, target, trace)
    && trusted.header.height <= verified.header.height
    && (|trace| > 1 ==> verified.header.height < target.header.height)
  }

  /**
   The state of the search. The target is at the bottom of the cache, later entries
   are nearer to the verified block, two entries for one height are one block, and
   what lies below the current depth has already failed against the verified block.
   */
  ghost predicate Searching(cfg: Config, source: Provider, trusted: LightBlock, target: LightBlock,
                            verified: LightBlock, cache: seq<LightBlock>, depth: int) {
    && 0 <= depth < |cache| && cache[0] == target
    && AllOffered(source, trusted, target, cache)
    && (forall i, j | 0 <= i < j < |cache| :: cache[i].header.height > cache[j].header.height || cache[i] == cache[j])
    && (forall i | 0 < i < |cache| :: verified.header.height < cache[i].header.height < target.header.height)
    && (forall i | 0 <= i < depth :: Verify(verified, cache[i], cfg) == CantBeTrusted)
  }

  lemma ExtendTrace(cfg: Config, source: Provider, trusted: LightBlock, target: LightBlock, trace: seq<LightBlock>, verified: LightBlock, next: LightBlock)
    requires TraceTo(cfg, source, trusted, target, trace, verified)
    requires Verify(verified, next, cfg) == Accepted && Offered(source, trusted, target, next)
    ensures Chained(cfg, trace + [next]) && AllOffered(source, trusted, target, trace + [next])
    ensures next.header.height < target.header.height ==> TraceTo(cfg, source, trusted, target, trace + [next], next)
  {
    hide Verify, Offered;
    var t := trace + [next];
    forall i | 0 < i < |t| ensures Verify(t[i - 1], t[i], cfg) == Accepted {
      assert i < |trace| ==> t[i - 1] == trace[i - 1] && t[i] == trace[i];
    }
  }

  /** An accepted entry is a first copy: everything below it is strictly farther. */
  lemma Accept(cfg: Config, source: Provider, trusted: LightBlock, target: LightBlock, verified: LightBlock, cache: seq<LightBlock>, depth: int)
    requires Searching(cfg, source, trusted, target, verified, cache, depth) && depth > 0
    requires Verify(verified, cache[depth], cfg) == Accepted
    ensures Searching(cfg, source, trusted, target, cache[depth], cache[..depth], 0)
  {
    hide Verify, Offered;
    forall i | 0 < i < depth ensures cache[depth].header.height < cache[i].header.height {
      assert cache[i] != cache[depth];
    }
  }

  /** The pivot lies strictly between the verified block and the nearest entry, and is appended twice. */
  lemma Fetch(cfg: Config, source: Provider, trusted: LightBlock, target: LightBlock, verified: LightBlock, cache: seq<LightBlock>, calls: nat)
    requires Searching(cfg, source, trusted, target, verified, cache, |cache| - 1) && HeightsMatch(source)
    requires Verify(verified, cache[|cache| - 1], cfg) == CantBeTrusted && trusted.header.height <= verified.header.height
    ensures var low := verified.header.height;
      var pivot := Pivot(low, cache[|cache| - 1].header.height);
      && low < pivot < cache[|cache| - 1].header.height
      && trusted.header.height < pivot < target.header.height
      && (source(calls, pivot).Found? ==>
            var b := source(calls, pivot).block;
            b.header.height == pivot && Searching(cfg, source, trusted, target, verified, cache + [b] + [b], |cache|))
  {
    hide Verify;
    var pivot := Pivot(verified.header.height, cache[|cache| - 1].header.height);
    if source(calls, pivot).Found? {
      var b := source(calls, pivot).block;
      assert Offered(source, trusted, target, b);
      hide Offered;
    }
  }

  function Pivot(low: int, high: int): (p: int)
    ensures high > low + 1 ==> low < p < high
  {
    low + (high - low) * NUMERATOR / DENOMINATOR
  }

  method VerifySkipping(cfg: Config, source: Provider, trusted: LightBlock, target: LightBlock) returns (r: Answer)
    requires HeightsMatch(source)
    ensures r.Verified? ==> IsTrace(cfg, source, trusted, target, r.trace)
    ensures Cooperative(cfg, source, trusted, target) && trusted.header.height < target.header.height ==> r.Verified?
  {
    hide Verify, Chained, Offered;
    var cache, depth, verified, trace := [target], 0, trusted, [trusted];
    var calls := 0;
    Start(cfg, source, trusted, target);
    while true
      invariant TraceTo(cfg, source, trusted, target, trace, verified)
      invariant Searching(cfg, source, trusted, target, verified, cache, depth)
      decreases target.header.height - verified.header.height,
        cache[|cache| - 1].header.height - verified.header.height, |cache| - depth
    {
      var candidate := cache[depth];
      assert candidate in cache && verified in trace;
      match Verify(verified, candidate, cfg)
      case Accepted =>
        ExtendTrace(cfg, source, trusted, target, trace, verified, candidate);
        if depth == 0 {
          return Verified(trace + [target]);
        }
        Accept(cfg, source, trusted, target, verified, cache, depth);
        verified, cache, depth := candidate, cache[..depth], 0;
        trace := trace + [verified];
      case CantBeTrusted =>
        if depth == |cache| - 1 {
          Fetch(cfg, source, trusted, target, verified, cache, calls);
          var response := source(calls, Pivot(verified.header.height, candidate.header.height));
          calls := calls + 1;
          match response
          case Found(block) => cache := cache + [block] + [block];
          case Benign => return CannotTrust;
          case Malevolent => return Failed;
        }
        depth := depth + 1;
      case Rejected =>
        return Failed;
    }
  }

  lemma Start(cfg: Config, source: Provider, trusted: LightBlock, target: LightBlock)
    ensures TraceTo(cfg, source, trusted, target, [trusted], trusted)
    ensures Searching(cfg, source, trusted, target, trusted, [target], 0)
  {
  }

  // What a verified trace means

  ghost predicate AllUnforged(w: World, source: Provider, trusted: LightBlock, target: LightBlock) {
    forall b | Offered(source, trusted, target, b) :: Unforged(w, b)
  }

  /** Every block of a verified trace is the chain's, with strictly rising heights and times. */
  lemma {:induction false} TraceSound(w: World, cfg: Config, trace: seq<LightBlock>, n: nat)
    requires Trustworthy(w, cfg) && LevelSound(w, cfg)
    requires 0 < n <= |trace| && Chained(cfg, trace) && OnChain(w, trace[0])
    requires forall b | b in trace :: Unforged(w, b)
    ensures forall i | 0 <= i < n :: OnChain(w, trace[i])
    ensures forall i, j | 0 <= i < j < n ::
      trace[i].header.height < trace[j].header.height && trace[i].header.time < trace[j].header.time
  {
    if n > 1 {
      TraceSound(w, cfg, trace, n - 1);
      assert Verify(trace[n - 2], trace[n - 1], cfg) == Accepted;
      VerifySound(w, trace[n - 2], trace[n - 1], cfg);
      hide Verify, OnChain;
    }
  }

  /** What VerifySkipping returns is the chain's, whatever the provider is. */
  lemma SkippingSound(w: World, cfg: Config, source: Provider, trusted: LightBlock, target: LightBlock, r: Answer)
    requires Trustworthy(w, cfg) && LevelSound(w, cfg)
    requires OnChain(w, trusted) && AllUnforged(w, source, trusted, target)
    requires r.Verified? && IsTrace(cfg, source, trusted, target, r.trace)
    ensures forall b | b in r.trace :: OnChain(w, b)
    ensures forall i, j | 0 <= i < j < |r.trace| ::
      r.trace[i].header.height < r.trace[j].header.height && r.trace[i].header.time < r.trace[j].header.time
    ensures OnChain(w, target) && trusted.header.height < target.header.height
  {
    hide Offered, OnChain, Unforged, Chained, Trustworthy, LevelSound;
    TraceSound(w, cfg, r.trace, |r.trace|);
  }

  // Completeness: a chain that is signed properly is never rejected

  /** A block of the chain as a full node serves it; addresses are a function of the key. */
  ghost predicate Proper(w: World, cfg: Config, addressOf: Key -> nat, b: LightBlock) {
    && OnChain(w, b) && ValidateBasic(b, b.header.chainID)
    && b.header.time < cfg.now + cfg.maxClockDrift
    && |b.vals| == |b.commit.sigs|
    && (forall i | 0 <= i < |b.vals| :: b.vals[i].address == addressOf(b.vals[i].key))
    && (forall i, j | 0 <= i < j < |b.vals| :: b.vals[i].address != b.vals[j].address)
    && (forall i: nat | i < |b.vals| && b.commit.sigs[i].flag.ForBlock? ::
          b.commit.sigs[i].address == b.vals[i].address && SignedBy(b.header.chainID, b.commit, i, b.vals[i].key))
    && PowerOf(PowersOf(b.vals), set i: nat | i < |b.vals| && b.commit.sigs[i].flag.ForBlock?) > Total(PowersOf(b.vals)) * 2 / 3
  }

  ghost predicate Injective(addressOf: Key -> nat) {
    forall a, b: Key | addressOf(a) == addressOf(b) :: a == b
  }

  lemma CheckComplete(q: Question, cfg: Config)
    requires q.Valid() && Honest(q)
    ensures Check(q, cfg) == if PowerOf(PowersOf(q.vals), CountedBefore(q, |q.commit.sigs|)) > q.needed then Enough else NotEnough
  {
    HonestJudgedByPower(q);
  }

  lemma OwnCommitEnough(w: World, cfg: Config, addressOf: Key -> nat, b: LightBlock)
    requires Proper(w, cfg, addressOf, b)
    ensures VerifyCommitLight(b, b.header.chainID, cfg) == Enough
  {
    var q := Question(b.header.chainID, b.vals, b.commit, Total(PowersOf(b.vals)) * 2 / 3, true, Light);
    assert Honest(q);
    CheckComplete(q, cfg);
    var signers := set i: nat | i < |b.vals| && b.commit.sigs[i].flag.ForBlock?;
    forall i | i in signers ensures i in CountedBefore(q, |b.commit.sigs|) {
      assert Counted(q, i) && q.Signer(i).value == i;
    }
    PowerMono(PowersOf(b.vals), signers, CountedBefore(q, |b.commit.sigs|));
  }

  lemma OtherCommitHonest(w: World, cfg: Config, addressOf: Key -> nat, a: LightBlock, b: LightBlock, needed: int)
    requires Injective(addressOf) && Proper(w, cfg, addressOf, a) && Proper(w, cfg, addressOf, b)
    ensures Honest(Question(b.header.chainID, a.vals, b.commit, needed, false, Light))
  {
    var q := Question(b.header.chainID, a.vals, b.commit, needed, false, Light);
    forall i: nat | i < |q.commit.sigs| ensures !Forged(q, i) {
      if Counted(q, i) {
        var k := q.Signer(i).value;
        assert addressOf(a.vals[k].key) == addressOf(b.vals[i].key);
      }
    }
  }

  /** Between two blocks the chain really has, verification succeeds or asks for one in between. */
  lemma ProperNotRejected(w: World, cfg: Config, addressOf: Key -> nat, a: LightBlock, b: LightBlock)
    requires ChainLinked(w) && Injective(addressOf) && Proper(w, cfg, addressOf, a) && Proper(w, cfg, addressOf, b)
    requires a.header.chainID == b.header.chainID && a.header.height < b.header.height
    requires !HeaderExpired(a.header, cfg) && PowerNeeded(Total(PowersOf(a.vals)), cfg.trustLevel).Some?
    ensures Verify(a, b, cfg) != Rejected
    ensures b.header.height == a.header.height + 1 ==> Verify(a, b, cfg) == Accepted
  {
    OwnCommitEnough(w, cfg, addressOf, b);
    if b.header.height == a.header.height + 1 {
      assert w.chain(a.header.height + 1).validators == w.chain(a.header.height).nextValidators;
    } else {
      var needed := PowerNeeded(Total(PowersOf(a.vals)), cfg.trustLevel).value;
      OtherCommitHonest(w, cfg, addressOf, a, b, needed);
      CheckComplete(Question(b.header.chainID, a.vals, b.commit, needed, false, Light), cfg);
    }
  }

  lemma LaterUnexpired(w: World, cfg: Config, addressOf: Key -> nat, a: LightBlock, b: LightBlock)
    requires ChainLinked(w) && Proper(w, cfg, addressOf, a) && Proper(w, cfg, addressOf, b)
    requires !HeaderExpired(a.header, cfg) && (a == b || a.header.height < b.header.height)
    ensures !HeaderExpired(b.header, cfg)
  {
    assert a != b ==> w.chain(a.header.height).time < w.chain(b.header.height).time;
  }

  /** A provider that serves the chain is cooperative, so skipping verification succeeds with it. */
  lemma FullNodeCooperative(w: World, cfg: Config, addressOf: Key -> nat, source: Provider, trusted: LightBlock, target: LightBlock)
    requires ChainLinked(w) && Injective(addressOf) && HeightsMatch(source)
    requires forall n: nat, h: int | trusted.header.height < h < target.header.height :: source(n, h).Found?
    requires forall b | Offered(source, trusted, target, b) ::
      Proper(w, cfg, addressOf, b) && b.header.chainID == trusted.header.chainID
      && PowerNeeded(Total(PowersOf(b.vals)), cfg.trustLevel).Some?
    requires !HeaderExpired(trusted.header, cfg) && trusted.header.height < target.header.height
    ensures Cooperative(cfg, source, trusted, target)
  {
    hide Proper, Verify, PowerNeeded, HeaderExpired, ChainLinked;
    forall a, b | Offered(source, trusted, target, a) && Offered(source, trusted, target, b) && a.header.height < b.header.height
      ensures Verify(a, b, cfg) != Rejected
    {
      assert a != trusted ==> trusted.header.height < a.header.height;
      assert Offered(source, trusted, target, trusted);
      LaterUnexpired(w, cfg, addressOf, trusted, a);
      ProperNotRejected(w, cfg, addressOf, a, b);
    }
  }

  // A provider of the sample chain

  function SampleBlock(h: int): LightBlock {
    var id := BlockID(HashOf(SampleHeader(h)), 0);
    var sig := CommitSig(ForBlock, 7, 0, Made(7, Message("c", h, 0, id, 0)), true);
    LightBlock(SampleHeader(h), Commit(h, 0, id, [sig], true), [Validator(7, 7, 1)])
  }

  const SAMPLE_CONFIG := Config(10_000, 1_000, 10, Fraction(1, 3), false)

  lemma SampleProper(h: int)
    requires 1 <= h <= 1_000
    ensures Proper(SampleWorld(), SAMPLE_CONFIG, k => k, SampleBlock(h))
    ensures PowerNeeded(Total(PowersOf(SampleBlock(h).vals)), SAMPLE_CONFIG.trustLevel).Some?
  {
    var b := SampleBlock(h);
    var signers := set i: nat | i < |b.vals| && b.commit.sigs[i].flag.ForBlock?;
    assert PowersOf(b.vals) == [1] && 0 in signers;
    PowerEmpty([1]);
    PowerAdd([1], {}, 0);
    PowerMono([1], {} + {0}, signers);
    assert Total([1]) == 1;
    assert MembersOf(b.vals) == [(7, 1)];
  }

  /** There is a chain, and a provider of it, with which all that is asked for above holds. */
  method SampleSucceeds(n: int) returns (r: Answer)
    requires 1 < n <= 1_000
    ensures r.Verified? && Trustworthy(SampleWorld(), SAMPLE_CONFIG)
  {
    var source: Provider := (_, h) => Found(SampleBlock(h));
    var trusted, target := SampleBlock(1), SampleBlock(n);
    SampleTrustworthy(SAMPLE_CONFIG);
    SampleLinked();
    hide Verify, Proper;
    forall b | Offered(source, trusted, target, b)
      ensures Proper(SampleWorld(), SAMPLE_CONFIG, k => k, b) && b.header.chainID == "c"
      ensures PowerNeeded(Total(PowersOf(b.vals)), SAMPLE_CONFIG.trustLevel).Some?
    {
      SampleProper(b.header.height);
    }
    FullNodeCooperative(SampleWorld(), SAMPLE_CONFIG, k => k, source, trusted, target);
    r := VerifySkipping(SAMPLE_CONFIG, source, trusted, target);
  }
}
