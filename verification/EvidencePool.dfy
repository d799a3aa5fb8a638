/**
 The evidence pool: pending evidence in a key-value store, a gossip list over it, and
 the keys of committed evidence. Methods run one at a time.

 A hash is represented by what it covers, which includes the height. Keys of the store
 are the padded hexadecimal height followed by the digest, compared as bytes.
 */
module EvidencePool {
  const MAX_HEIGHT: int := 0x7FFF_FFFF_FFFF_FFFF

  type Height = h: int | 0 <= h <= MAX_HEIGHT

  datatype Hash = Hash(height: Height, digest: seq<int>)

  /** `light` marks light client attack evidence; `body` is what the hash does not cover. */
  datatype Evidence = Evidence(hash: Hash, time: int, light: bool, body: int)

  // Keys

  const SLASH := 47

  function Digit(d: nat): int
    requires d < 16
  {
    if d < 10 then 48 + d else 55 + d
  }

  /** The n low hexadecimal digits, most significant first. */
  function Hex(h: nat, n: nat): (s: seq<int>)
    ensures |s| == n
  {
    if n == 0 then [] else Hex(h / 16, n - 1) + [Digit(h % 16)]
  }

  function Pow16(n: nat): nat {
    if n == 0 then 1 else 16 * Pow16(n - 1)
  }

  function Key(h: Hash): seq<int> {
    Hex(h.height, 16) + [SLASH] + h.digest
  }

  /** Order of byte strings in the store. */
  predicate Less(a: seq<int>, b: seq<int>) {
    b != [] && (a == [] || a[0] < b[0] || (a[0] == b[0] && Less(a[1..], b[1..])))
  }

  lemma {:induction false} LessConcat(a: seq<int>, b: seq<int>, u: seq<int>, v: seq<int>)
    requires |a| == |b|
    ensures Less(a + u, b + v) <==> Less(a, b) || (a == b && Less(u, v))
  {
    if a == [] {
      assert a + u == u && b + v == v;
    } else {
      LessConcat(a[1..], b[1..], u, v);
      assert (a + u)[1..] == a[1..] + u && (b + v)[1..] == b[1..] + v;
    }
  }

  /** Padded hexadecimal order is numeric order. */
  lemma {:induction false} HexOrder(g: nat, h: nat, n: nat)
    requires g < Pow16(n) && h < Pow16(n)
    ensures Less(Hex(g, n), Hex(h, n)) <==> g < h
    ensures Hex(g, n) == Hex(h, n) <==> g == h
  {
    if n > 0 {
      HexOrder(g / 16, h / 16, n - 1);
      var a, b := Hex(g / 16, n - 1), Hex(h / 16, n - 1);
      LessConcat(a, b, [Digit(g % 16)], [Digit(h % 16)]);
      assert g == g / 16 * 16 + g % 16 && h == h / 16 * 16 + h % 16;
      assert Hex(g, n)[..n - 1] == a && Hex(h, n)[..n - 1] == b;
    }
  }

  lemma {:induction false} LessTransitive(a: seq<int>, b: seq<int>, c: seq<int>)
    requires Less(a, b) && Less(b, c)
    ensures Less(a, c)
  {
    if a != [] && a[0] == b[0] == c[0] {
      LessTransitive(a[1..], b[1..], c[1..]);
    }
  }

  lemma {:induction false} LessTotal(a: seq<int>, b: seq<int>)
    ensures a == b || Less(a, b) || Less(b, a)
  {
    if a != [] && b != [] && a[0] == b[0] {
      LessTotal(a[1..], b[1..]);
      assert a == [a[0]] + a[1..] && b == [b[0]] + b[1..];
    }
  }

  lemma {:induction false} NotLessThanItself(a: seq<int>)
    ensures !Less(a, a)
  {
    if a != [] {
      NotLessThanItself(a[1..]);
    }
  }

  lemma HeightsFit()
    ensures MAX_HEIGHT < Pow16(16)
  {
    assert Pow16(4) == 0x1_0000;
    assert Pow16(8) == 0x1_0000_0000;
    assert Pow16(12) == 0x1_0000_0000_0000;
  }

  /** The key order of the store is the height order, and only then the digest's. */
  lemma KeyOrder(g: Hash, h: Hash)
    ensures Less(Key(g), Key(h)) <==> g.height < h.height || (g.height == h.height && Less(g.digest, h.digest))
    ensures Key(g) == Key(h) <==> g == h
  {
    HeightsFit();
    HexOrder(g.height, h.height, 16);
    var a, b := Hex(g.height, 16), Hex(h.height, 16);
    LessConcat(a, b, [SLASH] + g.digest, [SLASH] + h.digest);
    LessConcat([SLASH], [SLASH], g.digest, h.digest);
    assert Key(g) == a + ([SLASH] + g.digest) && Key(h) == b + ([SLASH] + h.digest);
    assert Key(g)[..16] == a && Key(h)[..16] == b && Key(g)[17..] == g.digest && Key(h)[17..] == h.digest;
  }

  // Keys in order

  predicate IsLeast(keys: set<Hash>, h: Hash) {
    h in keys && forall k | k in keys :: k == h || Less(Key(h), Key(k))
  }

  lemma LeastExists(keys: set<Hash>)
    requires keys != {}
    ensures exists h :: IsLeast(keys, h)
  {
    hide Less, Key;
    var h :| h in keys;
    if keys == {h} {
      assert IsLeast(keys, h);
    } else {
      LeastExists(keys - {h});
      var m :| IsLeast(keys - {h}, m);
      KeyOrder(h, m);
      LessTotal(Key(h), Key(m));
      if Less(Key(h), Key(m)) {
        forall k | k in keys && k != h ensures Less(Key(h), Key(k)) {
          if k != m {
            LessTransitive(Key(h), Key(m), Key(k));
          }
        }
        assert IsLeast(keys, h);
      } else {
        assert IsLeast(keys, m);
      }
    }
  }

  lemma LeastUnique(keys: set<Hash>, g: Hash, h: Hash)
    requires IsLeast(keys, g) && IsLeast(keys, h)
    ensures g == h
  {
    hide Less, Key;
    if g != h {
      LessTransitive(Key(g), Key(h), Key(g));
      NotLessThanItself(Key(g));
    }
  }

  lemma OneLeast(keys: set<Hash>)
    requires keys != {}
    ensures exists h :: IsLeast(keys, h)
    ensures forall g, h | IsLeast(keys, g) && IsLeast(keys, h) :: g == h
  {
    LeastExists(keys);
    forall g, h | IsLeast(keys, g) && IsLeast(keys, h) ensures g == h {
      LeastUnique(keys, g, h);
    }
  }

  function SortedKeys(keys: set<Hash>): (s: seq<Hash>)
    ensures forall h :: h in s <==> h in keys
    ensures forall i, j | 0 <= i < j < |s| :: Less(Key(s[i]), Key(s[j]))
  {
    if keys == {} then []
    else
      OneLeast(keys);
      var h :| h in keys && IsLeast(keys, h);
      [h] + SortedKeys(keys - {h})
  }

  // The gossip list

  ghost predicate Distinct(list: seq<Evidence>) {
    forall i, j | 0 <= i < j < |list| :: list[i].hash != list[j].hash
  }

  /** The list without the evidence whose hash is among those given. */
  function Without(list: seq<Evidence>, gone: set<Hash>): seq<Evidence> {
    if list == [] then []
    else
      var n := |list| - 1;
      Without(list[..n], gone) + if list[n].hash in gone then [] else [list[n]]
  }

  lemma {:induction false} WithoutIs(list: seq<Evidence>, gone: set<Hash>)
    ensures forall e :: e in Without(list, gone) <==> e in list && e.hash !in gone
  {
    if list != [] {
      var n := |list| - 1;
      WithoutIs(list[..n], gone);
      assert list == list[..n] + [list[n]];
    }
  }

  lemma {:induction false} WithoutDistinct(list: seq<Evidence>, gone: set<Hash>)
    requires Distinct(list)
    ensures Distinct(Without(list, gone))
  {
    if list != [] {
      var n := |list| - 1;
      WithoutDistinct(list[..n], gone);
      WithoutIs(list[..n], gone);
      var rest := Without(list[..n], gone);
      forall i | 0 <= i < |rest| ensures rest[i].hash != list[n].hash {
        assert rest[i] in list[..n];
      }
    }
  }

  function Hashes(evs: seq<Evidence>): set<Hash> {
    set e | e in evs :: e.hash
  }

  // The pool

  /** Two conflicting votes that consensus saw; evidence can be formed from them unless `formed` is false. */
  datatype Conflict = Conflict(hash: Hash, body: int, formed: bool)

  /** The evidence that comes out of the buffer at this height. */
  ghost function Formed(buffer: seq<Conflict>, newHeight: Height): set<Hash> {
    set c | c in buffer && c.formed && c.hash.height <= newHeight :: c.hash
  }

  /** The chain's block times, and what else verification of evidence asks for. */
  datatype Rules = Rules(
    blockTime: Height -> int,
    acceptable: Evidence -> bool,
    maxAgeBlocks: int,
    maxAgeDuration: int)

  ghost predicate TimesRise(r: Rules) {
    forall g: Height, h: Height | g < h :: r.blockTime(g) < r.blockTime(h)
  }

  /** Too old by blocks and by time. */
  predicate ExpiredAt(r: Rules, height: Height, e: Evidence) {
    height - e.hash.height > r.maxAgeBlocks && r.blockTime(height) - e.time > r.maxAgeDuration
  }

  /** Evidence of this hash, with its block's time, has expired. */
  predicate ExpiredHash(r: Rules, height: Height, h: Hash) {
    height - h.height > r.maxAgeBlocks && r.blockTime(height) - r.blockTime(h.height) > r.maxAgeDuration
  }

  ghost function Unexpired(r: Rules, height: Height, hashes: set<Hash>): set<Hash> {
    set h | h in hashes && !ExpiredHash(r, height, h)
  }

  /** What an iterator over the keys yields, in key order. */
  ghost predicate Scan(pending: map<Hash, Evidence>, order: seq<Evidence>) {
    && (forall e | e in order :: e.hash in pending && pending[e.hash] == e)
    && (forall h | h in pending :: pending[h] in order)
    && (forall i, j | 0 <= i < j < |order| :: Less(Key(order[i].hash), Key(order[j].hash)))
  }

  /** Whatever is pending is filed under its own hash. */
  ghost predicate Keyed(pending: map<Hash, Evidence>) {
    forall h | h in pending :: pending[h].hash == h
  }

  /** The iterator of the store. */
  function Iterate(pending: map<Hash, Evidence>): seq<Evidence> {
    var keys := SortedKeys(pending.Keys);
    seq(|keys|, i requires 0 <= i < |keys| => pending[keys[i]])
  }

  lemma Iterates(pending: map<Hash, Evidence>)
    requires Keyed(pending)
    ensures Scan(pending, Iterate(pending))
  {
    var keys, order := SortedKeys(pending.Keys), Iterate(pending);
    hide SortedKeys, Less, Key;
    forall i | 0 <= i < |keys| ensures order[i].hash == keys[i] {
      assert keys[i] in keys;
    }
    forall h | h in pending ensures pending[h] in order {
      var i :| 0 <= i < |keys| && keys[i] == h;
      assert order[i] == pending[h];
    }
  }

  ghost function Count(m: map<Hash, Evidence>): nat {
    |m|
  }

  ghost predicate PendingSound(r: Rules, pending: map<Hash, Evidence>) {
    forall h | h in pending :: pending[h].hash == h && pending[h].time == r.blockTime(h.height)
  }

  /** The gossip list is part of what is pending, without duplicates. */
  ghost predicate ListSound(pending: map<Hash, Evidence>, list: seq<Evidence>) {
    Distinct(list) && forall e | e in list :: e.hash in pending
  }

  ghost predicate Sound(r: Rules, pending: map<Hash, Evidence>, committed: set<Hash>, list: seq<Evidence>, size: nat,
                        onChain: seq<Evidence>) {
    && PendingSound(r, pending) && ListSound(pending, list)
    && pending.Keys !! committed && Count(pending) <= size
    && committed <= Hashes(onChain)
  }

  /** Evidence of blocks that the handshake replayed past the pool. */
  ghost function Missed(onChain: seq<Evidence>, committed: set<Hash>): set<Hash> {
    Hashes(onChain) - committed
  }

  /** The scan for expired evidence runs once the height and time it was last put off to are passed. */
  ghost predicate Due(r: Rules, height: Height, pruningHeight: int, pruningTime: int) {
    height > pruningHeight && r.blockTime(height) > pruningTime
  }

  const SECOND := 1_000_000_000

  class Pool {
    const rules: Rules
    var pending: map<Hash, Evidence>
    var committed: set<Hash>
    var list: seq<Evidence>
    var evidenceSize: nat
    var buffer: seq<Conflict>
    var stateHeight: Height
    var pruningHeight: int
    var pruningTime: int
    ghost var onChain: seq<Evidence>      // the evidence of all blocks so far

    ghost predicate Valid()
      reads this
    {
      Sound(rules, pending, committed, list, evidenceSize, onChain)
    }

    constructor (rules: Rules, stateHeight: Height)
      ensures this.rules == rules && Valid() && onChain == []
    {
      this.rules, this.stateHeight := rules, stateHeight;
      pending, committed, list, evidenceSize, buffer, onChain := map[], {}, [], 0, [], [];
      pruningHeight, pruningTime := stateHeight, rules.blockTime(stateHeight);
    }

    predicate IsExpired(e: Evidence)
      reads this`stateHeight
    {
      ExpiredAt(rules, stateHeight, e)
    }

    predicate Verify(e: Evidence)
      reads this`stateHeight
    {
      e.time == rules.blockTime(e.hash.height) && !IsExpired(e) && rules.acceptable(e)
    }

    /** Evidence that is neither pending nor committed becomes both pending and gossiped. */
    method Push(e: Evidence)
      requires Sound(rules, pending, committed, list, evidenceSize, onChain) && e.hash !in pending && e.hash !in committed && e.time == rules.blockTime(e.hash.height)
      modifies this`pending, this`list, this`evidenceSize
      ensures Sound(rules, pending, committed, list, evidenceSize, onChain) && pending == old(pending)[e.hash := e] && list == old(list) + [e]
    {
      OneMore(pending, e);
      hide Count;
      pending := pending[e.hash := e];
      evidenceSize := evidenceSize + 1;
      list := list + [e];
    }

    method AddEvidence(e: Evidence) returns (ok: bool)
      requires Valid()
      modifies this`pending, this`list, this`evidenceSize
      ensures Valid()
      ensures ok <==> e.hash in old(pending) || e.hash in committed || Verify(e)
      ensures var isNew := e.hash !in old(pending) && e.hash !in committed && Verify(e);
        pending == (if isNew then old(pending)[e.hash := e] else old(pending)) && list == old(list) + if isNew then [e] else []
    {
      if e.hash in pending || e.hash in committed {
        return true;
      }
      if !Verify(e) {
        return false;
      }
      Push(e);
      return true;
    }

    /** Pending evidence was verified before, unless it is about a light client attack. */
    predicate Passes(e: Evidence)
      reads this
    {
      (e.hash in pending && !e.light) || (e.hash !in committed && Verify(e))
    }

    /**
     The evidence of a proposed block. Pending evidence skips the committed check, and
     light client evidence is verified again, and counted again; still an accepted list
     has no duplicate and nothing that is marked as committed.
     */
    method CheckEvidence(evs: seq<Evidence>) returns (ok: bool)
      requires Valid()
      modifies this`pending, this`evidenceSize
      ensures Valid()
      ensures ok ==> Distinct(evs) && Hashes(evs) !! committed
      ensures ok <==> Distinct(evs) && forall e | e in evs :: old(Passes(e))
      ensures ok ==> forall e | e in evs :: e.hash in pending
      ensures old(pending).Keys <= pending.Keys
    {
      hide Count;
      for i := 0 to |evs|
        invariant Valid() && Distinct(evs[..i]) && old(pending).Keys <= pending.Keys
        invariant forall e | e in evs[..i] :: e.hash in pending && old(Passes(e))
        invariant forall h | h in pending && h !in old(pending) :: exists k :: 0 <= k < i && evs[k].hash == h
      {
        var e := evs[i];
        if e.light || e.hash !in pending {
          if e.hash in committed || !Verify(e) {
            assert evs[i] in evs && !old(Passes(e));
            return false;
          }
          OneMore(pending, e);
          pending := pending[e.hash := e];
          evidenceSize := evidenceSize + 1;
        }
        var j := i;
        while j > 0
          invariant 0 <= j <= i && forall k | j <= k < i :: evs[k].hash != e.hash
        {
          j := j - 1;
          if evs[j].hash == e.hash {
            return false;
          }
        }
        assert evs[..i + 1] == evs[..i] + [e];
      }
      assert evs[..|evs|] == evs;
      return true;
    }

    /** Conflicting votes become evidence, with the time of the block of their height. */
    method ProcessConsensusBuffer(newHeight: Height)
      requires Sound(rules, pending, committed, list, evidenceSize, onChain)
      modifies this`pending, this`list, this`buffer, this`evidenceSize
      ensures Sound(rules, pending, committed, list, evidenceSize, onChain) && buffer == []
      ensures pending.Keys == old(pending).Keys + (Formed(old(buffer), newHeight) - committed)
    {
      hide Count, Formed;
      FormedNone(newHeight);
      for i := 0 to |buffer|
        invariant Sound(rules, pending, committed, list, evidenceSize, onChain) && buffer == old(buffer)
        invariant pending.Keys == old(pending).Keys + (Formed(buffer[..i], newHeight) - committed)
      {
        var c := buffer[i];
        FormedMore(buffer[..i], c, newHeight);
        assert buffer[..i + 1] == buffer[..i] + [c];
        if c.formed && c.hash.height <= newHeight && c.hash !in pending && c.hash !in committed {
          Push(Evidence(c.hash, rules.blockTime(c.hash.height), false, c.body));
        }
      }
      assert buffer[..|buffer|] == buffer;
      buffer := [];
    }

    /** The evidence of a committed block leaves pending and list, and is remembered. */
    method MarkEvidenceAsCommitted(evs: seq<Evidence>)
      requires Sound(rules, pending, committed, list, evidenceSize, onChain) && Distinct(evs) && Hashes(evs) !! committed
      modifies this`pending, this`committed, this`list, this`onChain, this`evidenceSize
      ensures Sound(rules, pending, committed, list, evidenceSize, onChain) && committed == old(committed) + Hashes(evs) && onChain == old(onChain) + evs
      ensures pending == old(pending) - Hashes(evs)
      ensures list == Without(old(list), Hashes(evs))
    {
      hide Count;
      var gone := MoveToCommitted(evs);
      WithoutSame(list, gone, Hashes(evs));
      WithoutIs(list, Hashes(evs));
      RemoveFromList(gone);
      MoreHashes(onChain, evs);
      onChain := onChain + evs;
    }

    method MoveToCommitted(evs: seq<Evidence>) returns (gone: set<Hash>)
      requires Count(pending) <= evidenceSize
      modifies this`pending, this`committed, this`evidenceSize
      ensures Count(pending) <= evidenceSize
      ensures pending == old(pending) - Hashes(evs) && committed == old(committed) + Hashes(evs)
      ensures gone == Hashes(evs) * old(pending).Keys
    {
      hide Count;
      gone := {};
      for i := 0 to |evs|
        invariant pending == old(pending) - Hashes(evs[..i]) && committed == old(committed) + Hashes(evs[..i])
        invariant gone == Hashes(evs[..i]) * old(pending).Keys && Count(pending) <= evidenceSize
      {
        var e := evs[i];
        OneLess(pending, e.hash);
        HashesPlus(evs[..i], e);
        assert evs[..i + 1] == evs[..i] + [e];
        if e.hash in pending {
          pending := pending - {e.hash};
          evidenceSize := evidenceSize - 1;
          gone := gone + {e.hash};
        }
        committed := committed + {e.hash};
      }
      assert evs[..|evs|] == evs;
    }

    /**
     A new block: conflicts become evidence, the block's own evidence is moved, and expired
     evidence goes if the scan is due. The height must rise. Afterwards the evidence on chain
     is without duplicates exactly if it was before and the block has none that was missed.
     */
    method Update(newHeight: Height, evs: seq<Evidence>) returns (panicked: bool)
      requires Valid() && Distinct(evs) && Hashes(evs) !! committed && TimesRise(rules)
      modifies this
      ensures Valid() && panicked == (newHeight <= old(stateHeight))
      ensures !panicked ==> stateHeight == newHeight && onChain == old(onChain) + evs && buffer == []
      ensures !panicked ==> Missed(onChain, committed) == old(Missed(onChain, committed)) - Hashes(evs)
      ensures !panicked ==> (Distinct(onChain) <==> old(Distinct(onChain)) && Hashes(evs) !! old(Missed(onChain, committed)))
      ensures !panicked ==>
        var left := old(pending).Keys + (Formed(old(buffer), newHeight) - old(committed)) - Hashes(evs);
        var due := Due(rules, newHeight, old(pruningHeight), old(pruningTime));
        pending.Keys == if due then Unexpired(rules, newHeight, left) else left
    {
      if newHeight <= stateHeight {
        return true;
      }
      hide Sound, Formed, Distinct, Hashes, Missed, Unexpired, Due, TimesRise;
      Absorb(newHeight, evs);
      PruneIfDue(newHeight);
      return false;
    }

    /** The first two parts of Update. */
    method Absorb(newHeight: Height, evs: seq<Evidence>)
      requires Sound(rules, pending, committed, list, evidenceSize, onChain) && Distinct(evs) && Hashes(evs) !! committed
      modifies this`pending, this`committed, this`list, this`evidenceSize, this`buffer, this`stateHeight, this`onChain
      ensures Sound(rules, pending, committed, list, evidenceSize, onChain) && stateHeight == newHeight
      ensures onChain == old(onChain) + evs && buffer == []
      ensures Missed(onChain, committed) == old(Missed(onChain, committed)) - Hashes(evs)
      ensures Distinct(onChain) <==> old(Distinct(onChain)) && Hashes(evs) !! old(Missed(onChain, committed))
      ensures pending.Keys == old(pending).Keys + (Formed(old(buffer), newHeight) - old(committed)) - Hashes(evs)
    {
      hide *;
      ProcessConsensusBuffer(newHeight);
      stateHeight := newHeight;
      Commit(evs);
    }

    method Commit(evs: seq<Evidence>)
      requires Sound(rules, pending, committed, list, evidenceSize, onChain) && Distinct(evs) && Hashes(evs) !! committed
      modifies this`pending, this`committed, this`list, this`evidenceSize, this`onChain
      ensures Sound(rules, pending, committed, list, evidenceSize, onChain) && onChain == old(onChain) + evs && pending.Keys == old(pending).Keys - Hashes(evs)
      ensures Missed(onChain, committed) == old(Missed(onChain, committed)) - Hashes(evs)
      ensures Distinct(onChain) <==> old(Distinct(onChain)) && Hashes(evs) !! old(Missed(onChain, committed))
    {
      ChainGrows(onChain, evs, committed);
      hide *;
      MarkEvidenceAsCommitted(evs);
    }

    method PruneIfDue(newHeight: Height)
      requires Sound(rules, pending, committed, list, evidenceSize, onChain) && TimesRise(rules) && stateHeight == newHeight
      modifies this`pending, this`list, this`evidenceSize, this`pruningHeight, this`pruningTime
      ensures Sound(rules, pending, committed, list, evidenceSize, onChain)
      ensures
        var due := Due(rules, newHeight, old(pruningHeight), old(pruningTime));
        pending.Keys == if due then Unexpired(rules, newHeight, old(pending).Keys) else old(pending).Keys
    {
      hide Count, TimesRise, ExpiredHash;
      if evidenceSize > 0 && newHeight > pruningHeight && rules.blockTime(newHeight) > pruningTime {
        pruningHeight, pruningTime := RemoveExpiredPendingEvidence();
      } else {
        NoneCounted(pending);
      }
    }

    /**
     The process restarts: the buffer is lost, and the handshake may have replayed a block
     with an evidence pool that marks nothing. What is pending is read back.
     */
    method Restart(newHeight: Height, replayed: seq<Evidence>)
      requires Valid() && TimesRise(rules)
      modifies this
      ensures Valid() && stateHeight == newHeight && onChain == old(onChain) + replayed && committed == old(committed)
      ensures pending.Keys == Unexpired(rules, stateHeight, old(pending).Keys)
      ensures Hashes(list) == pending.Keys
    {
      hide Sound, TimesRise, Unexpired, Hashes;
      Handshake(newHeight, replayed);
      pruningHeight, pruningTime := RemoveExpiredPendingEvidence();
      Reload();
    }

    /** A replayed block joins the chain and nothing of it is marked. */
    method Handshake(newHeight: Height, replayed: seq<Evidence>)
      requires Sound(rules, pending, committed, list, evidenceSize, onChain)
      modifies this`stateHeight, this`buffer, this`onChain
      ensures Sound(rules, pending, committed, list, evidenceSize, onChain) && stateHeight == newHeight && buffer == [] && onChain == old(onChain) + replayed
    {
      MoreHashes(onChain, replayed);
      hide Hashes, Count, ListSound, PendingSound;
      stateHeight, buffer, onChain := newHeight, [], onChain + replayed;
    }

    method AllPending() returns (order: seq<Evidence>)
      requires PendingSound(rules, pending)
      ensures Scan(pending, order)
    {
      Iterates(pending);
      return Iterate(pending);
    }

    /** The list is what is pending, in key order. */
    method Reload()
      requires Sound(rules, pending, committed, list, evidenceSize, onChain)
      modifies this`list, this`evidenceSize
      ensures Sound(rules, pending, committed, list, evidenceSize, onChain) && Hashes(list) == pending.Keys
    {
      list := AllPending();
      ScanDistinct(pending, list);
      evidenceSize := |list|;
    }

    /**
     Any life of the pool: blocks that were checked before they were applied, and restarts.
     No evidence is on chain twice if none was replayed past the pool.
     */
    method Live(events: seq<Event>)
      requires Valid() && TimesRise(rules)
      modifies this
      ensures Valid() && old(onChain) <= onChain
      ensures old(Distinct(onChain)) && old(Missed(onChain, committed)) == {} && NothingReplayed(events) ==> Distinct(onChain)
    {
      for i := 0 to |events|
        invariant Valid() && old(onChain) <= onChain
        invariant old(Distinct(onChain)) && old(Missed(onChain, committed)) == {} && NothingReplayed(events) ==> Distinct(onChain) && Missed(onChain, committed) == {}
      {
        assert events[i] in events;
        match events[i]
        case Block(height, evs) =>
          var ok := CheckEvidence(evs);
          if ok && height > stateHeight {
            var panicked := Update(height, evs);
          }
        case Reboot(height, replayed) =>
          assert replayed == [] ==> onChain + replayed == onChain;
          Restart(height, replayed);
      }
    }

    /** With rising block times, expiry is inherited by everything older. */
    lemma OlderExpires(e: Evidence, f: Evidence)
      requires TimesRise(rules) && e.hash.height <= f.hash.height && IsExpired(f)
      requires e.time == rules.blockTime(e.hash.height) && f.time == rules.blockTime(f.hash.height)
      ensures IsExpired(e)
    {
      if e.hash.height < f.hash.height {
        assert rules.blockTime(e.hash.height) < rules.blockTime(f.hash.height);
      }
    }

    /**
     The scan stops at the first evidence that has not expired, and yet removes exactly the
     expired. It returns when to scan next: not before the oldest evidence left has expired.
     */
    method RemoveExpiredPendingEvidence() returns (nextHeight: int, nextTime: int)
      requires Sound(rules, pending, committed, list, evidenceSize, onChain) && TimesRise(rules)
      modifies this`pending, this`list, this`evidenceSize
      ensures Sound(rules, pending, committed, list, evidenceSize, onChain)
      ensures pending.Keys == Unexpired(rules, stateHeight, old(pending).Keys)
      ensures forall h | h in pending :: pending[h] == old(pending)[h]
      ensures forall e :: e in list <==> e in old(list) && e.hash in pending
      ensures pending == map[] ==> (nextHeight, nextTime) == (stateHeight, rules.blockTime(stateHeight))
      ensures forall h | h in pending :: nextHeight <= h.height + rules.maxAgeBlocks + 1
    {
      hide Count;
      var order := AllPending();
      var stop := PrunePending(order);
      nextHeight, nextTime := stateHeight, rules.blockTime(stateHeight);
      if stop < |order| {
        nextHeight := order[stop].hash.height + rules.maxAgeBlocks + 1;
        nextTime := order[stop].time + rules.maxAgeDuration + SECOND;
      }
      var gone := Hashes(order[..stop]);
      hide Hashes, Scan, TimesRise, Unexpired;
      WithoutIs(list, gone);
      RemoveFromList(gone);
    }

    method PrunePending(order: seq<Evidence>) returns (stop: nat)
      requires PendingSound(rules, pending) && TimesRise(rules) && Scan(pending, order) && Count(pending) <= evidenceSize
      modifies this`pending, this`evidenceSize
      ensures stop <= |order| && PendingSound(rules, pending) && pending == old(pending) - Hashes(order[..stop]) && Count(pending) <= evidenceSize
      ensures pending.Keys == Unexpired(rules, stateHeight, old(pending).Keys)
      ensures stop == |order| ==> pending == map[]
      ensures stop < |order| ==> order[stop].hash in pending
      ensures forall h | h in pending :: stop < |order| && order[stop].hash.height <= h.height
    {
      hide Less, Key, Count;
      stop := PruneUntil(order);
      forall h | h in pending ensures stop < |order| && order[stop].hash.height <= h.height && !ExpiredHash(rules, stateHeight, h) {
        var k := RestOfScan(order, stop, pending[h]);
        KeysRise(order, stop, k);
        assert order[stop] in order;
        if IsExpired(order[k]) {
          OlderExpires(order[stop], order[k]);
        }
      }
      forall h | h in old(pending) && h !in pending ensures ExpiredHash(rules, stateHeight, h) {
        var k := InPrefix(order, stop, h);
        assert order[k] in order && IsExpired(order[k]);
      }
      if stop < |order| {
        assert order[stop] in order;
        NotRemoved(old(pending), order, stop);
      }
    }

    method PruneUntil(order: seq<Evidence>) returns (stop: nat)
      requires Scan(pending, order) && Count(pending) <= evidenceSize
      modifies this`pending, this`evidenceSize
      ensures Count(pending) <= evidenceSize
      ensures stop == FirstFresh(rules, stateHeight, order) && pending == After(old(pending), order, stop)
    {
      AfterNone(pending, order);
      stop := 0;
      ghost var limit := FirstFresh(rules, stateHeight, order);
      hide *;
      while stop < |order| && ExpiredAt(rules, stateHeight, order[stop])
        invariant stop <= |order| && pending == After(old(pending), order, stop) && Count(pending) <= evidenceSize
        invariant stop <= limit
      {
        AfterNext(old(pending), order, stop);
        DeletePending(order[stop].hash);
        stop := stop + 1;
      }
    }

    method DeletePending(h: Hash)
      requires Count(pending - {h}) < evidenceSize
      modifies this`pending, this`evidenceSize
      ensures pending == old(pending) - {h} && evidenceSize == old(evidenceSize) - 1
    {
      pending := pending - {h};
      evidenceSize := evidenceSize - 1;
    }

    method RemoveFromList(gone: set<Hash>)
      requires Distinct(list)
      modifies this`list
      ensures list == Without(old(list), gone) && Distinct(list)
    {
      WithoutDistinct(list, gone);
      hide Distinct;
      var kept: seq<Evidence> := [];
      for i := 0 to |list|
        invariant list == old(list) && kept == Without(list[..i], gone)
      {
        assert list[..i + 1][..i] == list[..i];
        if list[i].hash !in gone {
          kept := kept + [list[i]];
        }
      }
      assert list[..|list|] == list;
      list := kept;
    }
  }

  lemma MinusOneMore(m: map<Hash, Evidence>, gone: set<Hash>, h: Hash)
    ensures m - gone - {h} == m - (gone + {h})
  {
  }

  lemma RestOfScan(order: seq<Evidence>, stop: nat, e: Evidence) returns (k: nat)
    requires stop <= |order| && e in order && e.hash !in Hashes(order[..stop])
    ensures stop <= k < |order| && order[k] == e
  {
    k :| 0 <= k < |order| && order[k] == e;
  }

  lemma KeysRise(order: seq<Evidence>, i: nat, j: nat)
    requires i <= j < |order|
    requires forall i, j | 0 <= i < j < |order| :: Less(Key(order[i].hash), Key(order[j].hash))
    ensures order[i].hash.height <= order[j].hash.height
  {
    KeyOrder(order[i].hash, order[j].hash);
  }

  lemma HashesPlus(evs: seq<Evidence>, e: Evidence)
    ensures Hashes(evs + [e]) == Hashes(evs) + {e.hash}
  {
    forall h | h in Hashes(evs) + {e.hash} ensures h in Hashes(evs + [e]) {
      if h == e.hash {
        assert (evs + [e])[|evs|] == e;
      } else {
        var x :| x in evs && x.hash == h;
        assert x in evs + [e];
      }
    }
  }

  lemma {:induction false} WithoutSame(list: seq<Evidence>, a: set<Hash>, b: set<Hash>)
    requires forall e | e in list :: e.hash in a <==> e.hash in b
    ensures Without(list, a) == Without(list, b)
  {
    if list != [] {
      var n := |list| - 1;
      assert list[n] in list && forall e | e in list[..n] :: e in list;
      WithoutSame(list[..n], a, b);
    }
  }

  lemma FormedNone(newHeight: Height)
    ensures Formed([], newHeight) == {}
  {
  }

  lemma FormedMore(buffer: seq<Conflict>, c: Conflict, newHeight: Height)
    ensures Formed(buffer + [c], newHeight) ==
      Formed(buffer, newHeight) + if c.formed && c.hash.height <= newHeight then {c.hash} else {}
  {
    assert forall d :: d in buffer + [c] <==> d in buffer || d == c;
  }

  /** Whether the grown chain has duplicates, and what of it is not marked. */
  lemma ChainGrows(chain: seq<Evidence>, evs: seq<Evidence>, committed: set<Hash>)
    requires Distinct(evs) && Hashes(evs) !! committed && committed <= Hashes(chain)
    ensures Missed(chain + evs, committed + Hashes(evs)) == Missed(chain, committed) - Hashes(evs)
    ensures Distinct(chain + evs) <==> Distinct(chain) && Hashes(evs) !! Missed(chain, committed)
  {
    MoreHashes(chain, evs);
    var all := chain + evs;
    if Distinct(chain) && Hashes(evs) !! Hashes(chain) {
      forall i, j | 0 <= i < j < |all| ensures all[i].hash != all[j].hash {
        if i < |chain| <= j {
          assert all[i] in chain && all[j] in evs;
          assert all[i].hash in Hashes(chain) && all[j].hash in Hashes(evs);
        }
      }
    }
    if Distinct(all) {
      forall i, j | 0 <= i < j < |chain| ensures chain[i].hash != chain[j].hash {
        assert all[i] == chain[i] && all[j] == chain[j];
      }
      forall e, f | e in chain && f in evs ensures e.hash != f.hash {
        var i :| 0 <= i < |chain| && chain[i] == e;
        var j :| 0 <= j < |evs| && evs[j] == f;
        assert all[i] == e && all[|chain| + j] == f;
      }
    }
  }

  lemma MoreHashes(a: seq<Evidence>, b: seq<Evidence>)
    ensures Hashes(a + b) == Hashes(a) + Hashes(b)
  {
    forall h | h in Hashes(a) + Hashes(b) ensures h in Hashes(a + b) {
      var e :| (e in a || e in b) && e.hash == h;
      assert e in a + b;
    }
  }

  lemma OneLess(m: map<Hash, Evidence>, h: Hash)
    ensures h in m ==> Count(m - {h}) == Count(m) - 1
  {
    if h in m {
      assert (m - {h}).Keys == m.Keys - {h};
    }
  }

  lemma OneMore(m: map<Hash, Evidence>, e: Evidence)
    ensures Count(m[e.hash := e]) <= Count(m) + 1
  {
  }

  lemma NoneCounted(m: map<Hash, Evidence>)
    ensures Count(m) == 0 <==> m == map[]
  {
  }

  /** The keys are distinct, so what the scan has not reached is still there. */
  lemma NotRemoved(pending: map<Hash, Evidence>, order: seq<Evidence>, stop: nat)
    requires Scan(pending, order) && stop < |order|
    ensures order[stop].hash in pending - Hashes(order[..stop])
  {
    assert order[stop] in order;
    var k := Key(order[stop].hash);
    NotLessThanItself(k);
    forall e | e in order[..stop] ensures e.hash != order[stop].hash {
      var i :| 0 <= i < stop && order[i] == e;
      assert Less(Key(order[i].hash), k);
    }
  }

  /** What is pending once the first entries of a scan are deleted. */
  ghost function After(pending: map<Hash, Evidence>, order: seq<Evidence>, stop: nat): map<Hash, Evidence>
    requires stop <= |order|
  {
    pending - Hashes(order[..stop])
  }

  /** How many entries of a scan come before the first that has not expired. */
  ghost function FirstFresh(r: Rules, height: Height, order: seq<Evidence>): (n: nat)
    ensures n <= |order| && (n < |order| ==> !ExpiredAt(r, height, order[n]))
    ensures forall i | 0 <= i < n :: ExpiredAt(r, height, order[i])
  {
    if order == [] || !ExpiredAt(r, height, order[0]) then 0 else 1 + FirstFresh(r, height, order[1..])
  }

  lemma AfterNone(pending: map<Hash, Evidence>, order: seq<Evidence>)
    ensures After(pending, order, 0) == pending
  {
    assert order[..0] == [];
    assert Hashes([]) == {};
  }

  lemma AfterNext(pending: map<Hash, Evidence>, order: seq<Evidence>, stop: nat)
    requires Scan(pending, order) && stop < |order|
    ensures After(pending, order, stop + 1) == After(pending, order, stop) - {order[stop].hash}
    ensures Count(After(pending, order, stop + 1)) == Count(After(pending, order, stop)) - 1
  {
    NotRemoved(pending, order, stop);
    HashesPlus(order[..stop], order[stop]);
    assert order[..stop + 1] == order[..stop] + [order[stop]];
    hide Hashes, Count, Scan;
    MinusOneMore(pending, Hashes(order[..stop]), order[stop].hash);
    OneLess(After(pending, order, stop), order[stop].hash);
  }

  lemma InPrefix(order: seq<Evidence>, stop: nat, h: Hash) returns (k: nat)
    requires stop <= |order| && h in Hashes(order[..stop])
    ensures k < stop && order[k].hash == h
  {
    var e :| e in order[..stop] && e.hash == h;
    k :| 0 <= k < stop && order[k] == e;
  }

  lemma {:induction false} FewHashes(s: seq<Evidence>)
    ensures |Hashes(s)| <= |s|
  {
    if s == [] {
      assert Hashes(s) == {};
    } else {
      var n := |s| - 1;
      FewHashes(s[..n]);
      HashesPlus(s[..n], s[n]);
      assert s == s[..n] + [s[n]];
    }
  }

  lemma ScanDistinct(pending: map<Hash, Evidence>, order: seq<Evidence>)
    requires Scan(pending, order) && Keyed(pending)
    ensures Distinct(order) && Hashes(order) == pending.Keys && Count(pending) <= |order|
  {
    forall i, j | 0 <= i < j < |order| ensures order[i].hash != order[j].hash {
      NotLessThanItself(Key(order[i].hash));
      assert Less(Key(order[i].hash), Key(order[j].hash));
    }
    FewHashes(order);
    forall h | h in pending ensures h in Hashes(order) {
      assert pending[h] in order;
    }
  }

  datatype Event = Block(height: Height, evidence: seq<Evidence>) | Reboot(height: Height, replayed: seq<Evidence>)

  ghost predicate NothingReplayed(events: seq<Event>) {
    forall e | e in events && e.Reboot? :: e.replayed == []
  }

  /** Evidence in a block that the handshake replays is accepted once more. */
  method ReplayedEvidenceTwice() returns (pool: Pool, e: Evidence)
    ensures fresh(pool) && pool.Valid() && TimesRise(pool.rules)
    ensures pool.onChain == [e, e]
  {
    e := Evidence(Hash(1, []), 1, false, 0);
    pool := new Pool(Rules(h => h, _ => true, 10, 10), 1);
    pool.Restart(2, [e]);
    var ok := pool.CheckEvidence([e]);
    assert ok;
    var panicked := pool.Update(3, [e]);
  }
}
