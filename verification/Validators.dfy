/**
 The validator pipeline: changes from block H take effect at H+2, so the state carries
 three sets. The store keeps one entry per height, most of them only a reference to the
 height of the last change, with a full copy at every checkpoint.

 Only membership is modelled; proposer priorities are not.
 */
module Validators {
  import opened Options

  const CHECKPOINT_INTERVAL := 100000
  const MAX_TOTAL_POWER: int := 0x7FFF_FFFF_FFFF_FFFF / 8

  type Members = map<string, int>

  datatype Change = Change(key: string, power: int)

  /** `withinLimit` is the check of the total voting power. */
  datatype Rules = Rules(withinLimit: (Members, seq<Change>) -> bool)

  datatype State = State(
    initialHeight: int,
    lastBlockHeight: int,
    next: Members,
    validators: Members,
    last: Members,
    changed: int)

  /** A power of zero removes the validator. */
  function Merged(m: Members, changes: seq<Change>): Members {
    if changes == [] then m
    else
      var c := changes[|changes| - 1];
      var before := Merged(m, changes[..|changes| - 1]);
      if c.power == 0 then before - {c.key} else before[c.key := c.power]
  }

  /** For changes without duplicates, Merged sets the new powers, drops those of zero and keeps the rest. */
  lemma {:induction false} MergedIs(m: Members, changes: seq<Change>, key: string)
    requires forall i, j | 0 <= i < j < |changes| :: changes[i].key != changes[j].key
    ensures (forall c | c in changes :: c.key != key) ==>
      (key in Merged(m, changes) <==> key in m) && (key in m ==> Merged(m, changes)[key] == m[key])
    ensures forall c | c in changes && c.key == key ::
      if c.power == 0 then key !in Merged(m, changes) else key in Merged(m, changes) && Merged(m, changes)[key] == c.power
  {
    if changes != [] {
      var n := |changes| - 1;
      MergedIs(m, changes[..n], key);
      assert changes == changes[..n] + [changes[n]];
    }
  }

  predicate Acceptable(r: Rules, m: Members, changes: seq<Change>) {
    && (forall i, j | 0 <= i < j < |changes| :: changes[i].key != changes[j].key)
    && (forall c | c in changes :: 0 <= c.power <= MAX_TOTAL_POWER && (c.power == 0 ==> c.key in m))
    && Merged(m, changes) != map[]
    && r.withinLimit(m, changes)
  }

  function Genesis(initialHeight: int, genesis: Members): State {
    State(initialHeight, 0, genesis, genesis, map[], initialHeight)
  }

  /** The state after a block, or none if its changes are refused. */
  function UpdateState(r: Rules, s: State, height: int, changes: seq<Change>): Option<State> {
    if changes != [] && !Acceptable(r, s.next, changes) then None
    else Some(State(s.initialHeight, height, Merged(s.next, changes), s.next, s.validators,
                    if changes != [] then height + 1 + 1 else s.changed))
  }

  /** A run of blocks at consecutive heights from the initial one; each entry holds a block's changes. */
  function Run(r: Rules, initialHeight: int, genesis: Members, blocks: seq<seq<Change>>): Option<State> {
    if blocks == [] then Some(Genesis(initialHeight, genesis))
    else
      var n := |blocks| - 1;
      match Run(r, initialHeight, genesis, blocks[..n])
      case None => None
      case Some(s) => UpdateState(r, s, initialHeight + n, blocks[n])
  }

  /** The genesis set with the changes of the first k blocks. */
  function Folded(genesis: Members, blocks: seq<seq<Change>>, k: nat): Members
    requires k <= |blocks|
  {
    if k == 0 then genesis else Merged(Folded(genesis, blocks, k - 1), blocks[k - 1])
  }

  /** The last height at which the set changed, as of the first k blocks. */
  function LastChange(initialHeight: int, blocks: seq<seq<Change>>, k: nat): int
    requires k <= |blocks|
  {
    if k == 0 then initialHeight
    else if blocks[k - 1] != [] then initialHeight + k - 1 + 2
    else LastChange(initialHeight, blocks, k - 1)
  }

  lemma {:induction false} PrefixSame(initialHeight: int, genesis: Members, a: seq<seq<Change>>, b: seq<seq<Change>>, k: nat)
    requires k <= |a| && k <= |b| && a[..k] == b[..k]
    ensures Folded(genesis, a, k) == Folded(genesis, b, k)
    ensures LastChange(initialHeight, a, k) == LastChange(initialHeight, b, k)
  {
    if k > 0 {
      assert a[..k][..k - 1] == a[..k - 1] && b[..k][..k - 1] == b[..k - 1] && a[k - 1] == a[..k][k - 1];
      PrefixSame(initialHeight, genesis, a, b, k - 1);
    }
  }

  /** After block H: next, current and last sets are the genesis set with the changes up to H, H-1 and H-2. */
  lemma {:induction false} Pipeline(r: Rules, initialHeight: int, genesis: Members, blocks: seq<seq<Change>>)
    requires Run(r, initialHeight, genesis, blocks).Some?
    ensures var s, n := Run(r, initialHeight, genesis, blocks).value, |blocks|;
      && s.next == Folded(genesis, blocks, n)
      && s.validators == Folded(genesis, blocks, if n >= 1 then n - 1 else 0)
      && s.last == (if n == 0 then map[] else Folded(genesis, blocks, if n >= 2 then n - 2 else 0))
      && s.changed == LastChange(initialHeight, blocks, n)
      && s.initialHeight == initialHeight && (n > 0 ==> s.lastBlockHeight == initialHeight + n - 1)
      && (n == 0 ==> s.lastBlockHeight == 0)
  {
    if blocks != [] {
      var n := |blocks| - 1;
      var before := blocks[..n];
      Pipeline(r, initialHeight, genesis, before);
      PrefixSame(initialHeight, genesis, before, blocks, n);
      if n >= 1 {
        assert before[..n - 1] == blocks[..n - 1];
        PrefixSame(initialHeight, genesis, before, blocks, n - 1);
      }
    }
  }

  // The store

  datatype Info = Info(lastHeightChanged: int, members: Option<Members>)

  type Store = map<int, Info>

  function SaveInfo(db: Store, height: int, lastHeightChanged: int, m: Members): Store {
    var full := height == lastHeightChanged || height % CHECKPOINT_INTERVAL == 0;
    db[height := Info(lastHeightChanged, if full then Some(m) else None)]
  }

  /** Saving a state; an entry older than its last change would be refused. */
  function Save(db: Store, s: State): Option<Store> {
    var nextHeight := if s.lastBlockHeight + 1 == 1 then s.initialHeight else s.lastBlockHeight + 1;
    var db' := if s.lastBlockHeight + 1 == 1 then SaveInfo(db, nextHeight, nextHeight, s.validators) else db;
    if s.changed > nextHeight + 1 then None
    else Some(SaveInfo(db', nextHeight + 1, s.changed, s.next))
  }

  function LastStoredHeightFor(height: int, lastHeightChanged: int): int {
    var checkpoint := height - height % CHECKPOINT_INTERVAL;
    if checkpoint < lastHeightChanged then lastHeightChanged else checkpoint
  }

  function LoadValidators(db: Store, height: int): Option<Members> {
    if height !in db then None
    else if db[height].members.Some? then db[height].members
    else
      var stored := LastStoredHeightFor(height, db[height].lastHeightChanged);
      if stored !in db then None else db[stored].members
  }

  /** The state is saved at genesis and after every block. */
  function RunStore(r: Rules, initialHeight: int, genesis: Members, blocks: seq<seq<Change>>): Option<Store> {
    match Run(r, initialHeight, genesis, blocks)
    case None => None
    case Some(s) =>
      if blocks == [] then Save(map[], s)
      else
        match RunStore(r, initialHeight, genesis, blocks[..|blocks| - 1])
        case None => None
        case Some(db) => Save(db, s)
  }

  /** How many blocks have taken effect at a height. */
  function InEffect(initialHeight: int, height: int): nat {
    if height <= initialHeight + 1 then 0 else height - initialHeight - 1
  }

  /** The validators responsible for a height. */
  function At(initialHeight: int, genesis: Members, blocks: seq<seq<Change>>, height: int): Members
    requires InEffect(initialHeight, height) <= |blocks|
  {
    Folded(genesis, blocks, InEffect(initialHeight, height))
  }

  function ChangedAt(initialHeight: int, blocks: seq<seq<Change>>, height: int): int
    requires InEffect(initialHeight, height) <= |blocks|
  {
    LastChange(initialHeight, blocks, InEffect(initialHeight, height))
  }

  /** What the store holds after the blocks, for every height up to two past the last. */
  ghost predicate Holds(db: Store, initialHeight: int, genesis: Members, blocks: seq<seq<Change>>) {
    forall h | initialHeight <= h <= initialHeight + |blocks| + 1 ::
      h in db && db[h] == Info(ChangedAt(initialHeight, blocks, h),
        if h == ChangedAt(initialHeight, blocks, h) || h % CHECKPOINT_INTERVAL == 0 then Some(At(initialHeight, genesis, blocks, h)) else None)
  }

  lemma {:induction false} ChangeBounds(initialHeight: int, blocks: seq<seq<Change>>, k: nat)
    requires k <= |blocks|
    ensures initialHeight <= LastChange(initialHeight, blocks, k) <= initialHeight + k + 1
    ensures ChangedAt(initialHeight, blocks, LastChange(initialHeight, blocks, k)) == LastChange(initialHeight, blocks, k)
  {
    if k > 0 && blocks[k - 1] == [] {
      ChangeBounds(initialHeight, blocks, k - 1);
    }
  }

  /** Nothing changes from the last change on. */
  lemma {:induction false} SameSince(initialHeight: int, genesis: Members, blocks: seq<seq<Change>>, j: nat, k: nat)
    requires j <= k <= |blocks| && LastChange(initialHeight, blocks, k) <= initialHeight + j + 1
    ensures Folded(genesis, blocks, j) == Folded(genesis, blocks, k)
    decreases k
  {
    if j < k {
      assert blocks[k - 1] == [];
      SameSince(initialHeight, genesis, blocks, j, k - 1);
    }
  }

  /** Whatever height is asked for, the reference leads to the set of that height. */
  lemma LoadRight(db: Store, initialHeight: int, genesis: Members, blocks: seq<seq<Change>>, h: int)
    requires Holds(db, initialHeight, genesis, blocks) && initialHeight <= h <= initialHeight + |blocks| + 1
    ensures LoadValidators(db, h) == Some(At(initialHeight, genesis, blocks, h))
  {
    var k := InEffect(initialHeight, h);
    var c := ChangedAt(initialHeight, blocks, h);
    ChangeBounds(initialHeight, blocks, k);
    assert db[h].lastHeightChanged == c;
    if db[h].members.None? {
      var s := LastStoredHeightFor(h, c);
      assert c <= s <= h;
      SameSince(initialHeight, genesis, blocks, InEffect(initialHeight, s), k);
      assert s in db && db[s].members == Some(At(initialHeight, genesis, blocks, s)) by {
        if s != c {
          assert s % CHECKPOINT_INTERVAL == 0;
        }
      }
    }
  }

  /** A block more does not change what earlier heights are about. */
  lemma EarlierHeights(initialHeight: int, genesis: Members, blocks: seq<seq<Change>>, h: int)
    requires blocks != [] && InEffect(initialHeight, h) < |blocks|
    ensures At(initialHeight, genesis, blocks, h) == At(initialHeight, genesis, blocks[..|blocks| - 1], h)
    ensures ChangedAt(initialHeight, blocks, h) == ChangedAt(initialHeight, blocks[..|blocks| - 1], h)
  {
    var n, k := |blocks| - 1, InEffect(initialHeight, h);
    assert blocks[..n][..k] == blocks[..k];
    PrefixSame(initialHeight, genesis, blocks, blocks[..n], k);
  }

  lemma SaveHolds(db: Store, initialHeight: int, genesis: Members, blocks: seq<seq<Change>>, s: State)
    requires initialHeight >= 1 && blocks != [] && Holds(db, initialHeight, genesis, blocks[..|blocks| - 1])
    requires s.lastBlockHeight == initialHeight + |blocks| - 1
    requires s.next == Folded(genesis, blocks, |blocks|) && s.changed == LastChange(initialHeight, blocks, |blocks|)
    ensures Save(db, s).Some? && Holds(Save(db, s).value, initialHeight, genesis, blocks)
  {
    ChangeBounds(initialHeight, blocks, |blocks|);
    hide LastChange, Folded;
    forall h | initialHeight <= h <= initialHeight + |blocks| {
      EarlierHeights(initialHeight, genesis, blocks, h);
    }
  }

  lemma {:induction false} StoreHolds(r: Rules, initialHeight: int, genesis: Members, blocks: seq<seq<Change>>)
    requires initialHeight >= 1 && Run(r, initialHeight, genesis, blocks).Some?
    ensures RunStore(r, initialHeight, genesis, blocks).Some?
    ensures Holds(RunStore(r, initialHeight, genesis, blocks).value, initialHeight, genesis, blocks)
  {
    Pipeline(r, initialHeight, genesis, blocks);
    if blocks != [] {
      hide Holds, Save, UpdateState, LastChange, Folded;
      var before := blocks[..|blocks| - 1];
      StoreHolds(r, initialHeight, genesis, before);
      SaveHolds(RunStore(r, initialHeight, genesis, before).value, initialHeight, genesis, blocks,
                Run(r, initialHeight, genesis, blocks).value);
    }
  }

  /** Every height up to two past the last block loads the set that is responsible for it. */
  lemma LoadsEveryHeight(r: Rules, initialHeight: int, genesis: Members, blocks: seq<seq<Change>>, h: int)
    requires initialHeight >= 1 && Run(r, initialHeight, genesis, blocks).Some?
    requires initialHeight <= h <= initialHeight + |blocks| + 1
    ensures RunStore(r, initialHeight, genesis, blocks).Some?
    ensures LoadValidators(RunStore(r, initialHeight, genesis, blocks).value, h) == Some(At(initialHeight, genesis, blocks, h))
  {
    StoreHolds(r, initialHeight, genesis, blocks);
    LoadRight(RunStore(r, initialHeight, genesis, blocks).value, initialHeight, genesis, blocks, h);
  }
}
