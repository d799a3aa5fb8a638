/**
 Crash recovery. A block is committed by writing, one after the other, the block
 store, the write-ahead log, the application's response, the application itself and
 the state. The process may die between any two writes: `fuel` is the number of
 writes left before it does, and every result holds for every value of it. After a
 restart the handshake brings the stores together again.

 The application is deterministic: its hash is a function of the blocks it has
 committed. It may come back with any prefix of what it had committed.
 */
module Recovery {
  import opened Options

  type AppHash = string

  datatype Block = Block(height: nat, appHash: AppHash, data: int)

  datatype Response = Response(height: nat, appHash: AppHash)

  datatype Ending =
    | Done
    | Crashed      // the process died between two writes
    | Panicked     // a hash of the application is not the one expected
    | Refused      // the stored block does not fit the state
    | TooLow       // the application needs blocks that were pruned

  class Node {
    const hash: seq<Block> -> AppHash
    const genesisHash: AppHash
    const initHash: AppHash

    // what survives a crash
    var blocks: seq<Block>
    var base: nat
    var endHeight: nat
    var response: Option<Response>
    var stateHeight: nat
    var stateHash: AppHash
    var app: seq<Block>

    var fuel: nat

    /** The hash the state carries after the blocks; InitChain may leave the one of the genesis file. */
    function Expected(log: seq<Block>): AppHash {
      if log != [] then hash(log) else if initHash != "" then initHash else genesisHash
    }

    ghost predicate StoreSound()
      reads this`blocks, this`base, this`endHeight
    {
      && (forall i: nat | i < |blocks| :: blocks[i].height == i + 1 && blocks[i].appHash == Expected(blocks[..i]))
      && 1 <= base && (base <= |blocks| || base == 1)
      && endHeight <= |blocks|
    }

    ghost predicate StateSound()
      reads this`blocks, this`stateHeight, this`stateHash
    {
      && stateHeight <= |blocks| <= stateHeight + 1
      && (stateHash == Expected(blocks[..stateHeight]) || (blocks == [] && stateHash == genesisHash))
    }

    ghost predicate AppSound()
      reads this`blocks, this`stateHeight, this`response, this`app
    {
      && app <= blocks
      && (|app| > stateHeight ==> response == Some(Response(|app|, hash(app))))
    }

    /** What every crash leaves behind. */
    ghost predicate Inv()
      reads this
    {
      StoreSound() && StateSound() && AppSound()
    }

    /** Application, state and store are at one height. */
    ghost predicate Synced()
      reads this
    {
      Inv() && stateHeight == |blocks| && app == blocks && stateHash == Expected(blocks)
    }

    constructor (hash: seq<Block> -> AppHash, genesisHash: AppHash, initHash: AppHash)
      ensures this.hash == hash && this.genesisHash == genesisHash && this.initHash == initHash
      ensures Inv() && blocks == []
    {
      this.hash, this.genesisHash, this.initHash := hash, genesisHash, initHash;
      blocks, base, endHeight, response, stateHeight, stateHash, app, fuel := [], 1, 0, None, 0, genesisHash, [], 0;
    }

    // Committing a block

    method SaveBlock(b: Block) returns (ok: bool)
      requires Inv() && stateHeight == |blocks| && b.height == |blocks| + 1 && b.appHash == Expected(blocks)
      requires stateHash == Expected(blocks)
      modifies this`blocks, this`fuel
      ensures Inv() && (ok ==> blocks == old(blocks) + [b]) && (!ok ==> blocks == old(blocks) && fuel == 0)
    {
      if fuel == 0 {
        return false;
      }
      fuel := fuel - 1;
      blocks := blocks + [b];
      assert forall i: nat | i < |blocks| :: blocks[..i] == old(blocks)[..i];
      assert old(blocks)[..stateHeight] == old(blocks);
      return true;
    }

    method WriteEndHeight(height: nat) returns (ok: bool)
      requires Inv() && height <= |blocks|
      modifies this`endHeight, this`fuel
      ensures Inv() && (ok ==> endHeight == height) && (!ok ==> endHeight == old(endHeight) && fuel == 0)
    {
      if fuel == 0 {
        return false;
      }
      fuel, endHeight := fuel - 1, height;
      return true;
    }

    /**
     applyBlock with the application, or with a stand-in that answers with the saved
     response and commits nothing. The block is the one after the state's.
     */
    method ApplyBlock(standIn: Option<AppHash>, retain: nat) returns (ok: bool)
      requires Inv() && |blocks| == stateHeight + 1 && stateHash == Expected(blocks[..stateHeight])
      requires if standIn.Some? then app == blocks && standIn.value == hash(blocks) else app == blocks[..stateHeight]
      modifies this`response, this`app, this`stateHeight, this`stateHash, this`base, this`fuel
      ensures Inv() && (ok ==> Synced()) && (!ok ==> fuel == 0) && old(app) <= app
    {
      var b := blocks[stateHeight];
      var answer := if standIn.Some? then standIn.value else hash(app + [b]);
      assert blocks == blocks[..stateHeight] + [b];
      ok := SaveResponse(answer);
      if ok && standIn.None? {
        ok := CommitApp(b);
      }
      if !ok || fuel == 0 {
        return false;
      }
      SaveState(answer);
      if base < retain <= |blocks| && fuel > 0 {
        fuel, base := fuel - 1, retain;
      }
    }

    /** The application's answer for the block after the state's, saved before the application commits. */
    method SaveResponse(answer: AppHash) returns (ok: bool)
      requires Inv() && |blocks| == stateHeight + 1 && answer == hash(blocks)
      modifies this`response, this`fuel
      ensures Inv() && (if ok then response == Some(Response(|blocks|, answer)) else fuel == 0)
    {
      if fuel == 0 {
        return false;
      }
      assert |app| > stateHeight ==> app == blocks;
      fuel, response := fuel - 1, Some(Response(|blocks|, answer));
      return true;
    }

    /** The application commits the block, once its answer is saved. */
    method CommitApp(b: Block) returns (ok: bool)
      requires Inv() && |blocks| == stateHeight + 1 && blocks == app + [b] && response == Some(Response(|blocks|, hash(blocks)))
      modifies this`app, this`fuel
      ensures Inv() && (if ok then app == blocks else app == old(app) && fuel == 0)
    {
      if fuel == 0 {
        return false;
      }
      fuel, app := fuel - 1, app + [b];
      return true;
    }

    /** The state of the last stored block, which the application has committed. */
    method SaveState(answer: AppHash)
      requires Inv() && |blocks| == stateHeight + 1 && app == blocks && answer == hash(blocks) && fuel > 0
      modifies this`stateHeight, this`stateHash, this`fuel
      ensures Synced()
    {
      fuel, stateHeight, stateHash := fuel - 1, |blocks|, answer;
      assert blocks[..stateHeight] == blocks;
    }

    /** The tail of finalizeCommit, for a block that was validated against the state. */
    method FinalizeCommit(b: Block, retain: nat) returns (ok: bool)
      requires Synced() && b.height == stateHeight + 1 && b.appHash == stateHash
      modifies this
      ensures Inv() && old(blocks) <= blocks
      ensures ok ==> Synced() && blocks == old(blocks) + [b]
      ensures !ok ==> fuel == 0
    {
      ok := SaveBlock(b);
      if ok {
        ok := WriteEndHeight(b.height);
      }
      if ok {
        assert blocks[..stateHeight] == old(blocks);
        ok := ApplyBlock(None, retain);
      }
    }

    // Restarting

    /** The application comes back, possibly having lost its latest commits. */
    method Restart(kept: nat, writes: nat)
      requires Inv() && kept <= |app|
      modifies this`app, this`fuel
      ensures Inv() && app == old(app)[..kept] && fuel == writes
    {
      assert kept == |app| ==> app[..kept] == app;
      app, fuel := app[..kept], writes;
    }

    /** The handshake finds that InitChain returned no hash although the genesis file has one. */
    predicate GenesisMismatch() {
      initHash == "" && genesisHash != ""
    }

    predicate Pruned()
      reads this
    {
      if |app| == 0 then 1 < base else |app| < base - 1
    }

    /** The stored block is validated against the state again; it always fits. The stand-in asks for no pruning. */
    method ReplayBlock(standIn: Option<AppHash>, retain: nat) returns (r: Ending)
      requires Inv() && |blocks| == stateHeight + 1
      requires if standIn.Some? then app == blocks && standIn.value == hash(blocks) else app == blocks[..stateHeight]
      modifies this`response, this`app, this`stateHeight, this`stateHash, this`base, this`fuel
      ensures Inv() && ((r.Done? && Synced()) || (r.Crashed? && fuel == 0)) && old(app) <= app
    {
      if blocks[stateHeight].appHash != stateHash {
        return Refused;
      }
      var ok := ApplyBlock(standIn, if standIn.Some? then 0 else retain);
      return if ok then Done else Crashed;
    }

    method ReplayBlocks(mutateState: bool, retain: nat) returns (r: Ending)
      requires Inv() && !Pruned() && blocks != [] && |app| < stateHeight
      requires if mutateState then |blocks| == stateHeight + 1 else |blocks| == stateHeight
      modifies this
      ensures Inv() && blocks == old(blocks) && old(app) <= app
      ensures (r.Done? && Synced()) || (r.Crashed? && fuel == 0)
    {
      var appHash := "";
      var last := if mutateState then |blocks| - 1 else |blocks|;
      var i := |app| + 1;
      while i <= last
        invariant blocks == old(blocks) && i == |app| + 1 && |app| <= last && app == blocks[..|app|]
        invariant stateHeight == old(stateHeight) && stateHash == old(stateHash)
        invariant base == old(base) && endHeight == old(endHeight) && old(app) <= app
        invariant appHash != "" ==> app != []
        invariant |app| > old(|app|) ==> appHash == hash(app)
        invariant appHash == "" || appHash == hash(app)
      {
        var b := blocks[i - 1];
        if |appHash| > 0 && appHash != b.appHash {
          return Panicked;
        }
        if fuel == 0 {
          return Crashed;
        }
        appHash := hash(app + [b]);
        assert blocks[..i] == app + [b];
        fuel, app := fuel - 1, app + [b];
        i := i + 1;
      }
      assert blocks[..|blocks|] == blocks;
      if mutateState {
        r := ReplayBlock(None, retain);
        if !r.Done? {
          return r;
        }
        appHash := stateHash;
      }
      if appHash != stateHash {
        return Panicked;
      }
      return Done;
    }

    method Handshake(retain: nat) returns (r: Ending)
      requires Inv()
      modifies this
      ensures Inv() && blocks == old(blocks) && old(app) <= app
      ensures !r.Refused? && (r.Done? ==> Synced())
      ensures r.Crashed? ==> fuel == 0
      ensures r.Panicked? <==> blocks == [] && GenesisMismatch() && old(fuel) > 0
      ensures r.TooLow? <==> old(Pruned())
    {
      var appHash := hash(app);
      if app == [] {
        appHash := initHash;
        if stateHeight == 0 {
          if fuel == 0 {
            return Crashed;
          }
          fuel := fuel - 1;
          if |initHash| > 0 {
            stateHash := initHash;
          }
        }
      }
      if |blocks| == 0 {
        return if appHash != stateHash then Panicked else Done;
      }
      if Pruned() {
        return TooLow;
      }
      if |blocks| == stateHeight {
        assert blocks[..stateHeight] == blocks;
        if |app| < |blocks| {
          r := ReplayBlocks(false, retain);
        } else {
          assert app == blocks;
          r := if appHash != stateHash then Panicked else Done;
        }
      } else if |app| < stateHeight {
        r := ReplayBlocks(true, retain);
      } else if |app| == stateHeight {
        r := ReplayBlock(None, retain);
      } else {
        assert app == blocks;
        var saved := response.value.appHash;
        r := ReplayBlock(Some(if |saved| == 0 then appHash else saved), 0);
      }
    }
  
    /**
     A whole life of the node: blocks committed while it is up, and restarts after
     crashes wherever they fell. The stores are always recoverable, no block is ever
     lost, and whenever the node is up the application has committed exactly the
     blocks of the store, each once and in order.
     */
    method Live(events: seq<Event>, up: bool) returns (stillUp: bool)
      requires Inv() && (up ==> Synced())
      modifies this
      ensures Inv() && (stillUp ==> Synced()) && old(blocks) <= blocks
    {
      stillUp := up;
      for i := 0 to |events|
        invariant Inv() && (stillUp ==> Synced()) && old(blocks) <= blocks
      {
        match events[i]
        case Commit(data, retain) =>
          if stillUp {
            assert blocks[..stateHeight] == blocks;
            stillUp := FinalizeCommit(Block(stateHeight + 1, stateHash, data), retain);
          }
        case Reboot(kept, writes, retain) =>
          if kept <= |app| {
            Restart(kept, writes);
            var r := Handshake(retain);
            stillUp := r.Done?;
          }
      }
    }
  }

  datatype Event = Commit(data: int, retain: nat) | Reboot(kept: nat, writes: nat, retain: nat)

  /** A genesis file with a hash and an application that returns none: the first handshake panics. */
  method EmptyInitHashPanics(hash: seq<Block> -> AppHash) returns (r: Ending)
    ensures r.Panicked?
  {
    var n := new Node(hash, "g", "");
    n.Restart(0, 1);
    r := n.Handshake(0);
  }
}
