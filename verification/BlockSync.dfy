/**
 Block sync: a window of block requests, filled at the far end by one routine and
 consumed at the near end by another. The maker reads the next height in one critical
 section and inserts the requester in a later one, so anything may happen in between.
 Every method is one critical section, and `Interleave` runs them in any order.
 */
module BlockSync {
  import opened Options

  const MAX_PENDING_PER_PEER := 20
  const MIN_BLOCKS_FOR_SINGLE_REQUEST := 50

  type Peer = string

  datatype Commit = Commit(height: int, data: int)

  /** `lastCommit` is the commit for the block before. */
  datatype Block = Block(height: int, lastCommit: Commit, data: int)

  datatype Requester = Requester(
    peer: Peer,
    second: Peer,
    gotFrom: Peer,
    block: Option<Block>,
    extCommit: Option<Commit>,
    redo: Option<Peer>)
  {
    predicate DidRequestFrom(p: Peer) {
      p == peer || p == second
    }

    /** Asks for another try, unless one is already asked for. */
    function Redo(p: Peer): Requester {
      if DidRequestFrom(p) && redo.None? then this.(redo := Some(p)) else this
    }

    predicate SenderToRedo() {
      redo == Some(gotFrom) && DidRequestFrom(gotFrom)
    }

    /** Forgets the peer, and the block if it came from it. */
    function Reset(p: Peer): Requester {
      var r := if gotFrom == p then this.(block := None, extCommit := None, gotFrom := "") else this;
      if peer == p then r.(peer := "") else r.(second := "")
    }
  }

  /** What the maker holds between its two critical sections. */
  datatype Maker = Idle | Read(next: int)

  /** What the pool routine holds between peeking and popping. */
  datatype Routine = Waiting | Peeked(first: Block, second: Block, extCommit: Option<Commit>)

  /** The start height of the pool, or none if the stores are inconsistent. */
  function StartHeight(storeHeight: int, offlineHeight: int, stateHeight: int, initialHeight: int): Option<int> {
    var store := if storeHeight == 0 then offlineHeight else storeHeight;
    if stateHeight != store then None
    else Some(if store + 1 == 1 then initialHeight else store + 1)
  }

  /** The state's checks: the commit by the next block, the block itself, and when vote extensions are required. */
  datatype Rules = Rules(
    commitOk: (seq<Block>, Block, Commit) -> bool,
    blockOk: (seq<Block>, Block) -> bool,
    extensionsEnabled: int -> bool,
    extensionsOk: Commit -> bool)
  {
    predicate Accepts(applied: seq<Block>, first: Block, second: Block, extCommit: Option<Commit>) {
      && commitOk(applied, first, second.lastCommit) && blockOk(applied, first)
      && extCommit.Some? == extensionsEnabled(first.height)
      && (extCommit.Some? ==> extensionsOk(extCommit.value))
    }
  }

  class Sync {
    const rules: Rules
    const initialHeight: int
    const startHeight: int
    var height: int
    var requesters: map<int, Requester>
    var peers: set<Peer>
    var banned: set<Peer>
    var maker: Maker
    var routine: Routine
    var stateHeight: int
    var applied: seq<Block>
    ghost var seconds: seq<Block>            // the block after each applied one, as it was peeked
    ghost var extCommits: seq<Option<Commit>>

    /** The keys are exactly the window that starts at the pool's height. */
    ghost predicate Window()
      reads this`height, this`requesters
    {
      && (forall h :: h in requesters <==> height <= h < height + |requesters|)
      && (forall h | h in requesters && requesters[h].block.Some? :: requesters[h].block.value.height == h)
    }

    ghost predicate RoutinesSound()
      reads this`height, this`requesters, this`maker, this`routine
    {
      && (maker.Read? ==> maker.next == height + |requesters|)
      && (routine.Peeked? ==> routine.first.height == height && routine.second.height == height + 1 && |requesters| >= 2)
    }

    ghost predicate LogSound()
      reads this`height, this`stateHeight, this`applied, this`seconds, this`extCommits
    {
      && height == startHeight + |applied|
      && (|applied| > 0 ==> stateHeight == height - 1)
      && (stateHeight > 0 ==> height == stateHeight + 1)
      && |seconds| == |applied| && |extCommits| == |applied|
      && forall i: nat | i < |applied| ::
           applied[i].height == startHeight + i && rules.Accepts(applied[..i], applied[i], seconds[i], extCommits[i])
    }

    ghost predicate Valid()
      reads this
    {
      Window() && RoutinesSound() && LogSound()
    }

    constructor (rules: Rules, storeHeight: int, offlineHeight: int, stateHeight: int, initialHeight: int)
      requires StartHeight(storeHeight, offlineHeight, stateHeight, initialHeight).Some?
      ensures Valid() && height == StartHeight(storeHeight, offlineHeight, stateHeight, initialHeight).value
    {
      this.rules, this.initialHeight := rules, initialHeight;
      startHeight := StartHeight(storeHeight, offlineHeight, stateHeight, initialHeight).value;
      height := StartHeight(storeHeight, offlineHeight, stateHeight, initialHeight).value;
      requesters, peers, banned, maker, routine := map[], {}, {}, Idle, Waiting;
      this.stateHeight, applied := stateHeight, [];
      seconds, extCommits := [], [];
    }

    // The maker

    method ReadNextHeight(peers: nat, maxPeerHeight: int)
      requires Valid()
      modifies this`maker
      ensures Valid()
      ensures maker == if old(maker).Idle? && |requesters| < peers * MAX_PENDING_PER_PEER && height + |requesters| <= maxPeerHeight
        then Read(height + |requesters|) else old(maker)
    {
      if maker.Idle? {
        var next := height + |requesters|;
        if |requesters| < peers * MAX_PENDING_PER_PEER && next <= maxPeerHeight {
          maker := Read(next);
        }
      }
    }

    /** The height read earlier is still the one after the window, whatever was popped meanwhile. */
    method MakeNextRequester()
      requires Valid()
      modifies this`requesters, this`maker
      ensures Valid()
      ensures old(maker).Read? ==> old(maker).next !in old(requesters) && |requesters| == old(|requesters|) + 1
    {
      if maker.Read? {
        requesters := requesters[maker.next := Requester("", "", "", None, None, None)];
        maker := Idle;
      }
    }

    // Requesters and peers

    method SetPeers(h: int, peer: Peer, second: Peer)
      requires Valid()
      modifies this`requesters
      ensures Valid() && requesters.Keys == old(requesters).Keys
      ensures forall k | k in requesters :: requesters[k] == if k == h
        then old(requesters)[k].(peer := peer, second := second) else old(requesters)[k]
    {
      if h in requesters {
        requesters := requesters[h := requesters[h].(peer := peer, second := second)];
      }
    }

    /** The requester's routine takes up the request for another try, which may drop its block. */
    method TakeRedo(h: int)
      requires Valid()
      modifies this`requesters
      ensures Valid() && requesters.Keys == old(requesters).Keys
      ensures forall k | k in requesters && k != h :: requesters[k] == old(requesters)[k]
      ensures h in requesters ==> requesters[h].redo == None
      ensures h in requesters ==> requesters[h].block == if old(requesters)[h].SenderToRedo() then None else old(requesters)[h].block
    {
      if h in requesters && requesters[h].redo.Some? {
        var p := requesters[h].redo.value;
        var next := requesters[h].(redo := None);
        requesters := requesters[h := if next.DidRequestFrom(p) then next.Reset(p) else next];
      }
    }

    /** The retry timer forgets both peers. */
    method Retry(h: int)
      requires Valid()
      modifies this`requesters
      ensures Valid() && requesters.Keys == old(requesters).Keys
      ensures forall k | k in requesters :: requesters[k].block == None || requesters[k].block == old(requesters)[k].block
    {
      if h in requesters {
        var next := requesters[h];
        requesters := requesters[h := next.Reset(next.peer).Reset(next.second)];
      }
    }

    /** A peer reports its range; banned peers are ignored. */
    method AddPeer(p: Peer)
      modifies this`peers
      ensures peers == if p in banned then old(peers) else old(peers) + {p}
    {
      if p in peers {
        return;
      }
      if p !in banned {
        peers := peers + {p};
      }
    }

    /** All requests made to the peer are asked to try again. */
    method RemovePeer(p: Peer)
      requires Window()
      modifies this`requesters, this`peers
      ensures Window() && peers == old(peers) - {p} && |requesters| == old(|requesters|)
      ensures requesters == map h | h in old(requesters) :: old(requesters)[h].Redo(p)
    {
      peers := peers - {p};
      ghost var before := requesters;
      requesters := map h | h in requesters :: requesters[h].Redo(p);
      assert requesters.Keys == before.Keys;
    }

    /** The sender of the block at the height is removed and banned; there always is a requester. */
    method RemovePeerAndRedoAllPeerRequests(h: int) returns (panicked: bool)
      requires Window()
      modifies this`requesters, this`peers, this`banned
      ensures Window() && |requesters| == old(|requesters|) && panicked == (h !in old(requesters))
      ensures !panicked ==> var p := old(requesters)[h].gotFrom;
        && peers == old(peers) - {p} && banned == old(banned) + {p}
        && requesters == map k | k in old(requesters) :: old(requesters)[k].Redo(p)
    {
      if h !in requesters {
        return true;
      }
      var p := requesters[h].gotFrom;
      RemovePeer(p);
      banned := banned + {p};
      return false;
    }

    /** A block is stored under its own height, if it was requested from this peer and is not there yet. */
    method AddBlock(peer: Peer, block: Block, extCommit: Option<Commit>) returns (ok: bool)
      requires Valid()
      modifies this`requesters
      ensures Valid()
      ensures ok <==>
        && (extCommit.Some? ==> extCommit.value.height == block.height)
        && block.height in old(requesters) && old(requesters)[block.height].DidRequestFrom(peer)
      ensures ok && old(requesters)[block.height].block.None? ==>
        requesters == old(requesters)[block.height := old(requesters)[block.height].(block := Some(block), extCommit := extCommit, gotFrom := peer)]
      ensures !ok || old(requesters)[block.height].block.Some? ==> requesters == old(requesters)
    {
      if extCommit.Some? && block.height != extCommit.value.height {
        return false;
      }
      if block.height !in requesters {
        return false;
      }
      var r := requesters[block.height];
      if !r.DidRequestFrom(peer) {
        return false;
      }
      if r.block.None? {
        requesters := requesters[block.height := r.(block := Some(block), extCommit := extCommit, gotFrom := peer)];
      }
      return true;
    }

    // The pool routine

    /** Peeks at two blocks; the height panics that follow are unreachable. */
    method PeekTwoBlocks() returns (panicked: bool)
      requires Valid()
      modifies this`routine
      ensures Valid() && !panicked
      ensures old(routine).Waiting? && routine.Peeked? ==>
        height in requesters && requesters[height].block == Some(routine.first)
        && height + 1 in requesters && requesters[height + 1].block == Some(routine.second)
    {
      if routine.Waiting? {
        var first, second := None, None;
        var extCommit := None;
        if height in requesters {
          first, extCommit := requesters[height].block, requesters[height].extCommit;
        }
        if height + 1 in requesters {
          second := requesters[height + 1].block;
        }
        if first.None? || second.None? {
          return false;
        }
        if stateHeight > 0 && stateHeight + 1 != first.value.height {
          return true;
        }
        if first.value.height + 1 != second.value.height {
          return true;
        }
        routine := Peeked(first.value, second.value, extCommit);
      }
      return false;
    }

    /** PopRequest: the panic and the missing requesters of the notify loop are unreachable. */
    method PopRequest() returns (panicked: bool, notified: nat)
      requires Window() && |requesters| >= 1
      modifies this`height, this`requesters
      ensures !panicked && Window()
      ensures height == old(height) + 1 && |requesters| == old(|requesters|) - 1
      ensures notified == if |requesters| < MIN_BLOCKS_FOR_SINGLE_REQUEST then |requesters| else MIN_BLOCKS_FOR_SINGLE_REQUEST
    {
      notified := 0;
      if height !in requesters {
        panicked := true;
        return;
      }
      ghost var before := requesters;
      requesters := requesters - {height};
      assert requesters.Keys == before.Keys - {height};
      height := height + 1;
      while notified < MIN_BLOCKS_FOR_SINGLE_REQUEST && notified < |requesters|
        invariant notified <= |requesters| && notified <= MIN_BLOCKS_FOR_SINGLE_REQUEST
      {
        if height + notified !in requesters {
          panicked := true;
          return;
        }
        notified := notified + 1;
      }
      panicked := false;
    }

    /** The rest of the turn: the block is applied if it passes, otherwise the senders of both blocks are removed and banned. */
    method Process() returns (panicked: bool)
      requires Valid()
      modifies this
      ensures Valid() && !panicked
      ensures applied == if old(Passes()) then old(applied) + [old(routine).first] else old(applied)
      ensures old(routine).Peeked? && !old(Passes()) ==>
        && old(height) in old(requesters) && old(height) + 1 in old(requesters)
        && var p, q := old(requesters)[old(height)].gotFrom, old(requesters)[old(height) + 1].gotFrom;
           && peers == old(peers) - {p} - {q} && banned == old(banned) + {p} + {q}
           && requesters == map k | k in old(requesters) :: old(requesters)[k].Redo(p).Redo(q)
    {
      if routine.Waiting? {
        return false;
      }
      var first, second, extCommit := routine.first, routine.second, routine.extCommit;
      routine := Waiting;
      if !rules.Accepts(applied, first, second, extCommit) {
        panicked := Reject(first.height, second.height);
        return;
      }
      Apply(first, second, extCommit);
      panicked := false;
    }

    method Reject(first: int, second: int) returns (panicked: bool)
      requires Window() && first in requesters && second in requesters
      modifies this`requesters, this`peers, this`banned
      ensures !panicked && Window() && |requesters| == old(|requesters|)
      ensures var p, q := old(requesters)[first].gotFrom, old(requesters)[second].gotFrom;
        && peers == old(peers) - {p} - {q} && banned == old(banned) + {p} + {q}
        && requesters == map k | k in old(requesters) :: old(requesters)[k].Redo(p).Redo(q)
    {
      panicked := RemovePeerAndRedoAllPeerRequests(first);
      if !panicked {
        panicked := RemovePeerAndRedoAllPeerRequests(second);
      }
    }

    ghost predicate Passes()
      reads this
    {
      routine.Peeked? && rules.Accepts(applied, routine.first, routine.second, routine.extCommit)
    }

    method Apply(first: Block, second: Block, extCommit: Option<Commit>)
      requires Valid() && |requesters| >= 1 && routine.Waiting?
      requires first.height == height && rules.Accepts(applied, first, second, extCommit)
      modifies this
      ensures Valid() && applied == old(applied) + [first]
    {
      var panicked, _ := PopRequest();
      assert forall i: nat | i < |applied| :: (applied + [first])[..i] == applied[..i];
      assert (applied + [first])[..|applied|] == applied;
      applied, stateHeight := applied + [first], first.height;
      seconds, extCommits := seconds + [second], extCommits + [extCommit];
    }

    /** Any interleaving of the critical sections of all routines. */
    method Interleave(steps: seq<Step>) returns (panicked: bool)
      requires Valid()
      modifies this
      ensures Valid() && !panicked && old(applied) <= applied
    {
      panicked := false;
      for i := 0 to |steps|
        invariant Valid() && !panicked && old(applied) <= applied
      {
        match steps[i]
        case ReadNext(peers, max) => ReadNextHeight(peers, max);
        case MakeNext => MakeNextRequester();
        case Assign(h, peer, second) => SetPeers(h, peer, second);
        case Again(h) => TakeRedo(h);
        case TimeOut(h) => Retry(h);
        case Report(p) => AddPeer(p);
        case Drop(p) => RemovePeer(p);
        case Pardon(p) => banned := banned - {p};
        case Deliver(peer, block, ext) => var _ := AddBlock(peer, block, ext);
        case Peek => panicked := PeekTwoBlocks();
        case Finish => panicked := Process();
      }
    }
  }

  datatype Step =
    | ReadNext(peers: nat, maxPeerHeight: int)
    | MakeNext
    | Assign(height: int, peer: Peer, second: Peer)
    | Again(height: int)
    | TimeOut(height: int)
    | Report(peer: Peer)
    | Drop(peer: Peer)
    | Pardon(peer: Peer)
    | Deliver(peer: Peer, block: Block, extCommit: Option<Commit>)
    | Peek
    | Finish
}
