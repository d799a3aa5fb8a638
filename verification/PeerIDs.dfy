/**
 Short IDs for peers in the mempool reactor. IDs are 16 bits wide and wrap around; 0 is
 taken from the start, for transactions that come from no peer.
 */
module PeerIDs {

  const MAX_ACTIVE_IDS := 0xFFFF
  const TWO16 := 0x1_0000

  type uint16 = x: int | 0 <= x < 0x1_0000

  class MempoolIDs {
    var peerMap: map<string, uint16>
    var nextID: uint16
    var activeIDs: set<uint16>

    /** Peers hold distinct, active IDs other than 0. */
    ghost predicate Valid()
      reads this
    {
      && 0 in activeIDs && |activeIDs| <= MAX_ACTIVE_IDS
      && (forall p | p in peerMap :: peerMap[p] in activeIDs && peerMap[p] != 0)
      && (forall p, q | p in peerMap && q in peerMap && p != q :: peerMap[p] != peerMap[q])
    }

    constructor ()
      ensures Valid() && peerMap == map[]
    {
      peerMap, nextID, activeIDs := map[], 1, {0};
    }

    /** The search terminates because some ID is free, and returns one that is. */
    method NextPeerID() returns (panicked: bool, id: uint16)
      requires Valid()
      modifies this`nextID
      ensures Valid() && (panicked <==> |activeIDs| == MAX_ACTIVE_IDS)
      ensures !panicked ==> id !in activeIDs && id != 0
    {
      panicked, id := false, 0;
      if |activeIDs| == MAX_ACTIVE_IDS {
        panicked := true;
        return;
      }
      ghost var start, steps := nextID, 0;
      while nextID in activeIDs
        invariant 0 <= steps < TWO16 && steps == Distance(start, nextID)
        invariant forall x: uint16 | Distance(start, x) < steps :: x in activeIDs
        decreases TWO16 - steps
      {
        if steps == TWO16 - 1 {
          AllActive(activeIDs);
        }
        nextID := (nextID + 1) % TWO16;
        steps := steps + 1;
      }
      id := nextID;
      nextID := (nextID + 1) % TWO16;
    }

    method ReserveForPeer(peer: string) returns (panicked: bool)
      requires Valid()
      modifies this
      ensures Valid() && (panicked <==> old(|activeIDs|) == MAX_ACTIVE_IDS)
      ensures panicked ==> peerMap == old(peerMap)
      ensures !panicked ==> peer in peerMap && peerMap == old(peerMap)[peer := peerMap[peer]] && peerMap[peer] !in old(activeIDs)
    {
      var id;
      panicked, id := NextPeerID();
      if !panicked {
        peerMap := peerMap[peer := id];
        activeIDs := activeIDs + {id};
      }
    }

    method Reclaim(peer: string)
      requires Valid()
      modifies this`peerMap, this`activeIDs
      ensures Valid() && peerMap == old(peerMap) - {peer}
      ensures peer in old(peerMap) ==> activeIDs == old(activeIDs) - {old(peerMap)[peer]}
    {
      if peer in peerMap {
        activeIDs := activeIDs - {peerMap[peer]};
      }
      peerMap := peerMap - {peer};
    }

    /** The ID of the peer, or 0 if it has none: then and only then. */
    method GetForPeer(peer: string) returns (id: uint16)
      requires Valid()
      ensures id == 0 <==> peer !in peerMap
      ensures forall p | p in peerMap && p != peer :: id != peerMap[p]
    {
      return if peer in peerMap then peerMap[peer] else 0;
    }
  }

  /** How far x is ahead of start, going around. */
  function Distance(start: uint16, x: uint16): (d: uint16) {
    (x - start) % TWO16
  }

  lemma {:induction false} BelowIsBig(s: set<uint16>, n: nat)
    requires n <= TWO16 && forall x: uint16 | x < n :: x in s
    ensures |s| >= n
  {
    if n > 0 {
      var last: uint16 := n - 1;
      BelowIsBig(s - {last}, n - 1);
    }
  }

  lemma AllActive(s: set<uint16>)
    requires |s| < TWO16
    ensures exists x: uint16 :: x !in s
  {
    if forall x: uint16 :: x in s {
      BelowIsBig(s, TWO16);
    }
  }
}
