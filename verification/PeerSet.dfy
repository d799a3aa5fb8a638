/**
 The set of peers: a list for fast iteration and a map from IDs to places in it. The
 list is a slice of a backing array that List hands out without copying, so whatever
 it returned must stay as it was through all later changes.
 */
module PeerSet {

  datatype Peer = Peer(id: string, data: int)

  datatype Item = Item(peer: Peer, index: nat)

  /** The first `len` elements of a backing array. */
  datatype Slice = Slice(backing: array<Peer>, len: nat)

  /** A slice that was handed out, with what it showed then. */
  datatype Snapshot = Snapshot(slice: Slice, contents: seq<Peer>)

  class PeerSet {
    var lookup: map<string, Item>
    var list: Slice
    var removalFailed: set<Peer>
    ghost var arrays: set<array<Peer>>       // every backing array ever used
    ghost var given: set<Snapshot>

    /** The peers in the order of the list. */
    ghost function Contents(): seq<Peer>
      requires list.len <= list.backing.Length
      reads this, list.backing
    {
      list.backing[..list.len]
    }

    ghost predicate ListSound()
      reads this, list.backing
    {
      list.len <= list.backing.Length && list.backing in arrays && Matches(lookup, Contents())
    }

    /** Every slice ever returned still shows what it showed then. */
    ghost predicate GivenSound()
      reads this, arrays
    {
      forall s | s in given ::
        && s.slice.backing in arrays && s.slice.len <= s.slice.backing.Length
        && s.slice.backing[..s.slice.len] == s.contents
        && (s.slice.backing == list.backing ==> s.slice.len <= list.len)
    }

    ghost predicate Valid()
      reads this, arrays, list.backing
    {
      ListSound() && GivenSound()
    }

    constructor (capacity: nat)
      ensures Valid() && Contents() == [] && given == {} && fresh(arrays)
    {
      var a := new Peer[capacity](_ => Peer("", 0));
      lookup, list, removalFailed, arrays, given := map[], Slice(a, 0), {}, {a}, {};
    }

    method List() returns (s: Slice)
      requires Valid()
      modifies this`given
      ensures Valid() && s == list && given == old(given) + {Snapshot(s, Contents())}
    {
      s := list;
      given := given + {Snapshot(list, Contents())};
    }

    /** Appending writes past every slice handed out so far, or into a new array. */
    method Append(p: Peer)
      requires Valid()
      modifies this`list, this`arrays, list.backing
      ensures list.len == old(list.len) + 1 && list.len <= list.backing.Length && list.backing in arrays
      ensures Contents() == old(Contents()) + [p]
      ensures GivenSound() && old(arrays) <= arrays && fresh(arrays - old(arrays))
    {
      if list.len < list.backing.Length {
        list.backing[list.len] := p;
        list := list.(len := list.len + 1);
      } else {
        var n := list.len;
        var a := new Peer[2 * n + 1](i requires 0 <= i reads this, list.backing => if i < n && i < list.backing.Length then list.backing[i] else p);
        assert a[..n] == list.backing[..n];
        list, arrays := Slice(a, n + 1), arrays + {a};
      }
    }

    method Add(p: Peer) returns (ok: bool)
      requires Valid()
      modifies this, list.backing
      ensures Valid() && given == old(given) && removalFailed == old(removalFailed)
      ensures ok <==> p.id !in old(lookup) && p !in removalFailed
      ensures Contents() == if ok then old(Contents()) + [p] else old(Contents())
    {
      if p.id in lookup || p in removalFailed {
        return false;
      }
      var index := list.len;
      MatchesAppend(lookup, Contents(), p);
      Append(p);
      lookup := lookup[p.id := Item(p, index)];
      return true;
    }

    /** Swaps the last peer into the place of the removed one, in a copy. */
    method Remove(p: Peer) returns (ok: bool)
      requires Valid()
      modifies this
      ensures Valid() && given == old(given)
      ensures ok <==> p.id in old(lookup)
      ensures ok ==> Contents() == SwapRemoved(old(Contents()), old(lookup)[p.id].index)
      ensures !ok ==> Contents() == old(Contents()) && removalFailed == old(removalFailed) + {p}
    {
      if p.id !in lookup {
        removalFailed := removalFailed + {p};
        return false;
      }
      var index := lookup[p.id].index;
      MatchesRemove(lookup, Contents(), p.id);
      var last := list.backing[list.len - 1];
      hide Matches;
      DropAt(index);
      if index < list.len {
        lookup := lookup[last.id := lookup[last.id].(index := index)];
      }
      lookup := lookup - {p.id};
      return true;
    }

    method DropAt(index: nat)
      requires Valid() && index < list.len
      modifies this`list, this`arrays
      ensures list.len == old(list.len) - 1 && list.len <= list.backing.Length && list.backing in arrays
      ensures Contents() == SwapRemoved(old(Contents()), index)
      ensures GivenSound()
    {
      hide Matches;
      var n := list.len - 1;
      ghost var before := Contents();
      var a := new Peer[n](i requires 0 <= i < n reads this, list.backing => if i < list.backing.Length then list.backing[i] else Peer("", 0));
      assert a[..] == before[..n];
      if index != n {
        a[index] := list.backing[n];
      }
      list, arrays := Slice(a, n), arrays + {a};
      assert Contents() == SwapRemoved(before, index);
    }
  }

  /** Map and list are a bijection with the right places. */
  ghost predicate Matches(lookup: map<string, Item>, peers: seq<Peer>) {
    && (forall i: nat | i < |peers| :: peers[i].id in lookup && lookup[peers[i].id] == Item(peers[i], i))
    && (forall id | id in lookup :: lookup[id].index < |peers| && peers[lookup[id].index].id == id)
  }

  function SwapRemoved(peers: seq<Peer>, index: nat): seq<Peer>
    requires index < |peers|
  {
    var n := |peers| - 1;
    if index == n then peers[..n] else peers[..n][index := peers[n]]
  }

  lemma MatchesAppend(lookup: map<string, Item>, peers: seq<Peer>, p: Peer)
    requires Matches(lookup, peers) && p.id !in lookup
    ensures Matches(lookup[p.id := Item(p, |peers|)], peers + [p])
  {
  }

  lemma MatchesRemove(lookup: map<string, Item>, peers: seq<Peer>, id: string)
    requires Matches(lookup, peers) && id in lookup
    ensures var index := lookup[id].index;
      var n := |peers| - 1;
      && index <= n && peers[n].id in lookup
      && (index == n ==> Matches(lookup - {id}, SwapRemoved(peers, index)))
      && (index < n ==> Matches(lookup[peers[n].id := lookup[peers[n].id].(index := index)] - {id}, SwapRemoved(peers, index)))
  {
  }
}
