/**
 The mempool: an ordered list of transactions, a map from keys to its entries and a
 byte total, with a cursor that follows the application's answers when everything is
 checked again after a block. Keys do not collide, so a transaction stands for its
 key, and for its list element as long as it is listed.
 */
module Mempool {
  import opened Options

  datatype Tx = Tx(bytes: seq<int>)

  datatype MemTx = MemTx(tx: Tx, height: int, gas: int)

  function Bytes(list: seq<MemTx>): nat {
    if list == [] then 0 else Bytes(list[..|list| - 1]) + |list[|list| - 1].tx.bytes|
  }

  ghost predicate Listed(list: seq<MemTx>, tx: Tx) {
    exists i :: 0 <= i < |list| && list[i].tx == tx
  }

  ghost predicate NoDuplicates(list: seq<MemTx>) {
    forall i, j | 0 <= i < j < |list| :: list[i].tx != list[j].tx
  }

  /** The list without the transaction. */
  function Without(list: seq<MemTx>, tx: Tx): seq<MemTx> {
    if list == [] then []
    else Without(list[..|list| - 1], tx) + if list[|list| - 1].tx == tx then [] else [list[|list| - 1]]
  }

  function WithoutAll(list: seq<MemTx>, txs: seq<Tx>): seq<MemTx> {
    if txs == [] then list else Without(WithoutAll(list, txs[..|txs| - 1]), txs[|txs| - 1])
  }

  lemma {:induction false} WithoutAbsent(list: seq<MemTx>, tx: Tx)
    requires !Listed(list, tx)
    ensures Without(list, tx) == list
  {
    if list != [] {
      var init := list[..|list| - 1];
      assert forall i | 0 <= i < |init| :: init[i] == list[i];
      WithoutAbsent(init, tx);
    }
  }

  lemma {:induction false} WithoutIs(list: seq<MemTx>, tx: Tx)
    ensures forall m :: m in Without(list, tx) <==> m in list && m.tx != tx
  {
    if list != [] {
      WithoutIs(list[..|list| - 1], tx);
      assert list == list[..|list| - 1] + [list[|list| - 1]];
    }
  }

  /** Only the committed transactions leave. */
  lemma {:induction false} WithoutAllIs(list: seq<MemTx>, txs: seq<Tx>)
    ensures forall m :: m in WithoutAll(list, txs) <==> m in list && m.tx !in txs
  {
    if txs != [] {
      var init := txs[..|txs| - 1];
      WithoutAllIs(list, init);
      WithoutIs(WithoutAll(list, init), txs[|txs| - 1]);
      assert txs == init + [txs[|txs| - 1]];
    }
  }

  /** Taking out one entry keeps the order of the others. */
  lemma {:induction false} WithoutAt(list: seq<MemTx>, k: nat)
    requires NoDuplicates(list) && k < |list|
    ensures Without(list, list[k].tx) == list[..k] + list[k + 1..]
  {
    var n := |list| - 1;
    var init := list[..n];
    if k == n {
      WithoutAbsent(init, list[k].tx);
    } else {
      WithoutAt(init, k);
      assert init[..k] == list[..k] && init[k + 1..] + [list[n]] == list[k + 1..];
    }
  }

  lemma BytesPlus(list: seq<MemTx>, m: MemTx)
    ensures Bytes(list + [m]) == Bytes(list) + |m.tx.bytes|
  {
    assert (list + [m])[..|list|] == list;
  }

  lemma {:induction false} BytesMinus(list: seq<MemTx>, k: nat)
    requires k < |list|
    ensures Bytes(list[..k] + list[k + 1..]) == Bytes(list) - |list[k].tx.bytes|
  {
    var n := |list| - 1;
    if k == n {
      assert list[..k] + list[k + 1..] == list[..n];
    } else {
      var init := list[..n];
      BytesMinus(init, k);
      BytesPlus(init[..k] + init[k + 1..], list[n]);
      assert list[..k] + list[k + 1..] == init[..k] + init[k + 1..] + [list[n]];
    }
  }

  /** List, map and byte total agree, and nothing is listed twice. */
  ghost predicate Agree(list: seq<MemTx>, txsMap: map<Tx, MemTx>, txsBytes: int) {
    && NoDuplicates(list)
    && (forall tx :: tx in txsMap <==> Listed(list, tx))
    && (forall i | 0 <= i < |list| :: list[i].tx in txsMap && txsMap[list[i].tx] == list[i])
    && txsBytes == Bytes(list)
  }

  lemma AddAgrees(list: seq<MemTx>, txsMap: map<Tx, MemTx>, txsBytes: int, m: MemTx)
    requires Agree(list, txsMap, txsBytes) && m.tx !in txsMap
    ensures Agree(list + [m], txsMap[m.tx := m], txsBytes + |m.tx.bytes|)
  {
    BytesPlus(list, m);
    hide Bytes;
    var l := list + [m];
    assert l[|list|] == m;
    forall tx | Listed(list, tx) ensures Listed(l, tx) {
      var i :| 0 <= i < |list| && list[i].tx == tx;
      assert l[i].tx == tx;
    }
  }

  lemma RemovedList(list: seq<MemTx>, k: nat, l: seq<MemTx>)
    requires NoDuplicates(list) && k < |list| && l == list[..k] + list[k + 1..]
    ensures NoDuplicates(l)
    ensures forall i | 0 <= i < |l| :: l[i].tx != list[k].tx && l[i] in list
    ensures forall tx :: Listed(l, tx) <==> Listed(list, tx) && tx != list[k].tx
  {
    assert forall i | 0 <= i < |l| :: l[i] == list[if i < k then i else i + 1];
    forall tx | Listed(list, tx) && tx != list[k].tx ensures Listed(l, tx) {
      var i :| 0 <= i < |list| && list[i].tx == tx;
      assert l[if i < k then i else i - 1].tx == tx;
    }
  }

  lemma RemoveAgrees(list: seq<MemTx>, txsMap: map<Tx, MemTx>, txsBytes: int, k: nat)
    requires Agree(list, txsMap, txsBytes) && k < |list|
    ensures Agree(list[..k] + list[k + 1..], txsMap - {list[k].tx}, txsBytes - |list[k].tx.bytes|)
  {
    BytesMinus(list, k);
    var l := list[..k] + list[k + 1..];
    RemovedList(list, k, l);
    hide Bytes, Listed, NoDuplicates;
    var m := txsMap - {list[k].tx};
    forall i | 0 <= i < |l| ensures l[i].tx in m && m[l[i].tx] == l[i] {
      assert l[i] in list;
    }
  }

  function PositionOf(list: seq<MemTx>, tx: Tx): (k: nat)
    requires Listed(list, tx)
    ensures k < |list| && list[k].tx == tx
  {
    if list[0].tx == tx then 0
    else
      assert Listed(list[1..], tx) by {
        var i :| 0 <= i < |list| && list[i].tx == tx;
        assert list[1..][i - 1].tx == tx;
      }
      PositionOf(list[1..], tx) + 1
  }

  /** The answers of a recheck, one per entry: none, still valid, or no longer valid. */
  type Answers = seq<Option<bool>>

  /** What is left of the first n entries: all but those answered as no longer valid, in order. */
  function Kept(list: seq<MemTx>, answers: Answers, n: nat): seq<MemTx>
    requires n <= |list| == |answers|
  {
    if n == 0 then [] else Kept(list, answers, n - 1) + if answers[n - 1] == Some(false) then [] else [list[n - 1]]
  }

  class CListMempool {
    const maxTxs: nat
    const maxTxsBytes: nat
    var height: int
    var list: seq<MemTx>
    var txsMap: map<Tx, MemTx>
    var txsBytes: int
    // the recheck cursor and the last entry to recheck, while rechecking
    var cursor: Option<Tx>
    var end: Option<Tx>
    var rechecking: bool
    var recheckFull: bool

    ghost predicate Valid()
      reads this`list, this`txsMap, this`txsBytes
    {
      Agree(list, txsMap, txsBytes) && |list| <= maxTxs && txsBytes <= maxTxsBytes
    }

    constructor (maxTxs: nat, maxTxsBytes: nat, height: int)
      ensures Valid() && list == [] && !rechecking
    {
      this.maxTxs, this.maxTxsBytes, this.height := maxTxs, maxTxsBytes, height;
      list, txsMap, txsBytes := [], map[], 0;
      cursor, end, rechecking, recheckFull := None, None, false, false;
    }

    predicate IsFull(txSize: nat)
      reads this
    {
      |list| >= maxTxs || txSize + txsBytes > maxTxsBytes || recheckFull
    }

    method AddTx(m: MemTx)
      requires Valid() && m.tx !in txsMap && !IsFull(|m.tx.bytes|)
      modifies this`list, this`txsMap, this`txsBytes
      ensures Valid() && list == old(list) + [m]
    {
      hide Agree;
      AddAgrees(list, txsMap, txsBytes, m);
      list := list + [m];
      txsMap := txsMap[m.tx := m];
      txsBytes := txsBytes + |m.tx.bytes|;
    }

    method RemoveTxByKey(tx: Tx) returns (found: bool)
      requires Valid()
      modifies this`list, this`txsMap, this`txsBytes
      ensures Valid() && found == old(Listed(list, tx))
      ensures list == Without(old(list), tx)
    {
      found := tx in txsMap;
      assert found == Listed(list, tx) && NoDuplicates(list);
      hide Agree, Bytes, Without;
      if !found {
        WithoutAbsent(list, tx);
        return;
      }
      var k := PositionOf(list, tx);
      WithoutAt(list, k);
      RemoveAgrees(list, txsMap, txsBytes, k);
      hide Listed, NoDuplicates;
      list := list[..k] + list[k + 1..];
      txsMap := txsMap - {tx};
      txsBytes := txsBytes - |tx.bytes|;
    }

    /** The answer to a first check; nothing may be added while a recheck is under way. */
    method ResCbFirstTime(tx: Tx, gas: int, ok: bool, postCheckOk: bool) returns (panicked: bool)
      requires Valid()
      modifies this`list, this`txsMap, this`txsBytes
      ensures Valid() && panicked == rechecking
      ensures list == old(list) +
        if !rechecking && ok && postCheckOk && !old(IsFull(|tx.bytes|)) && !old(Listed(list, tx)) then [MemTx(tx, height, gas)] else []
    {
      if rechecking {
        return true;
      }
      if ok && postCheckOk && !IsFull(|tx.bytes|) && tx !in txsMap {
        AddTx(MemTx(tx, height, gas));
      }
      return false;
    }
  
    // Rechecking

    /** The cursor moves to the next listed entry, or to nothing after the last. */
    method SetNextEntry(ghost c: nat)
      requires NoDuplicates(list) && c < |list| && cursor == Some(list[c].tx)
      modifies this`cursor
      ensures cursor == if c + 1 < |list| then Some(list[c + 1].tx) else None
    {
      assert Listed(list, cursor.value);
      var k := PositionOf(list, cursor.value);
      cursor := if k + 1 < |list| then Some(list[k + 1].tx) else None;
    }

    /**
     The cursor runs forward to the answered entry, then past it; the recheck is over
     exactly when that entry is the last. c and p are the places of the cursor and of
     the entry.
     */
    method FindNextEntryMatching(tx: Tx, ghost c: nat, ghost p: nat) returns (found: bool)
      requires NoDuplicates(list) && c <= p < |list| && rechecking
      requires cursor == Some(list[c].tx) && list[p].tx == tx && end == Some(list[|list| - 1].tx)
      modifies this`cursor, this`rechecking, this`recheckFull
      ensures found && (rechecking <==> p + 1 < |list|)
      ensures cursor == if p + 1 < |list| then Some(list[p + 1].tx) else None
    {
      found := false;
      ghost var k := c;
      while rechecking
        invariant c <= k <= p && rechecking && cursor == Some(list[k].tx)
        decreases p - k
      {
        if tx == cursor.value {
          found := true;
          break;
        }
        SetNextEntry(k);
        k := k + 1;
      }
      if cursor == end {
        SetDone();
      }
      if rechecking {
        SetNextEntry(p);
      }
    }

    method SetDone()
      modifies this`cursor, this`rechecking, this`recheckFull
      ensures cursor == None && !rechecking && !recheckFull
    {
      cursor, recheckFull, rechecking := None, false, false;
    }

    /** The first c entries of l are settled, and the cursor is at the next. */
    ghost predicate Settled(l: seq<MemTx>, answers: Answers, c: nat)
      requires c <= |l| == |answers|
      reads this
    {
      && Valid() && list == Left(l, answers, c)
      && l != [] && end == Some(l[|l| - 1].tx)
      && (rechecking <==> c < |l|)
      && (rechecking ==> cursor == Some(l[c].tx))
    }

    /** One answer, for the i-th entry of the list l that the recheck started with. */
    method ResCbRecheck(l: seq<MemTx>, answers: Answers, ghost c: nat, i: nat)
      requires c <= i < |l| == |answers| && answers[i].Some? && NoAnswers(answers, c, i) && Settled(l, answers, c)
      modifies this
      ensures Settled(l, answers, i + 1) && height == old(height)
    {
      hide *;
      WhenSettled(l, answers, c);
      AnswerResult(l, answers, c, i, list);
      MoveCursor(l, answers, c, i);
      KeepOrRemove(l[i].tx, answers[i].value);
      NowSettled(l, answers, i + 1);
    }

    lemma WhenSettled(l: seq<MemTx>, answers: Answers, c: nat)
      requires c <= |l| == |answers| && Settled(l, answers, c)
      ensures Valid() && NoDuplicates(list) && list == Left(l, answers, c) && end == Some(l[|l| - 1].tx)
    {
    }

    lemma NowSettled(l: seq<MemTx>, answers: Answers, c: nat)
      requires 0 < c <= |l| == |answers| && Valid() && list == Left(l, answers, c) && end == Some(l[|l| - 1].tx)
      requires (rechecking <==> c < |l|) && (rechecking ==> cursor == Some(l[c].tx))
      ensures Settled(l, answers, c)
    {
    }

    method MoveCursor(l: seq<MemTx>, answers: Answers, ghost c: nat, i: nat)
      requires c <= i < |l| == |answers| && NoAnswers(answers, c, i) && Settled(l, answers, c)
      modifies this`cursor, this`rechecking, this`recheckFull
      ensures rechecking <==> i + 1 < |l|
      ensures rechecking ==> cursor == Some(l[i + 1].tx)
    {
      assert NoDuplicates(list);
      ghost var start, p := Places(l, answers, c, i);
      hide Agree, Left, NoDuplicates, NoAnswers, Kept;
      var found := FindNextEntryMatching(l[i].tx, start, p);
    }

    method KeepOrRemove(tx: Tx, valid: bool)
      requires Valid()
      modifies this`list, this`txsMap, this`txsBytes
      ensures Valid() && list == if valid then old(list) else Without(old(list), tx)
    {
      if !valid {
        var removed := RemoveTxByKey(tx);
      }
    }

    /** Everything still listed is checked again; entries without an answer stay. */
    method RecheckTxs(answers: Answers) returns (timedOut: bool)
      requires Valid() && !rechecking && |answers| == |list|
      modifies this
      ensures Valid() && !rechecking && height == old(height)
      ensures list == Kept(old(list), answers, |answers|)
      ensures timedOut <==> answers != [] && answers[|answers| - 1].None?
    {
      hide *;
      if |list| == 0 {
        KeptNone(list, answers);
        return false;
      }
      Begin(answers);
      timedOut := TakeAnswers(list, answers);
      if timedOut {
        SetDone();
      }
    }

    method Begin(ghost answers: Answers)
      requires Valid() && !rechecking && |answers| == |list| > 0
      modifies this`cursor, this`end, this`rechecking
      ensures Settled(list, answers, 0)
    {
      hide Agree, Left, Kept;
      LeftAtStart(list, answers);
      cursor, end, rechecking := Some(list[0].tx), Some(list[|list| - 1].tx), true;
    }

    /** The answers arrive in the order of the list. */
    method TakeAnswers(l: seq<MemTx>, answers: Answers) returns (unfinished: bool)
      requires |answers| == |l| && Settled(l, answers, 0)
      modifies this
      ensures Valid() && height == old(height) && rechecking == unfinished
      ensures list == Kept(l, answers, |l|)
      ensures unfinished <==> answers[|l| - 1].None?
    {
      ghost var c := SettleAll(l, answers);
      LeftAtEnd(l, answers, c);
      NoLastAnswer(answers, c);
      hide Agree, Kept, Left, NoAnswers;
      unfinished := rechecking;
    }

    method SettleAll(l: seq<MemTx>, answers: Answers) returns (ghost c: nat)
      requires |answers| == |l| && Settled(l, answers, 0)
      modifies this
      ensures height == old(height) && c <= |l| && Settled(l, answers, c) && NoAnswers(answers, c, |l|)
      ensures 0 < c ==> answers[c - 1].Some?
    {
      c := 0;
      for i := 0 to |l|
        invariant c <= i && Settled(l, answers, c) && NoAnswers(answers, c, i)
        invariant 0 < c ==> answers[c - 1].Some?
        invariant height == old(height)
      {
        hide *;
        if answers[i].Some? {
          ResCbRecheck(l, answers, c, i);
          c := i + 1;
        }
        NoMoreAnswers(answers, c, i);
      }
    }

    /** A block is committed: its transactions leave, the others are checked again. */
    method Update(h: int, committed: seq<Tx>, recheck: bool, answers: Answers)
      requires Valid() && !rechecking
      requires recheck ==> |answers| == |WithoutAll(list, committed)|
      modifies this
      ensures Valid() && !rechecking && height == h
      ensures var rest := WithoutAll(old(list), committed);
        list == if recheck then Kept(rest, answers, |answers|) else rest
    {
      hide Without, Kept, Agree;
      height := h;
      for i := 0 to |committed|
        invariant Valid() && !rechecking && height == h && list == WithoutAll(old(list), committed[..i])
      {
        var found := RemoveTxByKey(committed[i]);
        assert committed[..i + 1][..i] == committed[..i];
      }
      assert committed[..|committed|] == committed;
      if recheck {
        var timedOut := RecheckTxs(answers);
      }
    }
  }

  /** The list once the first c entries of a recheck are settled. */
  function Left(l: seq<MemTx>, answers: Answers, c: nat): seq<MemTx>
    requires c <= |l| == |answers|
  {
    Kept(l, answers, c) + l[c..]
  }

  ghost predicate NoAnswers(answers: Answers, c: nat, i: nat)
    requires i <= |answers|
  {
    forall k | c <= k < i :: answers[k].None?
  }

  lemma NoMoreAnswers(answers: Answers, c: nat, i: nat)
    requires i < |answers|
    ensures c <= i && NoAnswers(answers, c, i) && answers[i].None? ==> NoAnswers(answers, c, i + 1)
    ensures c == i + 1 ==> NoAnswers(answers, c, i + 1)
  {
  }

  lemma NoLastAnswer(answers: Answers, c: nat)
    requires c < |answers| ==> NoAnswers(answers, c, |answers|)
    ensures c < |answers| ==> answers[|answers| - 1].None?
  {
  }

  lemma KeptNone(l: seq<MemTx>, answers: Answers)
    requires |answers| == |l| == 0
    ensures Kept(l, answers, 0) == l
  {
  }

  lemma LeftAtStart(l: seq<MemTx>, answers: Answers)
    requires |answers| == |l|
    ensures Left(l, answers, 0) == l && NoAnswers(answers, 0, 0)
  {
  }

  lemma LeftAtEnd(l: seq<MemTx>, answers: Answers, c: nat)
    requires c <= |l| == |answers| && NoAnswers(answers, c, |l|)
    ensures Left(l, answers, c) == Kept(l, answers, |l|)
  {
    KeptSkips(l, answers, c, |l|);
    assert l[c..|l|] == l[c..];
  }

  /** Where the cursor's and the answered entry now are. */
  lemma Places(l: seq<MemTx>, answers: Answers, c: nat, i: nat) returns (start: nat, p: nat)
    requires c <= i < |l| == |answers| && NoAnswers(answers, c, i)
    ensures var left := Left(l, answers, c);
      && start <= p < |left| && left[start] == l[c] && left[p] == l[i] && left[|left| - 1] == l[|l| - 1]
      && (p + 1 < |left| <==> i + 1 < |l|) && (i + 1 < |l| ==> left[p + 1] == l[i + 1])
      && left[..p] == Kept(l, answers, i) && left[p + 1..] == l[i + 1..]
  {
    KeptSkips(l, answers, c, i);
    hide Kept;
    start := |Kept(l, answers, c)|;
    p := start + i - c;
    var left := Left(l, answers, c);
    assert left[..p] == Kept(l, answers, c) + l[c..i];
  }

  /** What the answer for the i-th entry does to the list. */
  lemma AnswerResult(l: seq<MemTx>, answers: Answers, c: nat, i: nat, list: seq<MemTx>)
    requires c <= i < |l| == |answers| && NoAnswers(answers, c, i) && NoDuplicates(list) && list == Left(l, answers, c)
    ensures answers[i] == Some(false) ==> Without(list, l[i].tx) == Left(l, answers, i + 1)
    ensures answers[i] == Some(true) ==> list == Left(l, answers, i + 1)
  {
    var start, p := Places(l, answers, c, i);
    hide NoDuplicates, NoAnswers, Left, Without, Kept;
    WithoutAt(list, p);
    AfterAnswer(l, answers, i, list, p);
  }

  lemma AfterAnswer(l: seq<MemTx>, answers: Answers, i: nat, list: seq<MemTx>, p: nat)
    requires i < |l| == |answers| && p < |list|
    requires list[..p] == Kept(l, answers, i) && list[p] == l[i] && list[p + 1..] == l[i + 1..]
    ensures answers[i] == Some(false) ==> list[..p] + list[p + 1..] == Left(l, answers, i + 1)
    ensures answers[i] == Some(true) ==> list == Left(l, answers, i + 1)
  {
    assert list == list[..p] + [list[p]] + list[p + 1..];
  }

  lemma {:induction false} KeptSkips(l: seq<MemTx>, answers: Answers, c: nat, i: nat)
    requires c <= i <= |l| == |answers| && NoAnswers(answers, c, i)
    ensures Kept(l, answers, i) == Kept(l, answers, c) + l[c..i]
    decreases i
  {
    if c < i {
      KeptSkips(l, answers, c, i - 1);
      assert l[c..i] == l[c..i - 1] + [l[i - 1]];
    }
  }

  /** A complete recheck leaves exactly the entries answered as valid, in their order. */
  lemma {:induction false} KeptIsFilter(l: seq<MemTx>, answers: Answers, n: nat)
    requires n <= |l| == |answers| && NoDuplicates(l)
    ensures forall i | 0 <= i < n :: (l[i] in Kept(l, answers, n) <==> answers[i] != Some(false))
    ensures forall m | m in Kept(l, answers, n) :: m in l[..n]
    ensures NoDuplicates(Kept(l, answers, n))
  {
    if n > 0 {
      KeptIsFilter(l, answers, n - 1);
      var k := Kept(l, answers, n - 1);
      assert l[..n] == l[..n - 1] + [l[n - 1]];
      assert forall m | m in k :: m.tx != l[n - 1].tx;
    }
  }
}
