/**
 The write-ahead log. A record is a checksum, a length and the marshalled message.
 Records are read back from a plain file when the log is repaired, and from a group of
 files when it is searched; the two readers treat a short read differently.

 Marshalling and the checksum are parameters: parsing undoes marshalling, and there is
 no message without bytes.
 */
module Wal {
  import opened Options

  const MAX_MSG_SIZE: nat := 1048576 + 24
  const TWO32: nat := 0x1_0000_0000

  type Byte = b: int | 0 <= b < 256

  datatype Msg = EndHeight(height: int, time: int) | Other(data: int, time: int)

  datatype Codec = Codec(marshal: Msg -> seq<Byte>, parse: seq<Byte> -> Option<Msg>, checksum: seq<Byte> -> nat)
  {
    ghost predicate Valid() {
      && (forall m :: parse(marshal(m)) == Some(m))
      && parse([]) == None
      && (forall s :: checksum(s) < TWO32)
    }
  }

  function BigEndian(x: nat): (s: seq<Byte>)
    ensures |s| == 4
  {
    [x / 256 / 256 / 256 % 256, x / 256 / 256 % 256, x / 256 % 256, x % 256]
  }

  function FromBigEndian(s: seq<Byte>): (x: nat)
    requires |s| == 4
  {
    var a: int, b: int, c: int, d: int := s[0], s[1], s[2], s[3];
    ((a * 256 + b) * 256 + c) * 256 + d
  }

  lemma BigEndianInverse(x: nat)
    requires x < TWO32
    ensures FromBigEndian(BigEndian(x)) == x
  {
    var x1 := x / 256;
    var x2 := x1 / 256;
    var x3 := x2 / 256;
    assert x == x1 * 256 + x % 256 && x1 == x2 * 256 + x1 % 256 && x2 == x3 * 256 + x2 % 256;
    assert x3 < 256;
  }

  /** The record of a message, unless it is too big. A marshalled message is far below 2^32 bytes. */
  function Encode(c: Codec, m: Msg): Option<seq<Byte>> {
    var data := c.marshal(m);
    if |data| > MAX_MSG_SIZE then None
    else Some(BigEndian(c.checksum(data)) + BigEndian(|data|) + data)
  }

  // Reading

  /** A file returns what is left, without an error unless nothing is; a group wants all that was asked for. */
  datatype Source = File | Group

  function Padded(s: seq<Byte>, n: nat): (r: seq<Byte>)
    ensures |r| == n
    ensures n <= |s| ==> r == s[..n]
  {
    seq(n, i requires 0 <= i => if i < |s| then s[i] else 0)
  }

  function Rest(s: seq<Byte>, n: nat): seq<Byte> {
    if n <= |s| then s[n..] else []
  }

  predicate ReadOk(src: Source, s: seq<Byte>, n: nat) {
    match src
    case File => n == 0 || |s| > 0
    case Group => n > 0 && |s| >= n
  }

  datatype Decoded = Eof | Corrupt | Message(message: Msg, rest: seq<Byte>)

  function Decode(c: Codec, src: Source, s: seq<Byte>): (d: Decoded)
    ensures d.Message? ==> |d.rest| < |s|
  {
    if !ReadOk(src, s, 4) then Eof
    else
      var s1 := Rest(s, 4);
      if !ReadOk(src, s1, 4) then Corrupt
      else
        var length := FromBigEndian(Padded(s1, 4));
        var s2 := Rest(s1, 4);
        if length > MAX_MSG_SIZE || !ReadOk(src, s2, length) then Corrupt
        else
          var data := Padded(s2, length);
          if c.checksum(data) != FromBigEndian(Padded(s, 4)) then Corrupt
          else match c.parse(data)
            case None => Corrupt
            case Some(m) => Message(m, Rest(s2, length))
  }

  /** All messages up to the first that cannot be decoded. */
  function DecodeAll(c: Codec, src: Source, s: seq<Byte>): seq<Msg>
    decreases |s|
  {
    match Decode(c, src, s)
    case Message(m, rest) => [m] + DecodeAll(c, src, rest)
    case Eof => []
    case Corrupt => []
  }

  /** What reading stops at. */
  function Ending(c: Codec, src: Source, s: seq<Byte>): Decoded
    decreases |s|
  {
    match Decode(c, src, s)
    case Message(m, rest) => Ending(c, src, rest)
    case Eof => Eof
    case Corrupt => Corrupt
  }

  function EncodeAll(c: Codec, ms: seq<Msg>): Option<seq<Byte>> {
    if ms == [] then Some([])
    else match (Encode(c, ms[0]), EncodeAll(c, ms[1..]))
      case (Some(a), Some(b)) => Some(a + b)
      case _ => None
  }

  /** A whole record is read back, and nothing after it is touched. */
  lemma DecodeOne(c: Codec, src: Source, m: Msg, rest: seq<Byte>)
    requires c.Valid() && Encode(c, m).Some?
    ensures Decode(c, src, Encode(c, m).value + rest) == Message(m, rest)
  {
    var data := c.marshal(m);
    assert data != [] by {
      assert c.parse(c.marshal(m)) == Some(m);
    }
    BigEndianInverse(c.checksum(data));
    BigEndianInverse(|data|);
    var s := Encode(c, m).value + rest;
    assert s == BigEndian(c.checksum(data)) + BigEndian(|data|) + data + rest;
    assert s[..4] == BigEndian(c.checksum(data));
    assert s[4..] == BigEndian(|data|) + data + rest;
    assert s[4..][..4] == BigEndian(|data|) && s[4..][4..] == data + rest;
    assert (data + rest)[..|data|] == data && (data + rest)[|data|..] == rest;
  }

  /** Decoding the concatenated records gives the messages, then the end of the file. */
  lemma {:induction false} RoundTrip(c: Codec, src: Source, ms: seq<Msg>)
    requires c.Valid() && EncodeAll(c, ms).Some?
    ensures DecodeAll(c, src, EncodeAll(c, ms).value) == ms
    ensures Ending(c, src, EncodeAll(c, ms).value) == Eof
  {
    if ms != [] {
      DecodeOne(c, src, ms[0], EncodeAll(c, ms[1..]).value);
      hide Encode, Decode;
      RoundTrip(c, src, ms[1..]);
      assert ms == [ms[0]] + ms[1..];
    }
  }

  lemma {:induction false} EncodeAllConcat(c: Codec, a: seq<Msg>, b: seq<Msg>)
    ensures EncodeAll(c, a + b).Some? <==> EncodeAll(c, a).Some? && EncodeAll(c, b).Some?
    ensures EncodeAll(c, a + b).Some? ==> EncodeAll(c, a + b).value == EncodeAll(c, a).value + EncodeAll(c, b).value
  {
    hide Encode;
    if a == [] {
      assert a + b == b;
    } else {
      EncodeAllConcat(c, a[1..], b);
      assert (a + b)[1..] == a[1..] + b;
    }
  }

  /** A reader over the bytes of a file or of a group of files. */
  class Reader {
    const src: Source
    var left: seq<Byte>

    constructor (src: Source, bytes: seq<Byte>)
      ensures this.src == src && left == bytes
    {
      this.src, left := src, bytes;
    }

    /** Fills a zeroed buffer with what there is. */
    method Read(n: nat) returns (buffer: seq<Byte>, ok: bool)
      modifies this
      ensures buffer == Padded(old(left), n) && ok == ReadOk(src, old(left), n) && left == Rest(old(left), n)
    {
      buffer, ok, left := Padded(left, n), ReadOk(src, left, n), Rest(left, n);
    }

    method DecodeNext(c: Codec) returns (d: Decoded)
      modifies this
      ensures d == Decode(c, src, old(left)) && (d.Message? ==> left == d.rest)
    {
      var head, ok := Read(4);
      if !ok {
        return Eof;
      }
      var size, ok' := Read(4);
      if !ok' {
        return Corrupt;
      }
      var length := FromBigEndian(size);
      if length > MAX_MSG_SIZE {
        return Corrupt;
      }
      var data, ok'' := Read(length);
      if !ok'' || c.checksum(data) != FromBigEndian(head) {
        return Corrupt;
      }
      var m := c.parse(data);
      return if m.Some? then Message(m.value, left) else Corrupt;
    }
  }

  /** What repair makes of the bytes. */
  function Repaired(c: Codec, s: seq<Byte>): Option<seq<Byte>> {
    EncodeAll(c, DecodeAll(c, File, s))
  }

  function Joined(a: seq<Byte>, b: Option<seq<Byte>>): Option<seq<Byte>> {
    if b.Some? then Some(a + b.value) else None
  }

  lemma RepairStep(c: Codec, s: seq<Byte>, out: seq<Byte>)
    requires Decode(c, File, s).Message?
    ensures var d := Decode(c, File, s);
      var record := Encode(c, d.message);
      && (record.None? ==> Joined(out, Repaired(c, s)) == None)
      && (record.Some? ==> Joined(out, Repaired(c, s)) == Joined(out + record.value, Repaired(c, d.rest)))
  {
    hide Encode;
    var d := Decode(c, File, s);
    hide Decode;
    var ms := DecodeAll(c, File, s);
    assert ms[0] == d.message && ms[1..] == DecodeAll(c, File, d.rest);
    if Repaired(c, s).Some? {
      var record, tail := Encode(c, d.message).value, Repaired(c, d.rest).value;
      assert out + (record + tail) == out + record + tail;
    }
  }

  /** Repair keeps what can be decoded before the first error. */
  method RepairWalFile(c: Codec, src: seq<Byte>) returns (dst: Option<seq<Byte>>)
    ensures dst == Repaired(c, src)
  {
    hide Encode, Decode, Repaired;
    var reader := new Reader(File, src);
    var out: seq<Byte> := [];
    StartRepair(c, src);
    while true
      invariant Repaired(c, src) == Joined(out, Repaired(c, reader.left)) && reader.src == File
      decreases |reader.left|
    {
      ghost var before := reader.left;
      var d := reader.DecodeNext(c);
      if !d.Message? {
        NothingLeft(c, before, out);
        return Some(out);
      }
      RepairStep(c, before, out);
      var record := Encode(c, d.message);
      if record.None? {
        return None;
      }
      out := out + record.value;
    }
  }

  lemma StartRepair(c: Codec, s: seq<Byte>)
    ensures Joined([], Repaired(c, s)) == Repaired(c, s)
  {
    if Repaired(c, s).Some? {
      assert [] + Repaired(c, s).value == Repaired(c, s).value;
    }
  }

  lemma NothingLeft(c: Codec, s: seq<Byte>, out: seq<Byte>)
    requires !Decode(c, File, s).Message?
    ensures Joined(out, Repaired(c, s)) == Some(out)
  {
    assert out + [] == out;
  }

  /** Repair of a repaired log changes nothing, and a log written by the encoder is left as it is. */
  lemma RepairIdempotent(c: Codec, src: seq<Byte>)
    requires c.Valid()
    ensures var fixed := Repaired(c, src);
      fixed.Some? ==> Repaired(c, fixed.value) == fixed && Ending(c, File, fixed.value) == Eof
  {
    var ms := DecodeAll(c, File, src);
    if EncodeAll(c, ms).Some? {
      RoundTrip(c, File, ms);
    }
  }

  // Searching

  function Concat<T>(parts: seq<seq<T>>): seq<T> {
    if parts == [] then [] else parts[0] + Concat(parts[1..])
  }

  /** An uncorrupted group of files: each holds whole records. */
  ghost predicate Holds(c: Codec, files: seq<seq<Byte>>, records: seq<seq<Msg>>) {
    |files| == |records| && forall i | 0 <= i < |files| :: EncodeAll(c, records[i]) == Some(files[i])
  }

  /** Reading on from a file of the group goes through all later files. */
  lemma {:induction false} GroupReads(c: Codec, files: seq<seq<Byte>>, records: seq<seq<Msg>>)
    requires Holds(c, files, records)
    ensures EncodeAll(c, Concat(records)) == Some(Concat(files))
  {
    if files != [] {
      GroupReads(c, files[1..], records[1..]);
      EncodeAllConcat(c, records[0], Concat(records[1..]));
    }
  }

  lemma {:induction false} ConcatFrom<T>(parts: seq<seq<T>>, i: nat)
    requires i <= |parts|
    ensures Concat(parts) == Concat(parts[..i]) + Concat(parts[i..])
  {
    if i == 0 {
      assert parts[0..] == parts && Concat(parts[..0]) == [];
    } else {
      ConcatFrom(parts[1..], i - 1);
      assert parts[..i][1..] == parts[1..][..i - 1] && parts[1..][i - 1..] == parts[i..];
    }
  }

  ghost predicate Marks(m: Msg, height: int) {
    m.EndHeight? && m.height == height
  }

  /** The marker is among the messages. */
  ghost predicate Marked(ms: seq<Msg>, height: int) {
    exists k :: 0 <= k < |ms| && Marks(ms[k], height)
  }

  /** The bytes hold exactly the messages after the marker. */
  ghost predicate LeftAfter(c: Codec, ms: seq<Msg>, height: int, left: seq<Byte>) {
    exists k :: 0 <= k < |ms| && Marks(ms[k], height) && EncodeAll(c, ms[k + 1..]) == Some(left)
  }

  /** The height of the last marker, if there is one. */
  function LastMarker(ms: seq<Msg>): Option<int> {
    if ms == [] then None
    else if ms[|ms| - 1].EndHeight? then Some(ms[|ms| - 1].height)
    else LastMarker(ms[..|ms| - 1])
  }

  lemma {:induction false} LastMarkerAt(ms: seq<Msg>) returns (k: nat)
    requires LastMarker(ms).Some?
    ensures k < |ms| && Marks(ms[k], LastMarker(ms).value) && forall j | k < j < |ms| :: !ms[j].EndHeight?
  {
    if ms[|ms| - 1].EndHeight? {
      k := |ms| - 1;
    } else {
      k := LastMarkerAt(ms[..|ms| - 1]);
    }
  }

  lemma {:induction false} LastMarkerOfConcat(a: seq<Msg>, b: seq<Msg>)
    ensures LastMarker(a + b) == if LastMarker(b).Some? then LastMarker(b) else LastMarker(a)
  {
    if b == [] {
      assert a + b == a;
    } else {
      LastMarkerOfConcat(a, b[..|b| - 1]);
      assert (a + b)[..|a + b| - 1] == a + b[..|b| - 1];
    }
  }

  /** Positive markers never go down; height 0 may be marked anywhere. */
  ghost predicate MarkersRise(ms: seq<Msg>) {
    forall i, j | 0 <= i < j < |ms| && ms[i].EndHeight? && ms[j].EndHeight? && ms[i].height > 0 && ms[j].height > 0 ::
      ms[i].height <= ms[j].height
  }

  /** Seeing a lower positive marker at the end rules the height out everywhere. */
  lemma LowerMarkerSettles(ms: seq<Msg>, height: int)
    requires MarkersRise(ms) && LastMarker(ms).Some? && 0 < LastMarker(ms).value < height
    ensures !Marked(ms, height)
  {
    var last := LastMarkerAt(ms);
    forall k | 0 <= k < |ms| ensures !Marks(ms[k], height) {
      if ms[k].EndHeight? {
        assert k <= last;
      }
    }
  }

  lemma NextRecord(c: Codec, ms: seq<Msg>, k: nat)
    requires c.Valid() && k <= |ms| && EncodeAll(c, ms[k..]).Some?
    ensures k == |ms| ==> Decode(c, Group, EncodeAll(c, ms[k..]).value) == Eof
    ensures k < |ms| ==> EncodeAll(c, ms[k + 1..]).Some?
    ensures k < |ms| ==> Decode(c, Group, EncodeAll(c, ms[k..]).value) == Message(ms[k], EncodeAll(c, ms[k + 1..]).value)
  {
    if k < |ms| {
      assert ms[k..][0] == ms[k] && ms[k..][1..] == ms[k + 1..];
      DecodeOne(c, Group, ms[k], EncodeAll(c, ms[k + 1..]).value);
    }
  }

  /** The last marker among the messages, or the one seen before them. */
  function SeenLast(ms: seq<Msg>, before: int): int {
    if LastMarker(ms).Some? then LastMarker(ms).value else before
  }

  lemma StartScan(ms: seq<Msg>, height: int, last: int)
    ensures !Marked(ms[..0], height) && SeenLast(ms[..0], last) == last
  {
  }

  lemma OneMore(ms: seq<Msg>, k: nat, height: int, last: int)
    requires k < |ms|
    ensures Marked(ms[..k + 1], height) <==> Marked(ms[..k], height) || Marks(ms[k], height)
    ensures SeenLast(ms[..k + 1], last) == if ms[k].EndHeight? then ms[k].height else SeenLast(ms[..k], last)
  {
    var a, b := ms[..k], ms[..k + 1];
    assert b[..k] == a && b[k] == ms[k];
    assert forall i | 0 <= i < k :: b[i] == a[i];
  }

  datatype Scan = Found(left: seq<Byte>) | Missing(last: int)

  /** One reader of the group, read to the marker or to the end. `last` is the marker seen last so far. */
  method ScanFrom(c: Codec, bytes: seq<Byte>, height: int, last: int, ghost ms: seq<Msg>) returns (r: Scan)
    requires c.Valid() && EncodeAll(c, ms) == Some(bytes)
    ensures r.Found? <==> Marked(ms, height)
    ensures r.Found? ==> LeftAfter(c, ms, height, r.left)
    ensures r.Missing? ==> r.last == SeenLast(ms, last)
  {
    var reader := new Reader(Group, bytes);
    var seen := last;
    ghost var k := 0;
    assert ms[0..] == ms;
    hide Decode, EncodeAll, SeenLast;
    StartScan(ms, height, last);
    while true
      invariant k <= |ms| && EncodeAll(c, ms[k..]) == Some(reader.left) && reader.src == Group
      invariant !Marked(ms[..k], height) && seen == SeenLast(ms[..k], last)
      decreases |ms| - k
    {
      NextRecord(c, ms, k);
      var d := reader.DecodeNext(c);
      if !d.Message? {
        assert ms[..k] == ms;
        return Missing(seen);
      }
      OneMore(ms, k, height, last);
      if d.message.EndHeight? {
        seen := d.message.height;
        if seen == height {
          assert Marks(ms[k], height);
          return Found(reader.left);
        }
      }
      k := k + 1;
    }
  }

  /**
   The search starts with the newest file, and stops early once the newest marker is
   too low. On an uncorrupted log it finds a positive height exactly if it is marked.
   */
  method SearchForEndHeight(c: Codec, files: seq<seq<Byte>>, height: int, ghost records: seq<seq<Msg>>) returns (r: Option<seq<Byte>>)
    requires c.Valid() && Holds(c, files, records)
    ensures height > 0 && MarkersRise(Concat(records)) ==> (r.Some? <==> Marked(Concat(records), height))
    ensures r.Some? ==> LeftAfter(c, Concat(records), height, r.value)
  {
    ghost var all := Concat(records);
    var last := -1;
    var index := |files|;
    NoRecords(records, height);
    assert |files| == |records|;
    hide *;
    while index > 0
      invariant 0 <= index <= |files| == |records|
      invariant !Marked(Concat(records[index..]), height) && last == SeenLast(Concat(records[index..]), -1)
    {
      index := index - 1;
      ghost var ms := Concat(records[index..]);
      ReadFrom(c, files, records, index);
      var scan := ScanFrom(c, Concat(files[index..]), height, last, ms);
      if scan.Found? {
        FoundIn(c, records, index, height, scan.left);
        return Some(scan.left);
      }
      LastSeen(records, index, last);
      last := scan.last;
      if last > 0 && last < height {
        StopEarly(records, index, height, last);
        return None;
      }
    }
    assert records[0..] == records;
    return None;
  }

  lemma NoRecords(records: seq<seq<Msg>>, height: int)
    ensures !Marked(Concat(records[|records|..]), height) && SeenLast(Concat(records[|records|..]), -1) == -1
  {
  }

  lemma ReadFrom(c: Codec, files: seq<seq<Byte>>, records: seq<seq<Msg>>, index: nat)
    requires Holds(c, files, records) && index < |files|
    ensures |files| == |records| && EncodeAll(c, Concat(records[index..])) == Some(Concat(files[index..]))
  {
    GroupReads(c, files[index..], records[index..]);
  }

  lemma SuffixFound(c: Codec, before: seq<Msg>, ms: seq<Msg>, height: int, left: seq<Byte>)
    requires LeftAfter(c, ms, height, left)
    ensures Marked(before + ms, height) && LeftAfter(c, before + ms, height, left)
  {
    hide EncodeAll;
    var all := before + ms;
    var k :| 0 <= k < |ms| && Marks(ms[k], height) && EncodeAll(c, ms[k + 1..]) == Some(left);
    var j := |before| + k;
    assert Marks(all[j], height) && all[j + 1..] == ms[k + 1..];
  }

  lemma FoundIn(c: Codec, records: seq<seq<Msg>>, index: nat, height: int, left: seq<Byte>)
    requires index < |records|
    requires LeftAfter(c, Concat(records[index..]), height, left)
    ensures Marked(Concat(records), height) && LeftAfter(c, Concat(records), height, left)
  {
    hide Concat, EncodeAll;
    ConcatFrom(records, index);
    SuffixFound(c, Concat(records[..index]), Concat(records[index..]), height, left);
  }

  lemma LastSeen(records: seq<seq<Msg>>, index: nat, last: int)
    requires index < |records| && last == SeenLast(Concat(records[index + 1..]), -1)
    ensures SeenLast(Concat(records[index..]), last) == SeenLast(Concat(records[index..]), -1)
  {
    assert records[index..][1..] == records[index + 1..];
    LastMarkerOfConcat(records[index], Concat(records[index + 1..]));
  }

  lemma StopEarly(records: seq<seq<Msg>>, index: nat, height: int, last: int)
    requires index < |records| && last == SeenLast(Concat(records[index..]), -1) && 0 < last < height
    ensures MarkersRise(Concat(records)) ==> !Marked(Concat(records), height)
  {
    ConcatFrom(records, index);
    LastMarkerOfConcat(Concat(records[..index]), Concat(records[index..]));
    if MarkersRise(Concat(records)) {
      LowerMarkerSettles(Concat(records), height);
    }
  }

  // A codec, to show that there are any

  function Ones(n: nat): (s: seq<Byte>)
    ensures |s| == n && forall i | 0 <= i < n :: s[i] == 1
  {
    seq(n, _ => 1)
  }

  function Sign(x: int): Byte {
    if x < 0 then 1 else 0
  }

  function Size(x: int): nat {
    if x < 0 then -x else x
  }

  /** Two numbers in unary. */
  function Unary(tag: Byte, x: int, y: int): seq<Byte> {
    [tag, Sign(x), Sign(y)] + Ones(Size(x)) + [0] + Ones(Size(y))
  }

  lemma UnaryAt(tag: Byte, x: int, y: int, n: nat)
    ensures var a := Unary(tag, x, y);
      && |a| == 4 + Size(x) + Size(y) && a[0] == tag && a[1] == Sign(x) && a[2] == Sign(y) && a[3 + Size(x)] == 0
      && (n < Size(x) ==> a[3 + n] == 1)
  {
  }

  lemma UnaryInjective(tag: Byte, x: int, y: int, tag': Byte, x': int, y': int)
    requires Unary(tag, x, y) == Unary(tag', x', y')
    ensures tag == tag' && x == x' && y == y'
  {
    UnaryAt(tag, x, y, Size(x'));
    UnaryAt(tag', x', y', Size(x));
    hide Unary;
  }

  function MarshalUnary(m: Msg): seq<Byte> {
    match m
    case EndHeight(height, time) => Unary(0, height, time)
    case Other(data, time) => Unary(1, data, time)
  }

  ghost function ParseUnary(s: seq<Byte>): Option<Msg> {
    if exists m: Msg :: MarshalUnary(m) == s then
      var m: Msg :| MarshalUnary(m) == s;
      Some(m)
    else None
  }

  lemma SomeCodec() returns (c: Codec)
    ensures c.Valid()
  {
    c := Codec(m => MarshalUnary(m), s => ParseUnary(s), _ => 0);
    forall m: Msg, n: Msg | MarshalUnary(m) == MarshalUnary(n) ensures m == n {
      UnaryInjective(if m.EndHeight? then 0 else 1, if m.EndHeight? then m.height else m.data, m.time,
                     if n.EndHeight? then 0 else 1, if n.EndHeight? then n.height else n.data, n.time);
    }
  }
}
