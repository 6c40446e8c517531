/**
 * `probeJpeg` of packages/core/src/media-store.ts: the marker walk that finds the dimensions of
 * a JPEG. The grammar it is held against is that of sections B.1.1 and B.2.2 of ITU-T T.81.
 */
module JpegProbe {
  import opened Prelude

  type Byte = n: nat | n < 256

  datatype Size = Size(width: nat, height: nat)

  /** Markers that stand alone: SOI, TEM and the eight restart markers. */
  predicate IsStandalone(marker: Byte) {
    marker == 0xd8 || marker == 0x01 || 0xd0 <= marker <= 0xd7
  }

  /** Markers that open a frame header; C4, C8 and CC are DHT, JPG and DAC. */
  predicate IsSof(marker: Byte) {
    0xc0 <= marker <= 0xcf && marker != 0xc4 && marker != 0xc8 && marker != 0xcc
  }

  /** End of image and start of scan: no frame header comes any more. */
  predicate EndsHeaders(marker: Byte) {
    marker == 0xd9 || marker == 0xda
  }

  /** Table B.1 of ITU-T T.81: the thirteen frame headers, and the markers without a segment. */
  lemma MarkersOfTableB1(marker: Byte)
    ensures IsSof(marker) <==>
            marker in {0xc0, 0xc1, 0xc2, 0xc3, 0xc5, 0xc6, 0xc7, 0xc9, 0xca, 0xcb, 0xcd, 0xce, 0xcf}
    ensures IsStandalone(marker) <==>
            marker in {0x01, 0xd0, 0xd1, 0xd2, 0xd3, 0xd4, 0xd5, 0xd6, 0xd7, 0xd8}
    ensures EndsHeaders(marker) <==> marker in {0xd9, 0xda}
  {
  }

  function U16(s: seq<Byte>, i: nat): nat
    requires i + 1 < |s|
  {
    var high: nat := s[i];
    256 * high + s[i + 1]
  }

  // The grammar

  /** What may stand between SOI and the frame header. */
  datatype Item = Fill | Standalone(marker: Byte) | Segment(marker: Byte, payload: seq<Byte>)

  predicate WellFormed(item: Item) {
    match item
    case Fill => true
    case Standalone(m) => IsStandalone(m)
    case Segment(m, payload) => m != 0xff && !IsStandalone(m) && !EndsHeaders(m) && !IsSof(m) && |payload| + 2 < 0x1_0000
  }

  /** A segment's length field counts itself and the payload, not the marker. */
  function Encode(item: Item): (s: seq<Byte>)
    requires WellFormed(item)
    ensures |s| >= 1 && s[0] == 0xff
  {
    match item
    case Fill => [0xff]
    case Standalone(m) => [0xff, m]
    case Segment(m, payload) => [0xff, m, (|payload| + 2) / 256, (|payload| + 2) % 256] + payload
  }

  function EncodeAll(items: seq<Item>): seq<Byte>
    requires forall item :: item in items ==> WellFormed(item)
  {
    if items == [] then [] else Encode(items[0]) + EncodeAll(items[1..])
  }

  /** `s` begins with a frame header up to its two dimensions: marker, length, precision, height, width. */
  predicate OpensFrame(s: seq<Byte>, size: Size) {
    && |s| >= 9 && s[0] == 0xff && IsSof(s[1]) && U16(s, 2) >= 2
    && size == Size(U16(s, 7), U16(s, 5)) && size.width > 0 && size.height > 0
  }

  predicate Decomposes(buf: seq<Byte>, items: seq<Item>, frame: seq<Byte>) {
    && (forall item :: item in items ==> WellFormed(item))
    && buf == [0xff, 0xd8] + EncodeAll(items) + frame
  }

  /** The dimensions the grammar assigns to `buf`. */
  ghost predicate Declares(buf: seq<Byte>, size: Size) {
    exists items, frame :: Decomposes(buf, items, frame) && OpensFrame(frame, size)
  }

  // The walk

  /** What the walk answers from a cursor with `s` still ahead of it. */
  function Scan(s: seq<Byte>): Option<Size> {
    if |s| < 2 || s[0] != 0xff then None
    else if s[1] == 0xff then Scan(s[1..])
    else if IsStandalone(s[1]) then Scan(s[2..])
    else if EndsHeaders(s[1]) || |s| < 4 || U16(s, 2) < 2 then None
    else if IsSof(s[1]) then
      if |s| < 9 || U16(s, 5) == 0 || U16(s, 7) == 0 then None else Some(Size(U16(s, 7), U16(s, 5)))
    else if |s| < 2 + U16(s, 2) then None
    else Scan(s[2 + U16(s, 2)..])
  }

  function Probe(buf: seq<Byte>): Option<Size> {
    if |buf| < 4 || buf[0] != 0xff || buf[1] != 0xd8 then None else Scan(buf[2..])
  }

  method ProbeJpeg(buf: seq<Byte>) returns (size: Option<Size>)
    ensures size == Probe(buf)
  {
    if |buf| < 4 || buf[0] != 0xff || buf[1] != 0xd8 {
      return None;
    }
    var i := 2;
    while i + 1 < |buf|
      invariant 2 <= i
      invariant i <= |buf| ==> Scan(buf[i..]) == Probe(buf)
      invariant i > |buf| ==> Probe(buf) == None
    {
      ghost var s := buf[i..];
      if buf[i] != 0xff {
        return None;
      }
      var marker := buf[i + 1];
      if marker == 0xff {
        assert s[1..] == buf[i + 1..];
        i := i + 1;
        continue;
      }
      if IsStandalone(marker) {
        assert s[2..] == buf[i + 2..];
        i := i + 2;
        continue;
      }
      if EndsHeaders(marker) {
        return None;
      }
      if i + 3 >= |buf| {
        return None;
      }
      var segLen := U16(buf, i + 2);
      assert segLen == U16(s, 2);
      if segLen < 2 {
        return None;
      }
      if IsSof(marker) {
        if i + 8 >= |buf| {
          return None;
        }
        var height, width := U16(buf, i + 5), U16(buf, i + 7);
        assert height == U16(s, 5) && width == U16(s, 7);
        return if width > 0 && height > 0 then Some(Size(width, height)) else None;
      }
      if i + 2 + segLen <= |buf| {
        assert s[2 + segLen..] == buf[i + 2 + segLen..];
      }
      i := i + 2 + segLen;
    }
    size := None;
  }

  // The walk against the grammar

  lemma ScanSkipsItem(item: Item, s: seq<Byte>)
    requires WellFormed(item) && |s| >= 1 && s[0] == 0xff
    ensures Scan(Encode(item) + s) == Scan(s)
  {
    var t := Encode(item) + s;
    match item
    case Fill =>
      assert t[1..] == s;
    case Standalone(m) =>
      assert t[2..] == s;
    case Segment(m, payload) =>
      var n := |payload| + 2;
      assert t[2] == n / 256 && t[3] == n % 256;
      assert U16(t, 2) == n;
      assert t[2 + n..] == s;
  }

  lemma {:induction false} ScanSkipsItems(items: seq<Item>, s: seq<Byte>)
    requires (forall item :: item in items ==> WellFormed(item)) && |s| >= 1 && s[0] == 0xff
    ensures Scan(EncodeAll(items) + s) == Scan(s)
  {
    if items == [] {
      assert EncodeAll(items) + s == s;
    } else {
      var rest := EncodeAll(items[1..]) + s;
      assert EncodeAll(items) + s == Encode(items[0]) + rest;
      assert rest[0] == 0xff by {
        if items[1..] != [] {
          assert EncodeAll(items[1..])[0] == Encode(items[1])[0];
        }
      }
      ScanSkipsItem(items[0], rest);
      ScanSkipsItems(items[1..], s);
    }
  }

  lemma Prepend(item: Item, items: seq<Item>, s: seq<Byte>, rest: seq<Byte>, frame: seq<Byte>)
    requires WellFormed(item) && forall i :: i in items ==> WellFormed(i)
    requires s == Encode(item) + rest && rest == EncodeAll(items) + frame
    ensures forall i :: i in [item] + items ==> WellFormed(i)
    ensures s == EncodeAll([item] + items) + frame
  {
    assert ([item] + items)[1..] == items;
    assert s == (Encode(item) + EncodeAll(items)) + frame;
  }

  /** The items the walk stepped over, when it found a frame. */
  lemma {:induction false} ScanFindsItems(s: seq<Byte>) returns (items: seq<Item>, frame: seq<Byte>)
    requires Scan(s).Some?
    ensures forall item :: item in items ==> WellFormed(item)
    ensures s == EncodeAll(items) + frame && OpensFrame(frame, Scan(s).value)
  {
    if s[1] == 0xff {
      items, frame := ScanFindsItems(s[1..]);
      Prepend(Fill, items, s, s[1..], frame);
      items := [Fill] + items;
    } else if IsStandalone(s[1]) {
      items, frame := ScanFindsItems(s[2..]);
      Prepend(Standalone(s[1]), items, s, s[2..], frame);
      items := [Standalone(s[1])] + items;
    } else if IsSof(s[1]) {
      items, frame := [], s;
    } else {
      var n := U16(s, 2);
      var item := Segment(s[1], s[4..2 + n]);
      assert Encode(item) == s[..2 + n];
      items, frame := ScanFindsItems(s[2 + n..]);
      Prepend(item, items, s, s[2 + n..], frame);
      items := [item] + items;
    }
  }

  lemma DeclaredIsProbed(buf: seq<Byte>, items: seq<Item>, frame: seq<Byte>, size: Size)
    requires Decomposes(buf, items, frame) && OpensFrame(frame, size)
    ensures Probe(buf) == Some(size)
  {
    ScanSkipsItems(items, frame);
    assert buf == [0xff, 0xd8] + (EncodeAll(items) + frame);
    assert buf[2..] == EncodeAll(items) + frame;
  }

  lemma ProbedIsDeclared(buf: seq<Byte>, size: Size)
    requires Probe(buf) == Some(size)
    ensures Declares(buf, size)
  {
    var items, frame := ScanFindsItems(buf[2..]);
    assert buf == [0xff, 0xd8] + buf[2..];
    assert buf == [0xff, 0xd8] + EncodeAll(items) + frame;
    assert Decomposes(buf, items, frame);
  }

  /** The walk answers a size exactly when the grammar declares it, for every buffer. */
  lemma ProbeIffDeclared(buf: seq<Byte>, size: Size)
    ensures Probe(buf) == Some(size) <==> Declares(buf, size)
  {
    if Probe(buf) == Some(size) {
      ProbedIsDeclared(buf, size);
    }
    if Declares(buf, size) {
      var items, frame :| Decomposes(buf, items, frame) && OpensFrame(frame, size);
      DeclaredIsProbed(buf, items, frame, size);
    }
  }

  lemma DeclaresStays(buf: seq<Byte>, size: Size, tail: seq<Byte>)
    requires Declares(buf, size)
    ensures Declares(buf + tail, size)
  {
    var items, frame :| Decomposes(buf, items, frame) && OpensFrame(frame, size);
    DecomposesOn(buf, items, frame, tail);
    OpensOn(frame, size, tail);
  }

  lemma DecomposesOn(buf: seq<Byte>, items: seq<Item>, frame: seq<Byte>, tail: seq<Byte>)
    requires Decomposes(buf, items, frame)
    ensures Decomposes(buf + tail, items, frame + tail)
  {
    var front := [0xff, 0xd8] + EncodeAll(items);
    assert front + frame + tail == front + (frame + tail);
  }

  lemma OpensOn(frame: seq<Byte>, size: Size, tail: seq<Byte>)
    requires OpensFrame(frame, size)
    ensures OpensFrame(frame + tail, size)
  {
  }

  /** So no buffer has two readings, and nothing behind the dimensions changes the one it has. */
  lemma DimensionsAreUnique(buf: seq<Byte>, size: Size, other: Size, tail: seq<Byte>)
    requires Declares(buf, size)
    ensures Declares(buf + tail, other) <==> other == size
  {
    DeclaresStays(buf, size, tail);
    ProbeIffDeclared(buf + tail, size);
    ProbeIffDeclared(buf + tail, other);
  }
}
