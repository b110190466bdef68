/** The EXIF orientation of a JPEG, and the pixel maps that undo it. */
module Orientation {
  import opened Types

  type Byte = n: int | 0 <= n < 256

  // ---- numbers in the byte order of a TIFF header

  function U16(little: bool, a: Byte, b: Byte): nat {
    if little then a + 256 * b else 256 * a + b
  }

  function U32(little: bool, a: Byte, b: Byte, c: Byte, d: Byte): nat {
    if little then U16(true, a, b) + 0x1_0000 * U16(true, c, d) else 0x1_0000 * U16(false, a, b) + U16(false, c, d)
  }

  function U16At(little: bool, s: seq<Byte>, i: nat): nat
    requires i + 2 <= |s|
  {
    U16(little, s[i], s[i + 1])
  }

  function U32At(little: bool, s: seq<Byte>, i: nat): nat
    requires i + 4 <= |s|
  {
    U32(little, s[i], s[i + 1], s[i + 2], s[i + 3])
  }

  const ORIENTATION_TAG := 0x112
  const SHORT := 3
  const MAX_ENTRIES := 4096

  const EXIF_PREFIX: seq<Byte> := [0x45, 0x78, 0x69, 0x66, 0, 0]   // "Exif", 0, 0

  // ---- the meaning of a byte string

  function InRange(value: nat): int {
    if 1 <= value <= 8 then value else 1
  }

  /** The entries of an image file directory from `at` on; Some decides the orientation. */
  function Entries(tiff: seq<Byte>, little: bool, at: nat, count: nat): Option<int>
    decreases count
  {
    if count == 0 then None
    else if at + 12 > |tiff| then Some(1)
    else if U16At(little, tiff, at) == ORIENTATION_TAG && U16At(little, tiff, at + 2) == SHORT && U32At(little, tiff,
        at + 4) == 1
    then Some(InRange(U16At(little, tiff, at + 8)))
    else Entries(tiff, little, at + 12, count - 1)
  }

  predicate LittleMark(tiff: seq<Byte>) {
    |tiff| >= 2 && tiff[0] == 0x49 && tiff[1] == 0x49
  }

  predicate BigMark(tiff: seq<Byte>) {
    |tiff| >= 2 && tiff[0] == 0x4d && tiff[1] == 0x4d
  }

  function Tiff(tiff: seq<Byte>): Option<int> {
    if |tiff| < 8 || !(LittleMark(tiff) || BigMark(tiff)) then Some(1)
    else
      var little := LittleMark(tiff);
      var start := U32At(little, tiff, 4);
      if U16At(little, tiff, 2) != 42 || start + 2 > |tiff| then Some(1)
      else
        var count := U16At(little, tiff, start);
        if count > MAX_ENTRIES then Some(1) else Entries(tiff, little, start + 2, count)
  }

  predicate IsExif(marker: Byte, segment: seq<Byte>) {
    marker == 0xe1 && EXIF_PREFIX <= segment
  }

  /** The marker segments after SOI. */
  function Scan(data: seq<Byte>): int {
    if |data| < 4 || data[0] != 0xff || data[1] == 0xda || data[1] == 0xd9 then 1
    else
      var size := U16At(false, data, 2);
      if size < 2 || 2 + size > |data| then 1
      else
        var segment, rest := data[4..2 + size], data[2 + size..];
        if !IsExif(data[1], segment) then Scan(rest)
        else match Tiff(segment[6..])
          case Some(value) => value
          case None => Scan(rest)
  }

  function OrientationOf(raw: seq<Byte>): int {
    if |raw| < 4 || raw[0] != 0xff || raw[1] != 0xd8 then 1 else Scan(raw[2..])
  }

  // ---- the parser's loops

  method FindInTiff(tiff: seq<Byte>) returns (found: Option<int>)
    ensures found == Tiff(tiff)
    ensures found.Some? ==> 1 <= found.value <= 8
  {
    if |tiff| < 8 {
      return Some(1);
    }
    var little := false;
    if tiff[0] == 0x49 && tiff[1] == 0x49 {
      little := true;
    } else if !(tiff[0] == 0x4d && tiff[1] == 0x4d) {
      return Some(1);
    }
    if U16At(little, tiff, 2) != 42 {
      return Some(1);
    }
    var start := U32At(little, tiff, 4);
    if start + 2 > |tiff| {
      return Some(1);
    }
    var count := U16At(little, tiff, start);
    if count > 4096 {
      return Some(1);
    }
    for i := 0 to count
      invariant Tiff(tiff) == Entries(tiff, little, start + 2 + i * 12, count - i)
    {
      var at := start + 2 + i * 12;
      if at + 12 > |tiff| {
        return Some(1);
      }
      var tag := tiff[at..at + 12];
      TwelveBytes(tiff, at, little);
      if U16At(little, tag, 0) == 0x112 && U16At(little, tag, 2) == 3 && U32At(little, tag, 4) == 1 {
        var value := U16At(little, tag, 8);
        if value >= 1 && value <= 8 {
          return Some(value);
        }
        return Some(1);
      }
    }
    found := None;
  }

  /** For every byte string the parser ends, reads nothing out of range, and answers 1 to 8. */
  method JpegOrientation(raw: seq<Byte>) returns (orientation: int)
    ensures orientation == OrientationOf(raw)
    ensures 1 <= orientation <= 8
  {
    if |raw| < 4 || raw[0] != 0xff || raw[1] != 0xd8 {
      return 1;
    }
    var offset := 2;
    while offset + 4 <= |raw|
      invariant 2 <= offset <= |raw|
      invariant OrientationOf(raw) == Scan(raw[offset..])
      decreases |raw| - offset
    {
      ghost var data := raw[offset..];
      if raw[offset] != 0xff {
        return 1;
      }
      var marker := raw[offset + 1];
      if marker == 0xda || marker == 0xd9 {
        return 1;
      }
      var size := U16At(false, raw, offset + 2);
      if size < 2 || offset + 2 + size > |raw| {
        return 1;
      }
      var segment := raw[offset + 4..offset + 2 + size];
      assert segment == data[4..2 + size] && raw[offset + 2 + size..] == data[2 + size..];
      offset := offset + 2 + size;
      if marker != 0xe1 || !(EXIF_PREFIX <= segment) {
        continue;
      }
      var found := FindInTiff(segment[6..]);
      if found.Some? {
        return found.value;
      }
    }
    orientation := 1;
  }

  // ---- well-formed headers

  function E16(little: bool, v: nat): seq<Byte>
    requires v < 0x1_0000
  {
    if little then [v % 256, v / 256] else [v / 256, v % 256]
  }

  function E32(little: bool, v: nat): seq<Byte>
    requires v < 0x1_0000_0000
  {
    if little then E16(true, v % 0x1_0000) + E16(true, v / 0x1_0000)
    else E16(false, v / 0x1_0000) + E16(false, v % 0x1_0000)
  }

  /** A directory entry: tag, type, count, and the four value bytes. */
  datatype Entry = Entry(tag: nat, kind: nat, count: nat, value: seq<Byte>)

  predicate ValidEntry(e: Entry) {
    e.tag < 0x1_0000 && e.kind < 0x1_0000 && e.count < 0x1_0000_0000 && |e.value| == 4
  }

  predicate AllValid(entries: seq<Entry>) {
    forall i :: 0 <= i < |entries| ==> ValidEntry(entries[i])
  }

  function EncodeEntry(little: bool, e: Entry): (r: seq<Byte>)
    requires ValidEntry(e)
    ensures |r| == 12
  {
    E16(little, e.tag) + E16(little, e.kind) + E32(little, e.count) + e.value
  }

  function EncodeEntries(little: bool, entries: seq<Entry>): (r: seq<Byte>)
    requires AllValid(entries)
    ensures |r| == 12 * |entries|
  {
    if entries == [] then [] else EncodeEntry(little, entries[0]) + EncodeEntries(little, entries[1..])
  }

  /** A marker segment: an EXIF one with a directory after `gap` bytes and `tail` behind it, or any other. */
  datatype Segment =
    | Exif(little: bool, gap: seq<Byte>, entries: seq<Entry>, tail: seq<Byte>)
    | Other(marker: Byte, body: seq<Byte>)

  function TiffOf(s: Segment): seq<Byte>
    requires ValidSegment(s) && s.Exif?
  {
    Mark(s.little) + E16(s.little, 42) + E32(s.little, 8 + |s.gap|)
    + s.gap + E16(s.little, |s.entries|) + EncodeEntries(s.little, s.entries) + s.tail
  }

  predicate ValidSegment(s: Segment) {
    match s
    case Exif(little, gap, entries, tail) =>
      && AllValid(entries)
      && 2 + 6 + 8 + |gap| + 2 + 12 * |entries| + |tail| < 0x1_0000
    case Other(marker, body) =>
      marker != 0xda && marker != 0xd9 && !IsExif(marker, body) && 2 + |body| < 0x1_0000
  }

  predicate ValidSegments(segments: seq<Segment>) {
    forall i :: 0 <= i < |segments| ==> ValidSegment(segments[i])
  }

  function EncodeSegment(s: Segment): seq<Byte>
    requires ValidSegment(s)
  {
    match s
    case Exif(_, _, _, _) => Framed(0xe1, EXIF_PREFIX + TiffOf(s))
    case Other(marker, body) => Framed(marker, body)
  }

  /** B.1.1.4 of ITU-T T.81: a marker, and a two-byte length that counts itself and the body. */
  function Framed(marker: Byte, body: seq<Byte>): seq<Byte>
    requires 2 + |body| < 0x1_0000
  {
    [0xff, marker] + E16(false, 2 + |body|) + body
  }

  function Encode(segments: seq<Segment>, rest: seq<Byte>): seq<Byte>
    requires ValidSegments(segments)
  {
    if segments == [] then rest else EncodeSegment(segments[0]) + Encode(segments[1..], rest)
  }

  // ---- what a header says

  predicate IsOrientation(e: Entry) {
    e.tag == ORIENTATION_TAG && e.kind == SHORT && e.count == 1
  }

  /** The first orientation entry decides. */
  function Says(little: bool, entries: seq<Entry>): Option<int>
    requires AllValid(entries)
  {
    if entries == [] then None
    else if IsOrientation(entries[0]) then
      var value := U16At(little, entries[0].value, 0);
      Some(if value == 0 || value > 8 then 1 else value)
    else Says(little, entries[1..])
  }

  /** What is read of an EXIF segment: its first orientation entry, unless its directory has more entries
      than the parser accepts; then the orientation is 1 whatever they say. */
  function Reads(s: Segment): Option<int>
    requires ValidSegment(s) && s.Exif?
  {
    if |s.entries| > MAX_ENTRIES then Some(1) else Says(s.little, s.entries)
  }

  /** The first EXIF segment that has an orientation entry decides; without one it is `otherwise`. */
  function HeaderSays(segments: seq<Segment>, otherwise: int): int
    requires ValidSegments(segments)
  {
    if segments == [] then otherwise
    else
      var first := segments[0];
      if first.Exif? && Reads(first).Some? then Reads(first).value
      else HeaderSays(segments[1..], otherwise)
  }

  // ---- the parser reads what a header says

  lemma RoundTrip16(little: bool, v: nat)
    requires v < 0x1_0000
    ensures U16At(little, E16(little, v), 0) == v
  {
  }

  lemma RoundTrip32(little: bool, v: nat)
    requires v < 0x1_0000_0000
    ensures |E32(little, v)| == 4 && U32At(little, E32(little, v), 0) == v
  {
    RoundTrip16(little, v % 0x1_0000);
    RoundTrip16(little, v / 0x1_0000);
  }

  /** Reading inside a slice. */
  lemma SliceFields(s: seq<Byte>, from: nat, to: nat, i: nat, little: bool)
    requires from <= to <= |s|
    ensures from + i + 2 <= to ==> U16At(little, s[from..to], i) == U16At(little, s, from + i)
    ensures from + i + 4 <= to ==> U32At(little, s[from..to], i) == U32At(little, s, from + i)
  {
  }

  lemma TwelveBytes(tiff: seq<Byte>, at: nat, little: bool)
    requires at + 12 <= |tiff|
    ensures var tag := tiff[at..at + 12];
            && U16At(little, tag, 0) == U16At(little, tiff, at) && U16At(little, tag, 2) == U16At(little, tiff, at + 2)
            && U32At(little, tag, 4) == U32At(little, tiff, at + 4)
                 && U16At(little, tag, 8) == U16At(little, tiff, at + 8)
  {
    SliceFields(tiff, at, at + 12, 0, little);
    SliceFields(tiff, at, at + 12, 2, little);
    SliceFields(tiff, at, at + 12, 4, little);
    SliceFields(tiff, at, at + 12, 8, little);
  }

  lemma EntryFields(little: bool, e: Entry)
    requires ValidEntry(e)
    ensures var b := EncodeEntry(little, e);
            && U16At(little, b, 0) == e.tag && U16At(little, b, 2) == e.kind
            && U32At(little, b, 4) == e.count && U16At(little, b, 8) == U16At(little, e.value, 0)
  {
    RoundTrip16(little, e.tag);
    RoundTrip16(little, e.kind);
    RoundTrip32(little, e.count);
    var b := EncodeEntry(little, e);
    assert b[0..2] == E16(little, e.tag) && b[2..4] == E16(little, e.kind) && b[4..8] == E32(little, e.count)
        && b[8..12] == e.value;
    SliceFields(b, 0, 2, 0, little);
    SliceFields(b, 2, 4, 0, little);
    SliceFields(b, 4, 8, 0, little);
    SliceFields(b, 8, 12, 0, little);
  }

  lemma FirstEntry(before: seq<Byte>, little: bool, e: Entry, after: seq<Byte>, count: nat)
    requires ValidEntry(e) && count >= 1
    ensures var tiff := before + EncodeEntry(little, e) + after;
            Entries(tiff, little, |before|, count) ==
              if IsOrientation(e) then Some(InRange(U16At(little, e.value, 0)))
              else Entries(tiff, little, |before| + 12, count - 1)
  {
    var tiff := before + EncodeEntry(little, e) + after;
    assert tiff[|before|..|before| + 12] == EncodeEntry(little, e);
    EntryFields(little, e);
    TwelveBytes(tiff, |before|, little);
  }

  lemma Regroup<T>(a: seq<T>, b: seq<T>, c: seq<T>, d: seq<T>)
    ensures a + (b + c) + d == a + b + (c + d)
    ensures a + (b + c) + d == (a + b) + c + d
  {
  }

  lemma {:induction false} EntriesRead(before: seq<Byte>, little: bool, entries: seq<Entry>, tail: seq<Byte>)
    requires AllValid(entries)
    ensures Entries(before + EncodeEntries(little, entries) + tail, little, |before|, |entries|) ==
            Says(little, entries)
    decreases |entries|
  {
    if entries != [] {
      var first := EncodeEntry(little, entries[0]);
      var others := EncodeEntries(little, entries[1..]);
      EntriesRead(before + first, little, entries[1..], tail);
      FirstEntry(before, little, entries[0], others + tail, |entries|);
      Regroup(before, first, others, tail);
    }
  }

  lemma Middle<T>(a: seq<T>, b: seq<T>, c: seq<T>)
    ensures (a + b + c)[|a|..|a| + |b|] == b
  {
  }

  /** The parts of a TIFF header stand where its fields say. */
  lemma HeaderParts(mark: seq<Byte>, magic: seq<Byte>, offset: seq<Byte>, gap: seq<Byte>, count: seq<Byte>,
                    rest: seq<Byte>)
    requires |mark| == 2 && |magic| == 2 && |offset| == 4 && |count| == 2
    ensures var t := mark + magic + offset + gap + count + rest;
            && t[..2] == mark && t[2..4] == magic && t[4..8] == offset && t[8 + |gap|..10 + |gap|] == count
  {
    var t := mark + magic + offset + gap + count + rest;
    assert t == mark + magic + (offset + gap + count + rest);
    Middle(mark, magic, offset + gap + count + rest);
    assert t == (mark + magic) + offset + (gap + count + rest);
    Middle(mark + magic, offset, gap + count + rest);
    Middle(mark + magic + offset + gap, count, rest);
  }

  function Mark(little: bool): seq<Byte> {
    if little then [0x49, 0x49] else [0x4d, 0x4d]
  }

  lemma TiffRead(s: Segment)
    requires ValidSegment(s) && s.Exif?
    ensures Tiff(TiffOf(s)) == Reads(s)
  {
    var little, start := s.little, 8 + |s.gap|;
    var body := EncodeEntries(little, s.entries);
    var before := Mark(little) + E16(little, 42) + E32(little, start) + s.gap + E16(little, |s.entries|);
    RoundTrip32(little, start);
    Regrouped(before, body, s.tail);
    HeaderParts(Mark(little), E16(little, 42), E32(little, start), s.gap, E16(little, |s.entries|), body + s.tail);
    MarkRead(TiffOf(s), little);
    HeaderFields(TiffOf(s), little, start, |s.entries|);
    EntriesRead(before, little, s.entries, s.tail);
  }

  lemma Regrouped<T>(a: seq<T>, b: seq<T>, c: seq<T>)
    ensures a + b + c == a + (b + c)
  {
  }

  lemma MarkRead(t: seq<Byte>, little: bool)
    requires |t| >= 2 && t[..2] == Mark(little)
    ensures if little then LittleMark(t) else BigMark(t)
  {
    assert t[0] == t[..2][0] && t[1] == t[..2][1];
  }

  lemma HeaderFields(t: seq<Byte>, little: bool, start: nat, count: nat)
    requires start + 2 <= |t| && 8 <= start < 0x1_0000_0000 && count < 0x1_0000
    requires if little then LittleMark(t) else BigMark(t)
    requires t[2..4] == E16(little, 42) && t[4..8] == E32(little, start) && t[start..start + 2] == E16(little, count)
    ensures Tiff(t) == if count > MAX_ENTRIES then Some(1) else Entries(t, little, start + 2, count)
  {
    RoundTrip16(little, 42);
    RoundTrip32(little, start);
    RoundTrip16(little, count);
    SliceFields(t, 2, 4, 0, little);
    SliceFields(t, 4, 8, 0, little);
    SliceFields(t, start, start + 2, 0, little);
    assert U16At(little, t, 2) == 42 && U32At(little, t, 4) == start && U16At(little, t, start) == count;
    MarksDiffer(t);
  }

  lemma MarksDiffer(t: seq<Byte>)
    ensures !(LittleMark(t) && BigMark(t))
  {
  }

  lemma FrameRead(marker: Byte, body: seq<Byte>, rest: seq<Byte>)
    requires 2 + |body| < 0x1_0000 && marker != 0xda && marker != 0xd9
    ensures Scan(Framed(marker, body) + rest) ==
              if !IsExif(marker, body) then Scan(rest)
              else match Tiff(body[6..]) case Some(value) => value case None => Scan(rest)
  {
    var data := Framed(marker, body) + rest;
    RoundTrip16(false, 2 + |body|);
    assert data[2..4] == E16(false, 2 + |body|);
    SliceFields(data, 2, 4, 0, false);
    assert data[4..4 + |body|] == body && data[4 + |body|..] == rest;
  }

  /** The parser returns what a well-formed header without fill bytes says: the first orientation entry of its
      first EXIF segment that has one (Section 2 of TIFF 6.0), 1 for a directory of more than 4096 entries, and
      otherwise what the rest of the data gives. */
  lemma {:induction false} HeaderRead(segments: seq<Segment>, rest: seq<Byte>)
    requires ValidSegments(segments)
    ensures Scan(Encode(segments, rest)) == HeaderSays(segments, Scan(rest))
  {
    if segments != [] {
      var first, others := segments[0], segments[1..];
      HeaderRead(others, rest);
      match first
      case Exif(_, _, _, _) =>
        var body := EXIF_PREFIX + TiffOf(first);
        FrameRead(0xe1, body, Encode(others, rest));
        assert body[6..] == TiffOf(first) && body[..6] == EXIF_PREFIX;
        TiffRead(first);
      case Other(marker, body) =>
        FrameRead(marker, body, Encode(others, rest));
    }
  }

  /** A whole file: SOI, the header's segments, then the scan. */
  lemma FileRead(segments: seq<Segment>, scan: seq<Byte>)
    requires ValidSegments(segments)
    ensures OrientationOf([0xff, 0xd8] + Encode(segments, [0xff, 0xda, 0, 0] + scan)) == HeaderSays(segments, 1)
  {
    var data := Encode(segments, [0xff, 0xda, 0, 0] + scan);
    HeaderRead(segments, [0xff, 0xda, 0, 0] + scan);
    EncodeLength(segments, [0xff, 0xda, 0, 0] + scan);
    assert ([0xff, 0xd8] + data)[2..] == data;
  }

  lemma {:induction false} EncodeLength(segments: seq<Segment>, rest: seq<Byte>)
    requires ValidSegments(segments)
    ensures |Encode(segments, rest)| >= |rest|
  {
    if segments != [] {
      EncodeLength(segments[1..], rest);
    }
  }

  // ---- fill bytes

  /** B.1.1.2 of ITU-T T.81 lets any number of 0xff bytes precede a marker. */
  function Fill(n: nat): (r: seq<Byte>)
    ensures |r| == n
  {
    seq(n, _ => 0xff)
  }

  function MarkerOf(s: Segment): Byte {
    if s.Exif? then 0xe1 else s.marker
  }

  function BodyOf(s: Segment): seq<Byte>
    requires ValidSegment(s)
  {
    if s.Exif? then EXIF_PREFIX + TiffOf(s) else s.body
  }

  /** Behind fill bytes the parser takes the second 0xff for the marker, and the next two bytes for the length. */
  function WrongLength(n: nat, s: Segment): nat
    requires n > 0 && ValidSegment(s)
  {
    if n == 1 then 256 * MarkerOf(s) + (2 + |BodyOf(s)|) / 256
    else if n == 2 then 0xff00 + MarkerOf(s)
    else 0xffff
  }

  /** What the parser makes of a segment behind `n` fill bytes: it stops with 1 when the wrong length does not
      fit, and otherwise goes on that many bytes later, wherever that is. */
  function Misread(n: nat, s: Segment, rest: seq<Byte>): int
    requires n > 0 && ValidSegment(s)
  {
    var data := Fill(n) + EncodeSegment(s) + rest;
    var size := WrongLength(n, s);
    if size < 2 || 2 + size > |data| then 1 else Scan(data[2 + size..])
  }

  lemma FilledBytes(n: nat, s: Segment, rest: seq<Byte>)
    requires n > 0 && ValidSegment(s)
    ensures var data := Fill(n) + EncodeSegment(s) + rest;
            |data| >= 5 && data[0] == 0xff && data[1] == 0xff && U16At(false, data, 2) == WrongLength(n, s)
  {
    var data := Fill(n) + EncodeSegment(s) + rest;
    var frame := EncodeSegment(s);
    assert frame == Framed(MarkerOf(s), BodyOf(s));
    assert frame[0] == 0xff && frame[1] == MarkerOf(s) && frame[2] == (2 + |BodyOf(s)|) / 256;
    assert data[n] == frame[0] && data[n + 1] == frame[1] && data[n + 2] == frame[2];
    assert forall i :: 0 <= i < n ==> data[i] == 0xff;
  }

  /** 0xff is no EXIF marker. */
  lemma WrongMarkerScan(data: seq<Byte>, size: nat)
    requires |data| >= 4 && data[0] == 0xff && data[1] == 0xff && size == U16At(false, data, 2)
    ensures Scan(data) == if size < 2 || 2 + size > |data| then 1 else Scan(data[2 + size..])
  {
  }

  lemma FilledScan(n: nat, s: Segment, rest: seq<Byte>)
    requires n > 0 && ValidSegment(s)
    ensures Scan(Fill(n) + EncodeSegment(s) + rest) == Misread(n, s, rest)
  {
    FilledBytes(n, s, rest);
    WrongMarkerScan(Fill(n) + EncodeSegment(s) + rest, WrongLength(n, s));
  }

  /** A file whose header has fill bytes before one of its segments reads as the segments before say, and without
      an orientation there as the misread rest of the data gives. */
  lemma FilledRead(before: seq<Segment>, n: nat, s: Segment, rest: seq<Byte>)
    requires ValidSegments(before) && n > 0 && ValidSegment(s)
    ensures OrientationOf([0xff, 0xd8] + Encode(before, Fill(n) + EncodeSegment(s) + rest)) ==
              HeaderSays(before, Misread(n, s, rest))
  {
    var after := Fill(n) + EncodeSegment(s) + rest;
    var data := Encode(before, after);
    HeaderRead(before, after);
    FilledScan(n, s, rest);
    FilledBytes(n, s, rest);
    EncodeLength(before, after);
    assert ([0xff, 0xd8] + data)[2..] == data;
  }

  /** One of the segments has an orientation. */
  predicate Decides(segments: seq<Segment>)
    requires ValidSegments(segments)
  {
    exists i :: 0 <= i < |segments| && segments[i].Exif? && Reads(segments[i]).Some?
  }

  lemma {:induction false} DecidedSays(segments: seq<Segment>, x: int, y: int)
    requires ValidSegments(segments)
    ensures if Decides(segments) then HeaderSays(segments, x) == HeaderSays(segments, y)
            else HeaderSays(segments, x) == x
    decreases |segments|
  {
    if segments != [] && !(segments[0].Exif? && Reads(segments[0]).Some?) {
      DecidedSays(segments[1..], x, y);
      if Decides(segments) {
        var i :| 0 <= i < |segments| && segments[i].Exif? && Reads(segments[i]).Some?;
        assert segments[1..][i - 1] == segments[i];
      } else {
        assert forall i :: 0 <= i < |segments| - 1 ==> segments[1..][i] == segments[i + 1];
      }
    }
  }

  lemma {:induction false} SaysSplit(first: seq<Segment>, second: seq<Segment>, otherwise: int)
    requires ValidSegments(first) && ValidSegments(second)
    ensures ValidSegments(first + second)
    ensures HeaderSays(first + second, otherwise) == HeaderSays(first, HeaderSays(second, otherwise))
    decreases |first|
  {
    if first == [] {
      assert first + second == second;
    } else {
      assert (first + second)[1..] == first[1..] + second;
      SaysSplit(first[1..], second, otherwise);
    }
  }

  /** The file with and without `n` fill bytes before segment `s`. */
  function FileOf(before: seq<Segment>, n: nat, s: Segment, others: seq<Segment>, scan: seq<Byte>): seq<Byte>
    requires ValidSegments(before) && ValidSegment(s) && ValidSegments(others)
  {
    [0xff, 0xd8] + Encode(before, Fill(n) + EncodeSegment(s) + Encode(others, [0xff, 0xda, 0, 0] + scan))
  }

  /** Fill bytes leave the orientation as it is exactly when an earlier segment decides it, or the misread rest
      gives by chance what the segment and those after it say. */
  lemma FilledIsStillReadIff(before: seq<Segment>, n: nat, s: Segment, others: seq<Segment>, scan: seq<Byte>)
    requires ValidSegments(before) && n > 0 && ValidSegment(s) && ValidSegments(others)
    ensures OrientationOf(FileOf(before, 0, s, others, scan)) == HeaderSays(before + ([s] + others), 1)
    ensures OrientationOf(FileOf(before, n, s, others, scan)) == OrientationOf(FileOf(before, 0, s, others, scan)) <==>
              Decides(before) || Misread(n, s, Encode(others, [0xff, 0xda, 0, 0] + scan)) == HeaderSays([s] + others, 1)
  {
    var end := [0xff, 0xda, 0, 0] + scan;
    var rest := Encode(others, end);
    FilledRead(before, n, s, rest);
    UnfilledFile(before, s, others, scan);
    FileRead(before + ([s] + others), scan);
    SaysSplit(before, [s] + others, 1);
    DecidedSays(before, Misread(n, s, rest), HeaderSays([s] + others, 1));
    DecidedSays(before, HeaderSays([s] + others, 1), 1);
  }

  lemma UnfilledFile(before: seq<Segment>, s: Segment, others: seq<Segment>, scan: seq<Byte>)
    requires ValidSegments(before) && ValidSegment(s) && ValidSegments(others)
    ensures FileOf(before, 0, s, others, scan) == [0xff, 0xd8]
            + Encode(before + ([s] + others), [0xff, 0xda, 0, 0] + scan)
  {
    var end := [0xff, 0xda, 0, 0] + scan;
    assert Fill(0) + EncodeSegment(s) + Encode(others, end) == EncodeSegment(s) + Encode(others, end);
    assert ([s] + others)[1..] == others;
    EncodeSplit(before, [s] + others, end);
  }

  lemma {:induction false} EncodeSplit(first: seq<Segment>, second: seq<Segment>, rest: seq<Byte>)
    requires ValidSegments(first) && ValidSegments(second)
    ensures Encode(first + second, rest) == Encode(first, Encode(second, rest))
    decreases |first|
  {
    if first == [] {
      assert first + second == second;
    } else {
      assert (first + second)[1..] == first[1..] + second;
      EncodeSplit(first[1..], second, rest);
    }
  }

  /** Before an EXIF segment the wrong length is at least 57600. In every file that ends within so many bytes
      the fill is harmless exactly when an earlier segment decides, or the header says 1 from there on. */
  lemma FillHidesOrientationIff(before: seq<Segment>, n: nat, s: Segment, others: seq<Segment>, scan: seq<Byte>)
    requires ValidSegments(before) && n > 0 && ValidSegment(s) && s.Exif? && ValidSegments(others)
    requires n + |EncodeSegment(s)| + |Encode(others, [0xff, 0xda, 0, 0] + scan)| < 57602
    ensures OrientationOf(FileOf(before, n, s, others, scan)) == HeaderSays(before, 1)
    ensures OrientationOf(FileOf(before, n, s, others, scan)) == OrientationOf(FileOf(before, 0, s, others, scan)) <==>
              Decides(before) || HeaderSays([s] + others, 1) == 1
  {
    FilledRead(before, n, s, Encode(others, [0xff, 0xda, 0, 0] + scan));
    FilledIsStillReadIff(before, n, s, others, scan);
  }

  /** A file whose header says 6, byte by byte. */
  const SIX_FILE: seq<Byte> :=
    [0xff, 0xd8, 0xff, 0xe1, 0, 34, 0x45, 0x78, 0x69, 0x66, 0, 0, 0x4d, 0x4d, 0, 42, 0, 0, 0, 8, 0, 1,
     0x01, 0x12, 0, 3, 0, 0, 0, 1, 0, 6, 0, 0, 0, 0, 0, 0, 0xff, 0xda, 0, 0]

  lemma SixTiff(s: Segment)
    requires s == Exif(false, [], [Entry(0x112, 3, 1, [0, 6, 0, 0])], [0, 0, 0, 0])
    ensures ValidSegment(s)
    ensures TiffOf(s) == [0x4d, 0x4d, 0, 42, 0, 0, 0, 8, 0, 1] + [0x01, 0x12, 0, 3, 0, 0, 0, 1, 0, 6, 0, 0]
            + [0, 0, 0, 0]
  {
    assert EncodeEntries(false, s.entries[1..]) == [];
    assert EncodeEntry(false, s.entries[0]) == [0x01, 0x12, 0, 3, 0, 0, 0, 1, 0, 6, 0, 0];
    assert EncodeEntries(false, s.entries) == [0x01, 0x12, 0, 3, 0, 0, 0, 1, 0, 6, 0, 0];
    assert E16(false, 42) == [0, 42] && E32(false, 8) == [0, 0, 0, 8] && E16(false, 1) == [0, 1];
  }

  /** Six is read from it. */
  lemma SixFileRead()
    ensures OrientationOf(SIX_FILE) == 6
  {
    var s := Exif(false, [], [Entry(0x112, 3, 1, [0, 6, 0, 0])], [0, 0, 0, 0]);
    SixTiff(s);
    var frame := EncodeSegment(s);
    assert frame == [0xff, 0xe1, 0, 34] + ([0x45, 0x78, 0x69, 0x66, 0, 0] + TiffOf(s));
    SixBytes(frame, TiffOf(s));
    FileRead([s], []);
    assert [s][1..] == [];
    assert Encode([s], [0xff, 0xda, 0, 0] + []) == frame + [0xff, 0xda, 0, 0];
    assert Reads(s) == Some(6);
    assert HeaderSays([s], 1) == 6;
  }

  lemma SixBytes(frame: seq<Byte>, tiff: seq<Byte>)
    requires frame == [0xff, 0xe1, 0, 34] + ([0x45, 0x78, 0x69, 0x66, 0, 0] + tiff)
    requires tiff == [0x4d, 0x4d, 0, 42, 0, 0, 0, 8, 0, 1] + [0x01, 0x12, 0, 3, 0, 0, 0, 1, 0, 6, 0, 0] + [0, 0, 0, 0]
    ensures SIX_FILE == [0xff, 0xd8] + (frame + [0xff, 0xda, 0, 0])
  {
  }

  /** A file whose header says 6 and that is read as 1 for one fill byte. */
  lemma FilledSix()
    ensures var s := Exif(false, [], [Entry(ORIENTATION_TAG, SHORT, 1, [0, 6, 0, 0])], []);
            && ValidSegment(s)
            && OrientationOf(FileOf([], 0, s, [], [])) == 6 && OrientationOf(FileOf([], 1, s, [], [])) == 1
  {
    var s := Exif(false, [], [Entry(ORIENTATION_TAG, SHORT, 1, [0, 6, 0, 0])], []);
    assert ValidSegment(s);
    FilledIsStillReadIff([], 1, s, [], []);
    assert [] + ([s] + []) == [s];
    assert Reads(s) == Some(6);
    assert HeaderSays([s], 1) == 6;
    FillHidesOrientationIff([], 1, s, [], []);
  }

  // ---- pixels

  datatype Point = Point(x: int, y: int)

  datatype Size = Size(w: nat, h: nat)

  predicate Inside(p: Point, s: Size) {
    0 <= p.x < s.w && 0 <= p.y < s.h
  }

  /** orientImage: the size of the upright picture. */
  function Upright(orientation: int, source: Size): Size {
    if 5 <= orientation <= 8 then Size(source.h, source.w) else source
  }

  /** orientedImage.At: the stored pixel that an upright pixel shows. */
  function StoredAt(orientation: int, source: Size, p: Point): Point {
    match orientation
    case 2 => Point(source.w - 1 - p.x, p.y)
    case 3 => Point(source.w - 1 - p.x, source.h - 1 - p.y)
    case 4 => Point(p.x, source.h - 1 - p.y)
    case 5 => Point(p.y, p.x)
    case 6 => Point(p.y, source.h - 1 - p.x)
    case 7 => Point(source.w - 1 - p.y, source.h - 1 - p.x)
    case 8 => Point(source.w - 1 - p.y, p.x)
    case _ => p
  }

  function Inverse(orientation: int): int {
    match orientation
    case 6 => 8
    case 8 => 6
    case _ => orientation
  }

  /** Each map is a bijection between the upright grid and the stored grid: its inverse is the map of the
      inverse orientation, which swaps 6 and 8 and is the orientation itself otherwise. */
  lemma MapsAreBijections(orientation: int, source: Size, p: Point, q: Point)
    requires Inside(p, Upright(orientation, source)) && Inside(q, source)
    ensures Inside(StoredAt(orientation, source, p), source)
    ensures StoredAt(Inverse(orientation), Upright(orientation, source), StoredAt(orientation, source, p)) == p
    ensures Inside(StoredAt(Inverse(orientation), Upright(orientation, source), q), Upright(orientation, source))
    ensures StoredAt(orientation, source, StoredAt(Inverse(orientation), Upright(orientation, source), q)) == q
    ensures Upright(Inverse(orientation), Upright(orientation, source)) == source
  {
  }

  datatype Side = Top | Bottom | Left | Right

  /** Section 8 of TIFF 6.0, Orientation: the visual side that row 0 of the stored picture represents. */
  function RowZero(orientation: int): Side {
    match orientation
    case 1 => Top
    case 2 => Top
    case 3 => Bottom
    case 4 => Bottom
    case 5 => Left
    case 6 => Right
    case 7 => Right
    case 8 => Left
    case _ => Top
  }

  /** ... and the side that column 0 represents. */
  function ColumnZero(orientation: int): Side {
    match orientation
    case 1 => Left
    case 2 => Right
    case 3 => Right
    case 4 => Left
    case 5 => Top
    case 6 => Top
    case 7 => Bottom
    case 8 => Bottom
    case _ => Left
  }

  /** How far a pixel is from a side. */
  function Distance(side: Side, p: Point, s: Size): int {
    match side
    case Top => p.y
    case Bottom => s.h - 1 - p.y
    case Left => p.x
    case Right => s.w - 1 - p.x
  }

  /** The stored row of an upright pixel is its distance from the side where row 0 belongs, and its stored
      column the distance from the side where column 0 belongs. */
  lemma MapsPlaceRowsAndColumns(orientation: int, source: Size, p: Point)
    requires 1 <= orientation <= 8 && Inside(p, Upright(orientation, source))
    ensures StoredAt(orientation, source, p) ==
              Point(Distance(ColumnZero(orientation), p, Upright(orientation, source)),
                    Distance(RowZero(orientation), p, Upright(orientation, source)))
  {
  }
}
