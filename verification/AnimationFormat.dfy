/**
 The bicycle0 animation format: frames with saturating run merging, the bytes
 they are stored as, and a decoder that reads those bytes back.
 */
module AnimationFormat {
  import opened Bytes
  import opened Wrappers

  type Image = seq<byte>

  /** One stored record; a frame handed to the encoder has the same shape. */
  datatype Record = Record(pixels: Image, duration: byte)

  const MAX_BYTE := 255
  const HEADER_LENGTH := 36
  const SECTIONS_LENGTH := 21
  const FIRST_FRAME := 57
  const SIGNATURE: seq<byte> := [98, 105, 99, 121, 99, 108, 101, 48]      // "bicycle0"
  const SECTION_NAME: seq<byte> := [100, 101, 102, 97, 117, 108, 116]     // "default"

  function Effective(d: byte): (r: byte)
    ensures r >= 1
  {
    if d == 0 then 1 else d
  }

  // Display sequences.

  function Repeat(image: Image, n: nat): (r: seq<Image>)
    ensures |r| == n && forall i :: 0 <= i < n ==> r[i] == image
  {
    seq(n, i => image)
  }

  /** The display sequence of a record list: each image for as long as its duration. */
  function Expand(records: seq<Record>): seq<Image> {
    if records == [] then [] else Repeat(records[0].pixels, records[0].duration) + Expand(records[1..])
  }

  /** What the caller asked to see: every frame for its effective duration. */
  function Display(frames: seq<Record>): seq<Image> {
    if frames == [] then []
    else
      var n := |frames| - 1;
      Display(frames[..n]) + Repeat(frames[n].pixels, Effective(frames[n].duration))
  }

  lemma {:induction false} ExpandConcat(a: seq<Record>, b: seq<Record>)
    ensures Expand(a + b) == Expand(a) + Expand(b)
    decreases |a|
  {
    if a == [] {
      assert a + b == b;
    } else {
      assert (a + b)[1..] == a[1..] + b;
      ExpandConcat(a[1..], b);
    }
  }

  lemma ExpandOne(r: Record)
    ensures Expand([r]) == Repeat(r.pixels, r.duration)
  {
    assert [r][1..] == [];
  }

  // Run merging.

  /** Appends one frame: fill the last record's duration byte first, then start a new record. */
  function Push(records: seq<Record>, image: Image, d: byte): seq<Record>
    requires d >= 1
  {
    var n := |records| - 1;
    if records != [] && records[n].pixels == image then
      var added := Min(d, MAX_BYTE - records[n].duration);
      var merged := records[..n] + [Record(image, records[n].duration + added)];
      if d > added then merged + [Record(image, d - added)] else merged
    else records + [Record(image, d)]
  }

  function Min(a: int, b: int): int { if a < b then a else b }

  function Encode(frames: seq<Record>): seq<Record> {
    if frames == [] then []
    else
      var n := |frames| - 1;
      Push(Encode(frames[..n]), frames[n].pixels, Effective(frames[n].duration))
  }

  ghost predicate Positive(records: seq<Record>) {
    forall i :: 0 <= i < |records| ==> records[i].duration >= 1
  }

  /** Within a run of equal images every record but the last has duration 255. */
  ghost predicate Saturated(records: seq<Record>) {
    && Positive(records)
    && forall i :: 0 <= i < |records| - 1 && records[i].pixels == records[i + 1].pixels ==>
                     records[i].duration == MAX_BYTE
  }

  lemma RepeatSum(image: Image, a: nat, b: nat)
    ensures Repeat(image, a + b) == Repeat(image, a) + Repeat(image, b)
  {
  }

  lemma PushExpands(records: seq<Record>, image: Image, d: byte)
    requires d >= 1
    ensures Expand(Push(records, image, d)) == Expand(records) + Repeat(image, d)
  {
    var n := |records| - 1;
    if records != [] && records[n].pixels == image {
      var added := Min(d, MAX_BYTE - records[n].duration);
      var last, filled, rest := records[n], Record(image, records[n].duration + added), Record(image, d - added);
      assert records == records[..n] + [last];
      ExpandConcat(records[..n], [last]);
      ExpandConcat(records[..n], [filled]);
      ExpandConcat(records[..n] + [filled], [rest]);
      ExpandOne(last); ExpandOne(filled); ExpandOne(rest);
      RepeatSum(image, last.duration, added);
      RepeatSum(image, added, d - added);
    } else {
      ExpandConcat(records, [Record(image, d)]);
      ExpandOne(Record(image, d));
    }
  }

  lemma PushSaturates(records: seq<Record>, image: Image, d: byte)
    requires d >= 1 && Saturated(records)
    ensures Saturated(Push(records, image, d))
    ensures |records| <= |Push(records, image, d)| <= |records| + 1
  {
  }

  /** Encoding shows exactly what was asked for, in saturated records. */
  lemma {:induction false} EncodeIsFaithful(frames: seq<Record>)
    ensures Expand(Encode(frames)) == Display(frames)
    ensures Saturated(Encode(frames))
    ensures frames != [] ==> Encode(frames) != []
    ensures frames != [] ==> Encode(frames)[|Encode(frames)| - 1].pixels == frames[|frames| - 1].pixels
    decreases |frames|
  {
    if frames != [] {
      var n := |frames| - 1;
      EncodeIsFaithful(frames[..n]);
      PushExpands(Encode(frames[..n]), frames[n].pixels, Effective(frames[n].duration));
      PushSaturates(Encode(frames[..n]), frames[n].pixels, Effective(frames[n].duration));
    }
  }

  /**
   Saturated lists are shortest, even against lists that show `k` extra images
   first: the first saturated record reaches at least as far as any other list's.
   */
  lemma {:induction false} SaturatedIsShortest(c: seq<Record>, r: seq<Record>, k: nat)
    requires Saturated(c) && Positive(r) && k <= |Expand(r)| && Expand(r)[k..] == Expand(c)
    ensures |c| <= |r|
    decreases |r|
  {
    if r == [] || c == [] {
    } else if k >= r[0].duration {
      assert Expand(r)[k..] == Expand(r[1..])[k - r[0].duration..];
      SaturatedIsShortest(c, r[1..], k - r[0].duration);
    } else {
      var m := r[0].duration - k;
      FirstRecordReaches(c, r, k);
      assert Expand(c)[c[0].duration..] == Expand(c[1..]);
      assert Expand(r)[k..][c[0].duration..] == Expand(r[1..])[c[0].duration - m..];
      SaturatedIsShortest(c[1..], r[1..], c[0].duration - m);
    }
  }

  lemma FirstRecordReaches(c: seq<Record>, r: seq<Record>, k: nat)
    requires Saturated(c) && Positive(r) && c != [] && r != [] && k < r[0].duration && k <= |Expand(r)|
    requires Expand(r)[k..] == Expand(c)
    ensures c[0].duration >= r[0].duration - k
  {
    assert c[0].pixels == Expand(c)[0] == r[0].pixels;
    assert Expand(c) == Repeat(c[0].pixels, c[0].duration) + Expand(c[1..]);
    assert |c| > 1 ==> Expand(c)[c[0].duration] == c[1].pixels;
    assert forall i :: 0 <= i < r[0].duration - k ==> Expand(c)[i] == r[0].pixels;
  }

  /** No list of records with durations 1 to 255 shows the same frames in fewer records. */
  lemma EncodeIsMinimal(frames: seq<Record>, other: seq<Record>)
    requires Positive(other) && Expand(other) == Display(frames)
    ensures |Encode(frames)| <= |other|
  {
    EncodeIsFaithful(frames);
    assert Expand(other)[0..] == Expand(other);
    SaturatedIsShortest(Encode(frames), other, 0);
  }

  lemma {:induction false} EncodeGrows(frames: seq<Record>, n: nat)
    requires n <= |frames|
    ensures |Encode(frames[..n])| <= |Encode(frames)|
    ensures |Display(frames[..n])| <= |Display(frames)|
    decreases |frames|
  {
    if n == |frames| {
      assert frames[..n] == frames;
    } else {
      var m := |frames| - 1;
      assert frames[..m][..n] == frames[..n];
      EncodeGrows(frames[..m], n);
      EncodeIsFaithful(frames[..m]);
      PushSaturates(Encode(frames[..m]), frames[m].pixels, Effective(frames[m].duration));
    }
  }

  // Stored bytes.

  function RecordBytes(r: Record): seq<byte>
    requires |r.pixels| <= MAX_UINT16
  {
    [0, r.duration] + LE16(|r.pixels|) + r.pixels
  }

  ghost predicate Storable(records: seq<Record>) {
    forall i :: 0 <= i < |records| ==> |records[i].pixels| <= MAX_UINT16
  }

  function Serialize(records: seq<Record>): seq<byte>
    requires Storable(records)
  {
    if records == [] then []
    else Serialize(records[..|records| - 1]) + RecordBytes(records[|records| - 1])
  }

  /** The decoder for the frame chunk: each record carries its own length. */
  function ParseRecords(data: seq<byte>): Option<seq<Record>>
    decreases |data|
  {
    if data == [] then Some([])
    else if |data| < 4 || data[0] != 0 then None
    else
      var length := Read16(data[2..4]);
      if |data| < 4 + length then None
      else match ParseRecords(data[4 + length..])
        case None => None
        case Some(rest) => Some([Record(data[4..4 + length], data[1])] + rest)
  }

  lemma {:induction false} SerializeFront(r: Record, rest: seq<Record>)
    requires Storable([r] + rest) && Storable(rest) && |r.pixels| <= MAX_UINT16
    ensures Serialize([r] + rest) == RecordBytes(r) + Serialize(rest)
    decreases |rest|
  {
    var all := [r] + rest;
    if rest == [] {
      assert all[..0] == [];
    } else {
      var m := |rest| - 1;
      assert all[..|all| - 1] == [r] + rest[..m];
      SerializeFront(r, rest[..m]);
    }
  }

  lemma {:induction false} ParseSerialized(records: seq<Record>)
    requires Storable(records)
    ensures ParseRecords(Serialize(records)) == Some(records)
  {
    if records != [] {
      var r, rest := records[0], records[1..];
      assert records == [r] + rest;
      SerializeFront(r, rest);
      ParseSerialized(rest);
      var data := Serialize(records);
      ReadBack(|r.pixels|);
      assert data[2..4] == LE16(|r.pixels|);
      assert data[4..4 + |r.pixels|] == r.pixels;
      assert data[4 + |r.pixels|..] == Serialize(rest);
    }
  }

  /** The length in bytes of `count` records of `length` pixel bytes each. */
  function Chunk(length: nat, count: nat): nat {
    if count == 0 then 0 else Chunk(length, count - 1) + 4 + length
  }

  lemma {:induction false} ChunkIsProduct(length: nat, count: nat)
    ensures Chunk(length, count) == (4 + length) * count
  {
    if count > 0 { ChunkIsProduct(length, count - 1); }
  }

  lemma {:induction false} ChunkMonotone(length: nat, count: nat, count': nat)
    requires count <= count'
    ensures Chunk(length, count) <= Chunk(length, count')
    decreases count'
  {
    if count < count' { ChunkMonotone(length, count, count' - 1); }
  }

  lemma {:induction false} SerializedLength(records: seq<Record>, length: nat)
    requires Storable(records) && forall i :: 0 <= i < |records| ==> |records[i].pixels| == length
    ensures |Serialize(records)| == Chunk(length, |records|)
    decreases |records|
  {
    if records != [] {
      SerializedLength(records[..|records| - 1], length);
    }
  }

  // The whole file.

  datatype Section = Section(first: nat, last: nat, offset: nat, firstDuration: byte, name: seq<byte>)

  datatype Animation = Animation(
    width: byte, height: byte, fps: byte, frameLength: nat, framesLength: nat,
    encodedCount: nat, displayCount: nat, section: Section, records: seq<Record>)

  function Slice(data: seq<byte>, at: nat, n: nat): (r: seq<byte>)
    requires at + n <= |data|
    ensures |r| == n
  {
    data[at..at + n]
  }

  /** The decoder: every field is read at its offset and every length is followed. */
  function Parse(data: seq<byte>): Option<Animation> {
    if |data| < FIRST_FRAME || Slice(data, 0, 8) != SIGNATURE || data[11] != 0 then None
    else
      var sectionsLength := Read32(Slice(data, 16, 4));
      var framesLength := Read32(Slice(data, 20, 4));
      if sectionsLength != SECTIONS_LENGTH || Read32(Slice(data, 24, 4)) != 1 then None
      else
        var offset := Read32(Slice(data, 44, 4));
        if offset != HEADER_LENGTH + sectionsLength || |data| != offset + framesLength then None
        else match ParseRecords(data[offset..])
          case None => None
          case Some(records) =>
            Some(Animation(data[9], data[10], data[12], Read16(Slice(data, 13, 2)), framesLength,
                           Read32(Slice(data, 28, 4)), Read32(Slice(data, 32, 4)),
                           Section(Read32(Slice(data, 36, 4)), Read32(Slice(data, 40, 4)), offset, data[48],
                                   Slice(data, 49, 7)),
                           records))
  }

  /** The sizes and counts that the first pass puts into the header and the section. */
  datatype Metadata = Metadata(width: byte, height: byte, fps: byte, frameLength: nat, framesLength: nat,
                               encodedCount: nat, displayCount: nat)

  ghost predicate InRange(m: Metadata) {
    && m.frameLength <= MAX_UINT16 && m.framesLength <= MAX_UINT32
    && m.encodedCount <= MAX_UINT32 && 0 < m.displayCount <= MAX_UINT32
  }

  /** `data` holds the metadata at the format's offsets. */
  ghost predicate HasHeader(data: seq<byte>, m: Metadata)
    requires InRange(m)
  {
    && |data| >= FIRST_FRAME
    && Slice(data, 0, 8) == SIGNATURE && data[8] == 0 && data[15] == 0
    && data[9] == m.width && data[10] == m.height && data[11] == 0 && data[12] == m.fps
    && Slice(data, 13, 2) == LE16(m.frameLength)
    && Slice(data, 16, 4) == LE32(SECTIONS_LENGTH) && Slice(data, 20, 4) == LE32(m.framesLength)
    && Slice(data, 24, 4) == LE32(1) && Slice(data, 28, 4) == LE32(m.encodedCount)
    && Slice(data, 32, 4) == LE32(m.displayCount)
  }

  ghost predicate HasSection(data: seq<byte>, m: Metadata)
    requires InRange(m)
  {
    && |data| >= FIRST_FRAME
    && Slice(data, 36, 4) == LE32(0) && Slice(data, 40, 4) == LE32(m.displayCount - 1)
    && Slice(data, 44, 4) == LE32(FIRST_FRAME) && Slice(data, 49, 7) == SECTION_NAME
    && data[56] == 0
  }

  /** Decoding a file with this header, section and frame chunk. */
  lemma ParseFile(data: seq<byte>, m: Metadata, records: seq<Record>)
    requires InRange(m) && HasHeader(data, m) && HasSection(data, m) && Storable(records)
    requires |data| == FIRST_FRAME + m.framesLength && data[FIRST_FRAME..] == Serialize(records)
    ensures Parse(data) == Some(Animation(m.width, m.height, m.fps, m.frameLength, m.framesLength,
                                          m.encodedCount, m.displayCount,
                                          Section(0, m.displayCount - 1, FIRST_FRAME, data[48], SECTION_NAME),
                                          records))
  {
    ReadBack(m.frameLength); ReadBack(SECTIONS_LENGTH); ReadBack(m.framesLength); ReadBack(1);
    ReadBack(m.encodedCount); ReadBack(m.displayCount); ReadBack(0); ReadBack(m.displayCount - 1);
    ReadBack(FIRST_FRAME);
    ParseSerialized(records);
  }
}
