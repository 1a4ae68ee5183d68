/**
 The two-pass animation encoder: measure the frames, allocate, then write
 records in place at fixed offsets.
 */
module AnimationEncoder {
  import opened Bytes
  import opened AnimationFormat
  import opened AnimationLayout
  import opened Wrappers

  newtype uint64 = x: int | 0 <= x < 0x1_0000_0000_0000_0000

  const MAX_UINT64: uint64 := 0xFFFF_FFFF_FFFF_FFFF
  const MAX_INT64: uint64 := 0x7FFF_FFFF_FFFF_FFFF
  const MAX_FRAME_BYTES := 65535
  const DEFAULT_FPS := 30

  datatype EncodeError = InvalidConfig | NoFrames | LoadFailed | OutputTooLarge | FramesChanged

  /** What one call of the frame loader left in the pixel buffer. */
  datatype Loaded = Frame(frame: Record) | LoadError

  datatype Layout = Layout(sectionsLength: nat, framesLength: nat, outputLength: nat)

  datatype Result<T> = Ok(value: T) | Err(error: EncodeError)

  // Layout arithmetic.

  /** When `count` records of `length` bytes, shown `display` times, fit every field and limit. */
  predicate Fits(length: nat, count: nat, display: nat, maximum: nat) {
    && count <= MAX_UINT32 && display <= MAX_UINT32
    && Chunk(length, count) <= MAX_UINT32
    && HEADER_LENGTH + SECTIONS_LENGTH + Chunk(length, count) <= maximum
  }

  function LayoutFor(length: nat, count: nat): Layout {
    Layout(SECTIONS_LENGTH, Chunk(length, count), HEADER_LENGTH + SECTIONS_LENGTH + Chunk(length, count))
  }

  lemma ScaleMonotone(a: nat, b: nat, c: nat)
    requires a <= b
    ensures c * a <= c * b
  {
  }

  /** The checks are monotone: totals that fit never passed through totals that did not. */
  lemma FitsIsMonotone(length: nat, count: nat, display: nat, count': nat, display': nat, maximum: nat)
    requires Fits(length, count, display, maximum) && count' <= count && display' <= display
    ensures Fits(length, count', display', maximum)
  {
    ChunkMonotone(length, count', count);
  }

  /** Every intermediate value is a 64-bit unsigned integer: no operation wraps. */
  method CalculateLayout(length: uint64, count: uint64, display: uint64, maximum: uint64) returns (r: Result<Layout>)
    requires length <= 65535 && 0 < maximum <= MAX_INT64
    ensures r.Ok? <==> Fits(length as nat, count as nat, display as nat, maximum as nat)
    ensures r.Ok? ==> r.value == LayoutFor(length as nat, count as nat)
    ensures r.Err? ==> r.error == OutputTooLarge
  {
    var sections: uint64 := 13 + 7 + 1;
    if count > MAX_UINT32 as uint64 {
      return Err(OutputTooLarge);
    }
    if display > MAX_UINT32 as uint64 || display > MAX_INT64 {
      return Err(OutputTooLarge);
    }
    var record: uint64 := 4 + length;
    ProductBound(record as nat, count as nat);
    ChunkIsProduct(length as nat, count as nat);
    if count != 0 && record > MAX_UINT64 / count {
      return Err(OutputTooLarge);
    }
    var frames: uint64 := record * count;
    if frames > MAX_UINT32 as uint64 {
      return Err(OutputTooLarge);
    }
    var output: uint64 := 36 + sections + frames;
    if output > MAX_INT64 || output > maximum {
      return Err(OutputTooLarge);
    }
    r := Ok(Layout(sections as nat, frames as nat, output as nat));
  }

  lemma ProductBound(record: nat, count: nat)
    requires record <= 65539 && count <= MAX_UINT32
    ensures record * count <= 65539 * MAX_UINT32
    ensures count != 0 ==> record <= (MAX_UINT64 as int) / count
  {
    ScaleMonotone(count, MAX_UINT32, record);
    ScaleMonotone(record, 65539, MAX_UINT32);
    if count != 0 {
      var m := MAX_UINT64 as int;
      if m / count < record {
        ScaleMonotone(m / count + 1, record, count);
      }
    }
  }

  // First pass.

  /** The frames a loader delivers, if it delivers all of them at the right size. */
  ghost predicate Delivers(load: nat -> Loaded, n: nat, length: int) {
    forall i :: 0 <= i < n ==> load(i).Frame? && |load(i).frame.pixels| == length
  }

  ghost predicate RightSize(load: nat -> Loaded, n: nat, length: int) {
    forall i :: 0 <= i < n && load(i).Frame? ==> |load(i).frame.pixels| == length
  }

  function Frames(load: nat -> Loaded, n: nat): seq<Record>
    requires forall i :: 0 <= i < n ==> load(i).Frame?
  {
    seq(n, i requires 0 <= i < n => load(i).frame)
  }

  lemma FramesNext(load: nat -> Loaded, n: nat)
    requires forall i :: 0 <= i < n + 1 ==> load(i).Frame?
    ensures Frames(load, n + 1)[..n] == Frames(load, n)
    ensures Encode(Frames(load, n + 1))
         == Push(Encode(Frames(load, n)), load(n).frame.pixels, Effective(load(n).frame.duration))
    ensures |Display(Frames(load, n + 1))| == |Display(Frames(load, n))| + Effective(load(n).frame.duration)
  {
    assert Frames(load, n + 1)[..n] == Frames(load, n);
  }

  lemma FramesPrefix(load: nat -> Loaded, n: nat, m: nat)
    requires n <= m && forall i :: 0 <= i < m ==> load(i).Frame?
    ensures |Encode(Frames(load, n))| <= |Encode(Frames(load, m))|
    ensures |Display(Frames(load, n))| <= |Display(Frames(load, m))|
  {
    assert Frames(load, m)[..n] == Frames(load, n);
    EncodeGrows(Frames(load, m), n);
  }

  datatype Measured = Measured(layout: Layout, encoded: uint64, display: uint64)

  ghost predicate FitsAll(load: nat -> Loaded, n: nat, length: nat, maximum: nat)
    requires forall i :: 0 <= i < n ==> load(i).Frame?
  {
    Fits(length, |Encode(Frames(load, n))|, |Display(Frames(load, n))|, maximum)
  }

  /** `records` ends in `image` with the given duration. */
  ghost predicate EndsWith(records: seq<Record>, image: Image, duration: int) {
    records != [] && records[|records| - 1].pixels == image && records[|records| - 1].duration == duration
  }

  /** How far one frame overflows the last record's duration byte. */
  function Overflow(same: bool, last: int, d: int): int {
    if same then d - Min(d, MAX_BYTE - last) else d
  }

  lemma PushShape(records: seq<Record>, image: Image, d: byte, same: bool, last: int)
    requires d >= 1 && (same <==> records != [] && records[|records| - 1].pixels == image)
    requires same ==> EndsWith(records, image, last)
    ensures var over := Overflow(same, last, d);
            var pushed := Push(records, image, d);
            && (over > 0 ==> |pushed| == |records| + 1 && EndsWith(pushed, image, over))
            && (over == 0 ==> |pushed| == |records| && EndsWith(pushed, image, last + d))
  {
  }

  /** The counting half of run merging for one frame. */
  method MergeDuration(same: bool, last: int, d: int) returns (last': int, added: uint64)
    requires 1 <= d <= MAX_BYTE && 0 <= last <= MAX_BYTE
    ensures added == if Overflow(same, last, d) > 0 then 1 else 0
    ensures last' == if Overflow(same, last, d) > 0 then Overflow(same, last, d) else last + d
  {
    last', added := last, 0;
    var remaining := d;
    if same {
      var fill := Min(remaining, MAX_BYTE - last');
      last' := last' + fill;
      remaining := remaining - fill;
    }
    while remaining > 0
      invariant 0 <= remaining <= MAX_BYTE
      invariant remaining > 0 ==> added == 0 && remaining == Overflow(same, last, d)
      invariant remaining == 0 ==> added == if Overflow(same, last, d) > 0 then 1 else 0
      invariant remaining == 0 ==> last' == if Overflow(same, last, d) > 0 then Overflow(same, last, d) else last + d
    {
      last' := Min(remaining, MAX_BYTE);
      remaining := remaining - last';
      added := added + 1;
    }
  }

  /** The local variables of the first pass. */
  datatype Progress = Progress(previous: Image, havePrevious: bool, last: int, encoded: uint64, display: uint64)

  ghost predicate Tracks(p: Progress, records: seq<Record>, shown: nat) {
    && p.encoded as nat == |records| && p.display as nat == shown
    && 0 <= p.last <= MAX_BYTE && (p.havePrevious <==> records != [])
    && (p.havePrevious ==> EndsWith(records, p.previous, p.last))
  }

  /** One iteration of the first pass, after its load. */
  method MeasureFrame(p: Progress, image: Image, d: byte, ghost records: seq<Record>, ghost shown: nat)
    returns (next: Progress)
    requires d >= 1 && Tracks(p, records, shown)
    requires p.encoded as nat <= MAX_UINT32 && p.display as nat <= MAX_UINT32
    ensures Tracks(next, Push(records, image, d), shown + d)
  {
    var same := p.havePrevious && p.previous == image;
    PushShape(records, image, d, same, p.last);
    var last, added := MergeDuration(same, p.last, d);
    next := Progress(image, true, last, p.encoded + added, p.display + d as uint64);
  }

  ghost predicate MeasuredSoFar(load: nat -> Loaded, n: nat, encoded: uint64, display: uint64)
    requires forall i :: 0 <= i < n ==> load(i).Frame?
  {
    encoded as nat == |Encode(Frames(load, n))| && display as nat == |Display(Frames(load, n))|
  }

  /**
   Measures without storing. Checking the layout after every frame accepts
   exactly the inputs whose final totals fit.
   */
  method AnalyzeFrames(n: nat, length: nat, maximum: uint64, load: nat -> Loaded) returns (r: Result<Measured>)
    requires 0 < n && length <= MAX_FRAME_BYTES && 0 < maximum <= MAX_INT64
    requires RightSize(load, n, length)
    ensures r.Ok? <==> Delivers(load, n, length) && FitsAll(load, n, length, maximum as nat)
    ensures r.Ok? ==> MeasuredSoFar(load, n, r.value.encoded, r.value.display)
    ensures r.Ok? ==> r.value.layout == LayoutFor(length, r.value.encoded as nat)
    ensures r.Err? ==> (r.error == LoadFailed && !Delivers(load, n, length)) || r.error == OutputTooLarge
  {
    var p := Progress([], false, 0, 0, 0);
    var layout := Layout(0, 0, 0);
    var index := 0;
    ghost var records: seq<Record>, shown: nat := [], 0;
    while index < n
      invariant 0 <= index <= n && Delivers(load, index, length)
      invariant records == Encode(Frames(load, index)) && shown == |Display(Frames(load, index))|
      invariant Tracks(p, records, shown)
      invariant index > 0 ==> Fits(length, |records|, shown, maximum as nat) && layout == LayoutFor(length, |records|)
      invariant index == 0 ==> p.encoded == 0 && p.display == 0
    {
      var loaded := load(index);
      if loaded.LoadError? {
        return Err(LoadFailed);
      }
      FramesNext(load, index);
      var duration := Effective(loaded.frame.duration);
      p := MeasureFrame(p, loaded.frame.pixels, duration, records, shown);
      records, shown := Push(records, loaded.frame.pixels, duration), shown + duration;
      index := index + 1;
      var checked := CalculateLayout(length as uint64, p.encoded, p.display, maximum);
      if checked.Err? {
        TooLargeAlready(load, index, n, length, maximum as nat);
        return Err(checked.error);
      }
      layout := checked.value;
    }
    r := Ok(Measured(layout, p.encoded, p.display));
  }

  /** Once a prefix does not fit, the whole does not. */
  lemma TooLargeAlready(load: nat -> Loaded, n: nat, m: nat, length: nat, maximum: nat)
    requires n <= m && forall i :: 0 <= i < n ==> load(i).Frame?
    requires !FitsAll(load, n, length, maximum)
    ensures !(Delivers(load, m, length) && FitsAll(load, m, length, maximum))
  {
    if Delivers(load, m, length) && FitsAll(load, m, length, maximum) {
      FramesPrefix(load, n, m);
      FitsIsMonotone(length, |Encode(Frames(load, m))|, |Display(Frames(load, m))|,
                     |Encode(Frames(load, n))|, |Display(Frames(load, n))|, maximum);
    }
  }

  // Second pass.

  ghost predicate Uniform(records: seq<Record>, length: int) {
    forall i :: 0 <= i < |records| ==> |records[i].pixels| == length
  }

  lemma {:induction false} EncodeUniform(frames: seq<Record>, length: nat)
    requires Uniform(frames, length)
    ensures Uniform(Encode(frames), length)
    decreases |frames|
  {
    if frames != [] {
      EncodeUniform(frames[..|frames| - 1], length);
      PushUniform(Encode(frames[..|frames| - 1]), frames[|frames| - 1].pixels,
                  Effective(frames[|frames| - 1].duration), length);
    }
  }

  lemma PushUniform(records: seq<Record>, image: Image, d: byte, length: nat)
    requires d >= 1 && Uniform(records, length) && |image| == length
    ensures Uniform(Push(records, image, d), length)
  {
  }

  /** The frame chunk from `start` to `cursor` stores exactly `records`. */
  ghost predicate Stored(data: seq<byte>, start: nat, cursor: nat, records: seq<Record>, length: nat) {
    && length <= MAX_FRAME_BYTES && Uniform(records, length)
    && start <= cursor <= |data| && cursor == start + Chunk(length, |records|)
    && data[start..cursor] == Serialize(records)
  }

  /** The last record's duration byte, as the in-place update finds it. */
  lemma LastDuration(data: seq<byte>, start: nat, cursor: nat, records: seq<Record>, length: nat)
    requires Stored(data, start, cursor, records, length) && records != []
    ensures var at := cursor - 4 - length;
            start <= at && data[at + 1] == records[|records| - 1].duration
  {
    var n := |records| - 1;
    SerializedLength(records[..n], length);
    var at := Chunk(length, n);
    assert Serialize(records)[at + 1] == RecordBytes(records[n])[1];
    assert data[start..cursor][at + 1] == data[start + at + 1];
  }

  /** Changing that byte changes only the last record's duration. */
  lemma RestoredLast(data: seq<byte>, data': seq<byte>, start: nat, cursor: nat, records: seq<Record>, length: nat,
                     d: byte)
    requires Stored(data, start, cursor, records, length) && records != [] && cursor - 3 - length >= 0
    requires data' == data[cursor - 3 - length := d]
    ensures Stored(data', start, cursor,
                   records[..|records| - 1] + [Record(records[|records| - 1].pixels, d)], length)
  {
    var n := |records| - 1;
    var last := Record(records[n].pixels, d);
    var records' := records[..n] + [last];
    SerializedLength(records[..n], length);
    assert records'[..n] == records[..n];
    var front := Serialize(records[..n]);
    assert Serialize(records) == front + RecordBytes(records[n]);
    assert RecordBytes(last) == RecordBytes(records[n])[1 := d];
    assert data'[start..cursor] == data[start..cursor][|front| + 1 := d];
  }

  lemma StoredNext(data: seq<byte>, start: nat, cursor: nat, records: seq<Record>, length: nat, r: Record)
    requires Stored(data, start, cursor, records, length) && |r.pixels| == length
    requires cursor + 4 + length <= |data| && data[cursor..cursor + 4 + length] == RecordBytes(r)
    ensures Stored(data, start, cursor + 4 + length, records + [r], length)
  {
    assert (records + [r])[..|records|] == records;
    assert data[start..cursor + 4 + length] == data[start..cursor] + data[cursor..cursor + 4 + length];
  }

  /** Writes one record's header and pixels at `cursor`. */
  method WriteRecord(output: array<byte>, cursor: nat, r: Record)
    requires |r.pixels| <= MAX_FRAME_BYTES && cursor + 4 + |r.pixels| <= output.Length
    modifies output
    ensures output[..cursor] == old(output[..cursor])
    ensures output[cursor..cursor + 4 + |r.pixels|] == RecordBytes(r)
  {
    var length := |r.pixels|;
    output[cursor] := 0;
    output[cursor + 1] := r.duration;
    output[cursor + 2], output[cursor + 3] := length % 256, length / 256;
    forall i | 0 <= i < length {
      output[cursor + 4 + i] := r.pixels[i];
    }
  }

  /** Writes one record after the stored ones. */
  method AppendRecord(output: array<byte>, start: nat, cursor: nat, r: Record, ghost records: seq<Record>)
    requires Stored(output[..], start, cursor, records, |r.pixels|)
    requires cursor + 4 + |r.pixels| <= output.Length
    modifies output
    ensures output[..start] == old(output[..start])
    ensures Stored(output[..], start, cursor + 4 + |r.pixels|, records + [r], |r.pixels|)
  {
    ghost var before := output[..];
    WriteRecord(output, cursor, r);
    ghost var after := output[..];
    assert after[..cursor] == before[..cursor];
    assert after[..start] == after[..cursor][..start];
    assert after[start..cursor] == after[..cursor][start..] == before[start..cursor];
    StoredNext(after, start, cursor, records, |r.pixels|, r);
  }

  /** Adds as much of `d` as fits to the last record's duration byte, in place. */
  method FillLast(output: array<byte>, start: nat, cursor: nat, length: nat, d: byte, ghost records: seq<Record>)
    returns (added: byte, ghost filled: seq<Record>)
    requires Stored(output[..], start, cursor, records, length) && records != []
    modifies output
    ensures output[..start] == old(output[..start])
    ensures var last := records[|records| - 1];
            && added == Min(d, MAX_BYTE - last.duration)
            && filled == records[..|records| - 1] + [Record(last.pixels, last.duration + added)]
    ensures Stored(output[..], start, cursor, filled, length)
  {
    LastDuration(output[..], start, cursor, records, length);
    var at := cursor - 4 - length;
    added := Min(d, MAX_BYTE - output[at + 1]);
    RestoredLast(output[..], output[..][at + 1 := output[at + 1] + added], start, cursor, records, length,
                 output[at + 1] + added);
    filled := records[..|records| - 1] + [Record(records[|records| - 1].pixels, output[at + 1] + added)];
    ghost var after := output[..][at + 1 := output[at + 1] + added];
    output[at + 1] := output[at + 1] + added;
    assert output[..] == after;
  }

  function WithRest(records: seq<Record>, image: Image, remaining: int): seq<Record>
    requires 0 <= remaining <= MAX_BYTE
  {
    if remaining > 0 then records + [Record(image, remaining)] else records
  }

  /** Adds records for the display frames that did not fit the last record. */
  method AppendRest(output: array<byte>, start: nat, cursor: nat, image: Image, rest: int, ghost records: seq<Record>)
    returns (ok: bool, next: nat)
    requires 0 <= rest <= MAX_BYTE && Stored(output[..], start, cursor, records, |image|)
    modifies output
    ensures output[..start] == old(output[..start])
    ensures ok <==> start + Chunk(|image|, |WithRest(records, image, rest)|) <= output.Length
    ensures ok ==> Stored(output[..], start, next, WithRest(records, image, rest), |image|)
  {
    var remaining := rest;
    ok, next := true, cursor;
    ghost var current := records;
    while remaining > 0
      invariant 0 <= remaining <= MAX_BYTE
      invariant Stored(output[..], start, next, current, |image|) && output[..start] == old(output[..start])
      invariant WithRest(current, image, remaining) == WithRest(records, image, rest)
    {
      if next + 4 + |image| > output.Length {
        return false, next;
      }
      var duration := Min(remaining, MAX_BYTE);
      AppendRecord(output, start, next, Record(image, duration), current);
      current := current + [Record(image, duration)];
      next := next + 4 + |image|;
      remaining := remaining - duration;
    }
  }

  /** Writes one frame after `records`: fill the last record, then add records. */
  method WriteFrame(output: array<byte>, start: nat, cursor: nat, length: nat, same: bool, image: Image, d: byte,
                    ghost records: seq<Record>)
    returns (ok: bool, next: nat)
    requires d >= 1 && |image| == length && Stored(output[..], start, cursor, records, length)
    requires same <==> records != [] && records[|records| - 1].pixels == image
    modifies output
    ensures output[..start] == old(output[..start])
    ensures ok <==> start + Chunk(length, |Push(records, image, d)|) <= output.Length
    ensures ok ==> Stored(output[..], start, next, Push(records, image, d), length)
  {
    var remaining: int := d;
    ghost var current := records;
    if same {
      var added;
      added, current := FillLast(output, start, cursor, length, d, records);
      remaining := remaining - added;
    }
    assert Push(records, image, d) == WithRest(current, image, remaining);
    ok, next := AppendRest(output, start, cursor, image, remaining, current);
  }

  /** A buffer that is too short for the first frames is too short for all of them. */
  lemma OverrunStays(load: nat -> Loaded, n: nat, m: nat, length: nat, start: nat, size: nat)
    requires n <= m && Delivers(load, n, length)
    requires start + Chunk(length, |Encode(Frames(load, n))|) > size
    ensures !(Delivers(load, m, length) && start + Chunk(length, |Encode(Frames(load, m))|) == size)
  {
    if Delivers(load, m, length) {
      FramesPrefix(load, n, m);
      ChunkMonotone(length, |Encode(Frames(load, n))|, |Encode(Frames(load, m))|);
    }
  }

  lemma PushEnds(records: seq<Record>, image: Image, d: byte)
    requires d >= 1
    ensures var pushed := Push(records, image, d);
            pushed != [] && pushed[|pushed| - 1].pixels == image
  {
  }

  /** The local variables of the second pass. */
  datatype Writer = Writer(previous: Image, havePrevious: bool, cursor: nat)

  ghost predicate Wrote(w: Writer, data: seq<byte>, start: nat, records: seq<Record>, length: nat) {
    && Stored(data, start, w.cursor, records, length)
    && (w.havePrevious <==> records != [])
    && (w.havePrevious ==> w.previous == records[|records| - 1].pixels)
  }

  /** One iteration of the second pass, after its load. */
  method WriteNext(output: array<byte>, start: nat, w: Writer, length: nat, image: Image, d: byte,
                   ghost records: seq<Record>)
    returns (ok: bool, next: Writer)
    requires d >= 1 && |image| == length && Wrote(w, output[..], start, records, length)
    modifies output
    ensures output[..start] == old(output[..start])
    ensures ok <==> start + Chunk(length, |Push(records, image, d)|) <= output.Length
    ensures ok ==> Wrote(next, output[..], start, Push(records, image, d), length)
  {
    var same := w.havePrevious && w.previous == image;
    var cursor;
    ok, cursor := WriteFrame(output, start, w.cursor, length, same, image, d, records);
    PushEnds(records, image, d);
    next := Writer(image, true, cursor);
  }

  /** The second pass after `n` frames. */
  ghost predicate WroteFrames(w: Writer, data: seq<byte>, start: nat, load: nat -> Loaded, n: nat, length: nat) {
    Delivers(load, n, length) && Wrote(w, data, start, Encode(Frames(load, n)), length)
  }

  /** One iteration of the second pass; an error ends it. */
  method WriteLoaded(output: array<byte>, start: nat, w: Writer, length: nat, load: nat -> Loaded, index: nat,
                     ghost n: nat)
    returns (error: Result<()>, next: Writer)
    requires WroteFrames(w, output[..], start, load, index, length) && index < n && RightSize(load, n, length)
    modifies output
    ensures output[..start] == old(output[..start])
    ensures error.Ok? ==> WroteFrames(next, output[..], start, load, index + 1, length)
    ensures error.Err? ==> !(Delivers(load, n, length)
                             && start + Chunk(length, |Encode(Frames(load, n))|) == output.Length)
    ensures error.Err? ==> error.error == FramesChanged || (error.error == LoadFailed && !Delivers(load, n, length))
  {
    next := w;
    var loaded := load(index);
    if loaded.LoadError? {
      return Err(LoadFailed), next;
    }
    var duration := Effective(loaded.frame.duration);
    FramesNext(load, index);
    var ok;
    ok, next := WriteNext(output, start, w, length, loaded.frame.pixels, duration, Encode(Frames(load, index)));
    if !ok {
      OverrunStays(load, index + 1, n, length, start, output.Length);
      return Err(FramesChanged), next;
    }
    error := Ok(());
  }

  /**
   Writes the frame chunk in place. Whatever the second pass delivers, nothing
   before `start` changes, and success means the chunk stores exactly the merged
   records of what was delivered and ends at the end of the buffer.
   */
  method WriteFrames(output: array<byte>, start: nat, n: nat, length: nat, load: nat -> Loaded) returns (r: Result<()>)
    requires start <= output.Length && length <= MAX_FRAME_BYTES && RightSize(load, n, length)
    modifies output
    ensures output[..start] == old(output[..start])
    ensures r.Ok? <==> Delivers(load, n, length)
                       && start + Chunk(length, |Encode(Frames(load, n))|) == output.Length
    ensures r.Ok? ==> Stored(output[..], start, output.Length, Encode(Frames(load, n)), length)
    ensures r.Err? ==> r.error == FramesChanged || (r.error == LoadFailed && !Delivers(load, n, length))
  {
    var w := Writer([], false, start);
    var index := 0;
    while index < n
      invariant 0 <= index <= n
      invariant WroteFrames(w, output[..], start, load, index, length)
      invariant output[..start] == old(output[..start])
    {
      r, w := WriteLoaded(output, start, w, length, load, index, n);
      if r.Err? {
        return;
      }
      index := index + 1;
    }
    r := if w.cursor == output.Length then Ok(()) else Err(FramesChanged);
  }

  // The whole encoder.

  function FrameLength(width: int, height: int): int {
    width * height * 3
  }

  predicate ValidSize(width: int, height: int, fps: int) {
    0 < width <= MAX_BYTE && 0 < height <= MAX_BYTE && 0 < fps <= MAX_BYTE
  }

  predicate ValidFormat(width: int, height: int, fps: int) {
    ValidSize(width, height, fps) && FrameLength(width, height) <= MAX_FRAME_BYTES
  }

  lemma LengthPositive(width: int, height: int)
    requires 0 < width && 0 < height
    ensures FrameLength(width, height) > 0
  {
  }

  method PutUint32(output: array<byte>, at: nat, n: nat)
    requires at + 4 <= output.Length && n <= MAX_UINT32
    modifies output
    ensures Slice(output[..], at, 4) == LE32(n)
    ensures SamePrefix(old(output[..]), output[..], at)
    ensures SameSuffix(old(output[..]), output[..], at + 4)
  {
    output[at], output[at + 1] := n % 256, n / 256 % 256;
    output[at + 2], output[at + 3] := n / 0x1_0000 % 256, n / 0x100_0000;
  }

  method CopyBytes(output: array<byte>, at: nat, bytes: seq<byte>)
    requires at + |bytes| <= output.Length
    modifies output
    ensures Slice(output[..], at, |bytes|) == bytes
    ensures SamePrefix(old(output[..]), output[..], at)
    ensures SameSuffix(old(output[..]), output[..], at + |bytes|)
  {
    forall i | 0 <= i < |bytes| {
      output[at + i] := bytes[i];
    }
  }

  /** Bytes before `end` survive writes at and after it. */
  ghost predicate SamePrefix(before: seq<byte>, after: seq<byte>, end: nat) {
    |before| == |after| && end <= |after| && before[..end] == after[..end]
  }

  /** Bytes from `start` on survive writes before it. */
  ghost predicate SameSuffix(before: seq<byte>, after: seq<byte>, start: nat) {
    |before| == |after| && forall i :: start <= i < |after| ==> after[i] == before[i]
  }

  lemma SliceKept(before: seq<byte>, after: seq<byte>, at: nat, n: nat, end: nat)
    requires SamePrefix(before, after, end) && at + n <= end
    ensures Slice(after, at, n) == Slice(before, at, n)
  {
    assert after[at..at + n] == after[..end][at..at + n];
  }

  lemma PrefixKept(a: seq<byte>, b: seq<byte>, c: seq<byte>, end: nat, end': nat)
    requires SamePrefix(a, b, end) && SamePrefix(b, c, end') && end <= end'
    ensures SamePrefix(a, c, end)
  {
    assert c[..end] == c[..end'][..end];
    assert b[..end] == b[..end'][..end];
  }

  /** The five integers of the header, in ascending order of offset. */
  method WriteHeaderFields(output: array<byte>, m: Metadata)
    requires InRange(m) && FIRST_FRAME <= output.Length
    modifies output
    ensures SamePrefix(old(output[..]), output[..], 16)
    ensures Slice(output[..], 16, 4) == LE32(SECTIONS_LENGTH) && Slice(output[..], 20, 4) == LE32(m.framesLength)
    ensures Slice(output[..], 24, 4) == LE32(1) && Slice(output[..], 28, 4) == LE32(m.encodedCount)
    ensures Slice(output[..], 32, 4) == LE32(m.displayCount)
    ensures SameSuffix(old(output[..]), output[..], 36)
  {
    PutUint32(output, 16, SECTIONS_LENGTH);
    ghost var a := output[..];
    PutUint32(output, 20, m.framesLength);
    ghost var b := output[..];
    PutUint32(output, 24, 1);
    ghost var c := output[..];
    PutUint32(output, 28, m.encodedCount);
    ghost var d := output[..];
    PutUint32(output, 32, m.displayCount);
    ghost var e := output[..];
    PrefixKept(c, d, e, 28, 32);
    PrefixKept(b, c, e, 24, 28);
    PrefixKept(a, b, e, 20, 24);
    PrefixKept(old(output[..]), a, e, 16, 20);
    SliceKept(a, e, 16, 4, 20);
    SliceKept(b, e, 20, 4, 24);
    SliceKept(c, e, 24, 4, 28);
    SliceKept(d, e, 28, 4, 32);
  }

  method WriteHeader(output: array<byte>, m: Metadata)
    requires InRange(m) && FIRST_FRAME <= output.Length && output[8] == 0 && output[15] == 0
    modifies output
    ensures HasHeader(output[..], m) && SameSuffix(old(output[..]), output[..], 36)
  {
    CopyBytes(output, 0, SIGNATURE);
    ghost var a := output[..];
    output[9], output[10], output[11], output[12] := m.width, m.height, 0, m.fps;
    output[13], output[14] := m.frameLength % 256, m.frameLength / 256;
    ghost var b := output[..];
    assert SamePrefix(a, b, 8);
    assert Slice(b, 13, 2) == LE16(m.frameLength);
    WriteHeaderFields(output, m);
    PrefixKept(a, b, output[..], 8, 16);
    SliceKept(a, output[..], 0, 8, 8);
    SliceKept(b, output[..], 13, 2, 16);
    HeaderBytes(b, output[..], m);
  }

  lemma HeaderBytes(before: seq<byte>, after: seq<byte>, m: Metadata)
    requires SamePrefix(before, after, 16)
    ensures after[9] == before[9] && after[10] == before[10] && after[11] == before[11] && after[12] == before[12]
    ensures after[8] == before[8] && after[15] == before[15]
  {
    assert forall i :: 0 <= i < 16 ==> after[i] == after[..16][i] == before[..16][i] == before[i];
  }

  method WriteSection(output: array<byte>, m: Metadata)
    requires InRange(m) && FIRST_FRAME <= output.Length && output[56] == 0
    modifies output
    ensures SamePrefix(old(output[..]), output[..], 36)
    ensures HasSection(output[..], m)
  {
    PutUint32(output, 36, 0);
    ghost var a := output[..];
    PutUint32(output, 40, m.displayCount - 1);
    ghost var b := output[..];
    PutUint32(output, 44, FIRST_FRAME);
    ghost var c := output[..];
    CopyBytes(output, 49, SECTION_NAME);
    ghost var e := output[..];
    PrefixKept(b, c, e, 44, 48);
    PrefixKept(a, b, e, 40, 44);
    PrefixKept(old(output[..]), a, e, 36, 40);
    SliceKept(a, e, 36, 4, 40);
    SliceKept(b, e, 40, 4, 44);
    SliceKept(c, e, 44, 4, 48);
  }

  lemma HeaderKept(before: seq<byte>, after: seq<byte>, m: Metadata)
    requires InRange(m) && HasHeader(before, m) && SamePrefix(before, after, HEADER_LENGTH)
    ensures HasHeader(after, m)
  {
    SliceKept(before, after, 0, 8, 36);
    SliceKept(before, after, 13, 2, 36);
    SliceKept(before, after, 16, 4, 36); SliceKept(before, after, 20, 4, 36); SliceKept(before, after, 24, 4, 36);
    SliceKept(before, after, 28, 4, 36); SliceKept(before, after, 32, 4, 36);
    PrefixKept(before, before, after, 16, 36);
    HeaderBytes(before, after, m);
  }

  lemma SectionKept(before: seq<byte>, after: seq<byte>, m: Metadata)
    requires InRange(m) && HasSection(before, m) && SamePrefix(before, after, FIRST_FRAME)
    ensures HasSection(after, m)
  {
    SliceKept(before, after, 36, 4, 57); SliceKept(before, after, 40, 4, 57);
    SliceKept(before, after, 44, 4, 57); SliceKept(before, after, 49, 7, 57);
    assert after[..57][56] == before[..57][56];
  }

  /** The last write copies the first record's duration into the section. */
  lemma DurationCopied(before: seq<byte>, after: seq<byte>, m: Metadata, records: seq<Record>, length: nat)
    requires InRange(m) && HasHeader(before, m) && HasSection(before, m) && records != []
    requires Stored(before, FIRST_FRAME, |before|, records, length) && |before| >= 59
    requires after == before[48 := before[58]]
    ensures HasHeader(after, m) && HasSection(after, m)
    ensures after[FIRST_FRAME..] == Serialize(records) && after[48] == records[0].duration
  {
    assert SamePrefix(before, after, HEADER_LENGTH);
    HeaderKept(before, after, m);
    assert Slice(after, 49, 7) == Slice(before, 49, 7);
    assert after[FIRST_FRAME..] == before[FIRST_FRAME..|before|];
    assert records == [records[0]] + records[1..];
    SerializeFront(records[0], records[1..]);
    assert before[FIRST_FRAME..][1] == RecordBytes(records[0])[1];
  }

  predicate SameFrames(first: nat -> Loaded, second: nat -> Loaded, n: nat) {
    forall i :: 0 <= i < n ==> first(i) == second(i)
  }

  /** What decoding the output of a two-pass encoding yields. */
  function Decoded(m: Metadata, records: seq<Record>): Animation
    requires records != [] && m.displayCount > 0
  {
    Animation(m.width, m.height, m.fps, m.frameLength, m.framesLength, m.encodedCount, m.displayCount,
              Section(0, m.displayCount - 1, FIRST_FRAME, records[0].duration, SECTION_NAME), records)
  }

  /** When encoding succeeds; the second pass only has to produce as many records as the first. */
  ghost predicate Encodable(n: nat, length: int, maximum: nat, first: nat -> Loaded, second: nat -> Loaded) {
    && n > 0 && length >= 0 && Delivers(first, n, length) && Delivers(second, n, length)
    && FitsAll(first, n, length, maximum)
    && |Encode(Frames(second, n))| == |Encode(Frames(first, n))|
  }

  lemma {:induction false} ChunkInjective(length: nat, a: nat, b: nat)
    requires Chunk(length, a) == Chunk(length, b)
    ensures a == b
  {
    if a > 0 && b > 0 { ChunkInjective(length, a - 1, b - 1); }
  }

  method EncodeFrames(n: nat, width: int, height: int, fps: int, maximum: uint64,
                      first: nat -> Loaded, second: nat -> Loaded) returns (r: Result<seq<byte>>)
    requires 0 < maximum <= MAX_INT64
    requires RightSize(first, n, FrameLength(width, height)) && RightSize(second, n, FrameLength(width, height))
    ensures r.Ok? <==> ValidFormat(width, height, Rate(fps))
                       && Encodable(n, FrameLength(width, height), maximum as nat, first, second)
    ensures r.Ok? ==> Encode(Frames(second, n)) != [] && |Display(Frames(first, n))| > 0
    ensures r.Ok? ==> |r.value| == FIRST_FRAME + MetadataFor(first, n, width, height, fps).framesLength
    ensures r.Ok? ==>
              Parse(r.value) == Some(Decoded(MetadataFor(first, n, width, height, fps), Encode(Frames(second, n))))
    ensures r.Ok? ==> Laid(r.value, MetadataFor(first, n, width, height, fps), Encode(Frames(second, n)))
    ensures r.Err? && r.error == FramesChanged ==> !SameFrames(first, second, n)
    ensures r.Err? && r.error == LoadFailed ==>
              var length := FrameLength(width, height); !(Delivers(first, n, length) && Delivers(second, n, length))
    ensures r == Err(NoFrames) <==> ValidSize(width, height, Rate(fps)) && n == 0
    ensures r == Err(InvalidConfig) <==>
              !ValidSize(width, height, Rate(fps)) || (n > 0 && !ValidFormat(width, height, Rate(fps)))
  {
    var f := Rate(fps);
    if !(0 < width <= MAX_BYTE && 0 < height <= MAX_BYTE) || !(0 < f <= MAX_BYTE) {
      return Err(InvalidConfig);
    }
    if n == 0 {
      return Err(NoFrames);
    }
    var length := FrameLength(width, height);
    LengthPositive(width, height);
    if length > MAX_FRAME_BYTES {
      return Err(InvalidConfig);
    }
    var measured := AnalyzeFrames(n, length, maximum, first);
    if measured.Err? {
      return Err(measured.error);
    }
    var Measured(layout, encoded, display) := measured.value;
    SomethingShown(first, n);
    var m := Metadata(width, height, f, length, layout.framesLength, encoded as nat, display as nat);
    r := WriteFile(layout.outputLength, m, n, second);
    if Delivers(second, n, length) {
      SomethingShown(second, n);
      if Chunk(length, |Encode(Frames(second, n))|) == Chunk(length, encoded as nat) {
        ChunkInjective(length, |Encode(Frames(second, n))|, encoded as nat);
      }
    }
    if SameFrames(first, second, n) {
      assert Frames(first, n) == Frames(second, n);
    }
  }

  function Rate(fps: int): int { if fps == 0 then DEFAULT_FPS else fps }

  /** The header values computed by the first pass. */
  function MetadataFor(load: nat -> Loaded, n: nat, width: int, height: int, fps: int): Metadata
    requires ValidFormat(width, height, Rate(fps)) && forall i :: 0 <= i < n ==> load(i).Frame?
  {
    LengthPositive(width, height);
    var length := FrameLength(width, height);
    var count := |Encode(Frames(load, n))|;
    Metadata(width, height, Rate(fps), length, Chunk(length, count), count, |Display(Frames(load, n))|)
  }

  lemma SomethingShown(load: nat -> Loaded, n: nat)
    requires n > 0 && (forall i :: 0 <= i < n ==> load(i).Frame?)
    ensures |Display(Frames(load, n))| > 0 && Encode(Frames(load, n)) != []
  {
    FramesNext(load, n - 1);
    EncodeIsFaithful(Frames(load, n));
  }

  /** Header and section, before any frame is written. */
  method WriteLead(output: array<byte>, m: Metadata)
    requires InRange(m) && FIRST_FRAME <= output.Length
    requires output[8] == 0 && output[15] == 0 && output[56] == 0
    modifies output
    ensures HasHeader(output[..], m) && HasSection(output[..], m)
  {
    WriteHeader(output, m);
    ghost var a := output[..];
    WriteSection(output, m);
    HeaderKept(a, output[..], m);
  }

  /** Writing after the section disturbs neither it nor the header. */
  lemma LeadKept(before: seq<byte>, after: seq<byte>, m: Metadata)
    requires InRange(m) && HasHeader(before, m) && HasSection(before, m) && SamePrefix(before, after, FIRST_FRAME)
    ensures HasHeader(after, m) && HasSection(after, m)
  {
    PrefixKept(before, before, after, HEADER_LENGTH, FIRST_FRAME);
    HeaderKept(before, after, m);
    SectionKept(before, after, m);
  }

  lemma FileDecodes(before: seq<byte>, after: seq<byte>, m: Metadata, records: seq<Record>)
    requires InRange(m) && HasHeader(before, m) && HasSection(before, m) && records != []
    requires Stored(before, FIRST_FRAME, |before|, records, m.frameLength)
    requires |before| == FIRST_FRAME + m.framesLength && |before| >= 59
    requires after == before[48 := before[58]]
    ensures Parse(after) == Some(Decoded(m, records)) && Laid(after, m, records)
  {
    DurationCopied(before, after, m, records, m.frameLength);
    ParseFile(after, m, records);
    HeaderIsLead(after, m);
    ChunkIsProduct(m.frameLength, |records|);
    forall k | 0 <= k < |records| ensures RecordAt(after, m.frameLength, records[k], k) {
      ChunkLays(after, m.frameLength, records, k);
    }
  }

  /** Allocates the buffer and writes header, section, frames and the first duration. */
  method WriteFile(size: nat, m: Metadata, n: nat, load: nat -> Loaded) returns (r: Result<seq<byte>>)
    requires InRange(m) && n > 0 && m.frameLength <= MAX_FRAME_BYTES && RightSize(load, n, m.frameLength)
    requires size == FIRST_FRAME + m.framesLength
    ensures r.Ok? <==> Delivers(load, n, m.frameLength)
                       && Chunk(m.frameLength, |Encode(Frames(load, n))|) == m.framesLength
    ensures r.Ok? ==> Encode(Frames(load, n)) != [] && Parse(r.value) == Some(Decoded(m, Encode(Frames(load, n))))
    ensures r.Ok? ==> |r.value| == size && Laid(r.value, m, Encode(Frames(load, n)))
    ensures r.Err? ==> r.error == FramesChanged || (r.error == LoadFailed && !Delivers(load, n, m.frameLength))
  {
    var output := new byte[size](_ => 0);
    WriteLead(output, m);
    ghost var lead := output[..];
    var written := WriteFrames(output, FIRST_FRAME, n, m.frameLength, load);
    if written.Err? {
      return Err(written.error);
    }
    ghost var full := output[..];
    LeadKept(lead, full, m);
    SomethingShown(load, n);
    output[HEADER_LENGTH + 12] := output[FIRST_FRAME + 1];
    assert output[..] == full[48 := full[58]];
    FileDecodes(full, output[..], m, Encode(Frames(load, n)));
    r := Ok(output[..]);
  }

  // The public entry point for raw frames.

  /** The loader over caller-supplied frames; a frame of the wrong size is an error. */
  function FrameLoader(frames: seq<Record>, length: int): nat -> Loaded {
    (i: nat) => if i < |frames| && |frames[i].pixels| == length then Frame(frames[i]) else LoadError
  }

  lemma LoaderFrames(frames: seq<Record>, length: int)
    ensures var load := FrameLoader(frames, length);
            && (Delivers(load, |frames|, length) <==> Uniform(frames, length))
            && (Uniform(frames, length) ==> Frames(load, |frames|) == frames)
  {
    var load := FrameLoader(frames, length);
    forall i | 0 <= i < |frames| ensures load(i).Frame? <==> |frames[i].pixels| == length {}
  }

  /** `a` shows exactly `shown`, in as few records as possible, and its fields agree with its records. */
  ghost predicate Describes(a: Animation, shown: seq<Record>, size: nat) {
    && Expand(a.records) == Expand(shown)
    && (forall other: seq<Record> :: Positive(other) && Expand(other) == Expand(shown) ==> |a.records| <= |other|)
    && a.encodedCount == |a.records| && a.displayCount == |Expand(a.records)|
    && a.section.first == 0 && a.section.last == a.displayCount - 1
    && a.section.offset + a.framesLength == size
    && a.records != [] && a.section.firstDuration == a.records[0].duration
    && Uniform(a.records, a.frameLength)
  }

  lemma DecodedDescribes(frames: seq<Record>, shown: seq<Record>, m: Metadata, size: nat)
    requires Shows(shown, frames)
    requires frames != [] && Uniform(frames, m.frameLength) && Encode(frames) != [] && |Display(frames)| > 0
    requires m.encodedCount == |Encode(frames)| && m.displayCount == |Display(frames)|
    requires size == FIRST_FRAME + m.framesLength
    ensures Describes(Decoded(m, Encode(frames)), shown, size)
  {
    ShownIsDisplay(shown, frames);
    EncodeIsFaithful(frames);
    EncodeUniform(frames, m.frameLength);
    forall other: seq<Record> | Positive(other) && Expand(other) == Expand(shown)
      ensures |Encode(frames)| <= |other|
    {
      EncodeIsMinimal(frames, other);
    }
  }

  /** Some records that show the frames fit the format's 32-bit counts and the output limit. */
  ghost predicate SomeListFits(frames: seq<Record>, length: int, maximum: nat) {
    exists shown, records: seq<Record> ::
      && Shows(shown, frames) && Positive(records) && Expand(records) == Expand(shown)
      && ListFits(length, |records|, |Expand(shown)|, maximum)
  }

  predicate ListFits(length: int, count: nat, display: nat, maximum: nat) {
    && count <= 0xFFFF_FFFF && display <= 0xFFFF_FFFF && (4 + length) * count <= 0xFFFF_FFFF
    && 57 + (4 + length) * count <= maximum
  }

  lemma FitsIsListFits(length: nat, count: nat, display: nat, maximum: nat)
    ensures Fits(length, count, display, maximum) <==> ListFits(length, count, display, maximum)
  {
    ChunkIsProduct(length, count);
  }

  /** The merged records fit if any records do, for they are the fewest. */
  lemma MergedFitFirst(frames: seq<Record>, length: nat, maximum: nat)
    ensures Fits(length, |Encode(frames)|, |Display(frames)|, maximum) <==> SomeListFits(frames, length, maximum)
  {
    var shown := ShownExists(frames);
    ShownIsDisplay(shown, frames);
    EncodeIsFaithful(frames);
    FitsIsListFits(length, |Encode(frames)|, |Display(frames)|, maximum);
    if SomeListFits(frames, length, maximum) {
      var other, records: seq<Record> :|
        && Shows(other, frames) && Positive(records) && Expand(records) == Expand(other)
        && ListFits(length, |records|, |Expand(other)|, maximum);
      ShownIsDisplay(other, frames);
      EncodeIsMinimal(frames, records);
      ScaleMonotone(|Encode(frames)|, |records|, 4 + length);
    }
  }

  /**
   `data` decodes to records that show exactly the frames for their durations, at
   the size and rate asked for, and is laid out as the format demands.
   */
  ghost predicate Pictures(data: seq<byte>, frames: seq<Record>, width: int, height: int, fps: int) {
    Parse(data).Some? &&
    var a := Parse(data).value;
    && a.width == width && a.height == height && a.fps == (if fps == 0 then 30 else fps)
    && a.frameLength == 3 * width * height
    && (forall shown :: Shows(shown, frames) ==> Describes(a, shown, |data|))
    && ((forall i :: 0 <= i < |frames| ==> frames[i].duration > 0) ==> Expand(a.records) == Expand(frames))
    && Laid(data, Metadata(a.width, a.height, a.fps, a.frameLength, a.framesLength, |a.records|, |Expand(a.records)|),
            a.records)
  }

  lemma EncodedPictures(data: seq<byte>, frames: seq<Record>, m: Metadata)
    requires frames != [] && Uniform(frames, m.frameLength) && Encode(frames) != [] && |Display(frames)| > 0
    requires m.encodedCount == |Encode(frames)| && m.displayCount == |Display(frames)|
    requires |data| == FIRST_FRAME + m.framesLength && m.frameLength == 3 * m.width * m.height
    requires Parse(data) == Some(Decoded(m, Encode(frames))) && Laid(data, m, Encode(frames))
    ensures forall fps :: m.fps == (if fps == 0 then 30 else fps) ==> Pictures(data, frames, m.width, m.height, fps)
  {
    forall shown | Shows(shown, frames) ensures Describes(Parse(data).value, shown, |data|) {
      DecodedDescribes(frames, shown, m, |data|);
    }
    EncodeIsFaithful(frames);
    if forall i :: 0 <= i < |frames| ==> frames[i].duration > 0 {
      assert Shows(frames, frames);
    }
  }

  /**
   Encoding then decoding: for every way of writing out the durations, the stored
   records show exactly that, in as few records as possible, at the requested
   size and rate; the file is laid out as the format demands; and encoding
   succeeds exactly for valid formats and uniform frames that some list of
   records shows within the limits.
   */
  method EncodeRGB888(frames: seq<Record>, width: int, height: int, fps: int, maximum: uint64)
    returns (r: Result<seq<byte>>)
    requires 0 < maximum <= MAX_INT64
    ensures r.Ok? <==>
              && 0 < width <= 255 && 0 < height <= 255 && 0 <= fps <= 255 && 3 * width * height <= 65535
              && frames != [] && (forall i :: 0 <= i < |frames| ==> |frames[i].pixels| == 3 * width * height)
              && SomeListFits(frames, 3 * width * height, maximum as nat)
    ensures r.Ok? ==> Pictures(r.value, frames, width, height, fps)
    ensures r.Err? ==> r.error != FramesChanged
    ensures r == Err(InvalidConfig) <==>
              || !(0 < width <= 255 && 0 < height <= 255 && 0 <= fps <= 255)
              || (frames != [] && 3 * width * height > 65535)
    ensures r == Err(NoFrames) <==> 0 < width <= 255 && 0 < height <= 255 && 0 <= fps <= 255 && frames == []
    ensures r == Err(LoadFailed) ==> exists i :: 0 <= i < |frames| && |frames[i].pixels| != 3 * width * height
  {
    var length := FrameLength(width, height);
    var load := FrameLoader(frames, length);
    LoaderFrames(frames, length);
    SizeAgrees(width, height);
    r := EncodeFrames(|frames|, width, height, fps, maximum, load, load);
    if length >= 0 && Uniform(frames, length) { MergedFitFirst(frames, length, maximum as nat); }
    if r.Ok? {
      EncodedPictures(r.value, frames, MetadataFor(load, |frames|, width, height, fps));
    }
  }

  lemma SizeAgrees(width: int, height: int)
    ensures FrameLength(width, height) == 3 * width * height
    ensures 0 < width && 0 < height ==> FrameLength(width, height) > 0
  {
  }
}
