/**
 The GIF block walker that tells still images from animations, against the
 block grammar of GIF89a sections 15 to 22 and 27.
 */
module Gif {
  import opened Bytes
  import opened Wrappers

  datatype Error = InvalidImage | UnexpectedEOF

  datatype Result = Frames(count: nat) | Fails(error: Error)

  const GIF87A: seq<byte> := [71, 73, 70, 56, 55, 97]
  const GIF89A: seq<byte> := [71, 73, 70, 56, 57, 97]

  // The grammar.

  /** Image and extension blocks; `data` is the list of sub-blocks before the terminator. */
  datatype Block =
    | Image(descriptor: seq<byte>, table: seq<byte>, lzw: byte, data: seq<seq<byte>>)
    | Extension(lbl: byte, data: seq<seq<byte>>)

  /** Signature and screen descriptor, then the global colour table. */
  datatype Header = Header(lead: seq<byte>, table: seq<byte>)

  function Power2(n: nat): nat { if n == 0 then 1 else 2 * Power2(n - 1) }

  /** The colour table length that a packed field announces. */
  function TableLength(packed: byte): nat {
    if packed >= 128 then 3 * Power2(packed % 8 + 1) else 0
  }

  /** A packed field below 128 announces no table; above, its low bits give 2 to 256 colours of three bytes. */
  lemma TableSizes(packed: byte)
    ensures TableLength(packed) ==
            if packed < 128 then 0 else 3 * [2, 4, 8, 16, 32, 64, 128, 256][packed % 8]
  {
    assert Power2(1) == 2 && Power2(2) == 4 && Power2(3) == 8 && Power2(4) == 16;
    assert Power2(5) == 32 && Power2(6) == 64 && Power2(7) == 128 && Power2(8) == 256;
  }

  ghost predicate ValidSubBlocks(data: seq<seq<byte>>) {
    forall i :: 0 <= i < |data| ==> 1 <= |data[i]| <= 255
  }

  ghost predicate ValidBlock(b: Block) {
    && ValidSubBlocks(b.data)
    && (b.Image? ==> |b.descriptor| == 9 && |b.table| == TableLength(b.descriptor[8]))
  }

  ghost predicate ValidBlocks(blocks: seq<Block>) {
    forall i :: 0 <= i < |blocks| ==> ValidBlock(blocks[i])
  }

  predicate Signed(lead: seq<byte>) {
    |lead| >= 6 && (lead[..6] == GIF87A || lead[..6] == GIF89A)
  }

  ghost predicate ValidHeader(h: Header) {
    |h.lead| == 13 && Signed(h.lead) && |h.table| == TableLength(h.lead[10])
  }

  ghost function PrintSubBlocks(data: seq<seq<byte>>): seq<byte>
    requires ValidSubBlocks(data)
  {
    if data == [] then [0] else [|data[0]|] + data[0] + PrintSubBlocks(data[1..])
  }

  ghost function PrintBlock(b: Block): seq<byte>
    requires ValidBlock(b)
  {
    match b
    case Image(descriptor, table, lzw, data) => [0x2c] + descriptor + table + [lzw] + PrintSubBlocks(data)
    case Extension(lbl, data) => [0x21, lbl] + PrintSubBlocks(data)
  }

  ghost function PrintBlocks(blocks: seq<Block>): seq<byte>
    requires ValidBlocks(blocks)
  {
    if blocks == [] then [] else PrintBlock(blocks[0]) + PrintBlocks(blocks[1..])
  }

  ghost function PrintFile(h: Header, blocks: seq<Block>): seq<byte>
    requires ValidBlocks(blocks)
  {
    h.lead + h.table + PrintBlocks(blocks)
  }

  function Images(blocks: seq<Block>): nat {
    if blocks == [] then 0 else (if blocks[0].Image? then 1 else 0) + Images(blocks[1..])
  }

  // The walker on suffixes of the data.

  /** What follows the sub-block list at the front of `d`. */
  function SkipSubBlocks(d: seq<byte>): Option<seq<byte>>
    decreases |d|
  {
    if d == [] then None
    else if d[0] == 0 then Some(d[1..])
    else if d[0] > |d| - 1 then None
    else SkipSubBlocks(d[1 + d[0]..])
  }

  lemma {:induction false} SkipShrinks(d: seq<byte>)
    ensures SkipSubBlocks(d).Some? ==> |SkipSubBlocks(d).value| < |d|
    decreases |d|
  {
    if d != [] && 0 < d[0] <= |d| - 1 { SkipShrinks(d[1 + d[0]..]); }
  }

  /** Where the sub-blocks of the image at the front of `d` begin. */
  function ImageData(d: seq<byte>): nat
    requires |d| >= 10
  {
    10 + TableLength(d[9]) + 1
  }

  /** What follows the image or extension block at the front of `d`. */
  function SkipBlock(d: seq<byte>): Option<seq<byte>>
    requires d != [] && (d[0] == 0x2c || d[0] == 0x21)
  {
    if d[0] == 0x2c then
      if |d| < 10 || ImageData(d) > |d| then None else SkipSubBlocks(d[ImageData(d)..])
    else if |d| < 2 then None
    else SkipSubBlocks(d[2..])
  }

  lemma SkipBlockShrinks(d: seq<byte>)
    requires d != [] && (d[0] == 0x2c || d[0] == 0x21)
    ensures SkipBlock(d).Some? ==> |SkipBlock(d).value| < |d|
  {
    if d[0] == 0x2c {
      if |d| >= 10 && ImageData(d) <= |d| { SkipShrinks(d[ImageData(d)..]); }
    } else if |d| >= 2 { SkipShrinks(d[2..]); }
  }

  /** Counts images from `frames` on, and stops at the second one or at the trailer. */
  function Walk(d: seq<byte>, frames: nat): Result
    decreases |d|
  {
    if d == [] then Fails(UnexpectedEOF)
    else if d[0] == 0x3b then Frames(frames)
    else if d[0] != 0x2c && d[0] != 0x21 then Fails(InvalidImage)
    else if d[0] == 0x2c && frames >= 1 then Frames(frames + 1)
    else
      SkipBlockShrinks(d);
      match SkipBlock(d)
      case None => Fails(UnexpectedEOF)
      case Some(rest) => Walk(rest, if d[0] == 0x2c then frames + 1 else frames)
  }

  function FrameCount(data: seq<byte>): Result {
    if |data| < 13 || !Signed(data) then Fails(InvalidImage)
    else
      var start := 13 + TableLength(data[10]);
      if start > |data| then Fails(UnexpectedEOF) else Walk(data[start..], 0)
  }

  // The loops of the source.

  method SkipGIFSubBlocks(data: seq<byte>, start: nat) returns (r: Option<nat>)
    requires start <= |data|
    ensures r.Some? <==> SkipSubBlocks(data[start..]).Some?
    ensures r.Some? ==> start < r.value <= |data| && data[r.value..] == SkipSubBlocks(data[start..]).value
  {
    var index := start;
    while index < |data|
      invariant start <= index <= |data|
      invariant SkipSubBlocks(data[index..]) == SkipSubBlocks(data[start..])
    {
      var size := data[index];
      assert data[index..][1..] == data[index + 1..];
      index := index + 1;
      if size == 0 {
        return Some(index);
      }
      if size > |data| - index {
        return None;
      }
      assert data[index - 1..][1 + size..] == data[index + size..];
      index := index + size;
    }
    r := None;
  }

  /** The image or extension block at `start`. */
  method SkipGIFBlock(data: seq<byte>, start: nat) returns (r: Option<nat>)
    requires start < |data| && (data[start] == 0x2c || data[start] == 0x21)
    ensures r.Some? <==> SkipBlock(data[start..]).Some?
    ensures r.Some? ==> start < r.value <= |data| && data[r.value..] == SkipBlock(data[start..]).value
  {
    ghost var d := data[start..];
    if data[start] == 0x2c {
      if start + 10 > |data| {
        return None;
      }
      assert d[9] == data[start + 9];
      var next := start + 10 + TableLength(data[start + 9]);
      if next >= |data| {
        return None;
      }
      assert d[ImageData(d)..] == data[next + 1..];
      r := SkipGIFSubBlocks(data, next + 1);
    } else {
      if start + 2 > |data| {
        return None;
      }
      assert d[2..] == data[start + 2..];
      r := SkipGIFSubBlocks(data, start + 2);
    }
  }

  method GifFrameCount(data: seq<byte>) returns (r: Result)
    ensures r == FrameCount(data)
    ensures |data| < 13 || (data[..6] != [71, 73, 70, 56, 55, 97] && data[..6] != [71, 73, 70, 56, 57, 97]) ==>
              r == Fails(InvalidImage)
    ensures r.Frames? ==> r.count <= 2 && |data| > 13 + TableLength(data[10])
  {
    if |data| < 13 || !(data[..6] == GIF87A || data[..6] == GIF89A) {
      return Fails(InvalidImage);
    }
    var index := 13 + TableLength(data[10]);
    var frames := 0;
    while index < |data|
      invariant frames <= 1
      invariant index <= |data| ==> FrameCount(data) == Walk(data[index..], frames)
      invariant index > |data| ==> FrameCount(data) == Fails(UnexpectedEOF)
      decreases |data| - index
    {
      if data[index] == 0x3b {
        return Frames(frames);
      }
      if data[index] != 0x2c && data[index] != 0x21 {
        return Fails(InvalidImage);
      }
      if data[index] == 0x2c {
        frames := frames + 1;
        if frames > 1 {
          return Frames(frames);
        }
      }
      var next := SkipGIFBlock(data, index);
      if next.None? {
        return Fails(UnexpectedEOF);
      }
      index := next.value;
    }
    r := Fails(UnexpectedEOF);
  }

  // The walker against the grammar.

  lemma {:induction false} SkipPrinted(data: seq<seq<byte>>, rest: seq<byte>)
    requires ValidSubBlocks(data)
    ensures SkipSubBlocks(PrintSubBlocks(data) + rest) == Some(rest)
    decreases |data|
  {
    var d := PrintSubBlocks(data) + rest;
    if data == [] {
      assert d[1..] == rest;
    } else {
      assert d[1 + |data[0]|..] == PrintSubBlocks(data[1..]) + rest;
      SkipPrinted(data[1..], rest);
    }
  }

  lemma SkipImage(front: seq<byte>, lzw: byte, tail: seq<byte>)
    requires |front| >= 10 && front[0] == 0x2c && |front| == 10 + TableLength(front[9])
    ensures SkipBlock(front + [lzw] + tail) == SkipSubBlocks(tail)
  {
    var d := front + [lzw] + tail;
    assert d[9] == front[9];
    assert d[ImageData(d)..] == tail;
  }

  lemma SkipPrintedImage(b: Block, rest: seq<byte>)
    requires ValidBlock(b) && b.Image?
    ensures var d := PrintBlock(b) + rest; d[0] == 0x2c && SkipBlock(d) == Some(rest)
  {
    var front := [0x2c] + b.descriptor + b.table;
    var tail := PrintSubBlocks(b.data) + rest;
    assert front[9] == b.descriptor[8];
    SkipImage(front, b.lzw, tail);
    SkipPrinted(b.data, rest);
    assert PrintBlock(b) + rest == front + [b.lzw] + tail;
  }

  lemma Associative(a: seq<byte>, b: seq<byte>, c: seq<byte>)
    ensures (a + b) + c == a + (b + c)
  {}

  lemma SkipExtension(lbl: byte, tail: seq<byte>)
    ensures SkipBlock([0x21, lbl] + tail) == SkipSubBlocks(tail)
  {
    assert ([0x21, lbl] + tail)[2..] == tail;
  }

  lemma SkipPrintedExtension(b: Block, rest: seq<byte>)
    requires ValidBlock(b) && b.Extension?
    ensures var d := PrintBlock(b) + rest; d[0] == 0x21 && SkipBlock(d) == Some(rest)
  {
    var tail := PrintSubBlocks(b.data) + rest;
    Associative([0x21, b.lbl], PrintSubBlocks(b.data), rest);
    SkipExtension(b.lbl, tail);
    SkipPrinted(b.data, rest);
  }

  lemma SkipPrintedBlock(b: Block, rest: seq<byte>)
    requires ValidBlock(b)
    ensures var d := PrintBlock(b) + rest;
            d[0] == (if b.Image? then 0x2c else 0x21) && SkipBlock(d) == Some(rest)
  {
    if b.Image? {
      SkipPrintedImage(b, rest);
    } else {
      SkipPrintedExtension(b, rest);
    }
  }

  /** One block of walking: the count and the rest, when the walk does not stop at it. */
  lemma WalkOver(d: seq<byte>, frames: nat)
    requires d != [] && (d[0] == 0x2c || d[0] == 0x21) && SkipBlock(d).Some?
    requires d[0] == 0x2c ==> frames == 0
    ensures |SkipBlock(d).value| < |d|
    ensures Walk(d, frames) == Walk(SkipBlock(d).value, if d[0] == 0x2c then frames + 1 else frames)
  {
    SkipBlockShrinks(d);
  }

  function Capped(images: nat): nat { if images >= 2 then 2 else images }

  ghost function PrintEnd(blocks: seq<Block>, end: seq<byte>): seq<byte>
    requires ValidBlocks(blocks)
  {
    PrintBlocks(blocks) + end
  }

  lemma PrintEndUnfolds(blocks: seq<Block>, end: seq<byte>)
    requires ValidBlocks(blocks) && blocks != []
    ensures PrintEnd(blocks, end) == PrintBlock(blocks[0]) + PrintEnd(blocks[1..], end)
  {}

  /** Walking over one printed block, or stopping at the second image. */
  lemma WalkPrintedBlock(b: Block, after: seq<byte>, frames: nat)
    requires ValidBlock(b) && frames <= 1
    ensures Walk(PrintBlock(b) + after, frames) ==
            if b.Image? && frames == 1 then Frames(2) else Walk(after, if b.Image? then frames + 1 else frames)
  {
    SkipPrintedBlock(b, after);
    if !(b.Image? && frames == 1) {
      WalkOver(PrintBlock(b) + after, frames);
    }
  }

  lemma WalkTrailer(end: seq<byte>, frames: nat)
    requires end != [] && end[0] == 0x3b
    ensures Walk(end, frames) == Frames(frames)
  {
  }

  lemma ImagesUnfold(blocks: seq<Block>)
    requires blocks != []
    ensures Images(blocks) == (if blocks[0].Image? then 1 else 0) + Images(blocks[1..])
  {
  }

  /** The count of a printed list, given the count of its tail. */
  lemma WalkPrintedCons(b: Block, after: seq<byte>, frames: nat, images: nat)
    requires ValidBlock(b) && frames <= 1
    requires (b.Image? && frames == 1)
             || Walk(after, if b.Image? then frames + 1 else frames)
                == Frames(Capped((if b.Image? then frames + 1 else frames) + images))
    ensures Walk(PrintBlock(b) + after, frames) == Frames(Capped(frames + (if b.Image? then 1 else 0) + images))
  {
    WalkPrintedBlock(b, after, frames);
  }

  lemma {:induction false} WalkPrinted(blocks: seq<Block>, frames: nat, end: seq<byte>)
    requires ValidBlocks(blocks) && frames <= 1 && end != [] && end[0] == 0x3b
    ensures Walk(PrintEnd(blocks, end), frames) == Frames(Capped(frames + Images(blocks)))
    decreases |blocks|
  {
    if blocks == [] {
      assert PrintEnd(blocks, end) == end;
      WalkTrailer(end, frames);
    } else {
      var b, rest := blocks[0], blocks[1..];
      if !(b.Image? && frames == 1) {
        WalkPrinted(rest, if b.Image? then frames + 1 else frames, end);
      }
      WalkPrintedCons(b, PrintEnd(rest, end), frames, Images(rest));
      PrintEndUnfolds(blocks, end);
      ImagesUnfold(blocks);
    }
  }

  lemma CountAfterHeader(h: Header, body: seq<byte>)
    requires ValidHeader(h)
    ensures FrameCount(h.lead + h.table + body) == Walk(body, 0)
  {
    var data := h.lead + h.table + body;
    var start := 13 + |h.table|;
    assert data[..6] == h.lead[..6];
    assert data[10] == h.lead[10];
    assert data[start..] == body;
  }

  /** Any well-formed file counts as the number of its images, capped at two, whatever follows its trailer. */
  lemma PrintedFileCounts(h: Header, blocks: seq<Block>, end: seq<byte>)
    requires ValidHeader(h) && ValidBlocks(blocks)
    requires end != [] && end[0] == 0x3b
    ensures FrameCount(PrintFile(h, blocks) + end) == Frames(Capped(Images(blocks)))
  {
    Associative(h.lead + h.table, PrintBlocks(blocks), end);
    CountAfterHeader(h, PrintEnd(blocks, end));
    WalkPrinted(blocks, 0, end);
  }

  lemma {:induction false} WalkBrokenOff(blocks: seq<Block>, frames: nat, end: seq<byte>)
    requires ValidBlocks(blocks) && frames + Images(blocks) <= 1
    requires end == [] || end[0] !in {0x2c, 0x21, 0x3b}
    ensures Walk(PrintEnd(blocks, end), frames) == Fails(if end == [] then UnexpectedEOF else InvalidImage)
    decreases |blocks|
  {
    if blocks == [] {
      assert PrintEnd(blocks, end) == end;
    } else {
      var b, rest := blocks[0], blocks[1..];
      ImagesUnfold(blocks);
      WalkBrokenOff(rest, if b.Image? then frames + 1 else frames, end);
      WalkPrintedBlock(b, PrintEnd(rest, end), frames);
      PrintEndUnfolds(blocks, end);
    }
  }

  /** Without a trailer, a file with at most one image ends too early, or is no image if other bytes follow. */
  lemma BrokenOffFileFails(h: Header, blocks: seq<Block>, end: seq<byte>)
    requires ValidHeader(h) && ValidBlocks(blocks) && Images(blocks) <= 1
    requires end == [] || end[0] !in {0x2c, 0x21, 0x3b}
    ensures FrameCount(PrintFile(h, blocks) + end) == Fails(if end == [] then UnexpectedEOF else InvalidImage)
  {
    Associative(h.lead + h.table, PrintBlocks(blocks), end);
    CountAfterHeader(h, PrintEnd(blocks, end));
    WalkBrokenOff(blocks, 0, end);
  }

  /** Conversely, skipping succeeds only over a printed sub-block list. */
  lemma {:induction false} SkippedIsPrinted(d: seq<byte>) returns (data: seq<seq<byte>>)
    requires SkipSubBlocks(d).Some?
    ensures ValidSubBlocks(data) && d == PrintSubBlocks(data) + SkipSubBlocks(d).value
    decreases |d|
  {
    if d[0] == 0 {
      data := [];
    } else {
      var rest := SkippedIsPrinted(d[1 + d[0]..]);
      var first := d[1..1 + d[0]];
      data := [first] + rest;
      assert data[1..] == rest;
      assert d == [|first|] + first + d[1 + d[0]..];
    }
  }

  lemma SkippedImageIsPrinted(d: seq<byte>) returns (b: Block)
    requires |d| >= 10 && d[0] == 0x2c && SkipBlock(d).Some?
    ensures ValidBlock(b) && b.Image? && d == PrintBlock(b) + SkipBlock(d).value
  {
    var at := ImageData(d);
    var tail := d[at..];
    var data := SkippedIsPrinted(tail);
    b := Image(d[1..10], d[10..at - 1], d[at - 1], data);
    assert d == [0x2c] + b.descriptor + b.table + [b.lzw] + tail;
    Associative([0x2c] + b.descriptor + b.table + [b.lzw], PrintSubBlocks(data), SkipBlock(d).value);
  }

  lemma SkippedBlockIsPrinted(d: seq<byte>) returns (b: Block)
    requires d != [] && (d[0] == 0x2c || d[0] == 0x21) && SkipBlock(d).Some?
    ensures ValidBlock(b) && d == PrintBlock(b) + SkipBlock(d).value && (b.Image? <==> d[0] == 0x2c)
  {
    if d[0] == 0x2c {
      b := SkippedImageIsPrinted(d);
    } else {
      var tail := d[2..];
      var data := SkippedIsPrinted(tail);
      b := Extension(d[1], data);
      assert d == [0x21, d[1]] + tail;
    }
  }

  /**
   A walk that answers has read a complete well-formed block list and then the
   trailer, or, on the answer two, the separator of a second image.
   */
  lemma {:induction false} WalkedIsPrinted(d: seq<byte>, frames: nat) returns (blocks: seq<Block>, end: seq<byte>)
    requires frames <= 1 && Walk(d, frames).Frames?
    ensures ValidBlocks(blocks) && d == PrintEnd(blocks, end) && end != []
    ensures (end[0] == 0x3b && Walk(d, frames).count == frames + Images(blocks) <= 1)
         || (end[0] == 0x2c && Walk(d, frames).count == 2 && frames + Images(blocks) == 1)
    decreases |d|
  {
    if d[0] == 0x3b || (d[0] == 0x2c && frames == 1) {
      blocks, end := [], d;
      assert d == PrintEnd(blocks, end);
    } else {
      WalkOver(d, frames);
      var b := SkippedBlockIsPrinted(d);
      var tail;
      tail, end := WalkedIsPrinted(SkipBlock(d).value, if d[0] == 0x2c then frames + 1 else frames);
      blocks := [b] + tail;
      assert blocks[1..] == tail;
      PrintEndUnfolds(blocks, end);
    }
  }

  /**
   The other direction: an answer of 0 or 1 means a well-formed file with that
   many images, and 2 means a well-formed start with one image and another
   image separator.
   */
  lemma CountedIsWellFormed(data: seq<byte>) returns (h: Header, blocks: seq<Block>, end: seq<byte>)
    requires FrameCount(data).Frames?
    ensures ValidHeader(h) && ValidBlocks(blocks) && data == PrintFile(h, blocks) + end && end != []
    ensures (end[0] == 0x3b && FrameCount(data).count == Images(blocks) <= 1)
         || (end[0] == 0x2c && FrameCount(data).count == 2 && Images(blocks) == 1)
  {
    h := SplitHeader(data);
    var start := 13 + |h.table|;
    blocks, end := WalkedIsPrinted(data[start..], 0);
    Associative(h.lead + h.table, PrintBlocks(blocks), end);
  }

  lemma SplitHeader(data: seq<byte>) returns (h: Header)
    requires FrameCount(data).Frames?
    ensures ValidHeader(h) && 13 + |h.table| <= |data| && data == h.lead + h.table + data[13 + |h.table|..]
    ensures FrameCount(data) == Walk(data[13 + |h.table|..], 0)
  {
    var start := 13 + TableLength(data[10]);
    h := Header(data[..13], data[13..start]);
    assert h.lead[..6] == data[..6];
  }
}
