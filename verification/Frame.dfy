/**
 Display frames from the status stream: metadata checks, the run-length
 decoder, and conversion to RGBA pixels.
 */
module Frame {
  import opened Bytes
  import opened Wrappers

  datatype Screen = Front | Back | OtherScreen

  datatype Encoding = Plain | RunLength | OtherEncoding

  datatype PixelFormat = RGB888 | L8 | L4 | OtherFormat

  datatype Frame = Frame(
    screen: Screen,
    width: nat,
    height: nat,
    encoding: Encoding,
    format: PixelFormat,
    raw: seq<byte>)

  datatype Error = InvalidFrame | PayloadTooLarge | UnsupportedScreen | UnsupportedEncoding | UnsupportedFormat

  datatype Result<T> = Ok(value: T) | Err(error: Error)

  const MAX_PAYLOAD := 16384

  // The run-length grammar.

  /** A literal run of pixels blocks, or one block repeated. */
  datatype Block = Literal(data: seq<byte>, count: nat) | Repeat(block: seq<byte>, count: nat)

  predicate ValidBlock(b: Block, size: nat) {
    && 1 <= b.count <= 127
    && match b
       case Literal(data, count) => |data| == count * size
       case Repeat(block, _) => |block| == size
  }

  ghost predicate ValidBlocks(blocks: seq<Block>, size: nat) {
    forall i :: 0 <= i < |blocks| ==> ValidBlock(blocks[i], size)
  }

  function PrintBlock(b: Block): seq<byte>
    requires 1 <= b.count <= 127
  {
    match b
    case Literal(data, count) => [128 + count] + data
    case Repeat(block, count) => [count] + block
  }

  function Print(blocks: seq<Block>): seq<byte>
    requires forall i :: 0 <= i < |blocks| ==> 1 <= blocks[i].count <= 127
  {
    if blocks == [] then [] else PrintBlock(blocks[0]) + Print(blocks[1..])
  }

  function Times(block: seq<byte>, n: nat): seq<byte> {
    if n == 0 then [] else Times(block, n - 1) + block
  }

  function ExpandBlock(b: Block): seq<byte> {
    match b
    case Literal(data, _) => data
    case Repeat(block, count) => Times(block, count)
  }

  function Expand(blocks: seq<Block>): seq<byte> {
    if blocks == [] then [] else ExpandBlock(blocks[0]) + Expand(blocks[1..])
  }

  /** The block at the front of the source and the number of bytes it takes. */
  function ParseBlock(source: seq<byte>, size: nat): Option<(Block, nat)>
    requires source != []
  {
    var count := source[0] % 128;
    if count == 0 then None
    else if source[0] >= 128 then
      if count * size > |source| - 1 then None
      else Some((Literal(source[1..1 + count * size], count), 1 + count * size))
    else
      if size > |source| - 1 then None
      else Some((Repeat(source[1..1 + size], count), 1 + size))
  }

  function Parse(source: seq<byte>, size: nat): Option<seq<Block>>
    decreases |source|
  {
    if source == [] then Some([])
    else match ParseBlock(source, size)
      case None => None
      case Some((b, n)) =>
        match Parse(source[n..], size)
        case None => None
        case Some(rest) => Some([b] + rest)
  }

  lemma ParseOne(b: Block, rest: seq<byte>, size: nat)
    requires ValidBlock(b, size)
    ensures ParseBlock(PrintBlock(b) + rest, size) == Some((b, |PrintBlock(b)|))
  {
    var source := PrintBlock(b) + rest;
    assert source[0] % 128 == b.count;
    assert source[1..|PrintBlock(b)|] == PrintBlock(b)[1..];
  }

  /** Every valid block list is recovered from its bytes, so the bytes determine it. */
  lemma {:induction false} ParsePrinted(blocks: seq<Block>, size: nat)
    requires ValidBlocks(blocks, size)
    ensures Parse(Print(blocks), size) == Some(blocks)
  {
    if blocks != [] {
      ParseOne(blocks[0], Print(blocks[1..]), size);
      assert Print(blocks)[|PrintBlock(blocks[0])|..] == Print(blocks[1..]);
      ParsePrinted(blocks[1..], size);
      assert [blocks[0]] + blocks[1..] == blocks;
    }
  }

  lemma PrintParsedBlock(source: seq<byte>, size: nat)
    requires source != [] && ParseBlock(source, size).Some?
    ensures var (b, n) := ParseBlock(source, size).value;
            ValidBlock(b, size) && 0 < n <= |source| && PrintBlock(b) == source[..n]
  {
    var (b, n) := ParseBlock(source, size).value;
    assert source[..n] == [source[0]] + source[1..n];
  }

  /** Whatever parses is exactly the printed form of the parse. */
  lemma PrintCons(b: Block, rest: seq<Block>, size: nat)
    requires ValidBlock(b, size) && ValidBlocks(rest, size)
    ensures ValidBlocks([b] + rest, size) && Print([b] + rest) == PrintBlock(b) + Print(rest)
  {
    assert ([b] + rest)[1..] == rest;
  }

  lemma {:induction false} PrintParsed(source: seq<byte>, size: nat)
    requires Parse(source, size).Some?
    ensures ValidBlocks(Parse(source, size).value, size) && Print(Parse(source, size).value) == source
    decreases |source|
  {
    if source != [] {
      PrintParsedBlock(source, size);
      var (b, n) := ParseBlock(source, size).value;
      PrintParsed(source[n..], size);
      PrintCons(b, Parse(source[n..], size).value, size);
      assert source == source[..n] + source[n..];
    }
  }

  lemma {:induction false} TimesLength(block: seq<byte>, n: nat)
    ensures |Times(block, n)| == n * |block|
  {
    if n > 0 { TimesLength(block, n - 1); }
  }

  lemma BlockLength(b: Block, size: nat)
    requires ValidBlock(b, size)
    ensures |ExpandBlock(b)| == b.count * size
  {
    if b.Repeat? { TimesLength(b.block, b.count); }
  }

  lemma {:induction false} ExpandAppend(blocks: seq<Block>, b: Block)
    ensures Expand(blocks + [b]) == Expand(blocks) + ExpandBlock(b)
  {
    if blocks == [] {
      assert [b][1..] == [];
    } else {
      assert (blocks + [b])[1..] == blocks[1..] + [b];
      ExpandAppend(blocks[1..], b);
    }
  }

  /** What decoding must return, from the grammar alone. */
  ghost predicate Decodes(source: seq<byte>, expected: nat, size: nat, r: seq<byte>) {
    exists blocks :: ValidBlocks(blocks, size) && Print(blocks) == source && Expand(blocks) == r && |r| == expected
  }

  /** The parse of a suffix extends the blocks consumed before it. */
  ghost predicate Consumed(source: seq<byte>, index: nat, blocks: seq<Block>, size: nat) {
    && index <= |source|
    && match Parse(source[index..], size)
       case None => Parse(source, size).None?
       case Some(rest) => Parse(source, size) == Some(blocks + rest)
  }

  lemma ConsumeOne(source: seq<byte>, index: nat, blocks: seq<Block>, size: nat)
    requires Consumed(source, index, blocks, size) && index < |source|
    ensures ParseBlock(source[index..], size).None? ==> Parse(source, size).None?
    ensures ParseBlock(source[index..], size).Some? ==>
              var (b, n) := ParseBlock(source[index..], size).value;
              index + n <= |source| && Consumed(source, index + n, blocks + [b], size)
  {
    if ParseBlock(source[index..], size).Some? {
      PrintParsedBlock(source[index..], size);
      var (b, n) := ParseBlock(source[index..], size).value;
      assert source[index..][n..] == source[index + n..];
      if Parse(source[index + n..], size).Some? {
        var rest := Parse(source[index + n..], size).value;
        assert (blocks + [b]) + rest == blocks + ([b] + rest);
      }
    }
  }

  lemma {:induction false} ExpandConcat(a: seq<Block>, b: seq<Block>)
    ensures Expand(a + b) == Expand(a) + Expand(b)
  {
    if a == [] {
      assert a + b == b;
    } else {
      assert (a + b)[1..] == a[1..] + b;
      ExpandConcat(a[1..], b);
    }
  }

  /** The block at `index`, in terms of the source's own indices. */
  lemma BlockAt(source: seq<byte>, index: nat, size: nat)
    requires index < |source|
    ensures var count := source[index] % 128;
            var next := index + 1;
            ParseBlock(source[index..], size) ==
              if count == 0 then None
              else if source[index] >= 128 then
                if count * size > |source| - next then None
                else Some((Literal(source[next..next + count * size], count), 1 + count * size))
              else if size > |source| - next then None
              else Some((Repeat(source[next..next + size], count), 1 + size))
  {
    var tail := source[index..];
    var count := source[index] % 128;
    assert count * size <= |tail| - 1 ==> tail[1..1 + count * size] == source[index + 1..index + 1 + count * size];
    assert size <= |tail| - 1 ==> tail[1..1 + size] == source[index + 1..index + 1 + size];
  }

  /** `piece` is the expanded block at `index`, or `None` if it is malformed or exceeds `room` bytes. */
  ghost predicate BlockDecoded(source: seq<byte>, index: nat, size: nat, room: int, piece: Option<seq<byte>>, next: nat)
    requires index < |source|
  {
    && (piece.Some? <==> ParseBlock(source[index..], size).Some? && source[index] % 128 * size <= room)
    && (piece.Some? ==>
          && piece.value == ExpandBlock(ParseBlock(source[index..], size).value.0)
          && next == index + ParseBlock(source[index..], size).value.1
          && |piece.value| <= room && index < next <= |source|)
  }

  /** Decodes the block at `index`. */
  method DecodeBlock(source: seq<byte>, index: nat, size: nat, room: nat) returns (r: Option<seq<byte>>, next: nat)
    requires index < |source| && size > 0
    ensures BlockDecoded(source, index, size, room, r, next)
  {
    BlockAt(source, index, size);
    var opcode := source[index];
    next := index + 1;
    var count := opcode % 128;
    if count == 0 {
      return None, next;
    }
    var bytes := count * size;
    if bytes > room {
      return None, next;
    }
    if opcode >= 128 {
      if bytes > |source| - next {
        return None, next;
      }
      return Some(source[next..next + bytes]), next + bytes;
    }
    if size > |source| - next {
      return None, next;
    }
    var repeated := AppendTimes([], source[next..next + size], count);
    assert [] + Times(source[next..next + size], count) == Times(source[next..next + size], count);
    TimesLength(source[next..next + size], count);
    return Some(repeated), next + size;
  }

  /** The loop's state: the blocks before `index` are decoded into `result`. */
  ghost predicate Decoded(source: seq<byte>, index: nat, blocks: seq<Block>, size: nat, expected: nat,
                          result: seq<byte>)
  {
    Consumed(source, index, blocks, size) && result == Expand(blocks) && |result| <= expected
  }

  lemma ConsumeBlock(source: seq<byte>, index: nat, blocks: seq<Block>, size: nat, b: Block, next: nat)
    requires Consumed(source, index, blocks, size) && index < next <= |source|
    requires ParseBlock(source[index..], size) == Some((b, next - index))
    ensures Consumed(source, next, blocks + [b], size)
  {
    ConsumeOne(source, index, blocks, size);
  }

  /** What the decoded prefix becomes with one more block. */
  lemma DecodedOneMore(source: seq<byte>, index: nat, blocks: seq<Block>, size: nat, expected: nat, result: seq<byte>,
                       piece: Option<seq<byte>>, next: nat)
    returns (more: seq<Block>)
    requires index < |source| && Decoded(source, index, blocks, size, expected, result)
    requires BlockDecoded(source, index, size, expected - |result|, piece, next) && piece.Some?
    ensures Decoded(source, next, more, size, expected, result + piece.value)
  {
    var b := ParseBlock(source[index..], size).value.0;
    more := blocks + [b];
    ConsumeBlock(source, index, blocks, size, b, next);
    assert result + piece.value == Expand(more) by { ExpandAppend(blocks, b); }
  }

  ghost predicate Undecodable(source: seq<byte>, size: nat, expected: nat) {
    Parse(source, size).Some? ==> |Expand(Parse(source, size).value)| > expected
  }

  /** One iteration: one more block, or a proof that nothing will do. */
  method DecodeNext(source: seq<byte>, index: nat, expected: nat, size: nat, result: seq<byte>,
                    ghost blocks: seq<Block>)
    returns (piece: Option<seq<byte>>, next: nat, ghost more: seq<Block>)
    requires size > 0 && index < |source| && Decoded(source, index, blocks, size, expected, result)
    ensures piece.None? ==> Undecodable(source, size, expected)
    ensures piece.Some? ==> index < next && Decoded(source, next, more, size, expected, result + piece.value)
  {
    piece, next := DecodeBlock(source, index, size, expected - |result|);
    more := blocks;
    if piece.None? {
      Rejected(source, index, blocks, expected, size);
    } else {
      more := DecodedOneMore(source, index, blocks, size, expected, result, piece, next);
    }
  }

  /** Decodes block after block until the source is used up. */
  method DecodeBlocks(source: seq<byte>, expected: nat, size: nat) returns (r: Result<seq<byte>>)
    requires size > 0
    ensures r.Ok? <==> Parse(source, size).Some? && |Expand(Parse(source, size).value)| == expected
    ensures r.Ok? ==> r.value == Expand(Parse(source, size).value)
    ensures r.Err? ==> r.error == InvalidFrame
  {
    var result: seq<byte> := [];
    var index := 0;
    ghost var blocks: seq<Block> := [];
    NothingConsumed(source, size);
    while index < |source|
      invariant 0 <= index <= |source|
      invariant Decoded(source, index, blocks, size, expected, result)
      decreases |source| - index
    {
      var piece, next;
      piece, next, blocks := DecodeNext(source, index, expected, size, result, blocks);
      if piece.None? {
        return Err(InvalidFrame);
      }
      result := result + piece.value;
      index := next;
    }
    AllConsumed(source, blocks, size);
    r := if |result| == expected then Ok(result) else Err(InvalidFrame);
  }

  /**
   Decoding succeeds with r exactly when the source is the printed form of valid
   blocks that expand to r, and r has the expected size.
   */
  method DecodeRLE(source: seq<byte>, expected: nat, size: nat) returns (r: Result<seq<byte>>)
    requires size > 0
    ensures r.Ok? ==> Decodes(source, expected, size, r.value)
    ensures r.Err? ==> r.error == InvalidFrame && forall x :: !Decodes(source, expected, size, x)
  {
    r := DecodeBlocks(source, expected, size);
    forall x
      ensures Decodes(source, expected, size, x) <==>
                Parse(source, size).Some? && Expand(Parse(source, size).value) == x && |x| == expected
    {
      DecodesIffParses(source, expected, size, x);
    }
  }

  method AppendTimes(start: seq<byte>, block: seq<byte>, count: nat) returns (r: seq<byte>)
    ensures r == start + Times(block, count)
  {
    r := start;
    for i := 0 to count
      invariant r == start + Times(block, i)
    {
      r := r + block;
    }
  }

  lemma NothingConsumed(source: seq<byte>, size: nat)
    ensures Consumed(source, 0, [], size)
  {
    assert source[0..] == source;
    if Parse(source, size).Some? { assert [] + Parse(source, size).value == Parse(source, size).value; }
  }

  lemma AllConsumed(source: seq<byte>, blocks: seq<Block>, size: nat)
    requires Consumed(source, |source|, blocks, size)
    ensures Parse(source, size) == Some(blocks)
  {
    assert source[|source|..] == [];
    assert blocks + [] == blocks;
  }

  lemma BlockFills(source: seq<byte>, size: nat)
    requires source != [] && ParseBlock(source, size).Some?
    ensures |ExpandBlock(ParseBlock(source, size).value.0)| == source[0] % 128 * size
  {
    PrintParsedBlock(source, size);
    BlockLength(ParseBlock(source, size).value.0, size);
  }

  lemma ExpandGrows(blocks: seq<Block>, b: Block, rest: seq<Block>)
    ensures |Expand((blocks + [b]) + rest)| >= |Expand(blocks)| + |ExpandBlock(b)|
  {
    ExpandAppend(blocks, b);
    ExpandConcat(blocks + [b], rest);
  }

  /** A parse of the whole goes on with the block at `index`. */
  lemma ConsumedParse(source: seq<byte>, index: nat, blocks: seq<Block>, size: nat)
    returns (b: Block, rest: seq<Block>)
    requires Consumed(source, index, blocks, size) && index < |source| && Parse(source, size).Some?
    ensures ParseBlock(source[index..], size).Some? && b == ParseBlock(source[index..], size).value.0
    ensures Parse(source, size).value == (blocks + [b]) + rest
  {
    ConsumeOne(source, index, blocks, size);
    b := ParseBlock(source[index..], size).value.0;
    rest := Parse(source[index + ParseBlock(source[index..], size).value.1..], size).value;
  }

  /** A malformed block, or one that exceeds the expected size, rules out every completion. */
  lemma Rejected(source: seq<byte>, index: nat, blocks: seq<Block>, expected: nat, size: nat)
    requires Consumed(source, index, blocks, size) && index < |source|
    requires ParseBlock(source[index..], size).None? || source[index] % 128 * size > expected - |Expand(blocks)|
    ensures Parse(source, size).Some? ==> |Expand(Parse(source, size).value)| > expected
  {
    if Parse(source, size).Some? {
      var b, rest := ConsumedParse(source, index, blocks, size);
      BlockFills(source[index..], size);
      ExpandGrows(blocks, b, rest);
    }
  }

  /** The two descriptions of decoding agree, and the result is unique. */
  lemma DecodesIffParses(source: seq<byte>, expected: nat, size: nat, r: seq<byte>)
    ensures Decodes(source, expected, size, r) <==>
              Parse(source, size).Some? && Expand(Parse(source, size).value) == r && |r| == expected
  {
    if Decodes(source, expected, size, r) {
      var blocks :| ValidBlocks(blocks, size) && Print(blocks) == source && Expand(blocks) == r && |r| == expected;
      ParsePrinted(blocks, size);
    }
    if Parse(source, size).Some? { PrintParsed(source, size); }
  }

  lemma DecodedOnce(source: seq<byte>, expected: nat, size: nat, r: seq<byte>)
    requires Decodes(source, expected, size, r)
    ensures forall q :: Decodes(source, expected, size, q) <==> q == r
  {
    DecodesIffParses(source, expected, size, r);
    forall q ensures Decodes(source, expected, size, q) <==> q == r { DecodesIffParses(source, expected, size, q); }
  }

  /** The blocks that the first literal run takes. */
  function First(k: nat): nat {
    if k <= 127 then k else 127
  }

  /** A run-length form of `k` blocks of pixel data: literals of at most 127 blocks. */
  function Encode(data: seq<byte>, size: nat, k: nat): seq<Block>
    requires |data| == k * size
    decreases k
  {
    if k == 0 then []
    else
      var n := First(k);
      SplitProduct(k, n, size);
      [Literal(data[..n * size], n)] + Encode(data[n * size..], size, k - n)
  }

  lemma SplitProduct(k: nat, n: nat, size: nat)
    requires n <= k
    ensures n * size <= k * size && (k - n) * size == k * size - n * size
  {
  }

  /** These blocks print as a run-length form of `data` that spends `extra` bytes on headers. */
  ghost predicate Represents(blocks: seq<Block>, size: nat, data: seq<byte>, extra: nat) {
    ValidBlocks(blocks, size) && Expand(blocks) == data && |Print(blocks)| == |data| + extra
  }

  /** One literal run before some blocks. */
  lemma PrependLiteral(head: seq<byte>, n: nat, blocks: seq<Block>, size: nat, data: seq<byte>, extra: nat)
    requires 1 <= n <= 127 && |head| == n * size && Represents(blocks, size, data, extra)
    ensures Represents([Literal(head, n)] + blocks, size, head + data, 1 + extra)
  {
    assert ([Literal(head, n)] + blocks)[1..] == blocks;
  }

  /** How many literal runs `k` blocks take. */
  function Literals(k: nat): nat {
    if k == 0 then 0 else 1 + Literals(k - First(k))
  }

  lemma {:induction false} LiteralsCount(k: nat)
    ensures Literals(k) == (k + 126) / 127
  {
    if k > 127 { LiteralsCount(k - 127); }
  }

  /** The first literal run and what remains. */
  lemma EncodeUnfolds(data: seq<byte>, size: nat, k: nat) returns (head: seq<byte>, rest: seq<byte>)
    requires |data| == k * size && k > 0
    ensures data == head + rest && |head| == First(k) * size && |rest| == (k - First(k)) * size
    ensures Encode(data, size, k) == [Literal(head, First(k))] + Encode(rest, size, k - First(k))
  {
    SplitProduct(k, First(k), size);
    head, rest := data[..First(k) * size], data[First(k) * size..];
  }

  lemma EncodeNothing(data: seq<byte>, size: nat)
    requires |data| == 0 * size
    ensures data == [] && Encode(data, size, 0) == []
  {
  }

  lemma {:induction false} EncodeRoundTrip(data: seq<byte>, size: nat, k: nat)
    requires |data| == k * size
    ensures Represents(Encode(data, size, k), size, data, Literals(k))
    decreases k
  {
    if k > 0 {
      var head, rest := EncodeUnfolds(data, size, k);
      EncodeRoundTrip(rest, size, k - First(k));
      PrependLiteral(head, First(k), Encode(rest, size, k - First(k)), size, rest, Literals(k - First(k)));
    } else {
      EncodeNothing(data, size);
    }
  }

  /** Every block-aligned byte string has an encoding that decodes back to it. */
  lemma AlignedIsEncodable(data: seq<byte>, size: nat, k: nat)
    requires |data| == k * size
    ensures exists source :: |source| <= |data| + (k + 126) / 127 && Decodes(source, |data|, size, data)
  {
    EncodeRoundTrip(data, size, k);
    LiteralsCount(k);
    var source := Print(Encode(data, size, k));
    assert Decodes(source, |data|, size, data);
  }

  // What the two kinds of run mean, byte by byte.

  /** A repeated block is its bytes over and over. */
  lemma {:induction false} TimesAt(block: seq<byte>, n: nat, j: nat)
    requires j < n * |block|
    ensures |Times(block, n)| == n * |block| && Times(block, n)[j] == block[j % |block|]
    decreases n
  {
    TimesLength(block, n);
    TimesLength(block, n - 1);
    var size := |block|;
    assert n * size == (n - 1) * size + size;
    if j < (n - 1) * size {
      TimesAt(block, n - 1, j);
    } else {
      LastOf(j, n - 1, size);
    }
  }

  lemma LastOf(j: nat, m: nat, size: nat)
    requires size > 0 && m * size <= j < m * size + size
    ensures j % size == j - m * size
  {
    var q := j / size;
    DivMod(j, size);
    Scaled(q + 1, m, size);
    Scaled(m + 1, q, size);
    assert q * size + size == (q + 1) * size && m * size + size == (m + 1) * size;
  }

  lemma DivMod(j: nat, size: nat)
    requires size > 0
    ensures j == j / size * size + j % size && j % size < size
  {
  }

  lemma Scaled(a: int, b: int, c: nat)
    ensures a <= b ==> a * c <= b * c
  {
  }

  lemma OneBlockDecodes(b: Block, expected: nat, size: nat, r: seq<byte>)
    requires ValidBlock(b, size)
    ensures Decodes(PrintBlock(b), expected, size, r) <==> r == ExpandBlock(b) && |r| == expected
  {
    var none: seq<Block> := [];
    assert [b][1..] == none && Print(none) == [] && Expand(none) == [];
    assert Print([b]) == PrintBlock(b) && Expand([b]) == ExpandBlock(b);
    ParsePrinted([b], size);
    DecodesIffParses(PrintBlock(b), expected, size, r);
  }

  /** An opcode above 128 takes that many blocks over, one below 128 repeats the next block. */
  lemma RunsDecode(n: nat, size: nat, data: seq<byte>, r: seq<byte>)
    requires 1 <= n <= 127 && size > 0
    ensures |data| == n * size ==> (Decodes([128 + n] + data, n * size, size, r) <==> r == data)
    ensures |data| == size ==>
              (Decodes([n] + data, n * size, size, r) <==>
                 |r| == n * size && forall j :: 0 <= j < |r| ==> r[j] == data[j % size])
  {
    if |data| == n * size { OneBlockDecodes(Literal(data, n), n * size, size, r); }
    if |data| == size {
      OneBlockDecodes(Repeat(data, n), n * size, size, r);
      TimesLength(data, n);
      forall j | 0 <= j < n * size ensures Times(data, n)[j] == data[j % size] { TimesAt(data, n, j); }
    }
  }

  // Frames.

  function ValidateMetadata(f: Frame): Option<Error> {
    if |f.raw| > MAX_PAYLOAD then Some(PayloadTooLarge)
    else match f.screen
      case Front => if f.width == 72 && f.height == 16 then None else Some(InvalidFrame)
      case Back => if f.width == 160 && f.height == 80 then None else Some(InvalidFrame)
      case OtherScreen => Some(UnsupportedScreen)
  }

  function Limited(size: nat): Result<nat> {
    if size > MAX_PAYLOAD then Err(PayloadTooLarge) else Ok(size)
  }

  function PixelDataSize(f: Frame): Result<nat> {
    var count := f.width * f.height;
    match f.format
    case RGB888 => Limited(count * 3)
    case L8 => Limited(count)
    case L4 => Limited((count + 1) / 2)
    case OtherFormat => Err(UnsupportedFormat)
  }

  function BlockSize(screen: Screen): nat {
    if screen.Front? then 3 else 2
  }

  /** The pixel bytes a frame stands for. */
  ghost predicate HasPixels(f: Frame, pixels: seq<byte>) {
    && ValidateMetadata(f).None?
    && PixelDataSize(f) == Ok(|pixels|)
    && match f.encoding
       case Plain => f.raw == pixels
       case RunLength => Decodes(f.raw, |pixels|, BlockSize(f.screen), pixels)
       case OtherEncoding => false
  }

  lemma PixelsUnique(f: Frame, a: seq<byte>, b: seq<byte>)
    requires HasPixels(f, a) && HasPixels(f, b)
    ensures a == b
  {
    DecodesIffParses(f.raw, |a|, BlockSize(f.screen), a);
    DecodesIffParses(f.raw, |b|, BlockSize(f.screen), b);
  }

  predicate NativeSize(f: Frame) {
    (f.screen.Front? && f.width == 72 && f.height == 16) || (f.screen.Back? && f.width == 160 && f.height == 80)
  }

  /** The frames whose pixels fit 16384 bytes: every known format but 24-bit colour on the back display. */
  predicate Displayable(f: Frame) {
    && |f.raw| <= 16384 && NativeSize(f)
    && !f.format.OtherFormat? && !(f.screen.Back? && f.format.RGB888?)
  }

  /** Three bytes a pixel in colour, one in grey, and one for two pixels in four-bit grey. */
  function PixelBytes(f: Frame): nat {
    match f.format
    case RGB888 => 3 * f.width * f.height
    case L8 => f.width * f.height
    case L4 => f.width * f.height / 2
    case OtherFormat => 0
  }

  lemma DisplayableHasSize(f: Frame)
    ensures Displayable(f) <==> ValidateMetadata(f).None? && PixelDataSize(f).Ok?
    ensures Displayable(f) ==> PixelDataSize(f).value == PixelBytes(f)
  {
    assert f.width == 72 && f.height == 16 ==> f.width * f.height == 1152;
    assert f.width == 160 && f.height == 80 ==> f.width * f.height == 12800;
  }

  method Pixels(f: Frame) returns (r: Result<seq<byte>>)
    ensures r.Ok? ==> HasPixels(f, r.value)
    ensures r.Err? ==> forall pixels :: !HasPixels(f, pixels)
    ensures ValidateMetadata(f).Some? ==> r == Err(ValidateMetadata(f).value)
    ensures ValidateMetadata(f).None? && PixelDataSize(f).Err? ==> r == Err(PixelDataSize(f).error)
    ensures r.Err? && ValidateMetadata(f).None? && PixelDataSize(f).Ok? ==>
              r.error == if f.encoding.OtherEncoding? then UnsupportedEncoding else InvalidFrame
    ensures r.Ok? ==> Displayable(f) && |r.value| == PixelBytes(f)
    ensures f.encoding.Plain? && Displayable(f) && |f.raw| == PixelBytes(f) ==> r == Ok(f.raw)
    ensures f.encoding.RunLength? && Displayable(f) ==>
              forall pixels :: r == Ok(pixels) <==>
                               Decodes(f.raw, PixelBytes(f), if f.screen.Front? then 3 else 2, pixels)
    ensures !Displayable(f) ==> r == Err(
              if |f.raw| > 16384 then PayloadTooLarge
              else if f.screen.OtherScreen? then UnsupportedScreen
              else if !NativeSize(f) then InvalidFrame
              else if f.format.OtherFormat? then UnsupportedFormat
              else PayloadTooLarge)
  {
    DisplayableHasSize(f);
    var invalid := ValidateMetadata(f);
    if invalid.Some? { return Err(invalid.value); }
    var want := PixelDataSize(f);
    if want.Err? { return Err(want.error); }
    match f.encoding
    case Plain => r := if |f.raw| == want.value then Ok(f.raw) else Err(InvalidFrame);
    case RunLength =>
      r := DecodeRLE(f.raw, want.value, BlockSize(f.screen));
      if r.Ok? { DecodedOnce(f.raw, want.value, BlockSize(f.screen), r.value); }
    case OtherEncoding => r := Err(UnsupportedEncoding);
  }

  /** The supported displays: every pixel format but 24-bit colour on the back display. */
  lemma SupportedFrames(f: Frame)
    requires ValidateMetadata(f).None?
    ensures PixelDataSize(f).Ok? <==> !f.format.OtherFormat? && !(f.screen.Back? && f.format.RGB888?)
    ensures PixelDataSize(f).Ok? ==> PixelDataSize(f).value % BlockSize(f.screen) == 0
    ensures PixelDataSize(f).Ok? ==>
              PixelDataSize(f).value + (PixelDataSize(f).value / BlockSize(f.screen) + 126) / 127 <= MAX_PAYLOAD
  {
    assert f.screen.Front? ==> f.width * f.height == 1152;
    assert f.screen.Back? ==> f.width * f.height == 12800;
  }

  /** Every picture of a supported display has a run-length frame within the payload limit. */
  lemma EveryPictureHasRunLengthFrame(f: Frame, pixels: seq<byte>)
    requires ValidateMetadata(f.(raw := [])).None? && PixelDataSize(f) == Ok(|pixels|)
    ensures exists raw :: HasPixels(f.(encoding := RunLength, raw := raw), pixels)
  {
    var size := BlockSize(f.screen);
    SupportedFrames(f.(raw := []));
    var k := |pixels| / size;
    assert k * size == |pixels|;
    AlignedIsEncodable(pixels, size, k);
    var raw :| |raw| <= |pixels| + (k + 126) / 127 && Decodes(raw, |pixels|, size, pixels);
    var g := f.(encoding := RunLength, raw := raw);
    assert HasPixels(g, pixels);
  }

  /** A frame built from an HTTP screen payload holds exactly those bytes. */
  method FromHTTP(screen: Screen, raw: seq<byte>) returns (r: Result<Frame>)
    ensures r.Ok? <==> (screen.Front? && |raw| == 72 * 16 * 3) || (screen.Back? && |raw| == 160 * 80 / 2)
    ensures r.Ok? ==> HasPixels(r.value, raw) && r.value.screen == screen
  {
    var f;
    match screen {
      case Front => f := Frame(Front, 72, 16, Plain, RGB888, []);
      case Back => f := Frame(Back, 160, 80, Plain, L4, []);
      case OtherScreen => return Err(UnsupportedScreen);
    }
    var want := PixelDataSize(f);
    if want.Err? || |raw| != want.value { return Err(InvalidFrame); }
    r := Ok(f.(raw := raw));
  }

  // RGBA conversion.

  datatype Colour = Colour(red: byte, green: byte, blue: byte)

  predicate HasPixel(format: PixelFormat, pixels: seq<byte>, i: nat) {
    match format
    case RGB888 => i * 3 + 2 < |pixels|
    case L8 => i < |pixels|
    case L4 => i / 2 < |pixels|
    case OtherFormat => false
  }

  /** Colour bytes are in B, G, R order; two grey pixels share a byte, the first in the low nibble. */
  function ColourAt(format: PixelFormat, pixels: seq<byte>, i: nat): Colour
    requires HasPixel(format, pixels, i)
  {
    match format
    case RGB888 => Colour(pixels[i * 3 + 2], pixels[i * 3 + 1], pixels[i * 3])
    case L8 => Colour(pixels[i], pixels[i], pixels[i])
    case L4 =>
      var nibble := if i % 2 == 0 then pixels[i / 2] % 16 else pixels[i / 2] / 16;
      Colour(nibble * 17, nibble * 17, nibble * 17)
  }

  /** Four-bit grey covers the whole range, and the nibbles can be read back from it. */
  lemma GreyRoundTrip(pixels: seq<byte>, i: nat)
    requires 2 * i + 1 < 2 * |pixels|
    ensures ColourAt(L4, pixels, 2 * i).red / 17 + 16 * (ColourAt(L4, pixels, 2 * i + 1).red / 17) == pixels[i]
  {
    assert (2 * i) / 2 == i && (2 * i + 1) / 2 == i && (2 * i) % 2 == 0 && (2 * i + 1) % 2 == 1;
  }

  ghost predicate Painted(out: array<byte>, i: nat, c: Colour)
    reads out
  {
    && 4 * i + 3 < out.Length
    && out[4 * i] == c.red && out[4 * i + 1] == c.green && out[4 * i + 2] == c.blue && out[4 * i + 3] == 255
  }

  /** The three channels of one pixel, as the three conversion loops read them. */
  method ReadColour(format: PixelFormat, pixels: seq<byte>, i: nat) returns (c: Colour)
    requires HasPixel(format, pixels, i)
    ensures c == ColourAt(format, pixels, i)
  {
    match format
    case RGB888 => c := Colour(pixels[i * 3 + 2], pixels[i * 3 + 1], pixels[i * 3]);
    case L8 => c := Colour(pixels[i], pixels[i], pixels[i]);
    case L4 =>
      var packed := pixels[i / 2];
      var grey := packed % 16;
      if i % 2 == 1 { grey := packed / 16; }
      grey := grey * 17;
      c := Colour(grey, grey, grey);
  }

  method Paint(format: PixelFormat, pixels: seq<byte>, count: nat) returns (out: array<byte>)
    requires forall i :: 0 <= i < count ==> HasPixel(format, pixels, i)
    ensures fresh(out) && out.Length == 4 * count
    ensures forall i :: 0 <= i < count ==> Painted(out, i, ColourAt(format, pixels, i))
  {
    out := new byte[4 * count];
    for i := 0 to count
      invariant forall j :: 0 <= j < i ==> Painted(out, j, ColourAt(format, pixels, j))
    {
      var c := ReadColour(format, pixels, i);
      out[4 * i], out[4 * i + 1], out[4 * i + 2], out[4 * i + 3] := c.red, c.green, c.blue, 255;
    }
  }

  /** Pixel `i` of the output: red, green and blue from bytes stored in the opposite order, or grey, and opaque. */
  predicate Opaque(out: seq<byte>, format: PixelFormat, pixels: seq<byte>, i: nat) {
    && 4 * i + 3 < |out| && out[4 * i + 3] == 255
    && match format
       case RGB888 =>
         && 3 * i + 2 < |pixels|
         && out[4 * i] == pixels[3 * i + 2] && out[4 * i + 1] == pixels[3 * i + 1] && out[4 * i + 2] == pixels[3 * i]
       case L8 => i < |pixels| && out[4 * i] == out[4 * i + 1] == out[4 * i + 2] == pixels[i]
       case L4 =>
         && i / 2 < |pixels|
         && out[4 * i] == out[4 * i + 1] == out[4 * i + 2]
         && out[4 * i] as int == 17 * (if i % 2 == 0 then pixels[i / 2] % 16 else pixels[i / 2] / 16)
       case OtherFormat => false
  }

  lemma PaintedIsOpaque(out: array<byte>, format: PixelFormat, pixels: seq<byte>, i: nat)
    requires HasPixel(format, pixels, i) && Painted(out, i, ColourAt(format, pixels, i))
    ensures Opaque(out[..], format, pixels, i)
  {
  }

  /** Every pixel of a decodable frame is painted opaque in its own colour. */
  method RGBA(f: Frame) returns (r: Result<array<byte>>, ghost pixels: seq<byte>)
    ensures r.Ok? ==> HasPixels(f, pixels) && fresh(r.value) && r.value.Length == 4 * (f.width * f.height)
    ensures r.Ok? ==> forall i :: 0 <= i < f.width * f.height ==> Opaque(r.value[..], f.format, pixels, i)
    ensures r.Err? ==> forall p :: !HasPixels(f, p)
  {
    var decoded := Pixels(f);
    pixels := [];
    if decoded.Err? { return Err(decoded.error), []; }
    pixels := decoded.value;
    SupportedFrames(f);
    var out := Paint(f.format, decoded.value, f.width * f.height);
    forall i | 0 <= i < f.width * f.height ensures Opaque(out[..], f.format, pixels, i) {
      PaintedIsOpaque(out, f.format, pixels, i);
    }
    r := Ok(out);
  }
}
