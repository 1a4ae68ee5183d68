/**
 The Telnet filter and the prompt checks of the USB command line. Streams
 follow RFC 854 and RFC 855: data with 255 doubled, two- and three-byte
 commands, and subnegotiations closed by 255, 240.
 */
module Telnet {
  import opened Bytes
  import opened Wrappers

  const IAC: byte := 255
  const SB: byte := 250
  const SE: byte := 240
  // ">: "
  const PROMPT: seq<byte> := [62, 58, 32]

  // The grammar.

  datatype Element =
    | Data(b: byte)
    | Command(code: byte)
    | Negotiation(verb: byte, option: byte)
    | Subnegotiation(body: seq<byte>)

  predicate IsVerb(b: byte) { 251 <= b <= 254 }

  ghost predicate Closes(s: seq<byte>, i: nat) {
    i + 1 < |s| && s[i] == IAC && s[i + 1] == SE
  }

  ghost predicate NeverCloses(s: seq<byte>) {
    forall i: nat :: !Closes(s, i)
  }

  ghost predicate Valid(e: Element) {
    match e
    case Data(_) => true
    case Command(code) => code != IAC && code != SB && !IsVerb(code)
    case Negotiation(verb, _) => IsVerb(verb)
    case Subnegotiation(body) => NeverCloses(body)
  }

  ghost predicate AllValid(elements: seq<Element>) {
    forall i :: 0 <= i < |elements| ==> Valid(elements[i])
  }

  function PrintElement(e: Element): seq<byte> {
    match e
    case Data(b) => if b == IAC then [IAC, IAC] else [b]
    case Command(code) => [IAC, code]
    case Negotiation(verb, option) => [IAC, verb, option]
    case Subnegotiation(body) => [IAC, SB] + body + [IAC, SE]
  }

  function Print(elements: seq<Element>): seq<byte> {
    if elements == [] then [] else PrintElement(elements[0]) + Print(elements[1..])
  }

  /** The data that a stream carries. */
  function Payload(elements: seq<Element>): seq<byte> {
    if elements == [] then []
    else (if elements[0].Data? then [elements[0].b] else []) + Payload(elements[1..])
  }

  // The filter on suffixes of the data.

  /** What follows the first 255, 240, or the last byte when there is none. */
  function AfterSubnegotiation(d: seq<byte>): (r: seq<byte>)
    ensures |r| <= |d|
  {
    if |d| < 2 then d
    else if d[0] == IAC && d[1] == SE then d[2..]
    else AfterSubnegotiation(d[1..])
  }

  function Strip(d: seq<byte>): seq<byte>
    decreases |d|
  {
    if d == [] then []
    else if d[0] != IAC then [d[0]] + Strip(d[1..])
    else if |d| == 1 then []
    else if d[1] == IAC then [IAC] + Strip(d[2..])
    else if IsVerb(d[1]) then if |d| < 3 then [] else Strip(d[3..])
    else if d[1] == SB then Strip(AfterSubnegotiation(d[2..]))
    else Strip(d[2..])
  }

  /** The filter's rules in the numbers of RFC 854: what the front of a stream does to the result. */
  lemma RulesOfTheFilter(b: byte, option: byte, rest: seq<byte>)
    ensures Strip([]) == [] && Strip([255]) == []
    ensures b != 255 ==> Strip([b] + rest) == [b] + Strip(rest)
    ensures Strip([255, 255] + rest) == [255] + Strip(rest)
    ensures 251 <= b <= 254 ==> Strip([255, b, option] + rest) == Strip(rest) && Strip([255, b]) == []
    ensures b < 250 ==> Strip([255, b] + rest) == Strip(rest)
  {
    assert ([b] + rest)[1..] == rest;
    assert ([255, 255] + rest)[2..] == rest;
    assert ([255, b] + rest)[2..] == rest;
    assert ([255, b, option] + rest)[3..] == rest;
  }

  /** A subnegotiation vanishes up to its first 255, 240; one that is cut short leaves its last byte. */
  lemma RuleOfSubnegotiation(body: seq<byte>, rest: seq<byte>)
    requires forall i :: 0 <= i < |body| - 1 ==> !(body[i] == 255 && body[i + 1] == 240)
    ensures Strip([255, 250] + body + [255, 240] + rest) == Strip(rest)
    ensures body != [] ==> Strip([255, 250] + body) == Strip([body[|body| - 1]])
    ensures Strip([255, 250]) == []
  {
    var d := [255, 250] + body + [255, 240] + rest;
    assert d[2..] == body + ([255, 240] + rest);
    Skips(body, [255, 240] + rest);
    assert ([255, 240] + rest)[2..] == rest;
    var cut := [255, 250] + body;
    assert cut[2..] == body;
    if body != [] { SkipsToLast(body); }
    assert [255, 250][2..] == [];
  }

  lemma {:induction false} Skips(body: seq<byte>, end: seq<byte>)
    requires forall i :: 0 <= i < |body| - 1 ==> !(body[i] == 255 && body[i + 1] == 240)
    requires |end| >= 2 && end[0] == 255 && end[1] == 240
    ensures AfterSubnegotiation(body + end) == end[2..]
    decreases |body|
  {
    if body == [] {
      assert body + end == end;
    } else {
      assert (body + end)[1..] == body[1..] + end;
      Skips(body[1..], end);
    }
  }

  lemma {:induction false} SkipsToLast(body: seq<byte>)
    requires body != [] && forall i :: 0 <= i < |body| - 1 ==> !(body[i] == 255 && body[i + 1] == 240)
    ensures AfterSubnegotiation(body) == [body[|body| - 1]]
    decreases |body|
  {
    if |body| > 1 { SkipsToLast(body[1..]); }
  }

  // The loop of the source.

  method SkipSubnegotiation(data: seq<byte>, start: nat) returns (index: nat)
    requires start <= |data|
    ensures start <= index <= |data|
    ensures data[index..] == AfterSubnegotiation(data[start..])
  {
    index := start;
    while index + 1 < |data| && (data[index] != IAC || data[index + 1] != SE)
      invariant start <= index <= |data|
      invariant AfterSubnegotiation(data[index..]) == AfterSubnegotiation(data[start..])
    {
      assert data[index..][1..] == data[index + 1..];
      index := index + 1;
    }
    if index + 1 < |data| {
      assert data[index..][2..] == data[index + 2..];
      index := index + 2;
    }
  }

  /** One round of the filter, at index `i` of the data. */
  lemma StripAt(data: seq<byte>, i: nat)
    requires i < |data|
    ensures data[i] != IAC ==> Strip(data[i..]) == [data[i]] + Strip(data[i + 1..])
    ensures data[i] == IAC && i + 1 == |data| ==> Strip(data[i..]) == []
    ensures data[i] == IAC && i + 1 < |data| && data[i + 1] == IAC ==> Strip(data[i..]) == [IAC] + Strip(data[i + 2..])
    ensures data[i] == IAC && i + 1 < |data| && IsVerb(data[i + 1]) ==>
              Strip(data[i..]) == if i + 2 == |data| then [] else Strip(data[i + 3..])
    ensures data[i] == IAC && i + 1 < |data| && data[i + 1] == SB ==>
              Strip(data[i..]) == Strip(AfterSubnegotiation(data[i + 2..]))
    ensures data[i] == IAC && i + 1 < |data| && data[i + 1] != IAC && data[i + 1] != SB && !IsVerb(data[i + 1]) ==>
              Strip(data[i..]) == Strip(data[i + 2..])
  {
    var d := data[i..];
    assert d[1..] == data[i + 1..];
    if i + 2 <= |data| {
      assert d[2..] == data[i + 2..];
    }
    if i + 3 <= |data| {
      assert d[3..] == data[i + 3..];
    }
  }

  lemma Associative(a: seq<byte>, b: seq<byte>, c: seq<byte>)
    ensures (a + b) + c == a + (b + c)
  {}

  method StripIAC(data: seq<byte>) returns (result: seq<byte>)
    ensures result == Strip(data)
  {
    result := [];
    var index := 0;
    while index < |data|
      invariant index <= |data|
      invariant result + Strip(data[index..]) == Strip(data)
    {
      StripAt(data, index);
      if data[index] != IAC {
        Associative(result, [data[index]], Strip(data[index + 1..]));
        result := result + [data[index]];
        index := index + 1;
        continue;
      }
      if index + 1 >= |data| {
        break;
      }
      var command := data[index + 1];
      if command == IAC {
        Associative(result, [IAC], Strip(data[index + 2..]));
        result := result + [IAC];
        index := index + 2;
      } else if IsVerb(command) {
        if index + 2 >= |data| {
          return;
        }
        index := index + 3;
      } else if command == SB {
        index := SkipSubnegotiation(data, index + 2);
      } else {
        index := index + 2;
      }
    }
  }

  // The filter against the grammar.

  lemma {:induction false} CloseFound(body: seq<byte>, rest: seq<byte>)
    requires NeverCloses(body)
    ensures AfterSubnegotiation(body + [IAC, SE] + rest) == rest
    decreases |body|
  {
    var d := body + [IAC, SE] + rest;
    if body == [] {
      assert d[2..] == rest;
    } else {
      assert !Closes(body, 0);
      assert NeverCloses(body[1..]) by {
        forall i: nat ensures !Closes(body[1..], i) {
          assert !Closes(body, i + 1);
        }
      }
      assert d[1..] == body[1..] + [IAC, SE] + rest;
      CloseFound(body[1..], rest);
    }
  }

  lemma StripSubnegotiation(body: seq<byte>, rest: seq<byte>)
    requires NeverCloses(body)
    ensures Strip(PrintElement(Subnegotiation(body)) + rest) == Strip(rest)
  {
    var d := PrintElement(Subnegotiation(body)) + rest;
    assert d[2..] == body + [IAC, SE] + rest;
    CloseFound(body, rest);
  }

  lemma StripElement(e: Element, rest: seq<byte>)
    requires Valid(e)
    ensures Strip(PrintElement(e) + rest) == (if e.Data? then [e.b] else []) + Strip(rest)
  {
    var printed := PrintElement(e);
    assert [] + Strip(rest) == Strip(rest);
    if e.Subnegotiation? {
      StripSubnegotiation(e.body, rest);
    } else {
      assert (printed + rest)[|printed|..] == rest;
    }
  }

  /** Filtering a well-formed stream, whatever follows it, yields its data and nothing else. */
  lemma {:induction false} StripPrinted(elements: seq<Element>, rest: seq<byte>)
    requires AllValid(elements)
    ensures Strip(Print(elements) + rest) == Payload(elements) + Strip(rest)
    decreases |elements|
  {
    if elements == [] {
      assert Print(elements) + rest == rest;
    } else {
      var after := Print(elements[1..]) + rest;
      Associative(PrintElement(elements[0]), Print(elements[1..]), rest);
      StripElement(elements[0], after);
      StripPrinted(elements[1..], rest);
      Associative(if elements[0].Data? then [elements[0].b] else [], Payload(elements[1..]), Strip(rest));
    }
  }

  lemma StripIsPayload(elements: seq<Element>)
    requires AllValid(elements)
    ensures Strip(Print(elements)) == Payload(elements)
  {
    StripPrinted(elements, []);
    assert Print(elements) + [] == Print(elements);
  }

  /** An element that the end of the data cuts short. */
  ghost predicate CutShort(d: seq<byte>) {
    || d == []
    || d == [IAC]
    || (|d| == 2 && d[0] == IAC && IsVerb(d[1]))
    || (|d| >= 2 && d[0] == IAC && d[1] == SB && NeverCloses(d[2..]))
  }

  /** What the filter lets through of an element cut short: the last byte of an open subnegotiation. */
  function Leftover(d: seq<byte>): seq<byte> {
    if |d| >= 3 && d[|d| - 1] != IAC then [d[|d| - 1]] else []
  }

  lemma {:induction false} CloseOrLast(d: seq<byte>) returns (body: seq<byte>, closed: bool)
    ensures NeverCloses(body)
    ensures closed ==> d == body + [IAC, SE] + AfterSubnegotiation(d)
    ensures !closed ==> d == body && AfterSubnegotiation(d) == if d == [] then [] else [d[|d| - 1]]
    decreases |d|
  {
    if |d| < 2 {
      body, closed := d, false;
    } else if d[0] == IAC && d[1] == SE {
      body, closed := [], true;
      assert d == [] + [IAC, SE] + d[2..];
    } else {
      body, closed := CloseOrLast(d[1..]);
      var tail := body;
      body := [d[0]] + tail;
      if closed {
        assert d == [d[0]] + d[1..];
        assert d == body + [IAC, SE] + AfterSubnegotiation(d);
      }
      forall i: nat ensures !Closes(body, i) {
        if i > 0 {
          assert body[1..] == tail;
          assert !Closes(tail, i - 1);
        } else if |body| > 1 {
          assert body[1] == d[1];
        }
      }
    }
  }

  /**
   The filter on every input: a byte string is a well-formed stream and then an
   element cut short, and what is left is the data of the stream, followed by
   the last byte of a subnegotiation that was never closed.
   */
  lemma {:induction false} StripIsExact(d: seq<byte>) returns (elements: seq<Element>, tail: seq<byte>)
    ensures AllValid(elements) && CutShort(tail) && d == Print(elements) + tail
    ensures Strip(d) == Payload(elements) + Leftover(tail)
    decreases |d|
  {
    var first, cut := NextElement(d);
    if cut {
      elements, tail := [], d;
      StripCutShort(d);
      assert d == Print(elements) + tail;
    } else {
      var rest := d[|PrintElement(first)|..];
      var more;
      more, tail := StripIsExact(rest);
      elements := [first] + more;
      PrintCons(first, more);
      StripElement(first, rest);
      Associative(PrintElement(first), Print(more), tail);
      Associative(if first.Data? then [first.b] else [], Payload(more), Leftover(tail));
    }
  }

  lemma PrintCons(first: Element, more: seq<Element>)
    ensures Print([first] + more) == PrintElement(first) + Print(more)
    ensures Payload([first] + more) == (if first.Data? then [first.b] else []) + Payload(more)
  {
    assert ([first] + more)[1..] == more;
  }

  lemma StripCutShort(d: seq<byte>)
    requires CutShort(d)
    ensures Strip(d) == Leftover(d)
  {
    if |d| >= 2 && d[1] == SB {
      var body, closed := CloseOrLast(d[2..]);
      assert !closed by {
        if closed {
          assert Closes(d[2..], |body|);
        }
      }
      if |d| > 2 {
        var last := [d[|d| - 1]];
        assert AfterSubnegotiation(d[2..]) == last;
        assert last[1..] == [];
        assert Strip(last) == Leftover(d);
      }
    }
  }

  lemma NextElement(d: seq<byte>) returns (e: Element, cut: bool)
    ensures cut ==> CutShort(d)
    ensures !cut ==> Valid(e) && |PrintElement(e)| <= |d| && d == PrintElement(e) + d[|PrintElement(e)|..]
  {
    e, cut := Data(0), false;
    if d == [] || d == [IAC] {
      cut := true;
    } else if d[0] != IAC {
      e := Data(d[0]);
    } else if d[1] == IAC {
      e := Data(IAC);
    } else if IsVerb(d[1]) {
      if |d| == 2 {
        cut := true;
      } else {
        e := Negotiation(d[1], d[2]);
      }
    } else if d[1] == SB {
      var body, closed := CloseOrLast(d[2..]);
      if closed {
        e := Subnegotiation(body);
        assert d == [IAC, SB] + d[2..];
        assert d == PrintElement(e) + AfterSubnegotiation(d[2..]);
      } else {
        cut := true;
      }
    } else {
      e := Command(d[1]);
    }
  }

  // The prompt checks.

  function Last(d: seq<byte>, count: nat): seq<byte> {
    if |d| <= count then d else d[|d| - count..]
  }

  predicate HasSuffix(d: seq<byte>, suffix: seq<byte>) {
    Last(d, |suffix|) == suffix
  }

  predicate ContainsPrompt(data: seq<byte>) {
    HasSuffix(Strip(data), PROMPT)
  }

  /** The prompt is the three bytes of ">: ". */
  lemma PromptInBytes(data: seq<byte>)
    ensures ContainsPrompt(data) <==>
              var d := Strip(data);
              |d| >= 3 && d[|d| - 3] == 62 && d[|d| - 2] == 58 && d[|d| - 1] == 32
  {
    var d := Strip(data);
    if |d| >= 3 { assert d[|d| - 3..] == [d[|d| - 3], d[|d| - 2], d[|d| - 1]]; }
  }

  /** For a well-formed stream, the check asks whether the data so far ends in the prompt. */
  lemma PromptIsPayloadSuffix(elements: seq<Element>)
    requires AllValid(elements)
    ensures ContainsPrompt(Print(elements)) <==> HasSuffix(Payload(elements), PROMPT)
  {
    StripIsPayload(elements);
  }

  method TrailingBytes(data: seq<byte>, count: int) returns (r: seq<byte>)
    ensures count <= 0 ==> r == []
    ensures count >= 0 ==> r == Last(data, count)
  {
    if count <= 0 {
      return [];
    }
    if |data| <= count {
      return data;
    }
    r := data[|data| - count..];
  }

  // What the connection, the context and the writer do in one round of a read loop; `written` is
  // how many bytes of the chunk the writer reports to have taken.
  datatype Read = Read(cancelled: bool, chunk: seq<byte>, written: nat, writeError: bool,
                       fails: bool, cancelledMeanwhile: bool)

  function GoodRead(chunk: seq<byte>): Read { Read(false, chunk, |chunk|, false, false, false) }

  /** A write that reports an error, or that is short. */
  predicate WriteFails(read: Read) {
    read.chunk != [] && (read.writeError || read.written != |read.chunk|)
  }

  /** What a round passed on to the writer. */
  function Written(read: Read): seq<byte> {
    if read.cancelled then []
    else if read.written <= |read.chunk| then read.chunk[..read.written]
    else read.chunk
  }

  function History(script: seq<Read>, rounds: nat): seq<byte>
    requires rounds <= |script|
  {
    if rounds == 0 then [] else History(script, rounds - 1) + script[rounds - 1].chunk
  }

  datatype Reply = Found | TooLarge | NotFound | StillReading

  /** Round `k` read something new and brought the data to the prompt. */
  predicate AtPrompt(script: seq<Read>, k: nat)
    requires k < |script|
  {
    script[k].chunk != [] && ContainsPrompt(History(script, k + 1))
  }

  /** Round `k` of a bounded read gave no reason to stop. */
  predicate KeepsReading(script: seq<Read>, k: nat, maximum: int)
    requires k < |script|
  {
    && !script[k].fails
    && !AtPrompt(script, k)
    && (script[k].chunk != [] ==> |History(script, k + 1)| <= maximum)
  }

  /** None of the first rounds failed, reached the prompt or exceeded the limit. */
  ghost predicate Quiet(script: seq<Read>, n: nat, maximum: int)
    requires n <= |script|
  {
    forall k: nat :: k < n ==>
      && !AtPrompt(script, k) && !script[k].fails
      && (script[k].chunk != [] ==> |History(script, k + 1)| <= maximum)
  }

  lemma KeptIsQuiet(script: seq<Read>, n: nat, maximum: int)
    requires n <= |script| && forall k: nat :: k < n ==> KeepsReading(script, k, maximum)
    ensures Quiet(script, n, maximum)
  {
    forall k: nat | k < n
      ensures !AtPrompt(script, k) && !script[k].fails
              && (script[k].chunk != [] ==> |History(script, k + 1)| <= maximum)
    {
      assert KeepsReading(script, k, maximum);
    }
  }

  method ReadUntilPrompt(script: seq<Read>, maximum: int) returns (result: seq<byte>, reply: Reply, rounds: nat)
    ensures rounds <= |script| && result == History(script, rounds)
    ensures forall k: nat :: k < rounds - 1 ==> KeepsReading(script, k, maximum)
    ensures reply.StillReading? <==> forall k: nat :: k < |script| ==> KeepsReading(script, k, maximum)
    ensures reply.Found? ==> rounds > 0 && AtPrompt(script, rounds - 1) && |result| <= maximum
    ensures reply.TooLarge? ==> rounds > 0 && script[rounds - 1].chunk != [] && |result| > maximum
    ensures reply.NotFound? ==>
              && rounds > 0 && script[rounds - 1].fails && !AtPrompt(script, rounds - 1)
              && (script[rounds - 1].chunk != [] ==> |result| <= maximum)
    ensures if reply.StillReading? then Quiet(script, rounds, maximum)
            else rounds > 0 && Quiet(script, rounds - 1, maximum)
  {
    result, rounds := [], 0;
    while rounds < |script|
      invariant rounds <= |script| && result == History(script, rounds)
      invariant forall k: nat :: k < rounds ==> KeepsReading(script, k, maximum)
    {
      var read := script[rounds];
      ghost var k: nat := rounds;
      KeptIsQuiet(script, k, maximum);
      rounds := rounds + 1;
      result := result + read.chunk;
      if read.chunk != [] {
        if |result| > maximum {
          assert !KeepsReading(script, k, maximum);
          return result, TooLarge, rounds;
        }
        if ContainsPrompt(result) {
          assert !KeepsReading(script, k, maximum);
          return result, Found, rounds;
        }
      }
      if read.fails {
        assert !KeepsReading(script, k, maximum);
        return result, NotFound, rounds;
      }
    }
    reply := StillReading;
    KeptIsQuiet(script, rounds, maximum);
  }

  datatype Outcome = Completed | Interrupted | Broken | Streaming

  /** The check that the streaming loop makes in round `k`: on two bytes of history and the new chunk. */
  predicate TailAtPrompt(script: seq<Read>, k: nat)
    requires k < |script|
  {
    script[k].chunk != [] && ContainsPrompt(Last(History(script, k), |PROMPT| - 1) + script[k].chunk)
  }

  /** The outcome of a round, given whether the data is at the prompt after it. */
  function RoundOutcome(read: Read, atPrompt: bool): Outcome {
    if read.cancelled || WriteFails(read) then Interrupted
    else if atPrompt then Completed
    else if read.fails then (if read.cancelledMeanwhile then Interrupted else Broken)
    else Streaming
  }

  /** One round, on the prompt tail of the history. */
  method StreamRound(read: Read, promptTail: seq<byte>, ghost history: seq<byte>)
    returns (outcome: Outcome, tail: seq<byte>, written: seq<byte>)
    requires promptTail == Last(history, |PROMPT| - 1)
    ensures outcome == RoundOutcome(read, read.chunk != [] && ContainsPrompt(promptTail + read.chunk))
    ensures written == Written(read)
    ensures outcome.Streaming? || outcome.Completed? ==> written == read.chunk
    ensures outcome.Streaming? ==> tail == Last(history + read.chunk, |PROMPT| - 1)
  {
    tail, written := promptTail, Written(read);
    if read.cancelled {
      return Interrupted, tail, written;
    }
    if read.chunk != [] {
      var combined := promptTail + read.chunk;
      if read.writeError || read.written != |read.chunk| {
        return Interrupted, tail, written;
      }
      if ContainsPrompt(combined) {
        return Completed, tail, written;
      }
      tail := TrailingBytes(combined, |PROMPT| - 1);
      LastOfLast(history, read.chunk, |PROMPT| - 1);
    } else {
      assert history + read.chunk == history;
    }
    outcome := if !read.fails then Streaming else if read.cancelledMeanwhile then Interrupted else Broken;
  }

  /**
   How a round ends: complete if everything was written and the prompt is there;
   broken if the connection failed before it with the context alive; going on if
   nothing happened; and otherwise the command is interrupted.
   */
  ghost predicate EndsAs(read: Read, atPrompt: bool, outcome: Outcome) {
    var wrote := !read.cancelled && (read.chunk == [] || (!read.writeError && read.written == |read.chunk|));
    && (outcome.Completed? <==> wrote && atPrompt)
    && (outcome.Broken? <==> wrote && !atPrompt && read.fails && !read.cancelledMeanwhile)
    && (outcome.Streaming? <==> wrote && !atPrompt && !read.fails)
    && (outcome.Interrupted? <==> !wrote || (!atPrompt && read.fails && read.cancelledMeanwhile))
  }

  method StreamLine(script: seq<Read>) returns (outcome: Outcome, rounds: nat, forwarded: seq<byte>)
    ensures rounds <= |script|
    ensures forall k: nat :: k < rounds - 1 ==> RoundOutcome(script[k], TailAtPrompt(script, k)).Streaming?
    ensures rounds > 0 ==> outcome == RoundOutcome(script[rounds - 1], TailAtPrompt(script, rounds - 1))
    ensures outcome.Streaming? ==> rounds == |script|
    ensures rounds == 0 ==> outcome.Streaming?
    ensures forwarded == if rounds == 0 then [] else History(script, rounds - 1) + Written(script[rounds - 1])
    ensures outcome.Completed? ==> forwarded == History(script, rounds)
    ensures rounds > 0 ==> EndsAs(script[rounds - 1], TailAtPrompt(script, rounds - 1), outcome)
    ensures rounds > 0 && script[rounds - 1].cancelled ==> forwarded == History(script, rounds - 1)
  {
    var promptTail := [];
    outcome, rounds, forwarded := Streaming, 0, [];
    while rounds < |script|
      invariant rounds <= |script| && outcome.Streaming? && forwarded == History(script, rounds)
      invariant promptTail == Last(History(script, rounds), |PROMPT| - 1)
      invariant forall k: nat :: k < rounds ==> RoundOutcome(script[k], TailAtPrompt(script, k)).Streaming?
      invariant rounds > 0 ==> Written(script[rounds - 1]) == script[rounds - 1].chunk
    {
      var written;
      outcome, promptTail, written := StreamRound(script[rounds], promptTail, History(script, rounds));
      forwarded := forwarded + written;
      rounds := rounds + 1;
      if !outcome.Streaming? {
        return;
      }
    }
  }

  lemma LastOfLast(h: seq<byte>, c: seq<byte>, count: nat)
    ensures Last(Last(h, count) + c, count) == Last(h + c, count)
  {}

  // The streaming check against the whole history.

  predicate IacFree(d: seq<byte>) {
    IAC !in d
  }

  lemma {:induction false} StripPlain(d: seq<byte>, rest: seq<byte>)
    requires IacFree(d)
    ensures Strip(d + rest) == d + Strip(rest)
    decreases |d|
  {
    if d == [] {
      assert d + rest == rest;
    } else {
      assert (d + rest)[1..] == d[1..] + rest;
      StripPlain(d[1..], rest);
    }
  }

  lemma PlainRest(d: seq<byte>)
    requires IacFree(d)
    ensures Strip(d) == d
  {
    StripPlain(d, []);
    assert d + [] == d;
  }

  lemma SuffixIgnoresPrefix(a: seq<byte>, b: seq<byte>, suffix: seq<byte>)
    requires |b| >= |suffix|
    ensures HasSuffix(a + b, suffix) <==> HasSuffix(b, suffix)
  {
    assert Last(a + b, |suffix|) == Last(b, |suffix|);
  }

  /**
   Whenever the last two bytes of the history are plain data, on an element
   boundary, and the prompt has not been reached, two bytes of history decide
   like all of it, also when the new chunk holds commands.
   */
  lemma TailDecides(elements: seq<Element>, tail: seq<byte>, chunk: seq<byte>)
    requires AllValid(elements) && IacFree(tail) && |tail| == |PROMPT| - 1
    requires !ContainsPrompt(Print(elements) + tail)
    ensures ContainsPrompt(Last(Print(elements) + tail, |PROMPT| - 1) + chunk)
       <==> ContainsPrompt(Print(elements) + tail + chunk)
  {
    var h := Print(elements) + tail;
    assert Last(h, 2) == tail;
    var seen := tail + Strip(chunk);
    StripPlain(tail, chunk);
    StripPrinted(elements, tail + chunk);
    Associative(Print(elements), tail, chunk);
    if Strip(chunk) == [] {
      StripPlain(tail, []);
      StripPrinted(elements, tail);
      assert tail + [] == tail;
      assert seen == tail;
    } else {
      SuffixIgnoresPrefix(Payload(elements), seen, PROMPT);
    }
  }

  lemma {:induction false} HistoryIsPlain(script: seq<Read>, rounds: nat)
    requires rounds <= |script|
    requires forall k :: 0 <= k < rounds ==> IacFree(script[k].chunk)
    ensures IacFree(History(script, rounds))
  {
    if rounds > 0 {
      HistoryIsPlain(script, rounds - 1);
    }
  }

  lemma PlainTailDecides(h: seq<byte>, c: seq<byte>)
    requires IacFree(h) && IacFree(c) && c != []
    ensures HasSuffix(Last(h, 2) + c, PROMPT) <==> HasSuffix(h + c, PROMPT)
  {
    if |h| > 2 {
      var front, tail := h[..|h| - 2], h[|h| - 2..];
      assert h == front + tail;
      Associative(front, tail, c);
      SuffixIgnoresPrefix(front, tail + c, PROMPT);
    }
  }

  lemma PlainPrompt(d: seq<byte>)
    requires IacFree(d)
    ensures ContainsPrompt(d) <==> HasSuffix(d, PROMPT)
  {
    PlainRest(d);
  }

  /** Without IAC bytes, however the stream is cut into chunks, every round decides like the whole history. */
  lemma TailCheckIsExact(script: seq<Read>, k: nat)
    requires k < |script|
    requires forall j :: 0 <= j <= k ==> IacFree(script[j].chunk)
    ensures TailAtPrompt(script, k) <==> AtPrompt(script, k)
  {
    var h, c := History(script, k), script[k].chunk;
    HistoryIsPlain(script, k);
    if c != [] {
      PlainTailDecides(h, c);
      PlainPrompt(Last(h, 2) + c);
      PlainPrompt(h + c);
    }
  }

  // Exactly when two bytes of history suffice: the filter and the prompt match as one automaton.

  datatype Mode = Ground | AfterIAC | AfterVerb | InBody | BodyIAC

  /**
   Where the filter stands, how many bytes of the prompt end the data so far,
   and the last byte of an open subnegotiation, which the filter lets through
   when nothing follows.
   */
  datatype Parser = Parser(mode: Mode, progress: nat, hanging: Option<byte>)

  const START := Parser(Ground, 0, None)

  function Advance(progress: nat, b: byte): nat {
    if progress < |PROMPT| && b == PROMPT[progress] then progress + 1
    else if b == PROMPT[0] then 1
    else 0
  }

  function Next(s: Parser, b: byte): Parser {
    match s.mode
    case Ground => if b == IAC then Parser(AfterIAC, s.progress, None) else Parser(Ground, Advance(s.progress, b), None)
    case AfterIAC =>
      if b == IAC then Parser(Ground, Advance(s.progress, IAC), None)
      else Parser(if IsVerb(b) then AfterVerb else if b == SB then InBody else Ground, s.progress, None)
    case AfterVerb => Parser(Ground, s.progress, None)
    case InBody => if b == IAC then Parser(BodyIAC, s.progress, None) else Parser(InBody, s.progress, Some(b))
    case BodyIAC =>
      if b == SE then Parser(Ground, s.progress, None)
      else if b == IAC then Parser(BodyIAC, s.progress, None)
      else Parser(InBody, s.progress, Some(b))
  }

  function Feed(s: Parser, d: seq<byte>): Parser
    decreases |d|
  {
    if d == [] then s else Feed(Next(s, d[0]), d[1..])
  }

  function Accepts(s: Parser): bool {
    if s.hanging.Some? then s.progress == 2 && s.hanging.value == PROMPT[2] else s.progress == 3
  }

  /** Two parsers that no further byte can tell apart. */
  predicate SameState(s: Parser, t: Parser) {
    s.mode == t.mode && s.progress == t.progress
  }

  predicate Consistent(s: Parser) {
    s.progress <= 3 && (s.hanging.Some? ==> s.mode.InBody? && s.hanging.value != IAC)
  }

  /** The length of the longest prefix of the prompt that ends `out`. */
  function Progress(out: seq<byte>): nat {
    var n := |out|;
    if n >= 3 && out[n - 3] == PROMPT[0] && out[n - 2] == PROMPT[1] && out[n - 1] == PROMPT[2] then 3
    else if n >= 2 && out[n - 2] == PROMPT[0] && out[n - 1] == PROMPT[1] then 2
    else if n >= 1 && out[n - 1] == PROMPT[0] then 1
    else 0
  }

  lemma PromptIsProgress(out: seq<byte>)
    ensures HasSuffix(out, PROMPT) <==> Progress(out) == 3
  {
    if |out| > 3 {
      var last := out[|out| - 3..];
      assert last[0] == out[|out| - 3] && last[1] == out[|out| - 2] && last[2] == out[|out| - 1];
    }
  }

  lemma ProgressGrows(out: seq<byte>, b: byte)
    ensures Progress(out + [b]) == Advance(Progress(out), b)
  {}

  /** What the filter yields of `d` from where the parser stands. */
  function Yield(s: Parser, d: seq<byte>): seq<byte> {
    match s.mode
    case Ground => Strip(d)
    case AfterIAC => Strip([IAC] + d)
    case AfterVerb => if d == [] then [] else Strip(d[1..])
    case InBody => Strip(AfterSubnegotiation((if s.hanging.Some? then [s.hanging.value] else []) + d))
    case BodyIAC => Strip(AfterSubnegotiation([IAC] + d))
  }

  /** The data byte that the parser emits on `b`, if any. */
  function Emits(s: Parser, b: byte): seq<byte> {
    if (s.mode.Ground? && b != IAC) || (s.mode.AfterIAC? && b == IAC) then [b] else []
  }

  lemma BodyStep(front: seq<byte>, d: seq<byte>)
    requires d != [] && (front == [] || (|front| == 1 && (front[0] != IAC || d[0] != SE)))
    ensures AfterSubnegotiation(front + d) == AfterSubnegotiation([d[0]] + d[1..])
  {
    assert [d[0]] + d[1..] == d;
    if front == [] {
      assert front + d == d;
    } else {
      assert (front + d)[1..] == d;
    }
  }

  lemma YieldInBody(s: Parser, d: seq<byte>)
    requires d != [] && Consistent(s) && (s.mode.InBody? || s.mode.BodyIAC?)
    ensures Yield(s, d) == Emits(s, d[0]) + Yield(Next(s, d[0]), d[1..])
  {
    if s.mode.BodyIAC? && d[0] == SE {
      assert ([IAC] + d)[2..] == d[1..];
    } else {
      BodyStep(if s.mode.BodyIAC? then [IAC] else if s.hanging.Some? then [s.hanging.value] else [], d);
      assert d[0] != IAC || [IAC] + d[1..] == [d[0]] + d[1..];
    }
    assert [] + Yield(Next(s, d[0]), d[1..]) == Yield(Next(s, d[0]), d[1..]);
  }

  lemma YieldAfterIAC(s: Parser, d: seq<byte>)
    requires d != [] && s.mode.AfterIAC?
    ensures Yield(s, d) == Emits(s, d[0]) + Yield(Next(s, d[0]), d[1..])
  {
    var whole := [IAC] + d;
    assert whole[2..] == d[1..];
    if |d| > 1 {
      assert whole[3..] == d[1..][1..];
    }
    assert [] + d[1..] == d[1..];
    assert [] + Yield(Next(s, d[0]), d[1..]) == Yield(Next(s, d[0]), d[1..]);
  }

  lemma YieldOne(s: Parser, d: seq<byte>)
    requires d != [] && Consistent(s)
    ensures Yield(s, d) == Emits(s, d[0]) + Yield(Next(s, d[0]), d[1..])
  {
    if s.mode.InBody? || s.mode.BodyIAC? {
      YieldInBody(s, d);
    } else if s.mode.AfterIAC? {
      YieldAfterIAC(s, d);
    } else {
      assert [d[0]] + d[1..] == d;
      assert [] + Yield(Next(s, d[0]), d[1..]) == Yield(Next(s, d[0]), d[1..]);
    }
  }

  lemma YieldNothing(s: Parser)
    requires Consistent(s)
    ensures Yield(s, []) == if s.hanging.Some? then [s.hanging.value] else []
  {
    if s.hanging.Some? {
      var last := [s.hanging.value];
      assert last + [] == last && last[1..] == [];
    }
  }

  lemma {:induction false} FeedDecides(s: Parser, out: seq<byte>, d: seq<byte>)
    requires Consistent(s) && s.progress == Progress(out)
    ensures Accepts(Feed(s, d)) <==> HasSuffix(out + Yield(s, d), PROMPT)
    decreases |d|
  {
    if d == [] {
      YieldNothing(s);
      PromptIsProgress(out + Yield(s, []));
      if s.hanging.Some? {
        ProgressGrows(out, s.hanging.value);
      } else {
        assert out + [] == out;
      }
    } else {
      YieldOne(s, d);
      var emitted := Emits(s, d[0]);
      if emitted != [] {
        ProgressGrows(out, d[0]);
      } else {
        assert out + emitted == out;
      }
      FeedDecides(Next(s, d[0]), out + emitted, d[1..]);
      Associative(out, emitted, Yield(Next(s, d[0]), d[1..]));
    }
  }

  lemma ParserDecides(d: seq<byte>)
    ensures ContainsPrompt(d) <==> Accepts(Feed(START, d))
  {
    FeedDecides(START, [], d);
    assert [] + Strip(d) == Strip(d);
  }

  lemma {:induction false} FeedConcat(s: Parser, a: seq<byte>, b: seq<byte>)
    ensures Feed(s, a + b) == Feed(Feed(s, a), b)
    decreases |a|
  {
    if a == [] {
      assert a + b == b;
    } else {
      assert (a + b)[1..] == a[1..] + b;
      FeedConcat(Next(s, a[0]), a[1..], b);
    }
  }

  lemma {:induction false} FeedConsistent(s: Parser, d: seq<byte>)
    requires Consistent(s)
    ensures Consistent(Feed(s, d))
    decreases |d|
  {
    if d != [] { FeedConsistent(Next(s, d[0]), d[1..]); }
  }

  lemma FeedFirst(s: Parser, a: byte, rest: seq<byte>)
    ensures Feed(s, [a] + rest) == Feed(Next(s, a), rest)
  {
    assert ([a] + rest)[1..] == rest;
  }

  ghost predicate Indistinct(s: Parser, t: Parser) {
    && Consistent(s) && Consistent(t)
    && forall c :: c != [] ==> (Accepts(Feed(s, c)) <==> Accepts(Feed(t, c)))
  }

  lemma StillIndistinct(s: Parser, t: Parser, a: byte)
    requires Indistinct(s, t)
    ensures Accepts(Next(s, a)) <==> Accepts(Next(t, a))
    ensures Indistinct(Next(s, a), Next(t, a))
  {
    FeedFirst(s, a, []);
    FeedFirst(t, a, []);
    assert [a] + [] != [];
    forall c: seq<byte> | c != [] ensures Accepts(Feed(Next(s, a), c)) <==> Accepts(Feed(Next(t, a), c)) {
      FeedFirst(s, a, c);
      FeedFirst(t, a, c);
      assert [a] + c != [];
    }
  }

  // What a parser accepts after one to four well-chosen bytes tells its mode and progress.

  predicate Outside(m: Mode) { m.AfterIAC? || m.AfterVerb? }

  predicate Inside(m: Mode) { m.InBody? || m.BodyIAC? }

  predicate AfterOther(s: Parser) { s.progress == 3 && Outside(s.mode) }

  predicate AfterLast(s: Parser) { s.progress == if Outside(s.mode) then 3 else 2 }

  predicate AfterTwo(s: Parser) { s.progress == if s.mode.Ground? then 1 else 2 }

  predicate AfterWhole(s: Parser) { s.mode.Ground? || s.progress == if Outside(s.mode) then 1 else 2 }

  predicate AfterClose(s: Parser) { !s.mode.Ground? && s.progress == if s.mode.InBody? then 2 else 1 }

  lemma OneByteTells(s: Parser, t: Parser)
    requires Indistinct(s, t)
    ensures s.progress == 3 && !s.mode.AfterIAC? <==> t.progress == 3 && !t.mode.AfterIAC?
    ensures AfterOther(s) <==> AfterOther(t)
    ensures AfterLast(s) <==> AfterLast(t)
  {
    StillIndistinct(s, t, IAC);
    StillIndistinct(s, t, 62);
    StillIndistinct(s, t, 32);
  }

  lemma TwoBytesTell(s: Parser, t: Parser)
    requires Indistinct(s, t)
    ensures AfterTwo(s) <==> AfterTwo(t)
    ensures s.progress == (if s.mode.Ground? then 2 else 3) <==> t.progress == (if t.mode.Ground? then 2 else 3)
  {
    StillIndistinct(s, t, 58);
    OneByteTells(Next(s, 58), Next(t, 58));
    StillIndistinct(s, t, 32);
    OneByteTells(Next(s, 32), Next(t, 32));
  }

  lemma ThreeBytesTell(s: Parser, t: Parser)
    requires Indistinct(s, t)
    ensures AfterWhole(s) <==> AfterWhole(t)
    ensures AfterClose(s) <==> AfterClose(t)
    ensures !s.mode.Ground? && s.progress == (if s.mode.AfterVerb? then 1 else 2)
       <==> !t.mode.Ground? && t.progress == (if t.mode.AfterVerb? then 1 else 2)
  {
    StillIndistinct(s, t, 62);
    TwoBytesTell(Next(s, 62), Next(t, 62));
    StillIndistinct(s, t, 240);
    TwoBytesTell(Next(s, 240), Next(t, 240));
    StillIndistinct(s, t, 250);
    TwoBytesTell(Next(s, 250), Next(t, 250));
  }

  lemma FourBytesTell(s: Parser, t: Parser)
    requires Indistinct(s, t)
    ensures s.progress == 1 && !Outside(s.mode) <==> t.progress == 1 && !Outside(t.mode)
    ensures Inside(s.mode) && s.progress != 2 <==> Inside(t.mode) && t.progress != 2
  {
    StillIndistinct(s, t, IAC);
    ThreeBytesTell(Next(s, IAC), Next(t, IAC));
    StillIndistinct(s, t, 62);
    ThreeBytesTell(Next(s, 62), Next(t, 62));
  }

  lemma FourBytesTellMode(s: Parser, t: Parser)
    requires Indistinct(s, t)
    ensures s.mode.InBody? && s.progress != 2 <==> t.mode.InBody? && t.progress != 2
    ensures (s.mode.AfterIAC? || Inside(s.mode)) && s.progress != 2
       <==> (t.mode.AfterIAC? || Inside(t.mode)) && t.progress != 2
  {
    StillIndistinct(s, t, 240);
    ThreeBytesTell(Next(s, 240), Next(t, 240));
    StillIndistinct(s, t, 250);
    ThreeBytesTell(Next(s, 250), Next(t, 250));
  }

  lemma ClosedEndTells(s: Parser, t: Parser)
    requires Indistinct(s, t)
    ensures !s.mode.Ground? && s.progress == (if s.mode.InBody? then 3 else 2)
       <==> !t.mode.Ground? && t.progress == (if t.mode.InBody? then 3 else 2)
  {
    StillIndistinct(s, t, 240);
    TwoBytesTell(Next(s, 240), Next(t, 240));
  }

  lemma IndistinctIsSame(s: Parser, t: Parser)
    requires Consistent(s) && Consistent(t)
    ensures Indistinct(s, t) <==> SameState(s, t)
  {
    if Indistinct(s, t) {
      OneByteTells(s, t);
      TwoBytesTell(s, t);
      ThreeBytesTell(s, t);
      FourBytesTell(s, t);
      FourBytesTellMode(s, t);
      ClosedEndTells(s, t);
    }
    if SameState(s, t) {
      forall c | c != [] ensures Accepts(Feed(s, c)) <==> Accepts(Feed(t, c)) {
        assert Next(s, c[0]) == Next(t, c[0]);
      }
    }
  }

  /** After this history, the two-byte check decides like the whole history whatever chunk comes next. */
  ghost predicate TailSuffices(h: seq<byte>) {
    forall c :: c != [] ==> (ContainsPrompt(Last(h, |PROMPT| - 1) + c) <==> ContainsPrompt(h + c))
  }

  /**
   Exactly when the check is right, for every history and all chunks: the last
   two bytes, read from the start, leave the parser in the mode and with the
   prompt progress that the whole history leaves it in.
   */
  lemma TailSufficesExactly(h: seq<byte>)
    ensures TailSuffices(h) <==> SameState(Feed(START, Last(h, |PROMPT| - 1)), Feed(START, h))
  {
    var s, t := Feed(START, Last(h, 2)), Feed(START, h);
    FeedConsistent(START, Last(h, 2));
    FeedConsistent(START, h);
    forall c: seq<byte>
      ensures ContainsPrompt(Last(h, 2) + c) <==> Accepts(Feed(s, c))
      ensures ContainsPrompt(h + c) <==> Accepts(Feed(t, c))
    {
      ParserDecides(Last(h, 2) + c);
      ParserDecides(h + c);
      FeedConcat(START, Last(h, 2), c);
      FeedConcat(START, h, c);
    }
    IndistinctIsSame(s, t);
    assert TailSuffices(h) <==> Indistinct(s, t);
  }

  lemma TailCheckAgrees(script: seq<Read>, k: nat)
    requires k < |script|
    requires SameState(Feed(START, Last(History(script, k), |PROMPT| - 1)), Feed(START, History(script, k)))
    ensures TailAtPrompt(script, k) <==> AtPrompt(script, k)
  {
    TailSufficesExactly(History(script, k));
  }

  /** With commands the check can miss a prompt: here a no-operation parts it from its first byte. */
  lemma TailCheckCanMiss()
    ensures var script := [GoodRead([62, IAC, 241]), GoodRead([58, 32])];
            AtPrompt(script, 1) && !TailAtPrompt(script, 1)
  {
    var script := [GoodRead([62, IAC, 241]), GoodRead([58, 32])];
    assert History(script, 1) == [62, IAC, 241];
    assert History(script, 2) == [62, IAC, 241, 58, 32];
    assert Last(History(script, 1), 2) + [58, 32] == [IAC, 241, 58, 32];
    assert Strip([IAC, 241, 58, 32]) == [58, 32];
    StripPlain([62], [IAC, 241, 58, 32]);
    assert [62] + [IAC, 241, 58, 32] == [62, IAC, 241, 58, 32];
  }

  /** It can also see a prompt that is none: here its first byte is the option of a negotiation. */
  lemma TailCheckCanInvent()
    ensures var script := [GoodRead([IAC, 253, 62]), GoodRead([58, 32])];
            TailAtPrompt(script, 1) && !AtPrompt(script, 1)
  {
    var script := [GoodRead([IAC, 253, 62]), GoodRead([58, 32])];
    assert History(script, 1) == [IAC, 253, 62];
    assert History(script, 2) == [IAC, 253, 62, 58, 32];
    assert Last(History(script, 1), 2) + [58, 32] == [253, 62, 58, 32];
    assert Strip([253, 62, 58, 32]) == [253, 62, 58, 32];
    assert Strip([IAC, 253, 62, 58, 32]) == [58, 32];
  }
}
