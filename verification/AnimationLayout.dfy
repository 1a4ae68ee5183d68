/**
 What a bicycle0 file is, byte by byte and in plain numbers, and what its viewer
 sees: an account of the format beside the encoder's own definitions.
 */
module AnimationLayout {
  import opened Bytes
  import opened AnimationFormat

  /** The frames with every duration written out: zero means one display frame. */
  ghost predicate Shows(shown: seq<Record>, frames: seq<Record>) {
    && |shown| == |frames|
    && forall i :: 0 <= i < |frames| ==>
         && shown[i].pixels == frames[i].pixels
         && shown[i].duration == if frames[i].duration == 0 then 1 else frames[i].duration
  }

  lemma {:induction false} ShownIsDisplay(shown: seq<Record>, frames: seq<Record>)
    requires Shows(shown, frames)
    ensures Expand(shown) == Display(frames)
    decreases |frames|
  {
    if frames != [] {
      var n := |frames| - 1;
      ShownIsDisplay(shown[..n], frames[..n]);
      assert shown == shown[..n] + [shown[n]];
      ExpandConcat(shown[..n], [shown[n]]);
      ExpandOne(shown[n]);
    }
  }

  lemma ShownExists(frames: seq<Record>) returns (shown: seq<Record>)
    ensures Shows(shown, frames)
  {
    shown := seq(|frames|, i requires 0 <= i < |frames| =>
      Record(frames[i].pixels, if frames[i].duration == 0 then 1 else frames[i].duration));
  }

  function Word16(data: seq<byte>, at: nat): nat
    requires at + 2 <= |data|
  {
    data[at] as int + 256 * data[at + 1] as int
  }

  function Word32(data: seq<byte>, at: nat): nat
    requires at + 4 <= |data|
  {
    data[at] as int + 256 * data[at + 1] as int + 65536 * data[at + 2] as int + 16777216 * data[at + 3] as int
  }

  /** The header and the section: "bicycle0", sizes, rate and counts; the range of frames, their offset, "default". */
  ghost predicate Lead(data: seq<byte>, m: Metadata) {
    && |data| >= 57
    && data[..9] == [98, 105, 99, 121, 99, 108, 101, 48, 0]
    && data[9] == m.width && data[10] == m.height && data[11] == 0 && data[12] == m.fps
    && Word16(data, 13) == m.frameLength && data[15] == 0
    && Word32(data, 16) == 21 && Word32(data, 20) == m.framesLength && Word32(data, 24) == 1
    && Word32(data, 28) == m.encodedCount && Word32(data, 32) == m.displayCount
    && Word32(data, 36) == 0 && Word32(data, 40) == m.displayCount - 1 && Word32(data, 44) == 57
    && data[49..57] == [100, 101, 102, 97, 117, 108, 116, 0]
  }

  /** Record `k` at its offset: an encoding byte, the duration, the length and the pixels. */
  ghost predicate RecordAt(data: seq<byte>, length: nat, r: Record, k: nat) {
    var at := 57 + (4 + length) * k;
    && at + 4 + length <= |data|
    && data[at] == 0 && data[at + 1] == r.duration && Word16(data, at + 2) == length
    && data[at + 4..at + 4 + length] == r.pixels
  }

  /** The whole file. */
  ghost predicate Laid(data: seq<byte>, m: Metadata, records: seq<Record>) {
    && Lead(data, m)
    && |data| == 57 + (4 + m.frameLength) * |records| && m.framesLength == (4 + m.frameLength) * |records|
    && records != [] && data[48] == records[0].duration
    && forall k :: 0 <= k < |records| ==> RecordAt(data, m.frameLength, records[k], k)
  }

  lemma HeaderIsLead(data: seq<byte>, m: Metadata)
    requires InRange(m) && HasHeader(data, m) && HasSection(data, m)
    ensures Lead(data, m)
  {
    ReadBack(m.frameLength); ReadBack(m.framesLength); ReadBack(m.encodedCount); ReadBack(m.displayCount);
    ReadBack(m.displayCount - 1);
    assert data[..9] == Slice(data, 0, 8) + [data[8]];
    assert data[49..57] == Slice(data, 49, 7) + [data[56]];
    WordOf(data, 16, 21); WordOf(data, 20, m.framesLength); WordOf(data, 24, 1);
    WordOf(data, 28, m.encodedCount); WordOf(data, 32, m.displayCount);
    WordOf(data, 36, 0); WordOf(data, 40, m.displayCount - 1); WordOf(data, 44, 57);
    assert Slice(data, 13, 2)[0] == data[13] && Slice(data, 13, 2)[1] == data[14];
  }

  lemma WordOf(data: seq<byte>, at: nat, n: nat)
    requires at + 4 <= |data| && n <= MAX_UINT32 && Slice(data, at, 4) == LE32(n)
    ensures Word32(data, at) == n
  {
    ReadBack(n);
    var s := Slice(data, at, 4);
    assert s[0] == data[at] && s[1] == data[at + 1] && s[2] == data[at + 2] && s[3] == data[at + 3];
  }

  /** Every serialized record is where the lengths of those before it put it. */
  lemma {:induction false} SerializedAt(records: seq<Record>, length: nat, k: nat)
    requires Storable(records) && (forall i :: 0 <= i < |records| ==> |records[i].pixels| == length) && k < |records|
    ensures Chunk(length, k) + 4 + length <= |Serialize(records)|
    ensures Serialize(records)[Chunk(length, k)..Chunk(length, k) + 4 + length] == RecordBytes(records[k])
    decreases |records|
  {
    var n := |records| - 1;
    var front, at := Serialize(records[..n]), Chunk(length, k);
    SerializedLength(records[..n], length);
    if k < n {
      SerializedAt(records[..n], length, k);
      assert (front + RecordBytes(records[n]))[at..at + 4 + length] == front[at..at + 4 + length];
    }
  }

  lemma ChunkLays(data: seq<byte>, length: nat, records: seq<Record>, k: nat)
    requires |data| >= 57 && Storable(records) && k < |records|
    requires forall i :: 0 <= i < |records| ==> |records[i].pixels| == length
    requires data[57..] == Serialize(records)
    ensures RecordAt(data, length, records[k], k)
  {
    SerializedAt(records, length, k);
    ChunkIsProduct(length, k);
    var at := 57 + Chunk(length, k);
    assert data[at..at + 4 + length] == data[57..][at - 57..at - 57 + 4 + length];
    RecordBytesAt(data, at, records[k]);
  }

  lemma RecordBytesAt(data: seq<byte>, at: nat, r: Record)
    requires |r.pixels| <= MAX_UINT16 && at + 4 + |r.pixels| <= |data|
    requires data[at..at + 4 + |r.pixels|] == RecordBytes(r)
    ensures data[at] == 0 && data[at + 1] == r.duration && Word16(data, at + 2) == |r.pixels|
    ensures data[at + 4..at + 4 + |r.pixels|] == r.pixels
  {
    ReadBack(|r.pixels|);
    var s := data[at..at + 4 + |r.pixels|];
    assert s[0] == data[at] && s[1] == data[at + 1] && s[2] == data[at + 2] && s[3] == data[at + 3];
    assert s[4..] == data[at + 4..at + 4 + |r.pixels|];
    assert RecordBytes(r)[4..] == r.pixels;
  }
}
