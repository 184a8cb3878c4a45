/** Length-prefixed frames: the payload layout inside a `.zst` chunk. */
module Frames {
  import opened Core

  datatype ChunkError =
    | TruncatedLengthPrefix
    | LengthPastBuffer(declared: nat, remaining: nat)

  // ----- little-endian u32 -----

  function ToLe(n: nat): (b: Bytes)
    requires n < U32
    ensures |b| == 4
  {
    [n % 256, n / 256 % 256, n / 65536 % 256, n / 16777216]
  }

  function FromLe(b: Bytes): (n: nat)
    requires |b| >= 4
    ensures n < U32
  {
    (b[0] as int) + 256 * (b[1] as int) + 65536 * (b[2] as int) + 16777216 * (b[3] as int)
  }

  lemma LeRoundTrip(n: nat, rest: Bytes)
    requires n < U32
    ensures FromLe(ToLe(n) + rest) == n
  {
    assert n / 65536 == n / 256 / 256 && n / 16777216 == n / 65536 / 256;
  }

  lemma LeInverse(b: Bytes)
    requires |b| >= 4
    ensures ToLe(FromLe(b)) == b[..4]
  {
    var n := FromLe(b);
    var b0: int, b1: int, b2: int, b3: int := b[0], b[1], b[2], b[3];
    var hi := b1 + 256 * b2 + 65536 * b3;
    assert n == b0 + 256 * hi && n / 256 == hi;
    assert hi == b1 + 256 * (b2 + 256 * b3) && hi / 256 == b2 + 256 * b3;
    assert n / 65536 == hi / 256 && n / 16777216 == hi / 256 / 256;
  }

  // ----- the encoding -----

  /** One frame. The length is cast to `u32`, so it wraps for huge payloads. */
  function Frame(payload: Bytes): Bytes {
    ToLe(|payload| % U32) + payload
  }

  function FrameAll(payloads: seq<Bytes>): Bytes {
    if payloads == [] then [] else Frame(payloads[0]) + FrameAll(payloads[1..])
  }

  lemma {:induction false} FrameAllConcat(a: seq<Bytes>, b: seq<Bytes>)
    ensures FrameAll(a + b) == FrameAll(a) + FrameAll(b)
  {
    hide Frame;
    if a == [] {
      assert a + b == b;
    } else {
      assert (a + b)[0] == a[0] && (a + b)[1..] == a[1..] + b;
      FrameAllConcat(a[1..], b);
      assert FrameAll(a) == Frame(a[0]) + FrameAll(a[1..]);
      assert FrameAll(a + b) == Frame(a[0]) + (FrameAll(a[1..]) + FrameAll(b));
    }
  }

  /** The growing buffer `write_len_prefixed` appends to. */
  class FrameBuffer {
    var data: Bytes

    constructor ()
      ensures data == []
    {
      data := [];
    }

    method WriteLenPrefixed(payload: Bytes)
      modifies this
      ensures data == old(data) + Frame(payload)
      ensures forall ps :: old(data) == FrameAll(ps) ==> data == FrameAll(ps + [payload])
    {
      ghost var was := data;
      var len := |payload| % U32;
      data := data + ToLe(len);
      data := data + payload;
      assert data == was + Frame(payload);
      forall ps | was == FrameAll(ps) ensures data == FrameAll(ps + [payload]) {
        FrameAllConcat(ps, [payload]);
        assert FrameAll([payload]) == Frame(payload) + FrameAll([]);
      }
    }
  }

  // ----- the decoding -----

  datatype Parsed = Parsed(frames: seq<Bytes>, error: Option<ChunkError>)

  /** Everything an iterator yields: the good frames, then at most one error. */
  function Parse(b: Bytes): Parsed {
    if b == [] then Parsed([], None)
    else if |b| < 4 then Parsed([], Some(TruncatedLengthPrefix))
    else
      var len := FromLe(b);
      if len > |b| - 4 then Parsed([], Some(LengthPastBuffer(len, |b| - 4)))
      else
        var rest := Parse(b[4 + len..]);
        Parsed([b[4..4 + len]] + rest.frames, rest.error)
  }

  class FrameIter {
    var data: Bytes

    constructor (b: Bytes)
      ensures data == b
    {
      data := b;
    }

    /** Yields the next frame; on malformed input yields one error and stops. */
    method Next() returns (item: Option<Result<Bytes, ChunkError>>)
      modifies this
      ensures var p := Parse(old(data));
        if p.frames != [] then
          item == Some(Ok(p.frames[0])) && Parse(data) == Parsed(p.frames[1..], p.error)
          && |data| < |old(data)|
        else
          item == (if p.error.Some? then Some(Err(p.error.value)) else None)
          && data == []
    {
      if data == [] {
        return None;
      }
      if |data| < 4 {
        data := [];
        return Some(Err(TruncatedLengthPrefix));
      }
      var len := FromLe(data);
      var remaining := |data| - 4;
      if len > remaining {
        data := [];
        return Some(Err(LengthPastBuffer(len, remaining)));
      }
      var frame := data[4..4 + len];
      data := data[4 + len..];
      return Some(Ok(frame));
    }
  }

  lemma ParseStep(p: Bytes, rest: Bytes)
    requires |p| < U32
    ensures Parse(Frame(p) + rest) == Parsed([p] + Parse(rest).frames, Parse(rest).error)
  {
    var b := Frame(p) + rest;
    assert b == ToLe(|p|) + (p + rest);
    LeRoundTrip(|p|, p + rest);
    assert b[4..4 + |p|] == p && b[4 + |p|..] == rest;
  }

  lemma FrameAllHead(ps: seq<Bytes>, rest: Bytes)
    requires ps != []
    ensures FrameAll(ps) + rest == Frame(ps[0]) + (FrameAll(ps[1..]) + rest)
  {
    hide Frame;
  }

  lemma HeadJoins(ps: seq<Bytes>, more: seq<Bytes>)
    requires ps != []
    ensures [ps[0]] + (ps[1..] + more) == ps + more
  {
  }

  lemma {:induction false} ParseFrames(ps: seq<Bytes>, rest: Bytes)
    requires forall p :: p in ps ==> |p| < U32
    ensures Parse(FrameAll(ps) + rest) == Parsed(ps + Parse(rest).frames, Parse(rest).error)
  {
    hide Frame, Parse;
    if ps == [] {
      assert FrameAll(ps) + rest == rest;
    } else {
      hide *;
      FrameAllHead(ps, rest);
      ParseStep(ps[0], FrameAll(ps[1..]) + rest);
      ParseFrames(ps[1..], rest);
      HeadJoins(ps, Parse(rest).frames);
    }
  }

  lemma {:induction false} ParsedFramesAreShort(b: Bytes)
    ensures forall p :: p in Parse(b).frames ==> |p| < U32
  {
    if |b| >= 4 && FromLe(b) <= |b| - 4 {
      ParsedFramesAreShort(b[4 + FromLe(b)..]);
    }
  }

  /** Decoding inverts encoding exactly when every length fits its prefix. */
  lemma FramesRoundTrip(ps: seq<Bytes>)
    ensures Parse(FrameAll(ps)) == Parsed(ps, None) <==> forall p :: p in ps ==> |p| < U32
  {
    if forall p :: p in ps ==> |p| < U32 {
      ParseFrames(ps, []);
      assert FrameAll(ps) + [] == FrameAll(ps);
    }
    ParsedFramesAreShort(FrameAll(ps));
  }

  lemma SplitHead(b: Bytes, head: Bytes, more: Bytes)
    requires |b| >= 4 && FromLe(b) <= |b| - 4
    requires head == b[4..4 + FromLe(b)] && more == b[4 + FromLe(b)..]
    ensures b == Frame(head) + more
  {
    LeInverse(b);
    hide ToLe, FromLe;
    assert b == b[..4] + (head + more);
  }

  lemma SplitStep(b: Bytes, head: Bytes, more: Bytes, tail: Bytes)
    requires b == Frame(head) + more
    requires Parse(b) == Parsed([head] + Parse(more).frames, Parse(more).error)
    requires more == FrameAll(Parse(more).frames) + tail
    ensures b == FrameAll(Parse(b).frames) + tail
  {
    hide Frame, Parse;
    var fs := Parse(more).frames;
    assert FrameAll([head] + fs) == Frame(head) + FrameAll(fs) by {
      assert ([head] + fs)[1..] == fs;
    }
    assert b == Frame(head) + (FrameAll(fs) + tail);
  }

  /** A buffer splits into the frames read from it and a malformed tail; with no
      error there is no tail, so the buffer re-encodes to itself. */
  lemma {:induction false} ParseSplits(b: Bytes) returns (tail: Bytes)
    ensures b == FrameAll(Parse(b).frames) + tail
    ensures Parse(tail) == Parsed([], Parse(b).error)
    ensures Parse(b).error.None? <==> tail == []
    ensures Parse(b).error == Some(TruncatedLengthPrefix) <==> 0 < |tail| < 4
    ensures forall declared: nat, left: nat :: Parse(b).error == Some(LengthPastBuffer(declared, left)) <==>
      |tail| == 4 + left && left < declared
      && declared == tail[0] as int + tail[1] as int * 0x100 + tail[2] as int * 0x1_0000 + tail[3] as int * 0x100_0000
  {
    if |b| < 4 || FromLe(b) > |b| - 4 {
      tail := b;
    } else {
      var len := FromLe(b);
      var head, more := b[4..4 + len], b[4 + len..];
      SplitHead(b, head, more);
      tail := ParseSplits(more);
      SplitStep(b, head, more, tail);
    }
  }

  /** The frames read are the longest valid frame prefix of the buffer. */
  lemma LongestValidPrefix(b: Bytes, ps: seq<Bytes>, rest: Bytes)
    requires forall p :: p in ps ==> |p| < U32
    requires b == FrameAll(ps) + rest
    ensures ps <= Parse(b).frames
  {
    ParseFrames(ps, rest);
  }

  // ----- decoded chunks -----

  datatype Range = Range(start: nat, end: nat)

  /** The decompressed bytes and the byte range of every payload. */
  datatype DecodedChunk = DecodedChunk(raw: Bytes, frames: seq<Range>) {

    ghost predicate Valid() {
      forall r :: r in frames ==> r.start <= r.end <= |raw|
    }

    /** The payload at an ordinal, if it is in range. The second test never
        fails on a decoded chunk (`DecodeSlices`). */
    function FrameAt(ordinal: nat): Option<Bytes> {
      if ordinal < |frames| && frames[ordinal].start <= frames[ordinal].end <= |raw|
      then Some(raw[frames[ordinal].start..frames[ordinal].end])
      else None
    }
  }

  ghost predicate Slices(d: DecodedChunk, payloads: seq<Bytes>) {
    && d.Valid()
    && |d.frames| == |payloads|
    && forall i :: 0 <= i < |payloads| ==> d.FrameAt(i) == Some(payloads[i])
  }

  function RangesFrom(payloads: seq<Bytes>, offset: nat): seq<Range> {
    if payloads == [] then []
    else
      var end := offset + 4 + |payloads[0]|;
      [Range(offset + 4, end)] + RangesFrom(payloads[1..], end)
  }

  /** What decoding a decompressed buffer gives, as a value. */
  function Decode(raw: Bytes): Result<DecodedChunk, ChunkError> {
    var p := Parse(raw);
    if p.error.Some? then Err(p.error.value) else Ok(DecodedChunk(raw, RangesFrom(p.frames, 0)))
  }

  lemma HeadSlices(payloads: seq<Bytes>)
    requires payloads != []
    ensures var all, n := FrameAll(payloads), |payloads[0]|;
      |all| >= 4 + n && all[4..4 + n] == payloads[0] && all[4 + n..] == FrameAll(payloads[1..])
  {
    var head := payloads[0];
    assert FrameAll(payloads) == ToLe(|head| % U32) + (head + FrameAll(payloads[1..]));
  }

  lemma SliceOfTail(raw: Bytes, offset: nat, a: nat, b: nat)
    requires a <= b && offset + b <= |raw|
    ensures raw[offset..][a..b] == raw[offset + a..offset + b] && raw[offset..][b..] == raw[offset + b..]
  {
  }

  lemma {:induction false} RangesSlice(raw: Bytes, payloads: seq<Bytes>, offset: nat)
    requires offset <= |raw|
    requires raw[offset..] == FrameAll(payloads)
    ensures var rs := RangesFrom(payloads, offset);
      |rs| == |payloads| &&
      forall i :: 0 <= i < |rs| ==>
        (rs[i].start <= rs[i].end <= |raw| && raw[rs[i].start..rs[i].end] == payloads[i])
  {
    if payloads != [] {
      var head, end := payloads[0], offset + 4 + |payloads[0]|;
      HeadSlices(payloads);
      hide FrameAll, Frame;
      SliceOfTail(raw, offset, 4, 4 + |head|);
      RangesSlice(raw, payloads[1..], end);
      var rs, more := RangesFrom(payloads, offset), RangesFrom(payloads[1..], end);
      forall i | 0 <= i < |rs|
        ensures rs[i].start <= rs[i].end <= |raw| && raw[rs[i].start..rs[i].end] == payloads[i]
      {
        if i > 0 { assert rs[i] == more[i - 1] && payloads[i] == payloads[1..][i - 1]; }
      }
    }
  }

  /** The ranges slice out exactly the payloads, in order. */
  lemma DecodeSlices(raw: Bytes)
    ensures Decode(raw).Ok? <==> Parse(raw).error.None?
    ensures Decode(raw).Ok? ==> Slices(Decode(raw).value, Parse(raw).frames)
  {
    if Decode(raw).Ok? {
      var tail := ParseSplits(raw);
      assert raw[0..] == FrameAll(Parse(raw).frames);
      RangesSlice(raw, Parse(raw).frames, 0);
    }
  }

  /** The frame walk of `decode_chunk`, over bytes already decompressed. */
  method DecodeChunk(raw: Bytes) returns (r: Result<DecodedChunk, ChunkError>)
    ensures r == Decode(raw)
    ensures r.Ok? ==> Slices(r.value, Parse(raw).frames)
  {
    var frames: seq<Range> := [];
    var offset: nat := 0;
    var it := new FrameIter(raw);
    ghost var all := Parse(raw);
    ghost var left := all;
    while true
      invariant left == Parse(it.data) && left.error == all.error
      invariant RangesFrom(all.frames, 0) == frames + RangesFrom(left.frames, offset)
      decreases |it.data|
    {
      var item := it.Next();
      if item.None? {
        assert left.frames == [] && frames + [] == frames;
        break;
      }
      match item.value {
        case Err(e) =>
          return Err(e);
        case Ok(payload) =>
          var payloadStart := offset + 4;
          var payloadEnd := payloadStart + |payload|;
          assert RangesFrom(left.frames, offset)
              == [Range(payloadStart, payloadEnd)] + RangesFrom(left.frames[1..], payloadEnd);
          frames := frames + [Range(payloadStart, payloadEnd)];
          offset := payloadEnd;
          left := Parsed(left.frames[1..], left.error);
      }
    }
    DecodeSlices(raw);
    return Ok(DecodedChunk(raw, frames));
  }
}
