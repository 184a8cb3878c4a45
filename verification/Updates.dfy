/** The recorded messages, the metadata sidecar, and the receipt timestamp a
    replay derives from them. Protobuf fields nothing here reads are `rest`. */
module Updates {
  import opened Core
  import opened Arith

  datatype TxMessage = TxMessage(accountKeys: seq<Bytes>, programIdIndexes: seq<nat>)

  datatype TxMeta = TxMeta(failed: bool, loadedWritable: seq<Bytes>, loadedReadonly: seq<Bytes>)

  datatype TxInfo = TxInfo(signature: Bytes, isVote: bool, message: Option<TxMessage>, meta: Option<TxMeta>)

  datatype AcctInfo = AcctInfo(pubkey: Bytes, owner: Bytes)

  datatype Body =
    | Transaction(slot: nat, tx: Option<TxInfo>)
    | Account(slot: nat, acct: Option<AcctInfo>)
    | BlockMeta(slot: nat, parentSlot: nat)
    | Other

  datatype Timestamp = Timestamp(seconds: int, nanos: int)

  /** A `SubscribeUpdate`, apart from the filter names a replay fills in. */
  datatype Update = Update(body: Body, createdAt: Option<Timestamp>, rest: Bytes)

  function ExtractSlot(u: Update): Option<nat> {
    if u.body.Other? then None else Some(u.body.slot)
  }

  datatype Dim =
    | ProgramId | AccountKey | Signature | VoteFlag | FailedFlag
    | AccountPubkey | OwnerProgram
    | SlotDim | ParentSlotDim

  /** Why a chunk was closed. An idle seal is recorded as a shutdown too. */
  datatype SealReason = CapReached | Watermark | Shutdown

  const SCHEMA_VERSION: nat := 1

  datatype ChunkMeta = ChunkMeta(
    schemaVersion: nat,
    stream: Stream,
    startSlot: nat,
    endSlotExclusive: nat,
    firstMessageSlot: Option<nat>,
    lastMessageSlot: Option<nat>,
    messageCount: nat,
    uncompressedBytes: nat,
    compressedBytes: nat,
    recvNsFirst: Option<nat>,
    recvNsLast: Option<nat>,
    sealedReason: SealReason,
    indexDimensions: seq<Dim>)

  // ----- receipt timestamps -----

  const U64: nat := 0x1_0000_0000_0000_0000

  /** The evenly spaced stand-in timestamp; `u64` arithmetic wraps. */
  function Interpolate(first: nat, last: nat, count: nat, ord: nat): nat {
    if count <= 1 || last == first then first
    else
      var span := (last - first) % U64;
      var frac := ord * span / (count - 1);
      (first + frac % U64) % U64
  }

  function ExtractRecvNs(u: Update, meta: ChunkMeta, ord: nat): Option<nat> {
    if u.createdAt.Some? && u.createdAt.value.seconds >= 0 then
      Some((u.createdAt.value.seconds * 1_000_000_000 + u.createdAt.value.nanos % U64) % U64)
    else if meta.recvNsFirst.None? then None
    else
      var first := meta.recvNsFirst.value;
      var last := if meta.recvNsLast.Some? then meta.recvNsLast.value else first;
      Some(Interpolate(first, last, meta.messageCount, ord))
  }

  lemma FitsU64(x: nat)
    requires x < U64
    ensures x % U64 == x
  {
  }

  /** Over an honest sidecar nothing wraps: the value is the exact quotient. */
  lemma InterpolateExact(first: nat, last: nat, count: nat, ord: nat)
    requires first <= last < U64 && ord < count
    ensures count > 1 ==> Interpolate(first, last, count, ord) == first + ord * (last - first) / (count - 1)
    ensures first <= Interpolate(first, last, count, ord) <= last
  {
    if count > 1 {
      var span := last - first;
      ShareBound(ord, span, count - 1);
      var frac := ord * span / (count - 1);
      if span == 0 { assert ord * span == 0; }
      FitsU64(span);
      FitsU64(frac);
      FitsU64(first + frac);
    }
  }

  /** Interpolated timestamps never run backwards, start at the first receipt,
      and end at the last one exactly when the chunk can show both. */
  lemma InterpolateMonotoneOntoEnds(first: nat, last: nat, count: nat, a: nat, b: nat)
    requires first <= last < U64 && a <= b < count
    ensures Interpolate(first, last, count, a) <= Interpolate(first, last, count, b)
    ensures Interpolate(first, last, count, 0) == first
    ensures Interpolate(first, last, count, count - 1) == last <==> count > 1 || first == last
  {
    InterpolateExact(first, last, count, a);
    InterpolateExact(first, last, count, b);
    if count > 1 {
      var span, d := last - first, count - 1;
      InterpolateExact(first, last, count, 0);
      InterpolateExact(first, last, count, d);
      MulMono(a, b, span);
      DivMono(a * span, b * span, d);
      assert d * span == span * d;
      DivMul(span, d);
    }
  }

  // ----- the stamp of a replayed message -----

  /** A creation time with nanoseconds in range, that fits in 64 bits. */
  predicate IsTime(t: Timestamp) {
    t.seconds >= 0 && 0 <= t.nanos < 1_000_000_000 && t.seconds * 1_000_000_000 + t.nanos < 0x1_0000_0000_0000_0000
  }

  predicate Earlier(a: Timestamp, b: Timestamp) {
    a.seconds < b.seconds || (a.seconds == b.seconds && a.nanos < b.nanos)
  }

  /** A message that says when it was created is stamped with that time, in
      nanoseconds since the epoch, wherever it was recorded. */
  predicate KeepsTime(u: Update, stamp: Option<nat>) {
    u.createdAt.Some? && IsTime(u.createdAt.value) ==>
      stamp == Some(u.createdAt.value.seconds * 1_000_000_000 + u.createdAt.value.nanos)
  }

  lemma StampKeepsTime(u: Update, meta: ChunkMeta, ord: nat)
    ensures KeepsTime(u, ExtractRecvNs(u, meta, ord))
  {
    if u.createdAt.Some? && IsTime(u.createdAt.value) {
      FitsU64(u.createdAt.value.nanos);
      FitsU64(u.createdAt.value.seconds * 1_000_000_000 + u.createdAt.value.nanos);
    }
  }

  /** Such stamps are in the order of the times, and as far apart. */
  lemma StampsKeepOrder(a: Update, b: Update, x: ChunkMeta, y: ChunkMeta, i: nat, j: nat)
    requires a.createdAt.Some? && IsTime(a.createdAt.value) && b.createdAt.Some? && IsTime(b.createdAt.value)
    ensures var s, t := a.createdAt.value, b.createdAt.value;
      var p, q := ExtractRecvNs(a, x, i), ExtractRecvNs(b, y, j);
      && p.Some? && q.Some?
      && (Earlier(s, t) <==> p.value < q.value)
      && (t.seconds == s.seconds + 1 && t.nanos == s.nanos ==> q.value == p.value + 1_000_000_000)
  {
    StampKeepsTime(a, x, i);
    StampKeepsTime(b, y, j);
    hide ExtractRecvNs;
  }

  /** A sidecar with both receipts, in order, and a message of its chunk. */
  predicate IsFramed(meta: ChunkMeta, ord: nat) {
    && meta.recvNsFirst.Some? && meta.recvNsLast.Some? && ord < meta.messageCount
    && meta.recvNsFirst.value <= meta.recvNsLast.value < 0x1_0000_0000_0000_0000
  }

  /** Any other message is stamped from the sidecar: not at all exactly if that
      has no first receipt, with it if there is no last one, else in between, in
      proportion to its place in the chunk. */
  predicate FallsBack(u: Update, meta: ChunkMeta, ord: nat, stamp: Option<nat>) {
    u.createdAt.None? || u.createdAt.value.seconds < 0 ==>
      && (stamp.None? <==> meta.recvNsFirst.None?)
      && (meta.recvNsFirst.Some? && meta.recvNsLast.None? ==> stamp == meta.recvNsFirst)
      && (IsFramed(meta, ord) ==>
            var first, last, n := meta.recvNsFirst.value, meta.recvNsLast.value, meta.messageCount;
            && stamp.Some? && first <= stamp.value <= last
            && (n > 1 ==> stamp.value == first + ord * (last - first) / (n - 1)))
  }

  lemma StampIsRight(u: Update, meta: ChunkMeta, ord: nat)
    ensures var stamp := ExtractRecvNs(u, meta, ord); KeepsTime(u, stamp) && FallsBack(u, meta, ord, stamp)
  {
    StampKeepsTime(u, meta, ord);
    if IsFramed(meta, ord) {
      InterpolateExact(meta.recvNsFirst.value, meta.recvNsLast.value, meta.messageCount, ord);
    }
    hide Interpolate, KeepsTime;
  }

  /** The slot a message says it is of. */
  predicate IsOfSlot(u: Update, slot: nat) {
    match u.body
    case Transaction(s, _) => slot == s
    case Account(s, _) => slot == s
    case BlockMeta(s, _) => slot == s
    case Other => slot == 0
  }
}
