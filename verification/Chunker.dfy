/** The recorder's objects: an open chunk that grows message by message, and the
    chunker that owns the open ones, both refining the run-level state machine. */
module Chunker {
  import opened Core
  import opened Updates
  import opened Codecs
  import opened Frames
  import opened IndexBuild
  import opened Recorder

  /** The three files a sealed chunk leaves; compression is the identity. */
  datatype ChunkFile = ChunkFile(zst: Bytes, idx: Bytes, meta: ChunkMeta)

  // ----- what the files of a chunk are, as functions of its messages -----

  function UpdatesOf(recs: seq<Rec>): (us: seq<Update>)
    ensures |us| == |recs|
  {
    if recs == [] then [] else UpdatesOf(recs[..|recs| - 1]) + [recs[|recs| - 1].update]
  }

  function PayloadsOf(c: Codec, recs: seq<Rec>): seq<Bytes> {
    if recs == [] then [] else PayloadsOf(c, recs[..|recs| - 1]) + [c.encodeMessage(recs[|recs| - 1].update)]
  }

  function RawOf(c: Codec, recs: seq<Rec>): Bytes {
    FrameAll(PayloadsOf(c, recs))
  }

  function Lowest(a: Option<nat>, b: nat): Option<nat> {
    if a.None? || b < a.value then Some(b) else a
  }

  function Greatest(a: Option<nat>, b: nat): Option<nat> {
    if a.None? || b > a.value then Some(b) else a
  }

  /** The observed bounds of a message list. */
  datatype Bounds = Bounds(firstSlot: Option<nat>, lastSlot: Option<nat>, recvFirst: Option<nat>, recvLast: Option<nat>)

  function Widen(b: Bounds, r: Rec): Bounds {
    Bounds(
      Lowest(b.firstSlot, r.slot), Greatest(b.lastSlot, r.slot),
      Lowest(b.recvFirst, r.wallNs), Greatest(b.recvLast, r.wallNs))
  }

  function BoundsOf(recs: seq<Rec>): Bounds {
    if recs == [] then Bounds(None, None, None, None) else Widen(BoundsOf(recs[..|recs| - 1]), recs[|recs| - 1])
  }

  function MetaOf(c: Codec, cfg: WriterConfig, stream: Stream, i: nat, sealed: SealedRec): ChunkMeta {
    var b := BoundsOf(sealed.recs);
    var start := i * cfg.slotsPerChunk;
    ChunkMeta(SCHEMA_VERSION, stream, start, start + cfg.slotsPerChunk, b.firstSlot, b.lastSlot, |sealed.recs|,
      |RawOf(c, sealed.recs)|, |RawOf(c, sealed.recs)|, b.recvFirst, b.recvLast, sealed.reason, DimOrder(stream))
  }

  function FileOf(c: Codec, cfg: WriterConfig, stream: Stream, i: nat, sealed: SealedRec): ChunkFile {
    var start := i * cfg.slotsPerChunk;
    ChunkFile(
      RawOf(c, sealed.recs),
      SerializeIndex(c, stream, BuildDims(stream, UpdatesOf(sealed.recs)), start, start + cfg.slotsPerChunk,
        |sealed.recs|),
      MetaOf(c, cfg, stream, i, sealed))
  }

  predicate InBounds(b: Bounds, r: Rec) {
    && b.firstSlot.Some? && b.lastSlot.Some? && b.recvFirst.Some? && b.recvLast.Some?
    && b.firstSlot.value <= r.slot <= b.lastSlot.value
    && b.recvFirst.value <= r.wallNs <= b.recvLast.value
  }

  lemma {:induction false} BoundsCover(recs: seq<Rec>, n: nat)
    requires n < |recs|
    ensures InBounds(BoundsOf(recs), recs[n])
  {
    if n < |recs| - 1 {
      BoundsCover(recs[..|recs| - 1], n);
    }
  }

  /** The bounds are those of these messages. */
  predicate Reached(recs: seq<Rec>, lo: nat, hi: nat, early: nat, late: nat) {
    && lo < |recs| && BoundsOf(recs).firstSlot == Some(recs[lo].slot)
    && hi < |recs| && BoundsOf(recs).lastSlot == Some(recs[hi].slot)
    && early < |recs| && BoundsOf(recs).recvFirst == Some(recs[early].wallNs)
    && late < |recs| && BoundsOf(recs).recvLast == Some(recs[late].wallNs)
  }

  lemma {:induction false} BoundsReached(recs: seq<Rec>) returns (lo: nat, hi: nat, early: nat, late: nat)
    requires recs != []
    ensures Reached(recs, lo, hi, early, late)
  {
    var n := |recs| - 1;
    lo, hi, early, late := n, n, n, n;
    if n > 0 {
      var i, j, k, l := BoundsReached(recs[..n]);
      if recs[i].slot <= recs[n].slot { lo := i; }
      if recs[j].slot >= recs[n].slot { hi := j; }
      if recs[k].wallNs <= recs[n].wallNs { early := k; }
      if recs[l].wallNs >= recs[n].wallNs { late := l; }
    }
  }

  /** The sidecar's bounds are the true minimum and maximum of slots and
      receipts, whatever the order the messages came in. */
  lemma BoundsAreExact(recs: seq<Rec>) returns (lo: nat, hi: nat, early: nat, late: nat)
    requires recs != []
    ensures forall n :: 0 <= n < |recs| ==> InBounds(BoundsOf(recs), recs[n])
    ensures Reached(recs, lo, hi, early, late)
  {
    hide BoundsOf, InBounds, Reached;
    forall n | 0 <= n < |recs| ensures InBounds(BoundsOf(recs), recs[n]) {
      BoundsCover(recs, n);
    }
    lo, hi, early, late := BoundsReached(recs);
  }

  // ----- what a sidecar says of its chunk -----

  ghost predicate IsLeastSlot(x: Option<nat>, recs: seq<Rec>) {
    x.Some? && (exists n :: 0 <= n < |recs| && recs[n].slot == x.value)
    && forall n :: 0 <= n < |recs| ==> x.value <= recs[n].slot
  }

  ghost predicate IsGreatestSlot(x: Option<nat>, recs: seq<Rec>) {
    x.Some? && (exists n :: 0 <= n < |recs| && recs[n].slot == x.value)
    && forall n :: 0 <= n < |recs| ==> recs[n].slot <= x.value
  }

  ghost predicate IsFirstReceipt(x: Option<nat>, recs: seq<Rec>) {
    x.Some? && (exists n :: 0 <= n < |recs| && recs[n].wallNs == x.value)
    && forall n :: 0 <= n < |recs| ==> x.value <= recs[n].wallNs
  }

  ghost predicate IsLastReceipt(x: Option<nat>, recs: seq<Rec>) {
    x.Some? && (exists n :: 0 <= n < |recs| && recs[n].wallNs == x.value)
    && forall n :: 0 <= n < |recs| ==> recs[n].wallNs <= x.value
  }

  /** Least and greatest slot and receipt, the count, the bytes, the range, and
      why the chunk was closed. */
  ghost predicate Describes(
      meta: ChunkMeta, stream: Stream, start: nat, end: nat, recs: seq<Rec>, payload: Bytes, reason: SealReason)
  {
    && meta.schemaVersion == 1 && meta.stream == stream
    && meta.startSlot == start && meta.endSlotExclusive == end
    && meta.messageCount == |recs|
    && meta.uncompressedBytes == |payload| && meta.compressedBytes == |payload|
    && meta.sealedReason == reason && meta.indexDimensions == DimOrder(stream)
    && (recs != [] ==>
          && IsLeastSlot(meta.firstMessageSlot, recs) && IsGreatestSlot(meta.lastMessageSlot, recs)
          && IsFirstReceipt(meta.recvNsFirst, recs) && IsLastReceipt(meta.recvNsLast, recs))
    && (recs == [] ==>
          && meta.firstMessageSlot.None? && meta.lastMessageSlot.None?
          && meta.recvNsFirst.None? && meta.recvNsLast.None?)
  }

  /** The sidecar of a sealed chunk describes exactly its messages. */
  lemma SidecarDescribes(c: Codec, cfg: WriterConfig, stream: Stream, i: nat, sealed: SealedRec)
    ensures var file, start := FileOf(c, cfg, stream, i, sealed), i * cfg.slotsPerChunk;
      Describes(file.meta, stream, start, start + cfg.slotsPerChunk, sealed.recs, file.zst, sealed.reason)
  {
    var recs := sealed.recs;
    if recs != [] {
      var lo, hi, early, late := BoundsAreExact(recs);
    }
    hide BoundsOf, RawOf, SerializeIndex, UpdatesOf, BuildDims;
    assert recs == [] ==> BoundsOf(recs) == Bounds(None, None, None, None) by { NoBounds(); }
  }

  lemma NoBounds()
    ensures BoundsOf([]) == Bounds(None, None, None, None)
  {
  }

  ghost predicate BetweenReceipts(recs: seq<Rec>, stamp: nat) {
    exists a, b :: 0 <= a < |recs| && 0 <= b < |recs| && recs[a].wallNs <= stamp <= recs[b].wallNs
  }

  /** Whatever a reader stamps a message of the chunk with, that does not say when
      it was created, lies between two of the chunk's receipts. */
  lemma StampIsBetweenReceipts(
      meta: ChunkMeta, stream: Stream, start: nat, end: nat, recs: seq<Rec>, payload: Bytes, reason: SealReason,
      u: Update, ord: nat)
    requires Describes(meta, stream, start, end, recs, payload, reason) && ord < |recs|
    requires forall n :: 0 <= n < |recs| ==> recs[n].wallNs < U64
    requires u.createdAt.None? || u.createdAt.value.seconds < 0
    ensures ExtractRecvNs(u, meta, ord).Some?
    ensures BetweenReceipts(recs, ExtractRecvNs(u, meta, ord).value)
  {
    StampIsRight(u, meta, ord);
    var a :| 0 <= a < |recs| && recs[a].wallNs == meta.recvNsFirst.value;
    var b :| 0 <= b < |recs| && recs[b].wallNs == meta.recvNsLast.value;
    assert recs[a].wallNs <= recs[b].wallNs < U64;
    hide ExtractRecvNs;
  }

  lemma LastOf<T>(s: seq<T>, x: T)
    ensures var more := s + [x]; more != [] && |more| - 1 == |s| && more[..|more| - 1] == s && more[|more| - 1] == x
  {
  }

  lemma GrownUpdates(recs: seq<Rec>, r: Rec)
    ensures UpdatesOf(recs + [r]) == UpdatesOf(recs) + [r.update]
    ensures BoundsOf(recs + [r]) == Widen(BoundsOf(recs), r)
  {
    hide Widen;
    LastOf(recs, r);
  }

  lemma GrownRaw(c: Codec, recs: seq<Rec>, r: Rec)
    ensures RawOf(c, recs + [r]) == RawOf(c, recs) + Frame(c.encodeMessage(r.update))
  {
    hide Frame;
    LastOf(recs, r);
    FrameAllConcat(PayloadsOf(c, recs), [c.encodeMessage(r.update)]);
    assert FrameAll([c.encodeMessage(r.update)]) == Frame(c.encodeMessage(r.update)) + FrameAll([]);
  }

  lemma GrownDims(stream: Stream, us: seq<Update>, u: Update)
    ensures BuildDims(stream, us + [u]) == Mark(BuildDims(stream, us), Facts(stream, u), |us| % U32)
  {
    hide Mark, Facts;
    LastOf(us, u);
  }

  lemma Grown(c: Codec, stream: Stream, recs: seq<Rec>, r: Rec)
    ensures UpdatesOf(recs + [r]) == UpdatesOf(recs) + [r.update]
    ensures RawOf(c, recs + [r]) == RawOf(c, recs) + Frame(c.encodeMessage(r.update))
    ensures BoundsOf(recs + [r]) == Widen(BoundsOf(recs), r)
    ensures BuildDims(stream, UpdatesOf(recs + [r]))
      == Mark(BuildDims(stream, UpdatesOf(recs)), Facts(stream, r.update), |recs| % U32)
  {
    hide *;
    GrownUpdates(recs, r);
    GrownRaw(c, recs, r);
    GrownDims(stream, UpdatesOf(recs), r.update);
  }

  // ----- an open chunk -----

  class OpenChunk {
    const c: Codec
    const index: IndexBuilder
    const startSlot: nat
    const endSlotExclusive: nat
    var encoder: Bytes
    var messageCount: nat
    var uncompressedBytes: nat
    var bounds: Bounds
    var lastActivity: nat
    ghost var recs: seq<Rec>

    /** The counters and the index describe exactly the messages written. */
    ghost predicate Valid()
      reads this, index
    {
      && index.Valid() && index.dims == BuildDims(index.stream, UpdatesOf(recs))
      && encoder == RawOf(c, recs)
      && messageCount == |recs| && uncompressedBytes == |encoder|
      && bounds == BoundsOf(recs)
    }

    constructor (c: Codec, stream: Stream, start: nat, end: nat, now: nat)
      ensures Valid() && fresh(index)
      ensures this.c == c && index.stream == stream && startSlot == start && endSlotExclusive == end
      ensures recs == [] && lastActivity == now
    {
      this.c := c;
      index := new IndexBuilder.ForStream(stream);
      startSlot, endSlotExclusive := start, end;
      encoder, messageCount, uncompressedBytes := [], 0, 0;
      bounds := Bounds(None, None, None, None);
      lastActivity := now;
      recs := [];
    }

    static method Framed(payload: Bytes) returns (framed: Bytes)
      ensures framed == Frame(payload)
    {
      hide Frame;
      var buffer := new FrameBuffer();
      buffer.WriteLenPrefixed(payload);
      framed := buffer.data;
      assert [] + Frame(payload) == Frame(payload);
    }

    method Append(r: Rec, now: nat)
      requires Valid()
      modifies this, index
      ensures Valid() && recs == old(recs) + [r] && lastActivity == now
    {
      hide RawOf, Mark, Facts, Widen, BuildDims, UpdatesOf, BoundsOf, Frame;
      Grown(c, index.stream, recs, r);
      var framed := Framed(c.encodeMessage(r.update));
      encoder := encoder + framed;
      index.Observe(messageCount % U32, r.update);
      messageCount := messageCount + 1;
      uncompressedBytes := uncompressedBytes + |framed|;
      bounds := Widen(bounds, r);
      lastActivity := now;
      recs := recs + [r];
    }

    /** The bytes of the three files, all written before the chunk is final. */
    method Finish(ghost cfg: WriterConfig, ghost i: nat, reason: SealReason) returns (file: ChunkFile)
      requires Valid()
      requires startSlot == i * cfg.slotsPerChunk && endSlotExclusive == startSlot + cfg.slotsPerChunk
      ensures file == FileOf(c, cfg, index.stream, i, SealedRec(recs, reason))
      ensures Describes(file.meta, index.stream, startSlot, endSlotExclusive, recs, file.zst, reason)
    {
      SidecarDescribes(c, cfg, index.stream, i, SealedRec(recs, reason));
      hide Describes;
      hide RawOf, BuildDims, UpdatesOf, BoundsOf, SerializeIndex;
      var compressedBytes := |encoder|;
      var meta := ChunkMeta(SCHEMA_VERSION, index.stream, startSlot, endSlotExclusive, bounds.firstSlot,
        bounds.lastSlot, messageCount, uncompressedBytes, compressedBytes, bounds.recvFirst, bounds.recvLast, reason,
        index.order);
      var idxBytes := index.Serialize(c, startSlot, endSlotExclusive, messageCount);
      file := ChunkFile(encoder, idxBytes, meta);
    }
  }

  // ----- the chunker -----

  type Opened = map<nat, OpenChunk>

  ghost function Owned(open: Opened): set<object> {
    (set i | i in open :: open[i]) + (set i | i in open :: open[i].index)
  }

  /** An open chunk is the one the state machine has under this index. */
  ghost predicate Mirrors(c: Codec, cfg: WriterConfig, stream: Stream, chunk: OpenChunk, i: nat, r: OpenRec)
    reads chunk, chunk.index
  {
    && chunk.Valid() && chunk.c == c && chunk.index.stream == stream
    && chunk.startSlot == i * cfg.slotsPerChunk && chunk.endSlotExclusive == chunk.startSlot + cfg.slotsPerChunk
    && chunk.recs == r.recs && chunk.lastActivity == r.lastActivity
  }

  lemma OwnedWithout(open: Opened, i: nat)
    ensures Owned(open - {i}) <= Owned(open)
  {
  }

  /** The open objects are, one for one, the open chunks of the state machine,
      and share nothing. */
  ghost predicate AllMirror(c: Codec, cfg: WriterConfig, stream: Stream, open: Opened, recs: map<nat, OpenRec>)
    reads Owned(open)
  {
    && open.Keys == recs.Keys
    && (forall i, j :: i in open && j in open && i != j ==> open[i] != open[j] && open[i].index != open[j].index)
    && (forall i :: i in open ==> Mirrors(c, cfg, stream, open[i], i, recs[i]))
  }

  lemma MirrorWithout(c: Codec, cfg: WriterConfig, stream: Stream, open: Opened, recs: map<nat, OpenRec>, i: nat)
    requires AllMirror(c, cfg, stream, open, recs)
    ensures AllMirror(c, cfg, stream, open - {i}, recs - {i})
    ensures i in open ==> open[i] !in Owned(open - {i}) && open[i].index !in Owned(open - {i})
  {
    hide Mirrors;
  }

  lemma MirrorWith(
      c: Codec, cfg: WriterConfig, stream: Stream, open: Opened, recs: map<nat, OpenRec>, i: nat,
      chunk: OpenChunk, r: OpenRec)
    requires AllMirror(c, cfg, stream, open, recs) && i !in open
    requires chunk !in Owned(open) && chunk.index !in Owned(open) && Mirrors(c, cfg, stream, chunk, i, r)
    ensures AllMirror(c, cfg, stream, open[i := chunk], recs[i := r])
  {
    hide Mirrors;
    forall j | j in open ensures open[j] != chunk && open[j].index != chunk.index {
      assert open[j] in Owned(open) && open[j].index in Owned(open);
    }
  }

  lemma MirrorAt(c: Codec, cfg: WriterConfig, stream: Stream, open: Opened, recs: map<nat, OpenRec>, i: nat)
    requires AllMirror(c, cfg, stream, open, recs) && i in open
    ensures i in recs && Mirrors(c, cfg, stream, open[i], i, recs[i])
    ensures open[i] in Owned(open) && open[i].index in Owned(open)
  {
  }

  lemma BackIn(open: Opened, i: nat)
    requires i in open
    ensures (open - {i})[i := open[i]] == open
  {
  }

  /** The files of all sealed chunks. */
  function FilesOf(c: Codec, cfg: WriterConfig, stream: Stream, disk: map<nat, SealedRec>): map<nat, ChunkFile> {
    map i | i in disk :: FileOf(c, cfg, stream, i, disk[i])
  }

  lemma FilesWith(c: Codec, cfg: WriterConfig, stream: Stream, disk: map<nat, SealedRec>, i: nat, r: SealedRec)
    ensures FilesOf(c, cfg, stream, disk[i := r]) == FilesOf(c, cfg, stream, disk)[i := FileOf(c, cfg, stream, i, r)]
  {
    hide FileOf;
  }

  class Chunker {
    const c: Codec
    const stream: Stream
    const cfg: WriterConfig
    const orphans: set<nat>
    var open: Opened
    var disk: map<nat, ChunkFile>
    var watermarkSlot: Option<nat>
    ghost var view: State

    /** The live objects and the files are the state machine's. */
    ghost predicate Consistent()
      reads this, Owned(open)
    {
      && cfg.Valid()
      && AllMirror(c, cfg, stream, open, view.open)
      && disk == FilesOf(c, cfg, stream, view.disk)
      && view.orphans == orphans && view.watermark == watermarkSlot
    }

    /** Between operations the open chunks are also near the watermark. */
    ghost predicate Valid()
      reads this, Owned(open)
    {
      Consistent() && Near(cfg, view)
    }

    /** A chunker over an empty directory. */
    constructor (c: Codec, stream: Stream, cfg: WriterConfig)
      requires cfg.Valid()
      ensures Valid() && view == EMPTY && open == map[]
      ensures this.c == c && this.stream == stream && this.cfg == cfg
    {
      this.c, this.stream, this.cfg, orphans := c, stream, cfg, {};
      open, disk, watermarkSlot := map[], map[], None;
      view := EMPTY;
    }

    /** Close one chunk and leave its files. */
    method SealChunk(i: nat, reason: SealReason)
      requires Consistent() && i in open
      modifies this
      ensures Consistent() && view == Seal(old(view), i, reason) && open == old(open) - {i}
    {
      hide FilesOf, FileOf, AllMirror, OpenChunk.Valid;
      MirrorAt(c, cfg, stream, open, view.open, i);
      MirrorWithout(c, cfg, stream, open, view.open, i);
      FilesWith(c, cfg, stream, view.disk, i, SealedRec(view.open[i].recs, reason));
      var chunk := open[i];
      var file := chunk.Finish(cfg, i, reason);
      open := open - {i};
      disk := disk[i := file];
      view := Seal(view, i, reason);
    }

    method NewChunk(i: nat, now: nat) returns (chunk: OpenChunk)
      ensures fresh(chunk) && fresh(chunk.index) && Mirrors(c, cfg, stream, chunk, i, OpenRec([], now))
    {
      hide OpenChunk.Valid;
      var start := i * cfg.slotsPerChunk;
      chunk := new OpenChunk(c, stream, start, start + cfg.slotsPerChunk, now);
    }

    /** A chunk's range is free when no final file of it exists. */
    method OpenChunkAt(i: nat, now: nat)
      requires Consistent() && i !in open
      modifies this
      ensures Consistent() && view == Recorder.OpenChunkAt(old(view), i, now)
      ensures forall o :: o in Owned(open) ==> o in old(Owned(open)) || fresh(o)
    {
      hide FilesOf, AllMirror, Mirrors;
      OpenMatches();
      DiskMatches();
      if i in disk || i in orphans {
        return;
      }
      ghost var owned := Owned(open);
      assert forall o :: o in owned ==> allocated(o);
      var chunk := NewChunk(i, now);
      assert chunk !in owned && chunk.index !in owned;
      MirrorWith(c, cfg, stream, open, view.open, i, chunk, OpenRec([], now));
      var more := open[i := chunk];
      assert forall o :: o in Owned(more) ==> o in owned || o == chunk || o == chunk.index;
      assert this !in Owned(more);
      open := more;
      assert Owned(open) == Owned(more);
      assert AllMirror(c, cfg, stream, open, view.open[i := OpenRec([], now)]);
      view := view.(open := view.open[i := OpenRec([], now)]);
      assert AllMirror(c, cfg, stream, open, view.open);
    }

    lemma DiskMatches()
      requires Consistent()
      ensures view.disk.Keys == disk.Keys
    {
    }

    method AppendTo(i: nat, r: Rec, now: nat)
      requires Consistent()
      modifies Owned(open), this`view
      ensures Consistent() && view == Append(old(view), i, r, now) && open == old(open)
    {
      hide FilesOf, AllMirror, OpenChunk.Valid;
      OpenMatches();
      if i in open {
        MirrorAt(c, cfg, stream, open, view.open, i);
        MirrorWithout(c, cfg, stream, open, view.open, i);
        open[i].Append(r, now);
        var grown := OpenRec(view.open[i].recs + [r], now);
        MirrorWith(c, cfg, stream, open - {i}, view.open - {i}, i, open[i], grown);
        BackIn(open, i);
        assert (view.open - {i})[i := grown] == view.open[i := grown];
        view := view.(open := view.open[i := grown]);
      }
    }

    /** Seal the collected chunks one by one, smallest index first. */
    method SealEach(ids: set<nat>, reason: SealReason)
      requires Consistent() && ids <= view.open.Keys
      modifies this
      ensures Consistent() && view == SealAll(old(view), ids, reason) && Owned(open) <= old(Owned(open))
    {
      hide Chunker.Consistent, SealAll, Seal, Owned;
      var rest := ids;
      ghost var st, before := view, Owned(open);
      SealNothing(st, reason);
      assert ids - rest == {};
      while rest != {}
        invariant Consistent() && rest <= ids
        invariant view == SealAll(st, ids - rest, reason)
        invariant Owned(open) <= before
        decreases rest
      {
        var i := MinOf(rest);
        SealOneMore(st, ids - rest, i, reason);
        assert (ids - rest) + {i} == ids - (rest - {i});
        OpenMatches();
        OwnedWithout(open, i);
        SealChunk(i, reason);
        rest := rest - {i};
      }
      assert ids - {} == ids;
    }

    lemma OpenMatches()
      requires Consistent()
      ensures view.open.Keys == open.Keys
    {
    }

    /** Seal the oldest chunks until there is room for one more. */
    method MakeRoom()
      requires Consistent()
      modifies this
      ensures Consistent() && view == CapSeal(cfg, old(view)) && open.Keys <= old(open.Keys)
      ensures Owned(open) <= old(Owned(open))
    {
      assert cfg.Valid();
      hide Chunker.Consistent, Seal, Owned;
      ghost var st, before := view, Owned(open);
      while |open| >= cfg.maxOpen && open.Keys != {}
        invariant Consistent() && CapSeal(cfg, view) == CapSeal(cfg, st) && open.Keys <= old(open.Keys)
        invariant Owned(open) <= before
        decreases |open|
      {
        hide CapSeal;
        var oldest := MinOf(open.Keys);
        CapSealTurn();
        SmallerOpen(oldest);
        OwnedWithout(open, oldest);
        SealChunk(oldest, CapReached);
      }
      SameCount();
    }

    lemma NotOwned()
      ensures this !in Owned(open)
    {
    }

    lemma OverdueAgrees(watermark: nat)
      requires Consistent()
      ensures Overdue(cfg, view, watermark) == set j | j in open && watermark / cfg.slotsPerChunk >= j + SEAL_LOOKAHEAD
      ensures Overdue(cfg, view, watermark) <= view.open.Keys
    {
    }

    /** Raise the watermark to a message's slot; nothing else changes. */
    method Observe(slot: nat) returns (watermark: nat)
      requires Consistent()
      modifies this
      ensures Consistent() && watermark == Raised(old(view), slot)
      ensures view == old(view).(watermark := Some(watermark)) && open == old(open)
      ensures watermarkSlot == Some(watermark)
    {
      NotOwned();
      watermark := if watermarkSlot.Some? && watermarkSlot.value >= slot then watermarkSlot.value else slot;
      assert watermark == Raised(view, slot);
      hide AllMirror, FilesOf, Owned, Raised;
      watermarkSlot := Some(watermark);
      view := view.(watermark := Some(watermark));
    }

    /** See to it that the chunk of an index is open, if its range is free. */
    method Reserve(i: nat, now: nat)
      requires Consistent()
      modifies this
      ensures Consistent() && view == Accommodate(cfg, old(view), i, now)
      ensures forall o :: o in Owned(open) ==> o in old(Owned(open)) || fresh(o)
    {
      assert cfg.Valid();
      hide Chunker.Consistent, CapSeal, Recorder.OpenChunkAt, Owned;
      OpenMatches();
      if i !in open {
        MakeRoom();
        OpenChunkAt(i, now);
      }
    }

    /** Store a message that is not too old, then seal what is overdue. */
    method Store(r: Rec, watermark: nat, now: nat)
      requires Consistent() && watermarkSlot == Some(watermark)
      modifies this, Owned(open)
      ensures Consistent() && view == Kept(cfg, old(view), r, watermark, now)
      ensures forall o :: o in Owned(open) ==> o in old(Owned(open)) || fresh(o)
    {
      assert cfg.Valid();
      hide Chunker.Consistent, Accommodate, Append, SealAll, Owned, Overdue;
      var i := r.slot / cfg.slotsPerChunk;
      Reserve(i, now);
      ghost var owned := Owned(open);
      AppendTo(i, r, now);
      OverdueAgrees(watermark);
      var overdue := set j | j in open && watermark / cfg.slotsPerChunk >= j + SEAL_LOOKAHEAD;
      assert overdue == Overdue(cfg, view, watermark);
      SealEach(overdue, Watermark);
      assert Owned(open) <= owned;
    }

    /** Take in one message: it raises the watermark, and is dropped if it is
        older than the tolerance. */
    method Ingest(r: Rec, now: nat)
      requires Valid()
      modifies this, Owned(open)
      ensures Valid() && view == Recorder.Ingest(cfg, old(view), r, now)
      ensures forall o :: o in Owned(open) ==> o in old(Owned(open)) || fresh(o)
    {
      assert cfg.Valid();
      IngestKeepsNear(cfg, view, r, now);
      hide Chunker.Consistent, Near, Owned, Kept;
      var watermark := Observe(r.slot);
      if r.slot + cfg.tolerance >= watermark {
        Store(r, watermark, now);
      }
    }

    /** Seal the chunks that have been idle too long. */
    method Tick(now: nat)
      requires Valid()
      modifies this
      ensures Valid() && view == Recorder.Tick(old(view), now) && Owned(open) <= old(Owned(open))
    {
      SealAllKeepsNear(cfg, view, Stale(view, now), Shutdown);
      StaleAgrees(now);
      hide Chunker.Consistent, SealAll, Near, Owned, Stale;
      var stale := set i | i in open && now > open[i].lastActivity + IDLE_THRESHOLD;
      assert stale == Stale(view, now);
      SealEach(stale, Shutdown);
    }

    lemma StaleAgrees(now: nat)
      requires Consistent()
      ensures Stale(view, now) == set i | i in open && now > open[i].lastActivity + IDLE_THRESHOLD
      ensures Stale(view, now) <= view.open.Keys
    {
    }

    /** Seal everything. */
    method Stop()
      requires Valid()
      modifies this
      ensures Valid() && view == Recorder.Stop(old(view)) && open == map[]
    {
      SealAllKeepsNear(cfg, view, view.open.Keys, Shutdown);
      OpenMatches();
      assert SealAll(view, view.open.Keys, Shutdown).open.Keys == {};
      hide SealAll, Near, AllMirror, Owned;
      SealEach(open.Keys, Shutdown);
      OpenMatches();
    }

    lemma SameCount()
      requires Consistent()
      ensures |view.open| == |open| && view.open.Keys == open.Keys
    {
      assert |view.open| == |view.open.Keys| && |open| == |open.Keys|;
    }

    lemma CapSealTurn()
      requires Consistent() && |open| >= cfg.maxOpen && open.Keys != {}
      ensures MinOf(open.Keys) in view.open
      ensures CapSeal(cfg, view) == CapSeal(cfg, Seal(view, MinOf(open.Keys), CapReached))
    {
      assert |view.open| == |view.open.Keys| && |open| == |open.Keys|;
      FewerOpen(view.open, MinOf(open.Keys));
    }

    lemma SmallerOpen(i: nat)
      requires i in open
      ensures |open - {i}| < |open|
    {
      assert (open - {i}).Keys == open.Keys - {i};
      assert |(open - {i}).Keys| == |open - {i}| && |open.Keys| == |open|;
    }
  }

  lemma SealNothing(st: State, reason: SealReason)
    ensures SealAll(st, {}, reason) == st
  {
    assert st.open - {} == st.open;
  }

  lemma SealOneMore(st: State, done: set<nat>, i: nat, reason: SealReason)
    requires done <= st.open.Keys && i in st.open && i !in done
    ensures i in SealAll(st, done, reason).open
    ensures Seal(SealAll(st, done, reason), i, reason) == SealAll(st, done + {i}, reason)
  {
    var left, right := Seal(SealAll(st, done, reason), i, reason), SealAll(st, done + {i}, reason);
    assert left.open == right.open;
    assert left.disk == right.disk;
  }
}
