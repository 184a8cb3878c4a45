/** What a stopped recorder leaves on disk, seen by the reader: a catalog whose
    every chunk records exactly the messages accepted for its range. */
module Archive {
  import opened Core
  import opened Arith
  import opened Updates
  import opened Codecs
  import opened Frames
  import opened IndexBuild
  import opened IndexRead
  import opened Filters
  import opened Cursor
  import opened Plan
  import opened Coverage
  import opened Recorder
  import opened Conservation
  import opened Chunker

  /** The sealed chunks of a run from an empty directory, stopped at its end. */
  function DiskOf(cfg: WriterConfig, es: seq<Event>): map<nat, SealedRec>
    requires cfg.Valid()
  {
    Stop(Run(cfg, EMPTY, es)).disk
  }

  lemma StopFrames(st: State, i: nat)
    requires Apart(st)
    ensures Stop(st).open == map[] && FramesOf(Stop(st), i) == FramesOf(st, i)
  {
    SealAllFrames(st, st.open.Keys, Shutdown, i);
  }

  lemma StartsEmpty(cfg: WriterConfig, es: seq<Event>, i: nat)
    requires cfg.Valid()
    ensures Started(EMPTY) && FramesOf(EMPTY, i) == [] && DiskOf(cfg, es) == Stop(Run(cfg, EMPTY, es)).disk
  {
    hide Run, Stop;
  }

  lemma NearIsApart(cfg: WriterConfig, st: State)
    requires cfg.Valid() && Near(cfg, st)
    ensures Apart(st)
  {
    hide Bucket;
  }

  lemma OnlyOnDisk(st: State, i: nat)
    requires st.open == map[]
    ensures FramesOf(st, i) == if i in st.disk then st.disk[i].recs else []
  {
  }

  /** A chunk on disk holds the accepted messages of its range; a range without
      a chunk accepted none. */
  lemma DiskHoldsAccepted(cfg: WriterConfig, es: seq<Event>, i: nat)
    requires cfg.Valid()
    ensures AcceptedInto(cfg, EMPTY, es, i) == if i in DiskOf(cfg, es) then DiskOf(cfg, es)[i].recs else []
  {
    hide *;
    StartsEmpty(cfg, es, i);
    RunNear(cfg, EMPTY, es);
    NearIsApart(cfg, Run(cfg, EMPTY, es));
    StopFrames(Run(cfg, EMPTY, es), i);
    ChunksHoldAccepted(cfg, EMPTY, es, i);
    OnlyOnDisk(Stop(Run(cfg, EMPTY, es)), i);
    assert [] + AcceptedInto(cfg, EMPTY, es, i) == AcceptedInto(cfg, EMPTY, es, i);
  }

  /** The messages accepted for a range arrived, and belong there. */
  lemma {:induction false} AcceptedArrived(cfg: WriterConfig, es: seq<Event>, i: nat, r: Rec)
    requires cfg.Valid() && r in AcceptedInto(cfg, EMPTY, es, i)
    ensures Bucket(cfg, r.slot) == i && exists n :: 0 <= n < |es| && es[n].Arrive? && es[n].rec == r
  {
    hide Run, Accepts, Bucket;
    var n := |es| - 1;
    if es[n].Arrive? && es[n].rec == r && Bucket(cfg, r.slot) == i {
    } else {
      AcceptedArrived(cfg, es[..n], i, r);
      var k :| 0 <= k < |es[..n]| && es[..n][k].Arrive? && es[..n][k].rec == r;
      assert es[k].rec == r;
    }
  }

  // ----- one chunk, from the writer's files to the reader's entry -----

  /** The catalog entry of a sealed chunk. */
  function EntryOf(c: Codec, cfg: WriterConfig, stream: Stream, i: nat, sealed: SealedRec): ChunkEntry {
    var file := FileOf(c, cfg, stream, i, sealed);
    ChunkEntry(stream, file.meta.startSlot, file.meta.endSlotExclusive, file.zst, file.idx, file.meta)
  }

  /** A message is recorded under the slot it carries. */
  ghost predicate Slotted(recs: seq<Rec>) {
    forall n :: 0 <= n < |recs| ==> ExtractSlot(recs[n].update) == Some(recs[n].slot)
  }

  /** Every length fits the `u32` field the formats give it. */
  ghost predicate FitsFormat(c: Codec, cfg: WriterConfig, stream: Stream, i: nat, recs: seq<Rec>) {
    && |recs| < U32
    && (forall n :: 0 <= n < |recs| ==> |c.encodeMessage(recs[n].update)| < U32)
    && IndexFits(c, stream, UpdatesOf(recs), i * cfg.slotsPerChunk, i * cfg.slotsPerChunk + cfg.slotsPerChunk)
  }

  lemma {:induction false} UpdateAt(recs: seq<Rec>, n: nat)
    requires n < |recs|
    ensures UpdatesOf(recs)[n] == recs[n].update
  {
    if n < |recs| - 1 { UpdateAt(recs[..|recs| - 1], n); }
  }

  lemma {:induction false} PayloadAt(c: Codec, recs: seq<Rec>)
    ensures |PayloadsOf(c, recs)| == |recs|
    ensures forall n :: 0 <= n < |recs| ==> PayloadsOf(c, recs)[n] == c.encodeMessage(recs[n].update)
  {
    if recs != [] { PayloadAt(c, recs[..|recs| - 1]); }
  }

  lemma PayloadReads(c: Codec, recs: seq<Rec>)
    requires c.Lawful() && forall n :: 0 <= n < |recs| ==> |c.encodeMessage(recs[n].update)| < U32
    ensures PayloadIs(c, RawOf(c, recs), UpdatesOf(recs))
  {
    var raw, ps := RawOf(c, recs), PayloadsOf(c, recs);
    PayloadAt(c, recs);
    FramesRoundTrip(ps);
    DecodeSlices(raw);
    hide Parse, FrameAll, PayloadsOf, Decode, UpdatesOf;
    var d := Decode(raw).value;
    forall n | 0 <= n < |recs| ensures DecodeMessage(c, d, n) == Some(UpdatesOf(recs)[n]) {
      UpdateAt(recs, n);
      assert d.FrameAt(n) == Some(ps[n]);
    }
  }

  lemma BucketBounds(cfg: WriterConfig, slot: nat, i: nat)
    requires cfg.Valid() && Bucket(cfg, slot) == i
    ensures i * cfg.slotsPerChunk <= slot < i * cfg.slotsPerChunk + cfg.slotsPerChunk
  {
    DivBounds(slot, cfg.slotsPerChunk);
  }

  lemma MetaRange(c: Codec, cfg: WriterConfig, stream: Stream, i: nat, sealed: SealedRec)
    ensures var m := MetaOf(c, cfg, stream, i, sealed);
      m.startSlot == i * cfg.slotsPerChunk && m.endSlotExclusive == m.startSlot + cfg.slotsPerChunk
  {
    hide BoundsOf, RawOf;
  }

  /** Index and sidecar say whose messages they are of, and which. */
  ghost predicate IsLabelled(c: Codec, stream: Stream, e: ChunkEntry, sealed: SealedRec) {
    && e.stream == stream
    && Describes(e.meta, stream, e.startSlot, e.endSlotExclusive, sealed.recs, e.zst, sealed.reason)
    && ParseIndex(c, e.idx).Ok?
    && IsHeaderFor(ParseIndex(c, e.idx).value.header, stream, e.startSlot, e.endSlotExclusive, |sealed.recs|)
  }

  lemma SealedIsLabelled(c: Codec, cfg: WriterConfig, stream: Stream, i: nat, sealed: SealedRec)
    requires c.Lawful() && cfg.Valid() && FitsFormat(c, cfg, stream, i, sealed.recs)
    ensures IsLabelled(c, stream, EntryOf(c, cfg, stream, i, sealed), sealed)
  {
    var us, start := UpdatesOf(sealed.recs), i * cfg.slotsPerChunk;
    var dims := BuildDims(stream, us);
    SidecarDescribes(c, cfg, stream, i, sealed);
    MetaRange(c, cfg, stream, i, sealed);
    BuiltDimsFit(stream, us);
    IndexRoundTrip(c, stream, dims, start, start + cfg.slotsPerChunk, |us|, SlotDim, U64Value(0));
    hide Describes, IsHeaderFor, ParseIndex, SerializeIndex, BuildDims, RawOf, UpdatesOf, MetaOf, DimsFit, HeaderOf;
  }

  /** The reader's entry of a sealed chunk records exactly its messages. */
  lemma SealedRecords(c: Codec, cfg: WriterConfig, stream: Stream, i: nat, sealed: SealedRec)
    requires c.Lawful() && cfg.Valid() && Slotted(sealed.recs) && FitsFormat(c, cfg, stream, i, sealed.recs)
    requires forall n :: 0 <= n < |sealed.recs| ==> Bucket(cfg, sealed.recs[n].slot) == i
    ensures Records(c, EntryOf(c, cfg, stream, i, sealed), UpdatesOf(sealed.recs))
    ensures IsLabelled(c, stream, EntryOf(c, cfg, stream, i, sealed), sealed)
  {
    hide *;
    SealedIsLabelled(c, cfg, stream, i, sealed);
    EntryRecords(c, cfg, stream, i, sealed);
  }

  lemma EntryRecords(c: Codec, cfg: WriterConfig, stream: Stream, i: nat, sealed: SealedRec)
    requires c.Lawful() && cfg.Valid() && Slotted(sealed.recs) && FitsFormat(c, cfg, stream, i, sealed.recs)
    requires forall n :: 0 <= n < |sealed.recs| ==> Bucket(cfg, sealed.recs[n].slot) == i
    ensures Records(c, EntryOf(c, cfg, stream, i, sealed), UpdatesOf(sealed.recs))
  {
    hide PayloadIs, ParseIndex, IndexOf, SerializeIndex, BuildDims, RawOf, UpdatesOf, IndexFits, Bucket, MetaOf,
      BoundsOf;
    var recs, us := sealed.recs, UpdatesOf(sealed.recs);
    var start := i * cfg.slotsPerChunk;
    var end := start + cfg.slotsPerChunk;
    PayloadReads(c, recs);
    ParsedIndexOf(c, stream, us, start, end);
    MetaRange(c, cfg, stream, i, sealed);
    forall n | 0 <= n < |us| ensures start <= SlotOf(us[n]) < end {
      UpdateAt(recs, n);
      BucketBounds(cfg, recs[n].slot, i);
    }
  }

  // ----- the whole directory -----

  /** What each stream's recorder is fed. */
  type Feed = Stream -> seq<Event>

  function Starts(cfg: WriterConfig, disk: map<nat, SealedRec>): set<nat> {
    set i | i in disk :: i * cfg.slotsPerChunk
  }

  function TreeFor(c: Codec, cfg: WriterConfig, stream: Stream, disk: map<nat, SealedRec>): Tree
    requires cfg.Valid()
  {
    map s | s in Starts(cfg, disk) && Bucket(cfg, s) in disk ::
      EntryOf(c, cfg, stream, Bucket(cfg, s), disk[Bucket(cfg, s)])
  }

  /** The catalog a reader finds over the three recorded streams. */
  function CatalogFor(c: Codec, cfg: WriterConfig, feed: Feed): Catalog
    requires cfg.Valid()
  {
    Catalog(map stream: Stream | DiskOf(cfg, feed(stream)) != map[] ::
      TreeFor(c, cfg, stream, DiskOf(cfg, feed(stream))))
  }

  function ContentFor(cfg: WriterConfig, feed: Feed): Content
    requires cfg.Valid()
  {
    (stream: Stream, start: nat) =>
      var disk := DiskOf(cfg, feed(stream));
      if Bucket(cfg, start) in disk then UpdatesOf(disk[Bucket(cfg, start)].recs) else []
  }

  lemma StartOf(c: Codec, cfg: WriterConfig, stream: Stream, disk: map<nat, SealedRec>, i: nat)
    requires cfg.Valid()
    ensures Bucket(cfg, i * cfg.slotsPerChunk) == i
    ensures i in disk ==> i * cfg.slotsPerChunk in TreeFor(c, cfg, stream, disk)
  {
    DivMul(i, cfg.slotsPerChunk);
  }

  lemma StartsOnly(c: Codec, cfg: WriterConfig, stream: Stream, disk: map<nat, SealedRec>, s: nat) returns (i: nat)
    requires cfg.Valid() && s in TreeFor(c, cfg, stream, disk)
    ensures i in disk && s == i * cfg.slotsPerChunk && Bucket(cfg, s) == i
    ensures TreeFor(c, cfg, stream, disk)[s] == EntryOf(c, cfg, stream, i, disk[i])
  {
    hide EntryOf;
    i :| i in disk && i * cfg.slotsPerChunk == s;
    DivMul(i, cfg.slotsPerChunk);
  }

  /** What the arrivals of a stream have to satisfy to be recordable. */
  ghost predicate Recordable(c: Codec, cfg: WriterConfig, stream: Stream, es: seq<Event>)
    requires cfg.Valid()
  {
    && (forall n :: 0 <= n < |es| && es[n].Arrive? ==> ExtractSlot(es[n].rec.update) == Some(es[n].rec.slot))
    && (forall i :: i in DiskOf(cfg, es) ==> FitsFormat(c, cfg, stream, i, DiskOf(cfg, es)[i].recs))
  }

  lemma DiskIsSlotted(c: Codec, cfg: WriterConfig, stream: Stream, es: seq<Event>, i: nat)
    requires cfg.Valid() && Recordable(c, cfg, stream, es) && i in DiskOf(cfg, es)
    ensures Slotted(DiskOf(cfg, es)[i].recs)
    ensures forall n :: 0 <= n < |DiskOf(cfg, es)[i].recs| ==> Bucket(cfg, DiskOf(cfg, es)[i].recs[n].slot) == i
  {
    DiskHoldsAccepted(cfg, es, i);
    var recs := DiskOf(cfg, es)[i].recs;
    hide DiskOf, FitsFormat, AcceptedInto, Bucket;
    forall n | 0 <= n < |recs|
      ensures Bucket(cfg, recs[n].slot) == i && ExtractSlot(recs[n].update) == Some(recs[n].slot)
    {
      assert recs[n] in AcceptedInto(cfg, EMPTY, es, i);
      AcceptedArrived(cfg, es, i, recs[n]);
    }
  }

  /** A stopped recorder leaves a recorded catalog. */
  lemma StoppedIsRecorded(c: Codec, cfg: WriterConfig, feed: Feed)
    requires c.Lawful() && cfg.Valid() && forall stream :: Recordable(c, cfg, stream, feed(stream))
    ensures Recorded(c, CatalogFor(c, cfg, feed), ContentFor(cfg, feed))
  {
    var cat, content := CatalogFor(c, cfg, feed), ContentFor(cfg, feed);
    forall stream, start | stream in cat.streams && start in cat.streams[stream]
      ensures var e := cat.streams[stream][start];
        e.stream == stream && e.startSlot == start && Records(c, e, MessagesAt(content, stream, start))
    {
      var disk := DiskOf(cfg, feed(stream));
      var i := StartsOnly(c, cfg, stream, disk, start);
      assert Recordable(c, cfg, stream, feed(stream));
      DiskIsSlotted(c, cfg, stream, feed(stream), i);
      hide DiskOf, Bucket, FitsFormat, Slotted, Records, UpdatesOf, FileOf;
      SealedRecords(c, cfg, stream, i, disk[i]);
      assert MessagesAt(content, stream, start) == UpdatesOf(disk[i].recs);
    }
  }
}
