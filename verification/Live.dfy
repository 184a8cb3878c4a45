/** What recorders have sealed so far, event by event: a catalog that keeps what
    it has, and, on streams in slot order under a clock that never runs backwards,
    only gains chunks above that. */
module Live {
  import opened Core
  import opened Arith
  import opened Updates
  import opened Codecs
  import opened Plan
  import opened Recorder
  import opened Conservation
  import opened Archive
  import opened Faithful
  import opened Growth

  // ----- sealed ranges only ever appear above those there are -----

  /** What a recorder does in the end: after its last message it is stopped. */
  function WithStop(es: seq<Event>): seq<Event> {
    es + [ShutDown]
  }

  /** The chunks sealed after the first `m` events; the last one is the stop. */
  function DiskAfter(cfg: WriterConfig, es: seq<Event>, m: nat): map<nat, SealedRec>
    requires cfg.Valid() && m <= |es| + 1
  {
    Run(cfg, EMPTY, WithStop(es)[..m]).disk
  }

  /** Messages in slot order and ticks, at times that never run backwards. */
  ghost predicate Rising(es: seq<Event>) {
    NoStop(es) && SlotsRise(es) && ClockRises(es)
  }

  ghost predicate ClockRises(es: seq<Event>) {
    forall i, j :: 0 <= i < j < |es| && !es[i].ShutDown? && !es[j].ShutDown? ==> es[i].at <= es[j].at
  }

  lemma RisingPrefix(es: seq<Event>, m: nat)
    requires Rising(es) && m <= |es|
    ensures Rising(es[..m])
  {
  }

  // ----- sealed below open, and the older open the longer idle -----

  /** Every sealed range is below every open one and at most the watermark's; of
      two open ranges the lower was not active later, and none after `time`. */
  ghost predicate Layered(cfg: WriterConfig, st: State, time: nat)
    requires cfg.Valid()
  {
    && (forall i, j :: i in st.disk && j in st.open ==> i < j)
    && (forall i :: i in st.disk ==> st.watermark.Some? && i <= Bucket(cfg, st.watermark.value))
    && (forall i, j :: i in st.open && j in st.open && i < j ==> st.open[i].lastActivity <= st.open[j].lastActivity)
    && (forall i :: i in st.open ==> st.open[i].lastActivity <= time)
  }

  /** What was sealed in between lies above what was sealed before. */
  ghost predicate SealsAbove(before: State, after: State) {
    forall i, j :: i in before.disk && j in after.disk && j !in before.disk ==> i < j
  }

  /** Making room seals the lowest. */
  lemma {:induction false} CapSealOrders(cfg: WriterConfig, st: State, a: nat, b: nat)
    requires cfg.Valid() && a in CapSeal(cfg, st).disk && a !in st.disk && b in CapSeal(cfg, st).open
    ensures a < b
    decreases |st.open|
  {
    if |st.open| >= cfg.maxOpen && st.open.Keys != {} {
      var oldest := MinOf(st.open.Keys);
      FewerOpen(st.open, oldest);
      var next := Seal(st, oldest, CapReached);
      if a == oldest {
        CapSealStaysOpen(cfg, next, b);
      } else {
        CapSealOrders(cfg, next, a, b);
      }
    }
  }

  lemma {:induction false} CapSealStaysOpen(cfg: WriterConfig, st: State, b: nat)
    requires cfg.Valid() && b in CapSeal(cfg, st).open
    ensures b in st.open
    decreases |st.open|
  {
    if |st.open| >= cfg.maxOpen && st.open.Keys != {} {
      FewerOpen(st.open, MinOf(st.open.Keys));
      CapSealStaysOpen(cfg, Seal(st, MinOf(st.open.Keys), CapReached), b);
    }
  }

  lemma CapSealedWasOpen(cfg: WriterConfig, st: State, r: Rec, now: nat, a: nat)
    requires cfg.Valid() && Near(cfg, st) && a in Stored(cfg, st, r, now).disk && a !in st.disk
    ensures Bucket(cfg, r.slot) !in st.open
    ensures a in CapSeal(cfg, st.(watermark := Some(Raised(st, r.slot)))).disk && a in st.open
  {
    StoredDisk(cfg, st, r, now);
    var marked := st.(watermark := Some(Raised(st, r.slot)));
    hide CapSeal, Bucket, Raised, Stored;
    if Bucket(cfg, r.slot) !in st.open { CapSealsOpen(cfg, marked, a); }
  }

  lemma IngestIs(cfg: WriterConfig, st: State, r: Rec, now: nat)
    requires cfg.Valid() && (st.watermark.Some? ==> st.watermark.value <= r.slot)
    ensures var stored := Stored(cfg, st, r, now);
      Ingest(cfg, st, r, now) == SealAll(stored, Overdue(cfg, stored, r.slot), Watermark)
  {
    assert Raised(st, r.slot) == r.slot;
    hide Accommodate, Append, Bucket, Overdue, SealAll;
  }

  lemma OverdueOrders(cfg: WriterConfig, st: State, slot: nat, a: nat, b: nat)
    requires cfg.Valid()
    requires var after := SealAll(st, Overdue(cfg, st, slot), Watermark);
      a in after.disk && a !in st.disk && b in after.open
    ensures a < b
  {
    hide Bucket;
  }

  lemma SealedAllOpen(st: State, ids: set<nat>, a: nat, b: nat)
    requires ids <= st.open.Keys
    ensures a in SealAll(st, ids, Watermark).disk ==> a in st.disk || a in ids
    ensures b in SealAll(st, ids, Watermark).open ==> b in st.open
  {
  }

  lemma CapOrders(cfg: WriterConfig, st: State, r: Rec, now: nat, a: nat, b: nat)
    requires cfg.Valid() && Near(cfg, st) && (st.watermark.Some? ==> st.watermark.value <= r.slot)
    requires a in Stored(cfg, st, r, now).disk && a !in st.disk && b in Stored(cfg, st, r, now).open
    ensures a < b
  {
    CapSealedWasOpen(cfg, st, r, now, a);
    if st.watermark.Some? { DivMono(st.watermark.value, r.slot, cfg.slotsPerChunk); }
    assert st.watermark.Some? && a <= Bucket(cfg, r.slot);
    hide Stored, Near, Bucket, CapSeal, Raised;
    if b != Bucket(cfg, r.slot) {
      StoredOpenIs(cfg, st, r, now, b);
      CapSealOrders(cfg, st.(watermark := Some(Raised(st, r.slot))), a, b);
    }
  }

  /** What a message seals is below what stays open. */
  lemma IngestOrders(cfg: WriterConfig, st: State, r: Rec, now: nat, a: nat, b: nat)
    requires cfg.Valid() && Near(cfg, st) && (st.watermark.Some? ==> st.watermark.value <= r.slot)
    requires a in Ingest(cfg, st, r, now).disk && a !in st.disk && b in Ingest(cfg, st, r, now).open
    ensures a < b
  {
    var stored := Stored(cfg, st, r, now);
    IngestIs(cfg, st, r, now);
    hide Ingest, Stored, SealAll, Near;
    SealedAllOpen(stored, Overdue(cfg, stored, r.slot), a, b);
    if a in stored.disk {
      CapOrders(cfg, st, r, now, a, b);
    } else {
      OverdueOrders(cfg, stored, r.slot, a, b);
    }
  }

  lemma StoredOpenIs(cfg: WriterConfig, st: State, r: Rec, now: nat, b: nat)
    requires cfg.Valid() && b in Stored(cfg, st, r, now).open && b != Bucket(cfg, r.slot)
    requires Bucket(cfg, r.slot) !in st.open
    ensures b in CapSeal(cfg, st.(watermark := Some(Raised(st, r.slot)))).open
  {
    hide CapSeal, Bucket, Raised;
  }

  /** Where one range is after a message, and how active. */
  lemma IngestPlaces(cfg: WriterConfig, st: State, r: Rec, now: nat, time: nat, i: nat)
    requires cfg.Valid() && Near(cfg, st) && Layered(cfg, st, time) && time <= now
    requires st.watermark.Some? ==> st.watermark.value <= r.slot
    ensures var after, k := Ingest(cfg, st, r, now), Bucket(cfg, r.slot);
      && (i in st.disk ==> i <= k && i in after.disk)
      && (i in after.disk ==> i <= k && (i in st.disk || i in st.open || i == k))
      && (i in after.open ==> i <= k && i !in after.disk && after.open[i].lastActivity <= now)
      && (i in after.open ==> i == k || (i in st.open && after.open[i] == st.open[i]))
      && (k in after.open ==> after.open[k].lastActivity == now)
  {
    if st.watermark.Some? { DivMono(st.watermark.value, r.slot, cfg.slotsPerChunk); }
    NearIsApartHere(cfg, st);
    IngestKeepsNear(cfg, st, r, now);
    IngestOpens(cfg, st, r, now, i);
    IngestOpens(cfg, st, r, now, Bucket(cfg, r.slot));
    assert Raised(st, r.slot) == r.slot;
    hide Ingest, Bucket, Raised;
  }

  /** Sealed below open, in pairs. */
  lemma IngestParts(cfg: WriterConfig, st: State, r: Rec, now: nat, time: nat, i: nat, j: nat)
    requires cfg.Valid() && Near(cfg, st) && Layered(cfg, st, time) && time <= now
    requires st.watermark.Some? ==> st.watermark.value <= r.slot
    ensures var after := Ingest(cfg, st, r, now);
      && (i in after.disk && j in after.open ==> i < j)
      && (i in st.disk && j in after.disk && j !in st.disk ==> i < j)
      && (i in after.open && j in after.open && i < j ==> after.open[i].lastActivity <= after.open[j].lastActivity)
  {
    var after := Ingest(cfg, st, r, now);
    IngestPlaces(cfg, st, r, now, time, i);
    IngestPlaces(cfg, st, r, now, time, j);
    if i in after.disk && j in after.open && i !in st.disk { IngestOrders(cfg, st, r, now, i, j); }
    hide Ingest, Bucket, Near;
  }

  lemma LayeredIf(cfg: WriterConfig, st: State, time: nat)
    requires cfg.Valid()
    requires forall i, j :: i in st.disk && j in st.open ==> i < j
    requires forall i :: i in st.disk ==> st.watermark.Some? && i <= Bucket(cfg, st.watermark.value)
    requires forall i, j :: i in st.open && j in st.open && i < j ==>
      st.open[i].lastActivity <= st.open[j].lastActivity
    requires forall i :: i in st.open ==> st.open[i].lastActivity <= time
    ensures Layered(cfg, st, time)
  {
    hide Bucket;
  }

  lemma SealsAboveIf(a: State, b: State)
    requires forall i, j :: i in a.disk && j in b.disk && j !in a.disk ==> i < j
    ensures SealsAbove(a, b)
  {
  }

  lemma IngestLayers(cfg: WriterConfig, st: State, r: Rec, now: nat, time: nat)
    requires cfg.Valid() && Near(cfg, st) && Layered(cfg, st, time) && time <= now
    requires st.watermark.Some? ==> st.watermark.value <= r.slot
    ensures var after := Ingest(cfg, st, r, now); Layered(cfg, after, now) && SealsAbove(st, after)
  {
    var after := Ingest(cfg, st, r, now);
    IngestRaises(cfg, st, r, now);
    assert Raised(st, r.slot) == r.slot;
    hide *;
    forall i, j | i in after.disk && j in after.open ensures i < j {
      IngestParts(cfg, st, r, now, time, i, j);
    }
    forall i, j | i in st.disk && j in after.disk && j !in st.disk ensures i < j {
      IngestParts(cfg, st, r, now, time, i, j);
    }
    forall i, j | i in after.open && j in after.open && i < j
      ensures after.open[i].lastActivity <= after.open[j].lastActivity
    {
      IngestParts(cfg, st, r, now, time, i, j);
    }
    forall i | i in after.disk ensures i <= Bucket(cfg, r.slot) {
      IngestPlaces(cfg, st, r, now, time, i);
    }
    forall i | i in after.open ensures after.open[i].lastActivity <= now {
      IngestPlaces(cfg, st, r, now, time, i);
    }
    LayeredIf(cfg, after, now);
    SealsAboveIf(st, after);
  }

  lemma TickLayers(cfg: WriterConfig, st: State, now: nat, time: nat)
    requires cfg.Valid() && Near(cfg, st) && Layered(cfg, st, time) && time <= now
    ensures var after := Tick(st, now);
      && Layered(cfg, after, now)
      && SealsAbove(st, after)
  {
    hide Bucket;
  }

  function Now(es: seq<Event>): nat
    requires NoStop(es)
  {
    if es == [] then 0 else es[|es| - 1].at
  }

  lemma StepLayers(cfg: WriterConfig, st: State, e: Event, time: nat)
    requires cfg.Valid() && Near(cfg, st) && Layered(cfg, st, time) && !e.ShutDown? && time <= e.at
    requires e.Arrive? && st.watermark.Some? ==> st.watermark.value <= e.rec.slot
    ensures Layered(cfg, NextState(cfg, st, e), e.at) && SealsAbove(st, NextState(cfg, st, e))
  {
    StepIs(cfg, st, e);
    hide NextState, Layered, Near, Ingest, Tick, SealsAbove;
    if e.Arrive? {
      IngestLayers(cfg, st, e.rec, e.at, time);
    } else {
      TickLayers(cfg, st, e.at, time);
    }
  }

  lemma NothingLayered(cfg: WriterConfig)
    requires cfg.Valid()
    ensures Layered(cfg, Run(cfg, EMPTY, []), 0)
  {
  }

  lemma RunEnds(cfg: WriterConfig, es: seq<Event>)
    requires cfg.Valid() && es != []
    ensures Run(cfg, EMPTY, es) == NextState(cfg, Run(cfg, EMPTY, es[..|es| - 1]), es[|es| - 1])
  {
    hide NextState;
  }

  lemma {:induction false} RunLayered(cfg: WriterConfig, es: seq<Event>)
    requires cfg.Valid() && Rising(es)
    ensures NoStop(es) && Layered(cfg, Run(cfg, EMPTY, es), Now(es))
    ensures es != [] ==> SealsAbove(Run(cfg, EMPTY, es[..|es| - 1]), Run(cfg, EMPTY, es))
  {
    if es == [] {
      NothingLayered(cfg);
    } else {
      hide *;
      var n := |es| - 1;
      RisingPrefix(es, n);
      TimeGoesOn(es);
      RunLayered(cfg, es[..n]);
      RunNear(cfg, EMPTY, es[..n]);
      if es[n].Arrive? { WatermarkBelow(cfg, es); }
      RunEnds(cfg, es);
      StepLayers(cfg, Run(cfg, EMPTY, es[..n]), es[n], Now(es[..n]));
    }
  }

  lemma TimeGoesOn(es: seq<Event>)
    requires Rising(es) && es != []
    ensures NoStop(es) && NoStop(es[..|es| - 1]) && !es[|es| - 1].ShutDown?
    ensures Now(es[..|es| - 1]) <= es[|es| - 1].at == Now(es)
  {
  }

  /** In slot order no message is behind the watermark. */
  lemma WatermarkBelow(cfg: WriterConfig, es: seq<Event>)
    requires cfg.Valid() && Rising(es) && es != [] && es[|es| - 1].Arrive?
    ensures var st := Run(cfg, EMPTY, es[..|es| - 1]);
      st.watermark.Some? ==> st.watermark.value <= es[|es| - 1].rec.slot
  {
    var n := |es| - 1;
    WatermarkIsHighWater(cfg, es[..n]);
    RisingHighWater(es, n);
    assert es[..n + 1] == es;
    hide Run;
  }

  lemma DiskStep(cfg: WriterConfig, es: seq<Event>, m: nat)
    requires cfg.Valid() && m <= |es|
    ensures DiskAfter(cfg, es, m) == Run(cfg, EMPTY, es[..m]).disk
    ensures DiskAfter(cfg, es, m + 1)
      == NextState(cfg, Run(cfg, EMPTY, es[..m]), if m < |es| then es[m] else ShutDown).disk
  {
    hide NextState, Run;
    var e := if m < |es| then es[m] else ShutDown;
    assert WithStop(es)[..m] == es[..m] && WithStop(es)[..m + 1] == es[..m] + [e];
    RunSnoc(cfg, EMPTY, es[..m], e);
  }

  /** At the very end every chunk is sealed. */
  lemma DiskAtTheEnd(cfg: WriterConfig, es: seq<Event>)
    requires cfg.Valid()
    ensures DiskAfter(cfg, es, |es| + 1) == DiskOf(cfg, es)
  {
    DiskStep(cfg, es, |es|);
    assert es[..|es|] == es;
    hide Run;
  }

  lemma StopSeals(cfg: WriterConfig, st: State, j: nat)
    requires cfg.Valid() && j in NextState(cfg, st, ShutDown).disk
    ensures j in st.disk || j in st.open
  {
  }

  /** What one event seals lies above all that was sealed before. */
  lemma NewestAbove(cfg: WriterConfig, es: seq<Event>, m: nat, i: nat, j: nat)
    requires cfg.Valid() && Rising(es) && m <= |es|
    requires i in DiskAfter(cfg, es, m) && j in DiskAfter(cfg, es, m + 1) && j !in DiskAfter(cfg, es, m)
    ensures i < j
  {
    hide Rising, Run, Bucket, NextState, DiskAfter;
    DiskStep(cfg, es, m);
    if m == |es| {
      assert es[..m] == es;
      RunLayered(cfg, es);
      StopSeals(cfg, Run(cfg, EMPTY, es), j);
    } else {
      RisingPrefix(es, m + 1);
      RunLayered(cfg, es[..m + 1]);
      assert es[..m + 1][..m] == es[..m] && es[..m + 1] == es[..m] + [es[m]];
      RunSnoc(cfg, EMPTY, es[..m], es[m]);
    }
  }

  lemma {:induction false} NewAbove(cfg: WriterConfig, es: seq<Event>, k: nat, m: nat, i: nat, j: nat)
    requires cfg.Valid() && Rising(es) && k <= m <= |es| + 1
    requires i in DiskAfter(cfg, es, k) && j in DiskAfter(cfg, es, m) && j !in DiskAfter(cfg, es, k)
    ensures i < j
  {
    hide *;
    if j in DiskAfter(cfg, es, m - 1) {
      NewAbove(cfg, es, k, m - 1, i, j);
    } else {
      SealedStays(cfg, es, k, m - 1, i);
      NewestAbove(cfg, es, m - 1, i, j);
    }
  }

  /** No range above that of the highest slot has a chunk. */
  lemma SealedUpTo(cfg: WriterConfig, es: seq<Event>, i: nat)
    requires cfg.Valid() && Rising(es) && i in DiskOf(cfg, es)
    ensures i <= Bucket(cfg, HighWater(es))
  {
    hide Run, Bucket, HighWater;
    var st := Run(cfg, EMPTY, es);
    assert i in st.disk || i in st.open;
    RunLayered(cfg, es);
    RunNear(cfg, EMPTY, es);
    WatermarkIsHighWater(cfg, es);
  }

  /** What is sealed stays sealed as it was. */
  lemma SealedStays(cfg: WriterConfig, es: seq<Event>, k: nat, m: nat, i: nat)
    requires cfg.Valid() && k <= m <= |es| + 1 && i in DiskAfter(cfg, es, k)
    ensures i in DiskAfter(cfg, es, m) && DiskAfter(cfg, es, m)[i] == DiskAfter(cfg, es, k)[i]
  {
    RunKeepsNear(cfg, EMPTY, WithStop(es)[..m], k);
    assert WithStop(es)[..m][..k] == WithStop(es)[..k];
    hide Run;
  }

  // ----- the catalog of what is sealed so far -----

  /** How far each stream's recorder has got, the stop counted as its last event. */
  type Extent = Stream -> nat

  ghost predicate Within(feed: Feed, extent: Extent) {
    forall stream :: extent(stream) <= |feed(stream)| + 1
  }

  function LiveCatalog(c: Codec, cfg: WriterConfig, feed: Feed, extent: Extent): Catalog
    requires cfg.Valid() && forall stream :: extent(stream) <= |feed(stream)| + 1
  {
    Catalog(map stream: Stream | DiskAfter(cfg, feed(stream), extent(stream)) != map[] ::
      TreeFor(c, cfg, stream, DiskAfter(cfg, feed(stream), extent(stream))))
  }

  lemma LiveTree(c: Codec, cfg: WriterConfig, feed: Feed, extent: Extent, stream: Stream)
    requires cfg.Valid() && Within(feed, extent)
    ensures TreeOf(LiveCatalog(c, cfg, feed, extent), stream)
      == TreeFor(c, cfg, stream, DiskAfter(cfg, feed(stream), extent(stream)))
  {
    hide DiskAfter, EntryOf;
    var disk := DiskAfter(cfg, feed(stream), extent(stream));
    if disk == map[] {
      assert TreeFor(c, cfg, stream, disk) == map[];
    }
  }

  /** Where every recorder has stopped. */
  function AtTheStop(feed: Feed): Extent {
    stream => |feed(stream)| + 1
  }

  lemma StoppedTree(c: Codec, cfg: WriterConfig, feed: Feed, stream: Stream)
    requires cfg.Valid()
    ensures TreeOf(LiveCatalog(c, cfg, feed, AtTheStop(feed)), stream) == TreeOf(CatalogFor(c, cfg, feed), stream)
  {
    hide DiskOf, EntryOf, DiskAfter, LiveCatalog;
    LiveTree(c, cfg, feed, AtTheStop(feed), stream);
    DiskAtTheEnd(cfg, feed(stream));
    var disk := DiskOf(cfg, feed(stream));
    if disk == map[] {
      assert TreeFor(c, cfg, stream, disk) == map[];
    }
  }

  /** One disk keeps what another has. */
  ghost predicate DiskKeeps(a: map<nat, SealedRec>, b: map<nat, SealedRec>) {
    forall i :: i in a ==> i in b && b[i] == a[i]
  }

  /** One disk extends another, upwards. */
  ghost predicate DiskExtends(a: map<nat, SealedRec>, b: map<nat, SealedRec>) {
    DiskKeeps(a, b) && forall i, j :: i in a && j in b && j !in a ==> i < j
  }

  lemma TreeKeeps(c: Codec, cfg: WriterConfig, stream: Stream, a: map<nat, SealedRec>, b: map<nat, SealedRec>, s: nat)
    requires cfg.Valid() && DiskKeeps(a, b) && s in TreeFor(c, cfg, stream, a)
    ensures s in TreeFor(c, cfg, stream, b) && TreeFor(c, cfg, stream, b)[s] == TreeFor(c, cfg, stream, a)[s]
  {
    hide *;
    var i := StartsOnly(c, cfg, stream, a, s);
    KeptAt(a, b, i);
    StartOf(c, cfg, stream, b, i);
    var k := StartsOnly(c, cfg, stream, b, s);
  }

  lemma KeptAt(a: map<nat, SealedRec>, b: map<nat, SealedRec>, i: nat)
    requires DiskKeeps(a, b) && i in a
    ensures i in b && b[i] == a[i]
  {
  }

  /** A new chunk starts above an old one. */
  lemma TreeGainsAbove(
      c: Codec, cfg: WriterConfig, stream: Stream, a: map<nat, SealedRec>, b: map<nat, SealedRec>, s: nat, t: nat)
    requires cfg.Valid() && DiskExtends(a, b)
    requires s in TreeFor(c, cfg, stream, a) && t in TreeFor(c, cfg, stream, b) && t !in TreeFor(c, cfg, stream, a)
    ensures s < t
  {
    hide *;
    var i := StartsOnly(c, cfg, stream, a, s);
    var j := StartsOnly(c, cfg, stream, b, t);
    StartOf(c, cfg, stream, a, j);
    ExtendsAt(a, b, i, j);
    MulMono(i + 1, j, cfg.slotsPerChunk);
    MulStep(i, cfg);
  }

  lemma MulStep(i: nat, cfg: WriterConfig)
    requires cfg.Valid()
    ensures i * cfg.slotsPerChunk < (i + 1) * cfg.slotsPerChunk
  {
  }

  /** A tree gains chunks, all above those it has. */
  ghost predicate TreeRises(small: Tree, tree: Tree) {
    TreePart(small, tree) && forall s, t :: s in small && t in tree && t !in small ==> s < t
  }

  ghost predicate GrowsUpward(before: Catalog, after: Catalog) {
    forall stream :: TreeRises(TreeOf(before, stream), TreeOf(after, stream))
  }

  lemma UpwardIsPart(before: Catalog, after: Catalog)
    requires GrowsUpward(before, after)
    ensures PartOf(before, after)
  {
    forall stream ensures TreePart(TreeOf(before, stream), TreeOf(after, stream)) {
      assert TreeRises(TreeOf(before, stream), TreeOf(after, stream));
    }
  }

  /** If a disk extends upwards, its tree does. */
  lemma TreeExtends(c: Codec, cfg: WriterConfig, stream: Stream, a: map<nat, SealedRec>, b: map<nat, SealedRec>)
    requires cfg.Valid() && DiskExtends(a, b)
    ensures TreeRises(TreeFor(c, cfg, stream, a), TreeFor(c, cfg, stream, b))
  {
    var small, tree := TreeFor(c, cfg, stream, a), TreeFor(c, cfg, stream, b);
    KeepsToo(a, b);
    hide *;
    forall s | s in small ensures s in tree && tree[s] == small[s] {
      TreeKeeps(c, cfg, stream, a, b, s);
    }
    forall s, t | s in small && t in tree && t !in small ensures s < t {
      TreeGainsAbove(c, cfg, stream, a, b, s, t);
    }
    RisesIf(small, tree);
  }

  lemma KeepsToo(a: map<nat, SealedRec>, b: map<nat, SealedRec>)
    requires DiskExtends(a, b)
    ensures DiskKeeps(a, b)
  {
  }

  lemma RisesIf(small: Tree, tree: Tree)
    requires forall s :: s in small ==> s in tree && tree[s] == small[s]
    requires forall s, t :: s in small && t in tree && t !in small ==> s < t
    ensures TreeRises(small, tree)
  {
  }

  lemma ExtendsAt(a: map<nat, SealedRec>, b: map<nat, SealedRec>, i: nat, j: nat)
    requires DiskExtends(a, b) && i in a
    ensures i in b && b[i] == a[i]
    ensures j in b && j !in a ==> i < j
  {
  }

  lemma DiskKeepsOn(cfg: WriterConfig, es: seq<Event>, k: nat, m: nat)
    requires cfg.Valid() && k <= m <= |es| + 1
    ensures DiskKeeps(DiskAfter(cfg, es, k), DiskAfter(cfg, es, m))
  {
    hide DiskAfter;
    forall i | i in DiskAfter(cfg, es, k)
      ensures i in DiskAfter(cfg, es, m) && DiskAfter(cfg, es, m)[i] == DiskAfter(cfg, es, k)[i]
    {
      SealedStays(cfg, es, k, m, i);
    }
  }

  lemma DiskGrowsOn(cfg: WriterConfig, es: seq<Event>, k: nat, m: nat)
    requires cfg.Valid() && Rising(es) && k <= m <= |es| + 1
    ensures DiskExtends(DiskAfter(cfg, es, k), DiskAfter(cfg, es, m))
  {
    DiskKeepsOn(cfg, es, k, m);
    hide DiskAfter, Rising, DiskKeeps;
    forall i, j | i in DiskAfter(cfg, es, k) && j in DiskAfter(cfg, es, m) && j !in DiskAfter(cfg, es, k)
      ensures i < j
    {
      NewAbove(cfg, es, k, m, i, j);
    }
  }

  /** The recorders' clocks never run backwards. */
  ghost predicate Clocked(feed: Feed) {
    forall stream :: ClockRises(feed(stream))
  }

  lemma FeedRises(c: Codec, cfg: WriterConfig, feed: Feed, stream: Stream)
    requires cfg.Valid() && Orderly(c, cfg, feed) && Clocked(feed)
    ensures Rising(feed(stream))
  {
    hide Recordable;
  }

  /** As the recorders go on, the catalog only gains chunks above those it has. */
  lemma LiveGrows(c: Codec, cfg: WriterConfig, feed: Feed, a: Extent, b: Extent)
    requires cfg.Valid() && Orderly(c, cfg, feed) && Clocked(feed) && Within(feed, a) && Within(feed, b)
    requires forall stream :: a(stream) <= b(stream)
    ensures GrowsUpward(LiveCatalog(c, cfg, feed, a), LiveCatalog(c, cfg, feed, b))
  {
    hide LiveCatalog, TreeFor, Orderly, DiskAfter, TreeRises, Clocked;
    forall stream
      ensures TreeRises(TreeOf(LiveCatalog(c, cfg, feed, a), stream), TreeOf(LiveCatalog(c, cfg, feed, b), stream))
    {
      FeedRises(c, cfg, feed, stream);
      LiveTree(c, cfg, feed, a, stream);
      LiveTree(c, cfg, feed, b, stream);
      DiskGrowsOn(cfg, feed(stream), a(stream), b(stream));
      TreeExtends(
        c, cfg, stream, DiskAfter(cfg, feed(stream), a(stream)), DiskAfter(cfg, feed(stream), b(stream)));
    }
  }

  lemma PartIf(small: Tree, tree: Tree)
    requires forall s :: s in small ==> s in tree && tree[s] == small[s]
    ensures TreePart(small, tree)
  {
  }

  /** In every run, all it ever lists is part of what is left in the end. */
  lemma LiveIsPartial(c: Codec, cfg: WriterConfig, feed: Feed, extent: Extent)
    requires cfg.Valid() && Within(feed, extent)
    ensures PartOf(LiveCatalog(c, cfg, feed, extent), CatalogFor(c, cfg, feed))
  {
    hide LiveCatalog, CatalogFor, TreePart, DiskAfter, TreeFor, DiskKeeps;
    forall stream
      ensures TreePart(TreeOf(LiveCatalog(c, cfg, feed, extent), stream), TreeOf(CatalogFor(c, cfg, feed), stream))
    {
      var es := feed(stream);
      StoppedTree(c, cfg, feed, stream);
      LiveTree(c, cfg, feed, extent, stream);
      LiveTree(c, cfg, feed, AtTheStop(feed), stream);
      DiskKeepsOn(cfg, es, extent(stream), |es| + 1);
      var small := TreeFor(c, cfg, stream, DiskAfter(cfg, es, extent(stream)));
      forall s | s in small
        ensures var tree := TreeFor(c, cfg, stream, DiskAfter(cfg, es, |es| + 1)); s in tree && tree[s] == small[s]
      {
        TreeKeeps(c, cfg, stream, DiskAfter(cfg, es, extent(stream)), DiskAfter(cfg, es, |es| + 1), s);
      }
      PartIf(small, TreeFor(c, cfg, stream, DiskAfter(cfg, es, |es| + 1)));
    }
  }

  /** In slot order, it comes first of what is left in the end. */
  lemma LiveComesFirst(c: Codec, cfg: WriterConfig, feed: Feed, extent: Extent)
    requires cfg.Valid() && Orderly(c, cfg, feed) && Clocked(feed) && Within(feed, extent)
    ensures GrowsUpward(LiveCatalog(c, cfg, feed, extent), CatalogFor(c, cfg, feed))
  {
    LiveGrows(c, cfg, feed, extent, AtTheStop(feed));
    hide LiveCatalog, CatalogFor, Orderly, TreeRises;
    forall stream
      ensures TreeRises(TreeOf(LiveCatalog(c, cfg, feed, extent), stream), TreeOf(CatalogFor(c, cfg, feed), stream))
    {
      StoppedTree(c, cfg, feed, stream);
      assert TreeRises(
        TreeOf(LiveCatalog(c, cfg, feed, extent), stream), TreeOf(LiveCatalog(c, cfg, feed, AtTheStop(feed)), stream));
    }
  }
}
