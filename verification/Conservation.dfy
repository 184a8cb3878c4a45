/** What the recorder keeps: the messages of every chunk over whole runs, exactly
    when no timely message is lost, and exactly when the open cap never seals. */
module Conservation {
  import opened Core
  import opened Arith
  import opened Updates
  import opened Recorder

  /** The messages recorded for a range so far, open or sealed. */
  function FramesOf(st: State, i: nat): seq<Rec> {
    if i in st.open then st.open[i].recs else if i in st.disk then st.disk[i].recs else []
  }

  ghost predicate Apart(st: State) {
    forall i :: i in st.open ==> !Taken(st, i)
  }

  /** A message is stored unless it is too old or its range is closed. */
  predicate Accepts(cfg: WriterConfig, st: State, r: Rec)
    requires cfg.Valid()
  {
    && r.slot + cfg.tolerance >= Raised(st, r.slot)
    && (Bucket(cfg, r.slot) in st.open || !Taken(st, Bucket(cfg, r.slot)))
  }

  lemma SealAllFrames(st: State, ids: set<nat>, reason: SealReason, i: nat)
    requires ids <= st.open.Keys && Apart(st)
    ensures FramesOf(SealAll(st, ids, reason), i) == FramesOf(st, i)
  {
  }

  lemma {:induction false} CapSealFrames(cfg: WriterConfig, st: State, i: nat)
    requires cfg.Valid() && Apart(st)
    ensures FramesOf(CapSeal(cfg, st), i) == FramesOf(st, i)
    decreases |st.open|
  {
    if |st.open| >= cfg.maxOpen && st.open.Keys != {} {
      var oldest := MinOf(st.open.Keys);
      FewerOpen(st.open, oldest);
      CapSealFrames(cfg, Seal(st, oldest, CapReached), i);
    }
  }

  lemma AccommodateFrames(cfg: WriterConfig, st: State, k: nat, now: nat, i: nat)
    requires cfg.Valid() && Apart(st)
    ensures var after := Accommodate(cfg, st, k, now);
      FramesOf(after, i) == FramesOf(st, i) && Apart(after) && (k in after.open <==> k in st.open || !Taken(st, k))
  {
    hide CapSeal, Bucket;
    if k !in st.open {
      CapSealGrows(cfg, st);
      CapSealFrames(cfg, st, i);
    }
  }

  lemma StoredFrames(cfg: WriterConfig, st: State, r: Rec, now: nat, i: nat)
    requires cfg.Valid() && Apart(st)
    ensures var after := Stored(cfg, st, r, now); var k := Bucket(cfg, r.slot);
      && Apart(after)
      && FramesOf(after, i)
        == if i == k && (k in st.open || !Taken(st, k)) then FramesOf(st, i) + [r] else FramesOf(st, i)
  {
    hide Bucket, Raised, Accommodate;
    var marked := st.(watermark := Some(Raised(st, r.slot)));
    AccommodateFrames(cfg, marked, Bucket(cfg, r.slot), now, i);
  }

  /** One message extends at most the list of its own range. */
  lemma IngestFrames(cfg: WriterConfig, st: State, r: Rec, now: nat, i: nat)
    requires cfg.Valid() && Apart(st)
    ensures FramesOf(Ingest(cfg, st, r, now), i)
      == if i == Bucket(cfg, r.slot) && Accepts(cfg, st, r) then FramesOf(st, i) + [r] else FramesOf(st, i)
  {
    hide Bucket;
    StoredFrames(cfg, st, r, now, i);
    var stored := Stored(cfg, st, r, now);
    SealAllFrames(stored, Overdue(cfg, stored, Raised(st, r.slot)), Watermark, i);
    hide Stored, SealAll, Raised;
  }

  lemma StepFrames(cfg: WriterConfig, st: State, e: Event, i: nat)
    requires cfg.Valid() && Apart(st)
    ensures FramesOf(NextState(cfg, st, e), i)
      == if e.Arrive? && i == Bucket(cfg, e.rec.slot) && Accepts(cfg, st, e.rec)
         then FramesOf(st, i) + [e.rec] else FramesOf(st, i)
  {
    hide Ingest, Bucket, Accepts, FramesOf, SealAll;
    match e
    case Arrive(r, at) => IngestFrames(cfg, st, r, at, i);
    case TickAt(at) => SealAllFrames(st, Stale(st, at), Shutdown, i);
    case ShutDown => SealAllFrames(st, st.open.Keys, Shutdown, i);
  }

  /** The accepted messages of a range, in arrival order. */
  function AcceptedInto(cfg: WriterConfig, st: State, es: seq<Event>, i: nat): seq<Rec>
    requires cfg.Valid()
  {
    if es == [] then []
    else
      var n := |es| - 1;
      var before := AcceptedInto(cfg, st, es[..n], i);
      var e := es[n];
      if e.Arrive? && i == Bucket(cfg, e.rec.slot) && Accepts(cfg, Run(cfg, st, es[..n]), e.rec) then before + [e.rec]
      else before
  }

  /** In every run every chunk holds exactly the accepted messages of its range
      in arrival order; ranges partition slots, so each is in one chunk only. */
  lemma {:induction false} ChunksHoldAccepted(cfg: WriterConfig, st: State, es: seq<Event>, i: nat)
    requires cfg.Valid() && Started(st)
    ensures FramesOf(Run(cfg, st, es), i) == FramesOf(st, i) + AcceptedInto(cfg, st, es, i)
  {
    if es == [] {
      assert FramesOf(st, i) + [] == FramesOf(st, i);
    } else {
      var n := |es| - 1;
      ChunksHoldAccepted(cfg, st, es[..n], i);
      RunNear(cfg, st, es[..n]);
      assert Apart(Run(cfg, st, es[..n]));
      hide NextState, Bucket, Accepts, FramesOf, Near, Apart;
      StepFrames(cfg, Run(cfg, st, es[..n]), es[n], i);
    }
  }

  // ----- the cutoff below which everything may be sealed -----

  /** The bucket of the oldest slot within `t` of the watermark. */
  function Cut(cfg: WriterConfig, t: nat, watermark: nat): nat
    requires cfg.Valid()
  {
    Bucket(cfg, if watermark < t then 0 else watermark - t)
  }

  lemma CutMono(cfg: WriterConfig, t: nat, a: nat, b: nat)
    requires cfg.Valid() && a <= b
    ensures Cut(cfg, t, a) <= Cut(cfg, t, b)
  {
    DivMono(if a < t then 0 else a - t, if b < t then 0 else b - t, cfg.slotsPerChunk);
  }

  lemma CutBelowTimely(cfg: WriterConfig, t: nat, slot: nat, watermark: nat)
    requires cfg.Valid() && slot + t >= watermark
    ensures Cut(cfg, t, watermark) <= Bucket(cfg, slot)
  {
    DivMono(if watermark < t then 0 else watermark - t, slot, cfg.slotsPerChunk);
  }

  lemma CutNearWatermark(cfg: WriterConfig, t: nat, watermark: nat)
    requires cfg.Valid() && t <= cfg.slotsPerChunk
    ensures Cut(cfg, t, watermark) + 1 >= Bucket(cfg, watermark)
  {
    DivBackOne(if watermark < t then 0 else watermark - t, watermark, cfg.slotsPerChunk);
  }

  /** Reordering up to `t` slots is safe for this configuration. */
  predicate Absorbs(cfg: WriterConfig, t: nat) {
    t == 0 || (t <= cfg.slotsPerChunk && cfg.maxOpen >= 2)
  }

  /** With room for two, making room seals only the older of two neighbours. */
  lemma CapSealsOlder(cfg: WriterConfig, st: State, b: nat, i: nat)
    requires cfg.Valid() && cfg.maxOpen >= 2
    requires forall k :: k in st.open ==> k <= b <= k + 1
    requires i in CapSeal(cfg, st).disk && i !in st.disk
    ensures i + 1 == b && i in st.open && b in st.open
  {
    SubsetCount(st.open.Keys, b);
    assert |st.open| == |st.open.Keys|;
    if |st.open| >= cfg.maxOpen && st.open.Keys != {} {
      var oldest := MinOf(st.open.Keys);
      var next := Seal(st, oldest, CapReached);
      FewerOpen(st.open, oldest);
      assert CapSeal(cfg, st) == CapSeal(cfg, next);
      assert |next.open| < 2;
      assert CapSeal(cfg, next) == next;
      TwoNeighbours(st.open.Keys, b);
    }
  }

  lemma TwoNeighbours(keys: set<nat>, b: nat)
    requires |keys| >= 2 && forall k :: k in keys ==> k <= b <= k + 1
    ensures b > 0 && b - 1 in keys && b in keys && MinOf(keys) == b - 1
  {
    if forall k :: k in keys ==> k == b {
      OneElement(keys, b);
    } else if b !in keys {
      OneElement(keys, b - 1);
    }
  }

  lemma OneElement(keys: set<nat>, x: nat)
    requires forall k :: k in keys ==> k == x
    ensures |keys| <= 1
  {
    assert keys == {} || keys == {x};
  }

  lemma CapSealsOpen(cfg: WriterConfig, st: State, i: nat)
    requires cfg.Valid() && Apart(st) && i in CapSeal(cfg, st).disk && i !in st.disk
    ensures i in st.open
  {
    CapSealGrows(cfg, st);
    hide CapSeal;
  }

  /** Division facts about a timely message and the open chunks. */
  lemma TimelyBuckets(cfg: WriterConfig, t: nat, st: State, slot: nat)
    requires cfg.Valid() && Absorbs(cfg, t) && slot + t >= Raised(st, slot)
    ensures var wm := Raised(st, slot);
      && Cut(cfg, t, wm) <= Bucket(cfg, slot) <= Bucket(cfg, wm) <= Cut(cfg, t, wm) + 1
      && (t == 0 ==> Cut(cfg, t, wm) == Bucket(cfg, slot) == Bucket(cfg, wm))
      && (st.watermark.Some? ==> Bucket(cfg, st.watermark.value) <= Bucket(cfg, wm))
  {
    var wm := Raised(st, slot);
    CutBelowTimely(cfg, t, slot, wm);
    DivMono(slot, wm, cfg.slotsPerChunk);
    if st.watermark.Some? { DivMono(st.watermark.value, wm, cfg.slotsPerChunk); }
    if t > 0 { CutNearWatermark(cfg, t, wm); }
  }

  /** A chunk sealed to make room for a message is below the cutoff. */
  lemma CapSealsBelow(cfg: WriterConfig, t: nat, st: State, slot: nat, marked: State, i: nat)
    requires cfg.Valid() && Absorbs(cfg, t) && Near(cfg, st) && slot + t >= Raised(st, slot)
    requires marked == st.(watermark := Some(Raised(st, slot))) && Bucket(cfg, slot) !in st.open
    requires i in CapSeal(cfg, marked).disk && i !in st.disk
    ensures i < Cut(cfg, t, Raised(st, slot))
  {
    hide Bucket, CapSeal, Cut, Raised;
    CapSealsOpen(cfg, marked, i);
    TimelyBuckets(cfg, t, st, slot);
    var b := Bucket(cfg, st.watermark.value);
    assert i <= b && i != Bucket(cfg, slot);
    if t > 0 {
      CapSealsOlder(cfg, marked, b, i);
      assert b != Bucket(cfg, slot);
    }
  }

  lemma OverdueBelow(cfg: WriterConfig, t: nat, watermark: nat, i: nat)
    requires cfg.Valid() && Absorbs(cfg, t) && Bucket(cfg, watermark) >= i + SEAL_LOOKAHEAD
    ensures i < Cut(cfg, t, watermark)
  {
    if t > 0 { CutNearWatermark(cfg, t, watermark); }
  }

  lemma StoredDisk(cfg: WriterConfig, st: State, r: Rec, now: nat)
    requires cfg.Valid()
    ensures var marked := st.(watermark := Some(Raised(st, r.slot)));
      Stored(cfg, st, r, now).disk
        == if Bucket(cfg, r.slot) in st.open then st.disk else CapSeal(cfg, marked).disk
  {
    hide CapSeal, Bucket, Raised;
  }

  /** Every seal a timely message causes is below the cutoff. */
  lemma TimelySeals(cfg: WriterConfig, t: nat, st: State, r: Rec, now: nat, i: nat)
    requires cfg.Valid() && Absorbs(cfg, t) && Near(cfg, st)
    requires r.slot + t >= Raised(st, r.slot) && r.slot + cfg.tolerance >= Raised(st, r.slot)
    requires i in Ingest(cfg, st, r, now).disk && i !in st.disk
    ensures i < Cut(cfg, t, Raised(st, r.slot))
  {
    var wm := Raised(st, r.slot);
    StoredDisk(cfg, st, r, now);
    var stored := Stored(cfg, st, r, now);
    assert Ingest(cfg, st, r, now) == SealAll(stored, Overdue(cfg, stored, wm), Watermark);
    if i in stored.disk {
      CapSealsBelow(cfg, t, st, r.slot, st.(watermark := Some(wm)), i);
    } else {
      OverdueBelow(cfg, t, wm, i);
    }
  }

  // ----- whole runs -----

  /** Messages and ticks; a recorder is stopped after them. */
  ghost predicate NoStop(es: seq<Event>) {
    forall i :: 0 <= i < |es| ==> !es[i].ShutDown?
  }

  ghost predicate OnlyArrivals(es: seq<Event>) {
    forall i :: 0 <= i < |es| ==> es[i].Arrive?
  }

  /** The highest slot among the arrivals. */
  function HighWater(es: seq<Event>): nat {
    if es == [] then 0
    else
      var before := HighWater(es[..|es| - 1]);
      var e := es[|es| - 1];
      if e.Arrive? && e.rec.slot > before then e.rec.slot else before
  }

  /** Within `t` slots of the highest slot seen, its own included. */
  predicate WithinOf(es: seq<Event>, n: nat, t: nat)
    requires n < |es| && es[n].Arrive?
  {
    es[n].rec.slot + t >= HighWater(es[..n + 1])
  }

  /** When the last message of a range arrived that was within tolerance. */
  function LastAt(cfg: WriterConfig, es: seq<Event>, i: nat): Option<nat>
    requires cfg.Valid()
  {
    if es == [] then None
    else
      var n := |es| - 1;
      if es[n].Arrive? && WithinOf(es, n, cfg.tolerance) && Bucket(cfg, es[n].rec.slot) == i then Some(es[n].at)
      else LastAt(cfg, es[..n], i)
  }

  /** A tick came too long after the last message of a range. */
  predicate Idled(cfg: WriterConfig, es: seq<Event>, i: nat)
    requires cfg.Valid()
  {
    es != [] && (Idled(cfg, es[..|es| - 1], i) || IdlesNow(cfg, es, i))
  }

  predicate IdlesNow(cfg: WriterConfig, es: seq<Event>, i: nat)
    requires cfg.Valid() && es != []
  {
    var n := |es| - 1;
    var last := LastAt(cfg, es[..n], i);
    es[n].TickAt? && last.Some? && es[n].at > last.value + 300_000_000_000
  }

  /** A message within tolerance, of a range no tick has found idle before. */
  predicate Due(cfg: WriterConfig, es: seq<Event>, n: nat)
    requires cfg.Valid() && n < |es|
  {
    es[n].Arrive? && WithinOf(es, n, cfg.tolerance) && !Idled(cfg, es[..n], Bucket(cfg, es[n].rec.slot))
  }

  /** The messages a recorder is to keep, in order. */
  function Heard(cfg: WriterConfig, es: seq<Event>): seq<Event>
    requires cfg.Valid()
  {
    if es == [] then []
    else
      var n := |es| - 1;
      var before := Heard(cfg, es[..n]);
      if Due(cfg, es, n) then before + [es[n]] else before
  }

  /** All the arrivals of a range. */
  function ArrivalsOf(cfg: WriterConfig, es: seq<Event>, i: nat): seq<Rec>
    requires cfg.Valid()
  {
    if es == [] then []
    else
      var n := |es| - 1;
      var before := ArrivalsOf(cfg, es[..n], i);
      if es[n].Arrive? && Bucket(cfg, es[n].rec.slot) == i then before + [es[n].rec] else before
  }

  lemma HeardNext(cfg: WriterConfig, es: seq<Event>)
    requires cfg.Valid() && es != []
    ensures var n := |es| - 1;
      Heard(cfg, es) == if Due(cfg, es, n) then Heard(cfg, es[..n]) + [es[n]] else Heard(cfg, es[..n])
    ensures Due(cfg, es, |es| - 1) ==> es[|es| - 1].Arrive?
  {
    hide Idled, WithinOf;
  }

  lemma HeardStep(cfg: WriterConfig, es: seq<Event>, i: nat)
    requires cfg.Valid() && es != []
    ensures var n := |es| - 1;
      var before := ArrivalsOf(cfg, Heard(cfg, es[..n]), i);
      ArrivalsOf(cfg, Heard(cfg, es), i)
        == if Due(cfg, es, n) && Bucket(cfg, es[n].rec.slot) == i then before + [es[n].rec] else before
  {
    hide Due, Bucket;
    var n := |es| - 1;
    var kept := Heard(cfg, es[..n]);
    Snoc(kept, es[n]);
    hide Heard;
    HeardNext(cfg, es);
  }

  lemma {:induction false} WatermarkIsHighWater(cfg: WriterConfig, es: seq<Event>)
    requires cfg.Valid() && NoStop(es)
    ensures var wm := Run(cfg, EMPTY, es).watermark;
      && HighWater(es) == (if wm.Some? then wm.value else 0)
      && (wm.None? <==> forall n :: 0 <= n < |es| ==> !es[n].Arrive?)
  {
    if es != [] {
      var n := |es| - 1;
      WatermarkIsHighWater(cfg, es[..n]);
      assert forall k :: 0 <= k < n ==> es[..n][k] == es[k];
      var st := Run(cfg, EMPTY, es[..n]);
      if es[n].Arrive? {
        IngestRaises(cfg, st, es[n].rec, es[n].at);
      }
      hide Ingest;
    }
  }

  /** A message raises the watermark to the highest slot seen with it. */
  lemma RaisedIsHighWater(cfg: WriterConfig, es: seq<Event>)
    requires cfg.Valid() && NoStop(es) && es != [] && es[|es| - 1].Arrive?
    ensures Raised(Run(cfg, EMPTY, es[..|es| - 1]), es[|es| - 1].rec.slot) == HighWater(es)
    ensures WithinOf(es, |es| - 1, cfg.tolerance) <==> es[|es| - 1].rec.slot + cfg.tolerance >= HighWater(es)
  {
    WatermarkIsHighWater(cfg, es[..|es| - 1]);
    assert es[..|es|] == es;
    hide Run;
  }

  lemma {:induction false} CapSealWatermark(cfg: WriterConfig, st: State)
    requires cfg.Valid()
    ensures CapSeal(cfg, st).watermark == st.watermark
    decreases |st.open|
  {
    if |st.open| >= cfg.maxOpen && st.open.Keys != {} {
      FewerOpen(st.open, MinOf(st.open.Keys));
      CapSealWatermark(cfg, Seal(st, MinOf(st.open.Keys), CapReached));
    }
  }

  lemma IngestRaises(cfg: WriterConfig, st: State, r: Rec, now: nat)
    requires cfg.Valid()
    ensures Ingest(cfg, st, r, now).watermark == Some(Raised(st, r.slot))
  {
    hide CapSeal, Bucket, Raised;
    CapSealWatermark(cfg, st.(watermark := Some(Raised(st, r.slot))));
    StoredWatermark(cfg, st, r, now);
    if r.slot + cfg.tolerance >= Raised(st, r.slot) { IngestIsStored(cfg, st, r, now); }
    hide Stored, SealAll, Append, Accommodate, Overdue;
  }

  lemma IngestIsStored(cfg: WriterConfig, st: State, r: Rec, now: nat)
    requires cfg.Valid() && r.slot + cfg.tolerance >= Raised(st, r.slot)
    ensures Ingest(cfg, st, r, now).watermark == Stored(cfg, st, r, now).watermark
  {
    hide Append, Accommodate, Bucket, Raised;
  }

  lemma StoredWatermark(cfg: WriterConfig, st: State, r: Rec, now: nat)
    requires cfg.Valid()
    ensures Stored(cfg, st, r, now).watermark == Some(Raised(st, r.slot))
  {
    hide CapSeal, Bucket, Raised;
    CapSealWatermark(cfg, st.(watermark := Some(Raised(st, r.slot))));
  }

  // ----- what a message does to the open chunks -----

  lemma CapSealKeeps(cfg: WriterConfig, st: State, j: nat)
    requires cfg.Valid() && Apart(st)
    ensures j in st.open ==> j in CapSeal(cfg, st).disk || j in CapSeal(cfg, st).open
    ensures j in CapSeal(cfg, st).open ==> j in st.open && CapSeal(cfg, st).open[j] == st.open[j]
    ensures j in st.disk ==> j in CapSeal(cfg, st).disk
    ensures j in CapSeal(cfg, st).disk ==> j in st.disk || j in st.open
    ensures Apart(CapSeal(cfg, st)) && CapSeal(cfg, st).orphans == st.orphans
  {
    CapSealGrows(cfg, st);
    CapSealLoses(cfg, st, j);
    hide CapSeal;
  }

  lemma {:induction false} CapSealLoses(cfg: WriterConfig, st: State, j: nat)
    requires cfg.Valid()
    ensures j in st.open || j in st.disk ==> j in CapSeal(cfg, st).disk || j in CapSeal(cfg, st).open
    decreases |st.open|
  {
    if |st.open| >= cfg.maxOpen && st.open.Keys != {} {
      FewerOpen(st.open, MinOf(st.open.Keys));
      CapSealLoses(cfg, Seal(st, MinOf(st.open.Keys), CapReached), j);
    }
  }

  /** Storing a message touches the activity of its own range only. */
  lemma StoredOpens(cfg: WriterConfig, st: State, r: Rec, now: nat, j: nat)
    requires cfg.Valid() && Apart(st)
    ensures var after, k := Stored(cfg, st, r, now), Bucket(cfg, r.slot);
      && (j in after.open ==>
            if j == k then after.open[j].lastActivity == now else j in st.open && after.open[j] == st.open[j])
      && (j in st.open || j in st.disk ==> j in after.open || j in after.disk)
      && (j == k ==> j in after.open || Taken(st, j))
      && (j in after.disk ==> j in st.disk || j in st.open)
      && (j in st.disk ==> j in after.disk)
  {
    CapSealKeeps(cfg, st.(watermark := Some(Raised(st, r.slot))), j);
    hide CapSeal, Bucket, Raised;
  }

  lemma IngestOpens(cfg: WriterConfig, st: State, r: Rec, now: nat, j: nat)
    requires cfg.Valid() && Apart(st)
    ensures var after, k := Ingest(cfg, st, r, now), Bucket(cfg, r.slot);
      && (j in after.open && r.slot + cfg.tolerance >= Raised(st, r.slot) ==>
            if j == k then after.open[j].lastActivity == now else j in st.open && after.open[j] == st.open[j])
      && (j in after.open && r.slot + cfg.tolerance < Raised(st, r.slot) ==>
            j in st.open && after.open[j] == st.open[j])
      && (j in st.open || j in st.disk ==> j in after.open || j in after.disk)
      && (j == k && r.slot + cfg.tolerance >= Raised(st, r.slot) ==> j in after.open || j in after.disk || Taken(st, j))
      && (j in after.disk ==> j in st.disk || j in st.open || j == k)
      && (j in st.disk ==> j in after.disk)
  {
    StoredOpens(cfg, st, r, now, j);
    hide Accommodate, Append, Bucket, Raised;
  }

  // ----- runs that only reorder what the configuration absorbs -----

  /** Every arrival within tolerance is also within `t`. */
  ghost predicate TimelyWithin(cfg: WriterConfig, es: seq<Event>, t: nat) {
    forall n :: 0 <= n < |es| && es[n].Arrive? && WithinOf(es, n, cfg.tolerance) ==> WithinOf(es, n, t)
  }

  /** Only ranges below the cutoff or found idle have been sealed; the rest are
      open, as active as their last message says. */
  ghost predicate Follows(cfg: WriterConfig, t: nat, es: seq<Event>, st: State)
    requires cfg.Valid()
  {
    && st.orphans == {}
    && (forall i :: i in st.disk ==> st.watermark.Some? && (i < Cut(cfg, t, st.watermark.value) || Idled(cfg, es, i)))
    && (forall i :: Idled(cfg, es, i) ==> i in st.disk)
    && (forall i :: i in st.open ==> LastAt(cfg, es, i) == Some(st.open[i].lastActivity))
    && (forall i :: LastAt(cfg, es, i).Some? ==> i in st.open || i in st.disk)
  }

  /** A timely message is accepted unless its range was found idle. */
  lemma TimelyIsAccepted(cfg: WriterConfig, t: nat, es: seq<Event>, st: State, r: Rec)
    requires cfg.Valid() && Absorbs(cfg, t) && Near(cfg, st) && Follows(cfg, t, es, st)
    requires r.slot + t >= Raised(st, r.slot) && r.slot + cfg.tolerance >= Raised(st, r.slot)
    ensures Accepts(cfg, st, r) <==> !Idled(cfg, es, Bucket(cfg, r.slot))
  {
    var wm := Raised(st, r.slot);
    CutBelowTimely(cfg, t, r.slot, wm);
    if st.watermark.Some? { CutMono(cfg, t, st.watermark.value, wm); }
    hide Bucket, Idled, LastAt, Cut;
  }

  lemma LateIsDropped(cfg: WriterConfig, st: State, r: Rec, now: nat)
    requires cfg.Valid() && r.slot + cfg.tolerance < Raised(st, r.slot)
    ensures !Accepts(cfg, st, r) && Ingest(cfg, st, r, now) == st
  {
    hide Bucket;
  }

  /** What one more message changes in the history. */
  lemma HistoryOfMessage(cfg: WriterConfig, es: seq<Event>, i: nat)
    requires cfg.Valid() && es != [] && es[|es| - 1].Arrive?
    ensures var n := |es| - 1;
      && Idled(cfg, es, i) == Idled(cfg, es[..n], i)
      && LastAt(cfg, es, i)
        == if WithinOf(es, n, cfg.tolerance) && Bucket(cfg, es[n].rec.slot) == i then Some(es[n].at)
           else LastAt(cfg, es[..n], i)
  {
    hide Bucket, WithinOf;
  }

  lemma HistoryOfTick(cfg: WriterConfig, es: seq<Event>, i: nat)
    requires cfg.Valid() && es != [] && es[|es| - 1].TickAt?
    ensures var n := |es| - 1;
      && LastAt(cfg, es, i) == LastAt(cfg, es[..n], i)
      && (Idled(cfg, es, i) <==>
          || Idled(cfg, es[..n], i)
          || (LastAt(cfg, es[..n], i).Some? && es[n].at > LastAt(cfg, es[..n], i).value + 300_000_000_000))
  {
  }

  lemma MessageTracks(cfg: WriterConfig, t: nat, es: seq<Event>, st: State)
    requires cfg.Valid() && Absorbs(cfg, t) && es != [] && es[|es| - 1].Arrive?
    requires var n := |es| - 1; var r := es[n].rec;
      && Near(cfg, st) && Follows(cfg, t, es[..n], st)
      && (WithinOf(es, n, cfg.tolerance) <==> r.slot + cfg.tolerance >= Raised(st, r.slot))
      && (WithinOf(es, n, cfg.tolerance) ==> r.slot + t >= Raised(st, r.slot))
    ensures var n := |es| - 1; Follows(cfg, t, es, Ingest(cfg, st, es[n].rec, es[n].at))
  {
    var n := |es| - 1;
    var r, now, wm := es[n].rec, es[n].at, Raised(st, es[n].rec.slot);
    var after := Ingest(cfg, st, r, now);
    IngestKeepsNear(cfg, st, r, now);
    IngestRaises(cfg, st, r, now);
    if st.watermark.Some? { CutMono(cfg, t, st.watermark.value, wm); }
    hide Ingest, Bucket, Idled, LastAt, Cut, Near, Raised, WithinOf;
    NearIsApartHere(cfg, st);
    forall i: nat
      ensures i in after.disk ==> i < Cut(cfg, t, wm) || Idled(cfg, es, i)
      ensures Idled(cfg, es, i) ==> i in after.disk
      ensures i in after.open ==> LastAt(cfg, es, i) == Some(after.open[i].lastActivity)
      ensures LastAt(cfg, es, i).Some? ==> i in after.open || i in after.disk
    {
      HistoryOfMessage(cfg, es, i);
      IngestOpens(cfg, st, r, now, i);
      if i in after.disk && i !in st.disk && r.slot + cfg.tolerance >= wm {
        TimelySeals(cfg, t, st, r, now, i);
      }
      if r.slot + cfg.tolerance < wm { LateIsDropped(cfg, st, r, now); }
    }
  }

  lemma NearIsApartHere(cfg: WriterConfig, st: State)
    requires cfg.Valid() && Near(cfg, st)
    ensures Apart(st)
  {
  }

  lemma TickTracks(cfg: WriterConfig, t: nat, es: seq<Event>, st: State)
    requires cfg.Valid() && es != [] && es[|es| - 1].TickAt?
    requires Near(cfg, st) && Follows(cfg, t, es[..|es| - 1], st)
    ensures Follows(cfg, t, es, Tick(st, es[|es| - 1].at))
  {
    var n := |es| - 1;
    var after := Tick(st, es[n].at);
    hide Bucket, Idled, LastAt, Cut;
    forall i: nat
      ensures i in after.disk ==> after.watermark.Some? && (i < Cut(cfg, t, after.watermark.value) || Idled(cfg, es, i))
      ensures Idled(cfg, es, i) ==> i in after.disk
      ensures i in after.open ==> LastAt(cfg, es, i) == Some(after.open[i].lastActivity)
      ensures LastAt(cfg, es, i).Some? ==> i in after.open || i in after.disk
    {
      HistoryOfTick(cfg, es, i);
    }
  }

  /** Whatever the ticks: if the reordering present is one the configuration
      absorbs, every chunk holds exactly the timely messages of its range that
      came before a tick found it idle. */
  lemma {:induction false} AbsorbedIsKept(cfg: WriterConfig, es: seq<Event>, t: nat, i: nat)
    requires cfg.Valid() && Absorbs(cfg, t) && NoStop(es) && TimelyWithin(cfg, es, t)
    ensures FramesOf(Run(cfg, EMPTY, es), i) == ArrivalsOf(cfg, Heard(cfg, es), i)
    ensures Follows(cfg, t, es, Run(cfg, EMPTY, es))
  {
    if es == [] {
      assert FramesOf(EMPTY, i) == [];
    } else {
      var n := |es| - 1;
      var st := Run(cfg, EMPTY, es[..n]);
      FewerAreTimely(cfg, es, t);
      AbsorbedIsKept(cfg, es[..n], t, i);
      RunNear(cfg, EMPTY, es[..n]);
      NearIsApartHere(cfg, st);
      HeardStep(cfg, es, i);
      hide NextState, Follows, Near, FramesOf, Accepts, Bucket, HighWater, Heard, ArrivalsOf, Apart, Tick, Ingest;
      StepFrames(cfg, st, es[n], i);
      if es[n].Arrive? {
        RaisedIsHighWater(cfg, es);
        StepIs(cfg, st, es[n]);
        if WithinOf(es, n, cfg.tolerance) {
          TimelyHere(cfg, es, t);
          TimelyIsAccepted(cfg, t, es[..n], st, es[n].rec);
        } else {
          LateIsDropped(cfg, st, es[n].rec, es[n].at);
        }
        MessageTracks(cfg, t, es, st);
      } else {
        StepIs(cfg, st, es[n]);
        TickTracks(cfg, t, es, st);
      }
    }
  }

  lemma StepIs(cfg: WriterConfig, st: State, e: Event)
    requires cfg.Valid()
    ensures e.Arrive? ==> NextState(cfg, st, e) == Ingest(cfg, st, e.rec, e.at)
    ensures e.TickAt? ==> NextState(cfg, st, e) == Tick(st, e.at)
  {
    hide Ingest;
  }

  lemma TimelyHere(cfg: WriterConfig, es: seq<Event>, t: nat)
    requires TimelyWithin(cfg, es, t) && es != [] && es[|es| - 1].Arrive? && WithinOf(es, |es| - 1, cfg.tolerance)
    ensures es[|es| - 1].rec.slot + t >= HighWater(es)
  {
    assert es[..|es|] == es && WithinOf(es, |es| - 1, t);
  }

  lemma FewerAreTimely(cfg: WriterConfig, es: seq<Event>, t: nat)
    requires TimelyWithin(cfg, es, t) && NoStop(es) && es != []
    ensures TimelyWithin(cfg, es[..|es| - 1], t) && NoStop(es[..|es| - 1])
  {
    var before := es[..|es| - 1];
    hide HighWater;
    forall k | 0 <= k < |before| && before[k].Arrive? && WithinOf(before, k, cfg.tolerance)
      ensures WithinOf(before, k, t)
    {
      assert before[..k + 1] == es[..k + 1] && before[k] == es[k];
      assert WithinOf(es, k, cfg.tolerance) && WithinOf(es, k, t);
    }
  }

  // ----- exactly when nothing timely is lost -----

  /** Over every run of messages and ticks, every timely message is in its chunk,
      but for those that came after a tick had found their range idle. */
  ghost predicate Conserves(cfg: WriterConfig)
    requires cfg.Valid()
  {
    forall es: seq<Event>, i: nat ::
      NoStop(es) ==> FramesOf(Run(cfg, EMPTY, es), i) == ArrivalsOf(cfg, Heard(cfg, es), i)
  }

  lemma Snoc(es: seq<Event>, e: Event)
    ensures var more := es + [e]; |more| - 1 == |es| && more[..|es|] == es && more[|es|] == e && more[..|more|] == more
  {
  }

  lemma RunSnoc(cfg: WriterConfig, st: State, es: seq<Event>, e: Event)
    requires cfg.Valid()
    ensures Run(cfg, st, es + [e]) == NextState(cfg, Run(cfg, st, es), e)
  {
    Snoc(es, e);
    hide NextState;
  }

  lemma {:induction false} NoTickNoIdle(cfg: WriterConfig, es: seq<Event>, i: nat)
    requires cfg.Valid() && OnlyArrivals(es)
    ensures !Idled(cfg, es, i)
  {
    if es != [] { NoTickNoIdle(cfg, es[..|es| - 1], i); }
  }

  lemma TimelySnoc(cfg: WriterConfig, es: seq<Event>, r: Rec, at: nat)
    requires cfg.Valid() && OnlyArrivals(es) && r.slot + cfg.tolerance >= HighWater(es)
    ensures var i := Bucket(cfg, r.slot);
      ArrivalsOf(cfg, Heard(cfg, es + [Arrive(r, at)]), i) == ArrivalsOf(cfg, Heard(cfg, es), i) + [r]
  {
    Snoc(es, Arrive(r, at));
    assert HighWater(es + [Arrive(r, at)]) <= r.slot + cfg.tolerance;
    NoTickNoIdle(cfg, es, Bucket(cfg, r.slot));
    HeardStep(cfg, es + [Arrive(r, at)], Bucket(cfg, r.slot));
    hide Bucket, Heard, ArrivalsOf, Idled;
  }

  /** One timely message that is not accepted is a message lost. */
  lemma LostMessage(cfg: WriterConfig, es: seq<Event>, r: Rec)
    requires cfg.Valid() && OnlyArrivals(es)
    requires r.slot + cfg.tolerance >= HighWater(es) && !Accepts(cfg, Run(cfg, EMPTY, es), r)
    ensures !Conserves(cfg)
  {
    var e := Arrive(r, 0);
    var i := Bucket(cfg, r.slot);
    RunNear(cfg, EMPTY, es);
    RunSnoc(cfg, EMPTY, es, e);
    StepFrames(cfg, Run(cfg, EMPTY, es), e, i);
    TimelySnoc(cfg, es, r, 0);
    hide Bucket, Run, NextState, Heard, ArrivalsOf, FramesOf, HighWater, Accepts;
    assert NoStop(es) && NoStop(es + [e]);
    assert |ArrivalsOf(cfg, Heard(cfg, es + [e]), i)| == |ArrivalsOf(cfg, Heard(cfg, es), i)| + 1;
    assert FramesOf(Run(cfg, EMPTY, es), i) != ArrivalsOf(cfg, Heard(cfg, es), i)
      || FramesOf(Run(cfg, EMPTY, es + [e]), i) != ArrivalsOf(cfg, Heard(cfg, es + [e]), i);
  }

  /** The state after one message. */
  function One(cfg: WriterConfig, r: Rec, now: nat): State
    requires cfg.Valid()
  {
    State(map[Bucket(cfg, r.slot) := OpenRec([r], now)], map[], {}, Some(r.slot))
  }

  lemma FirstIngest(cfg: WriterConfig, r: Rec, now: nat)
    requires cfg.Valid()
    ensures Ingest(cfg, EMPTY, r, now) == One(cfg, r, now)
  {
    hide Bucket;
    var marked := EMPTY.(watermark := Some(r.slot));
    assert CapSeal(cfg, marked) == marked;
    var stored := Stored(cfg, EMPTY, r, now);
    assert [] + [r] == [r];
    assert stored.open == One(cfg, r, now).open;
    assert Overdue(cfg, stored, r.slot) == {};
    assert SealAll(stored, {}, Watermark) == stored;
  }

  /** With room for one chunk only, a message for a new range closes the old. */
  lemma SecondClosesFirst(cfg: WriterConfig, a: Rec, b: Rec)
    requires cfg.Valid() && cfg.maxOpen == 1 && a.slot < b.slot && Bucket(cfg, a.slot) != Bucket(cfg, b.slot)
    ensures var disk := Ingest(cfg, One(cfg, a, 0), b, 0).disk;
      Bucket(cfg, a.slot) in disk && disk[Bucket(cfg, a.slot)].reason == CapReached
  {
    var st := One(cfg, a, 0);
    var i := Bucket(cfg, a.slot);
    hide Bucket;
    var marked := st.(watermark := Some(b.slot));
    assert |marked.open| == 1;
    assert MinOf(marked.open.Keys) == i;
    var capped := Seal(marked, i, CapReached);
    assert capped.open == map[];
    assert CapSeal(cfg, marked) == CapSeal(cfg, capped) == capped;
    assert i in Stored(cfg, st, b, 0).disk;
  }

  /** With more room, a message two ranges behind is stored and closed at once. */
  lemma StragglerIsClosed(cfg: WriterConfig, a: Rec, b: Rec)
    requires cfg.Valid() && cfg.maxOpen >= 2 && b.slot < a.slot <= b.slot + cfg.tolerance
    requires Bucket(cfg, a.slot) >= Bucket(cfg, b.slot) + SEAL_LOOKAHEAD
    ensures Bucket(cfg, b.slot) in Ingest(cfg, One(cfg, a, 0), b, 0).disk
  {
    var st := One(cfg, a, 0);
    var i := Bucket(cfg, b.slot);
    hide Bucket;
    assert |st.open| == 1;
    assert CapSeal(cfg, st) == st;
    var stored := Stored(cfg, st, b, 0);
    assert i in stored.open;
    assert i in Overdue(cfg, stored, a.slot);
  }

  /** The configuration loses a timely message: a twin of one already closed. */
  lemma TwinIsLost(cfg: WriterConfig, a: Rec, b: Rec, twin: Rec)
    requires cfg.Valid() && twin.slot + cfg.tolerance >= a.slot && twin.slot + cfg.tolerance >= b.slot
    requires Bucket(cfg, twin.slot) in Ingest(cfg, One(cfg, a, 0), b, 0).disk
    ensures !Conserves(cfg)
  {
    hide Run, Ingest, One, Bucket, HighWater, Near, Accepts;
    var two := [Arrive(a, 0)] + [Arrive(b, 0)];
    RunOfTwo(cfg, a, b);
    RunNear(cfg, EMPTY, two);
    HighWaterOfTwo(a, b);
    ClosedIsRefused(cfg, Run(cfg, EMPTY, two), twin);
    LostMessage(cfg, two, twin);
  }

  lemma RunOfTwo(cfg: WriterConfig, a: Rec, b: Rec)
    requires cfg.Valid()
    ensures Run(cfg, EMPTY, [Arrive(a, 0)] + [Arrive(b, 0)]) == Ingest(cfg, One(cfg, a, 0), b, 0)
  {
    FirstIngest(cfg, a, 0);
    RunSnoc(cfg, EMPTY, [], Arrive(a, 0));
    RunSnoc(cfg, EMPTY, [Arrive(a, 0)], Arrive(b, 0));
    assert [] + [Arrive(a, 0)] == [Arrive(a, 0)];
    hide Ingest, One;
  }

  lemma ClosedIsRefused(cfg: WriterConfig, st: State, r: Rec)
    requires cfg.Valid() && Near(cfg, st) && Bucket(cfg, r.slot) in st.disk
    ensures !Accepts(cfg, st, r)
  {
    hide Bucket;
  }

  lemma HighWaterOfTwo(a: Rec, b: Rec)
    ensures HighWater([Arrive(a, 0)] + [Arrive(b, 0)]) == if a.slot < b.slot then b.slot else a.slot
  {
    Snoc([], Arrive(a, 0));
    Snoc([Arrive(a, 0)], Arrive(b, 0));
    assert [Arrive(a, 0)][..0] == [];
    assert HighWater([Arrive(a, 0)]) == a.slot;
  }

  /** A configuration conserves every timely message of every run, but for those
      after an idle seal, exactly when it tolerates no reordering, or at most a
      chunk of it with room for two. */
  lemma ConservationExactly(cfg: WriterConfig)
    requires cfg.Valid()
    ensures Conserves(cfg) <==> cfg.tolerance == 0 || (cfg.tolerance <= cfg.slotsPerChunk && cfg.maxOpen >= 2)
  {
    var spc := cfg.slotsPerChunk;
    var u := Update(Other, None, []);
    if Absorbs(cfg, cfg.tolerance) {
      forall es: seq<Event>, i: nat | NoStop(es)
        ensures FramesOf(Run(cfg, EMPTY, es), i) == ArrivalsOf(cfg, Heard(cfg, es), i)
      {
        AbsorbedIsKept(cfg, es, cfg.tolerance, i);
      }
    } else if cfg.maxOpen == 1 {
      EdgeBuckets(cfg);
      var a, b := Rec(u, spc - 1, 0), Rec(u, spc, 0);
      SecondClosesFirst(cfg, a, b);
      TwinIsLost(cfg, a, b, a);
    } else {
      EdgeBuckets(cfg);
      var a, b := Rec(u, 2 * spc, 0), Rec(u, spc - 1, 0);
      StragglerIsClosed(cfg, a, b);
      TwinIsLost(cfg, a, b, b);
    }
  }

  lemma EdgeBuckets(cfg: WriterConfig)
    requires cfg.Valid()
    ensures var spc := cfg.slotsPerChunk;
      Bucket(cfg, spc - 1) == 0 && Bucket(cfg, spc) == 1 && Bucket(cfg, 2 * spc) == 2
  {
    var spc := cfg.slotsPerChunk;
    DivUnique(spc - 1, 0, spc);
    DivMul(1, spc);
    DivMul(2, spc);
  }

  // ----- the open cap -----

  ghost predicate NoCapSeal(st: State) {
    forall i :: i in st.disk ==> st.disk[i].reason != CapReached
  }

  /** In no run is any chunk sealed to make room. */
  ghost predicate CapNeverReached(cfg: WriterConfig)
    requires cfg.Valid()
  {
    forall es: seq<Event> :: NoCapSeal(Run(cfg, EMPTY, es))
  }

  lemma StepSealsNoCap(cfg: WriterConfig, st: State, e: Event)
    requires cfg.Valid() && cfg.maxOpen >= 3 && Near(cfg, st) && NoCapSeal(st)
    ensures NoCapSeal(NextState(cfg, st, e))
  {
    hide Bucket;
    AtMostTwoOpen(cfg, st);
    if e.Arrive? {
      var marked := st.(watermark := Some(Raised(st, e.rec.slot)));
      assert CapSeal(cfg, marked) == marked;
      StoredDisk(cfg, st, e.rec, e.at);
      assert NoCapSeal(Stored(cfg, st, e.rec, e.at));
      hide Stored, CapSeal, Raised;
    }
  }

  lemma {:induction false} RunSealsNoCap(cfg: WriterConfig, es: seq<Event>)
    requires cfg.Valid() && cfg.maxOpen >= 3
    ensures NoCapSeal(Run(cfg, EMPTY, es))
  {
    if es != [] {
      var n := |es| - 1;
      RunSealsNoCap(cfg, es[..n]);
      RunNear(cfg, EMPTY, es[..n]);
      hide NextState, Near, NoCapSeal;
      StepSealsNoCap(cfg, Run(cfg, EMPTY, es[..n]), es[n]);
    }
  }

  /** Two open neighbours. */
  function Two(cfg: WriterConfig, a: Rec, b: Rec): State
    requires cfg.Valid()
  {
    State(
      map[Bucket(cfg, a.slot) := OpenRec([a], 0), Bucket(cfg, b.slot) := OpenRec([b], 0)],
      map[], {}, Some(b.slot))
  }

  lemma SecondOpens(cfg: WriterConfig, a: Rec, b: Rec)
    requires cfg.Valid() && cfg.maxOpen >= 2 && a.slot < b.slot && Bucket(cfg, b.slot) == Bucket(cfg, a.slot) + 1
    ensures Ingest(cfg, One(cfg, a, 0), b, 0) == Two(cfg, a, b)
  {
    hide Bucket;
    var st := One(cfg, a, 0);
    var marked := st.(watermark := Some(b.slot));
    assert |marked.open| == 1;
    assert CapSeal(cfg, marked) == marked;
    assert [] + [b] == [b];
    var stored := Stored(cfg, st, b, 0);
    assert stored.open == Two(cfg, a, b).open;
    assert Overdue(cfg, stored, b.slot) == {};
    assert SealAll(stored, {}, Watermark) == stored;
  }

  lemma ThirdClosesFirst(cfg: WriterConfig, a: Rec, b: Rec, r: Rec)
    requires cfg.Valid() && cfg.maxOpen == 2 && a.slot < b.slot < r.slot
    requires Bucket(cfg, b.slot) == Bucket(cfg, a.slot) + 1 && Bucket(cfg, r.slot) == Bucket(cfg, a.slot) + 2
    ensures var disk := Ingest(cfg, Two(cfg, a, b), r, 0).disk;
      Bucket(cfg, a.slot) in disk && disk[Bucket(cfg, a.slot)].reason == CapReached
  {
    hide Bucket;
    var st := Two(cfg, a, b);
    var i := Bucket(cfg, a.slot);
    var marked := st.(watermark := Some(r.slot));
    assert marked.open.Keys == {i, i + 1};
    assert |marked.open| == |marked.open.Keys| == 2;
    assert MinOf(marked.open.Keys) == i;
    var capped := Seal(marked, i, CapReached);
    FewerOpen(marked.open, i);
    assert CapSeal(cfg, marked) == CapSeal(cfg, capped) == capped;
    StoredDisk(cfg, st, r, 0);
    assert Stored(cfg, st, r, 0).disk == capped.disk;
    hide Stored, CapSeal;
    assert i !in Stored(cfg, st, r, 0).open by { StoredApart(cfg, st, r, 0); }
  }

  lemma StoredApart(cfg: WriterConfig, st: State, r: Rec, now: nat)
    requires cfg.Valid() && Apart(st)
    ensures Apart(Stored(cfg, st, r, now))
  {
    StoredFrames(cfg, st, r, now, 0);
  }

  lemma RunOfThree(cfg: WriterConfig, a: Rec, b: Rec, r: Rec)
    requires cfg.Valid()
    ensures Run(cfg, EMPTY, [Arrive(a, 0)] + [Arrive(b, 0)] + [Arrive(r, 0)])
      == Ingest(cfg, Ingest(cfg, One(cfg, a, 0), b, 0), r, 0)
  {
    RunOfTwo(cfg, a, b);
    RunSnoc(cfg, EMPTY, [Arrive(a, 0)] + [Arrive(b, 0)], Arrive(r, 0));
    hide Ingest, One, Run;
  }

  lemma CapWitness(cfg: WriterConfig, es: seq<Event>, i: nat)
    requires cfg.Valid() && i in Run(cfg, EMPTY, es).disk && Run(cfg, EMPTY, es).disk[i].reason == CapReached
    ensures !CapNeverReached(cfg)
  {
    hide Run;
    assert !NoCapSeal(Run(cfg, EMPTY, es));
  }

  lemma CapReachedBelowThree(cfg: WriterConfig)
    requires cfg.Valid() && cfg.maxOpen < 3
    ensures !CapNeverReached(cfg)
  {
    var spc := cfg.slotsPerChunk;
    var u := Update(Other, None, []);
    var a, b, r := Rec(u, 0, 0), Rec(u, spc, 0), Rec(u, 2 * spc, 0);
    EdgeBuckets(cfg);
    DivUnique(0, 0, spc);
    hide Bucket, Run, Ingest, One, Two, CapNeverReached;
    if cfg.maxOpen == 2 {
      SecondOpens(cfg, a, b);
      ThirdClosesFirst(cfg, a, b, r);
      RunOfThree(cfg, a, b, r);
      CapWitness(cfg, [Arrive(a, 0)] + [Arrive(b, 0)] + [Arrive(r, 0)], 0);
    } else {
      SecondClosesFirst(cfg, a, b);
      RunOfTwo(cfg, a, b);
      CapWitness(cfg, [Arrive(a, 0)] + [Arrive(b, 0)], 0);
    }
  }

  /** The cap never closes a chunk, in any run, exactly when it is at least three. */
  lemma CapExactly(cfg: WriterConfig)
    requires cfg.Valid()
    ensures CapNeverReached(cfg) <==> cfg.maxOpen >= 3
  {
    hide Run;
    if cfg.maxOpen >= 3 {
      forall es: seq<Event> ensures NoCapSeal(Run(cfg, EMPTY, es)) {
        RunSealsNoCap(cfg, es);
      }
    } else {
      CapReachedBelowThree(cfg);
    }
  }

  // ----- arrivals in slot order -----

  ghost predicate SlotsRise(es: seq<Event>) {
    forall i, j :: 0 <= i < j < |es| && es[i].Arrive? && es[j].Arrive? ==> es[i].rec.slot <= es[j].rec.slot
  }

  lemma {:induction false} RisingHighWater(es: seq<Event>, n: nat)
    requires SlotsRise(es) && n < |es| && es[n].Arrive?
    ensures HighWater(es[..n + 1]) == es[n].rec.slot
  {
    HighWaterReached(es[..n]);
    assert es[..n + 1][..n] == es[..n] && es[..n + 1][n] == es[n];
  }

  lemma {:induction false} HighWaterReached(es: seq<Event>)
    ensures HighWater(es) == 0 || exists n :: 0 <= n < |es| && es[n].Arrive? && es[n].rec.slot == HighWater(es)
  {
    if es != [] {
      var n := |es| - 1;
      HighWaterReached(es[..n]);
      assert forall k :: 0 <= k < n ==> es[..n][k] == es[k];
    }
  }

  lemma RisingIsTimely(cfg: WriterConfig, es: seq<Event>)
    requires SlotsRise(es)
    ensures TimelyWithin(cfg, es, 0)
    ensures forall n :: 0 <= n < |es| && es[n].Arrive? ==> WithinOf(es, n, 0) && WithinOf(es, n, cfg.tolerance)
  {
    forall n | 0 <= n < |es| && es[n].Arrive? ensures WithinOf(es, n, 0) && WithinOf(es, n, cfg.tolerance) {
      RisingHighWater(es, n);
    }
  }

  /** Arrivals in slot order are kept, whatever the configuration and the ticks,
      but for those that come after a tick has found their range idle. */
  lemma RisingIsKept(cfg: WriterConfig, es: seq<Event>, i: nat)
    requires cfg.Valid() && NoStop(es) && SlotsRise(es)
    ensures FramesOf(Run(cfg, EMPTY, es), i) == ArrivalsOf(cfg, Heard(cfg, es), i)
    ensures Follows(cfg, 0, es, Run(cfg, EMPTY, es))
  {
    RisingIsTimely(cfg, es);
    hide WithinOf, SlotsRise;
    AbsorbedIsKept(cfg, es, 0, i);
  }
}
