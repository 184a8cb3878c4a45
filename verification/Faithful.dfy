/** The end-to-end guarantee: streams that arrive in slot order are replayed in
    arrival order, each matching message once, and in full but for what idle
    seals cost. */
module Faithful {
  import opened Core
  import opened Arith
  import opened Updates
  import opened Codecs
  import opened Merge
  import opened Pacing
  import opened Drive
  import opened Replay
  import opened Plan
  import opened Coverage
  import opened Recorder
  import opened Conservation
  import opened Idle
  import opened Chunker
  import opened Archive
  import opened Fidelity
  import opened Stamps

  /** What arrived for the ranges from `k` on. */
  function ArrivedFrom(cfg: WriterConfig, es: seq<Event>, k: nat): seq<Update>
    requires cfg.Valid() && OnlyArrivals(es)
  {
    if es == [] then []
    else
      var n := |es| - 1;
      var before := ArrivedFrom(cfg, es[..n], k);
      if Bucket(cfg, es[n].rec.slot) >= k then before + [es[n].rec.update] else before
  }

  lemma {:induction false} FromStart(cfg: WriterConfig, es: seq<Event>)
    requires cfg.Valid() && OnlyArrivals(es)
    ensures ArrivedFrom(cfg, es, 0) == Arrived(es)
  {
    hide Bucket;
    if es != [] { FromStart(cfg, es[..|es| - 1]); }
  }

  lemma {:induction false} NoneFrom(cfg: WriterConfig, es: seq<Event>, k: nat)
    requires cfg.Valid() && OnlyArrivals(es) && forall n :: 0 <= n < |es| ==> Bucket(cfg, es[n].rec.slot) < k
    ensures ArrivedFrom(cfg, es, k) == []
  {
    hide Bucket;
    if es != [] {
      NoneFrom(cfg, es[..|es| - 1], k);
    }
  }

  /** Ranges nothing arrived for can be skipped. */
  lemma {:induction false} SkipEmpty(cfg: WriterConfig, es: seq<Event>, k: nat, m: nat)
    requires cfg.Valid() && OnlyArrivals(es) && k <= m
    requires forall n :: 0 <= n < |es| ==> !(k <= Bucket(cfg, es[n].rec.slot) < m)
    ensures ArrivedFrom(cfg, es, k) == ArrivedFrom(cfg, es, m)
  {
    hide Bucket;
    if es != [] {
      SkipEmpty(cfg, es[..|es| - 1], k, m);
    }
  }

  lemma RisingBuckets(cfg: WriterConfig, es: seq<Event>, n: nat)
    requires cfg.Valid() && OnlyArrivals(es) && SlotsRise(es) && n < |es|
    ensures forall m :: 0 <= m < n ==> Bucket(cfg, es[m].rec.slot) <= Bucket(cfg, es[n].rec.slot)
  {
    forall m | 0 <= m < n ensures Bucket(cfg, es[m].rec.slot) <= Bucket(cfg, es[n].rec.slot) {
      DivMono(es[m].rec.slot, es[n].rec.slot, cfg.slotsPerChunk);
    }
  }

  lemma ArrivalsUpdates(cfg: WriterConfig, es: seq<Event>, k: nat)
    requires cfg.Valid() && OnlyArrivals(es) && es != []
    ensures var n := |es| - 1;
      UpdatesOf(ArrivalsOf(cfg, es, k))
        == if Bucket(cfg, es[n].rec.slot) == k then UpdatesOf(ArrivalsOf(cfg, es[..n], k)) + [es[n].rec.update]
           else UpdatesOf(ArrivalsOf(cfg, es[..n], k))
  {
    hide Bucket;
    var before, r := ArrivalsOf(cfg, es[..|es| - 1], k), es[|es| - 1].rec;
    assert (before + [r])[..|before|] == before && (before + [r])[|before|] == r;
  }

  lemma FromStep(cfg: WriterConfig, es: seq<Event>, k: nat)
    requires cfg.Valid() && OnlyArrivals(es) && es != []
    ensures var n := |es| - 1;
      ArrivedFrom(cfg, es, k)
        == if Bucket(cfg, es[n].rec.slot) >= k then ArrivedFrom(cfg, es[..n], k) + [es[n].rec.update]
           else ArrivedFrom(cfg, es[..n], k)
  {
    hide Bucket;
  }

  /** In slot order, what arrived from range `k` on is what arrived for range
      `k`, and then what arrived after. */
  lemma {:induction false} FromSplits(cfg: WriterConfig, es: seq<Event>, k: nat)
    requires cfg.Valid() && OnlyArrivals(es) && SlotsRise(es)
    ensures ArrivedFrom(cfg, es, k) == UpdatesOf(ArrivalsOf(cfg, es, k)) + ArrivedFrom(cfg, es, k + 1)
  {
    if es == [] {
      assert ArrivedFrom(cfg, es, k) == [] && UpdatesOf(ArrivalsOf(cfg, es, k)) == [];
    } else {
      var n := |es| - 1;
      var b, u := Bucket(cfg, es[n].rec.slot), es[n].rec.update;
      FromSplits(cfg, es[..n], k);
      RisingBuckets(cfg, es, n);
      ArrivalsUpdates(cfg, es, k);
      hide Bucket, UpdatesOf, ArrivalsOf, SlotsRise, ArrivedFrom;
      FromStep(cfg, es, k);
      FromStep(cfg, es, k + 1);
      if b == k {
        NoneFrom(cfg, es[..n], k + 1);
      } else if b > k {
        var own, after := UpdatesOf(ArrivalsOf(cfg, es[..n], k)), ArrivedFrom(cfg, es[..n], k + 1);
        assert (own + after) + [u] == own + (after + [u]);
      }
    }
  }

  /** What is accepted is what a recorder is to keep. */
  lemma AcceptedIsHeard(cfg: WriterConfig, es: seq<Event>, i: nat)
    requires cfg.Valid() && NoStop(es) && SlotsRise(es)
    ensures AcceptedInto(cfg, EMPTY, es, i) == ArrivalsOf(cfg, Heard(cfg, es), i)
  {
    RisingIsKept(cfg, es, i);
    ChunksHoldAccepted(cfg, EMPTY, es, i);
    assert [] + AcceptedInto(cfg, EMPTY, es, i) == AcceptedInto(cfg, EMPTY, es, i);
  }

  /** These starts are the chunks from range `k` on that anything arrived for. */
  ghost predicate StartsFrom(cfg: WriterConfig, es: seq<Event>, k: nat, starts: seq<nat>)
    requires cfg.Valid() && OnlyArrivals(es)
  {
    && IsAscending(starts)
    && (forall s :: s in starts ==> Bucket(cfg, s) >= k && Bucket(cfg, s) * cfg.slotsPerChunk == s)
    && (forall n :: 0 <= n < |es| && Bucket(cfg, es[n].rec.slot) >= k ==>
          Bucket(cfg, es[n].rec.slot) * cfg.slotsPerChunk in starts)
  }

  lemma AcceptedFromAll(cfg: WriterConfig, es: seq<Event>, k: nat, starts: seq<nat>)
    requires cfg.Valid() && NoStop(es) && SlotsRise(es) && OnlyArrivals(Heard(cfg, es))
    requires StartsFrom(cfg, Heard(cfg, es), k, starts)
    ensures AcceptedFrom(cfg, es, starts) == ArrivedFrom(cfg, Heard(cfg, es), k)
    decreases |starts|
  {
    var kept := Heard(cfg, es);
    HeardRise(cfg, es);
    hide Heard, SlotsRise, Due;
    if starts == [] {
      NoneFrom(cfg, kept, k);
    } else {
      var i := Bucket(cfg, starts[0]);
      TailStarts(cfg, kept, k, starts);
      AcceptedFromAll(cfg, es, i + 1, starts[1..]);
      AcceptedIsHeard(cfg, es, i);
      FromSplits(cfg, kept, i);
      SkipEmpty(cfg, kept, k, i);
    }
  }

  /** Range starts are ordered as their ranges. */
  lemma StartOrder(cfg: WriterConfig, start: nat, b: nat)
    requires cfg.Valid() && Bucket(cfg, start) * cfg.slotsPerChunk == start
    ensures Bucket(cfg, start) < b <==> start < b * cfg.slotsPerChunk
    ensures Bucket(cfg, start) == b <==> start == b * cfg.slotsPerChunk
  {
    var i := Bucket(cfg, start);
    hide Bucket;
    if i < b {
      MulMono(i + 1, b, cfg.slotsPerChunk);
    } else {
      MulMono(b, i, cfg.slotsPerChunk);
      if b < i { MulMono(b + 1, i, cfg.slotsPerChunk); }
    }
  }

  lemma TailStarts(cfg: WriterConfig, es: seq<Event>, k: nat, starts: seq<nat>)
    requires cfg.Valid() && OnlyArrivals(es) && StartsFrom(cfg, es, k, starts) && starts != []
    ensures var i := Bucket(cfg, starts[0]);
      && k <= i && StartsFrom(cfg, es, i + 1, starts[1..])
      && forall n :: 0 <= n < |es| ==> !(k <= Bucket(cfg, es[n].rec.slot) < i)
  {
    hide Bucket;
    var i := Bucket(cfg, starts[0]);
    assert starts == [starts[0]] + starts[1..];
    forall s | s in starts[1..] ensures Bucket(cfg, s) >= i + 1 {
      assert s in starts && s > starts[0];
      StartOrder(cfg, starts[0], Bucket(cfg, s));
    }
    forall n | 0 <= n < |es| && Bucket(cfg, es[n].rec.slot) >= k
      ensures Bucket(cfg, es[n].rec.slot) >= i
      ensures Bucket(cfg, es[n].rec.slot) >= i + 1 ==>
        Bucket(cfg, es[n].rec.slot) * cfg.slotsPerChunk in starts[1..]
    {
      StartOrder(cfg, starts[0], Bucket(cfg, es[n].rec.slot));
    }
  }

  lemma {:induction false} ArrivalIsOf(cfg: WriterConfig, es: seq<Event>, n: nat)
    requires cfg.Valid() && OnlyArrivals(es) && n < |es|
    ensures es[n].rec in ArrivalsOf(cfg, es, Bucket(cfg, es[n].rec.slot))
  {
    hide Bucket;
    if n < |es| - 1 {
      ArrivalIsOf(cfg, es[..|es| - 1], n);
    }
  }

  /** A range a kept message is for has a chunk. */
  lemma HeardOnDisk(cfg: WriterConfig, es: seq<Event>, n: nat)
    requires cfg.Valid() && NoStop(es) && SlotsRise(es) && OnlyArrivals(Heard(cfg, es)) && n < |Heard(cfg, es)|
    ensures Bucket(cfg, Heard(cfg, es)[n].rec.slot) in DiskOf(cfg, es)
  {
    hide DiskOf, Bucket, SlotsRise, AcceptedInto, ArrivalsOf, Heard, NoStop;
    var i := Bucket(cfg, Heard(cfg, es)[n].rec.slot);
    ArrivalIsOf(cfg, Heard(cfg, es), n);
    AcceptedIsHeard(cfg, es, i);
    DiskHoldsAccepted(cfg, es, i);
  }

  lemma StartsAreListed(c: Codec, cfg: WriterConfig, feed: Feed, stream: Stream)
    requires cfg.Valid()
    ensures var starts := StartsOf(c, cfg, feed, stream);
      && IsAscending(starts)
      && (forall s :: s in starts ==> Bucket(cfg, s) * cfg.slotsPerChunk == s)
      && (forall i :: i in DiskOf(cfg, feed(stream)) ==> i * cfg.slotsPerChunk in starts)
  {
    TreeOfFeed(c, cfg, feed, stream);
    hide DiskOf, TreeOf, CatalogFor, Bucket, Ascending, IsAscending;
  }

  lemma StartsFromIf(cfg: WriterConfig, es: seq<Event>, starts: seq<nat>)
    requires cfg.Valid() && OnlyArrivals(es) && IsAscending(starts)
    requires forall s :: s in starts ==> Bucket(cfg, s) * cfg.slotsPerChunk == s
    requires forall n :: 0 <= n < |es| ==> Bucket(cfg, es[n].rec.slot) * cfg.slotsPerChunk in starts
    ensures StartsFrom(cfg, es, 0, starts)
  {
    hide Bucket, IsAscending;
  }

  /** A recorded stream's chunks are those of the ranges of the kept messages. */
  lemma StartsOfArrivals(c: Codec, cfg: WriterConfig, feed: Feed, stream: Stream)
    requires cfg.Valid() && NoStop(feed(stream)) && SlotsRise(feed(stream))
    ensures OnlyArrivals(Heard(cfg, feed(stream)))
    ensures StartsFrom(cfg, Heard(cfg, feed(stream)), 0, StartsOf(c, cfg, feed, stream))
  {
    HeardRise(cfg, feed(stream));
    hide DiskOf, Bucket, SlotsRise, Heard, NoStop, IsAscending, StartsOf, StartsFrom;
    var kept, starts := Heard(cfg, feed(stream)), StartsOf(c, cfg, feed, stream);
    StartsAreListed(c, cfg, feed, stream);
    forall n | 0 <= n < |kept| ensures Bucket(cfg, kept[n].rec.slot) * cfg.slotsPerChunk in starts {
      HeardOnDisk(cfg, feed(stream), n);
    }
    StartsFromIf(cfg, kept, starts);
  }

  /** Recorded in slot order, everything that is to be kept is held, in arrival
      order. */
  lemma ArrivedIsAccepted(c: Codec, cfg: WriterConfig, feed: Feed, stream: Stream)
    requires cfg.Valid() && NoStop(feed(stream)) && SlotsRise(feed(stream))
    ensures AcceptedFrom(cfg, feed(stream), StartsOf(c, cfg, feed, stream)) == Arrived(Heard(cfg, feed(stream)))
  {
    StartsOfArrivals(c, cfg, feed, stream);
    hide StartsFrom, StartsOf, Heard, NoStop, SlotsRise;
    FromStart(cfg, Heard(cfg, feed(stream)));
    AcceptedFromAll(cfg, feed(stream), 0, StartsOf(c, cfg, feed, stream));
  }

  // ----- the order of delivery -----

  lemma {:induction false} ArrivedAt(es: seq<Event>, n: nat)
    requires OnlyArrivals(es) && n < |es|
    ensures |Arrived(es)| == |es| && Arrived(es)[n] == es[n].rec.update
  {
    if n < |es| - 1 {
      ArrivedAt(es[..|es| - 1], n);
    } else if n > 0 {
      ArrivedAt(es[..|es| - 1], n - 1);
    }
  }

  lemma ArrivedRises(es: seq<Event>)
    requires OnlyArrivals(es) && SlotsRise(es)
    requires forall n :: 0 <= n < |es| ==> ExtractSlot(es[n].rec.update) == Some(es[n].rec.slot)
    ensures UpdatesRise(Arrived(es))
  {
    hide Arrived;
    if es != [] { ArrivedAt(es, 0); } else { NothingArrived(); }
    forall i, j | 0 <= i < j < |es| ensures SlotOf(Arrived(es)[i]) <= SlotOf(Arrived(es)[j]) {
      ArrivedAt(es, i);
      ArrivedAt(es, j);
    }
  }

  lemma NothingArrived()
    ensures Arrived([]) == []
  {
  }

  // ----- the guarantee -----

  /** What every recorder is fed: messages in slot order, each recorded under the
      slot it carries and within the limits of the file formats, and ticks. */
  ghost predicate Orderly(c: Codec, cfg: WriterConfig, feed: Feed)
    requires cfg.Valid()
  {
    forall stream: Stream ::
      NoStop(feed(stream)) && SlotsRise(feed(stream)) && Recordable(c, cfg, stream, feed(stream))
  }

  lemma HeardIsSlotted(c: Codec, cfg: WriterConfig, stream: Stream, es: seq<Event>)
    requires cfg.Valid() && Recordable(c, cfg, stream, es)
    ensures OnlyArrivals(Heard(cfg, es))
    ensures forall n :: 0 <= n < |Heard(cfg, es)| ==>
      ExtractSlot(Heard(cfg, es)[n].rec.update) == Some(Heard(cfg, es)[n].rec.slot)
  {
    HeardAreMessages(cfg, es);
    hide FitsFormat, DiskOf, Heard;
    forall n | 0 <= n < |Heard(cfg, es)|
      ensures ExtractSlot(Heard(cfg, es)[n].rec.update) == Some(Heard(cfg, es)[n].rec.slot)
    {
      assert Heard(cfg, es)[n] in es;
    }
  }

  /** What arrived in order is held in order. */
  lemma OrderlyIsHeldInOrder(c: Codec, cfg: WriterConfig, feed: Feed)
    requires cfg.Valid() && Orderly(c, cfg, feed)
    ensures HeldInOrder(CatalogFor(c, cfg, feed), ContentFor(cfg, feed))
  {
    forall stream: Stream ensures UpdatesRise(HeldOf(CatalogFor(c, cfg, feed), ContentFor(cfg, feed), stream)) {
      assert Recordable(c, cfg, stream, feed(stream)) && SlotsRise(feed(stream));
      hide UpdatesRise, HeldOf, AcceptedFrom, StartsOf, CatalogFor, ContentFor, DiskOf, Heard, Recordable, SlotsRise;
      HeardIsSlotted(c, cfg, stream, feed(stream));
      HeardRise(cfg, feed(stream));
      ArrivedRises(Heard(cfg, feed(stream)));
      ArrivedIsAccepted(c, cfg, feed, stream);
      HeldInArchive(c, cfg, feed, stream);
    }
  }

  /** Whatever arrives in slot order, under whatever configuration and ticks, can
      be replayed from any available start, in every world. What a replay offers
      is, of each stream, exactly the matching messages the recorder is to keep
      from the start on, in arrival order, each once, all sorted by slot, ties by
      stream: all that arrived exactly if no message comes after a tick that found
      its range idle. A prefix of it is sent, and all of it exactly when every
      message is in time. What is sent of a message is its own slot and time
      and the names of the filters that ask for it. */
  lemma RecordThenReplay(
      c: Codec, cfg: WriterConfig, feed: Feed, w: World, sub: Subscription, requested: Option<nat>, ps: PacerState,
      stream: Stream)
    requires c.Lawful() && cfg.Valid() && Orderly(c, cfg, feed)
    requires w.cfg.Valid() && PlanOf(c, CatalogFor(c, cfg, feed), sub, requested).Ok?
    ensures var plan := PlanOf(c, CatalogFor(c, cfg, feed), sub, requested).value;
      var offered, end := Offered(c, cfg, feed, sub, plan.fromSlot), PlanPass(c, w, plan, ps);
      var all := Picked(c, NamedFilters(sub, stream), Arrived(Heard(cfg, feed(stream))));
      && SendsInOrder(w, offered, ps, end)
      && Strip(Project(offered, LaneIndex(stream))) == Since(all, plan.fromSlot)
      && (requested.None? ==> Since(all, plan.fromSlot) == all)
      && (Arrived(Heard(cfg, feed(stream))) == Arrived(feed(stream)) <==> NoIdleGap(cfg, feed(stream)))
      && MergeSorted(offered)
      && forall t :: t in offered ==> TellsTheTruth(feed, t.item) && IsNamed(c, sub, t)
  {
    hide *;
    HeardAll(c, cfg, feed, stream);
    OrderlyStream(c, cfg, feed, stream);
    ArrivedIsAccepted(c, cfg, feed, stream);
    RecordedIsReplayed(c, cfg, feed, w, sub, requested, ps, stream);
    OrderlyIsHeldInOrder(c, cfg, feed);
    var from := PlanOf(c, CatalogFor(c, cfg, feed), sub, requested).value.fromSlot;
    OfferedIs(c, cfg, feed, sub, from);
    DeliverableIsSorted(c, CatalogFor(c, cfg, feed), sub, ContentFor(cfg, feed), from);
    forall t | t in Offered(c, cfg, feed, sub, from)
      ensures TellsTheTruth(feed, t.item) && IsNamed(c, sub, t)
    {
      OfferedTellsTheTruth(c, cfg, feed, sub, from, t);
    }
  }

  lemma HeardAll(c: Codec, cfg: WriterConfig, feed: Feed, stream: Stream)
    requires cfg.Valid() && Orderly(c, cfg, feed)
    ensures Arrived(Heard(cfg, feed(stream))) == Arrived(feed(stream)) <==> NoIdleGap(cfg, feed(stream))
  {
    hide *;
    OrderlyStream(c, cfg, feed, stream);
    HeardAllExactly(cfg, feed(stream));
  }

  lemma OrderlyStream(c: Codec, cfg: WriterConfig, feed: Feed, stream: Stream)
    requires cfg.Valid() && Orderly(c, cfg, feed)
    ensures NoStop(feed(stream)) && SlotsRise(feed(stream)) && forall s :: Recordable(c, cfg, s, feed(s))
  {
    hide Recordable, SlotsRise, NoStop;
  }

  /** What a subscriber sees, in the order it is sent. */
  function SeenIn(out: seq<Tagged>): seq<Seen> {
    if out == [] then [] else [(out[0].item.update, out[0].item.names)] + SeenIn(out[1..])
  }

  lemma {:induction false} SeenOfTag(lane: seq<Step>, k: nat)
    ensures SeenIn(Tag(lane, k)) == Strip(lane)
  {
    if lane != [] {
      SeenOfTag(lane[1..], k);
      if lane[0].Got? {
        var head, rest := Tagged(k, lane[0].item), Tag(lane[1..], k);
        assert ([head] + rest)[0] == head && ([head] + rest)[1..] == rest;
      }
    }
  }

  lemma UnsubscribedLane(c: Codec, cat: Catalog, sub: Subscription, content: Content, stream: Stream)
    requires !HasStream(sub, stream)
    ensures FullLane(c, cat, sub, content, stream) == []
  {
  }

  lemma {:induction false} SeenPrefix(a: seq<Tagged>, b: seq<Tagged>)
    requires a <= b
    ensures SeenIn(a) <= SeenIn(b)
  {
    if a != [] { SeenPrefix(a[1..], b[1..]); }
  }

  /** Subscribed to one stream only: what is sent, message by message, is the
      matching messages kept, in arrival order, and all of them when the pass
      drains. */
  lemma OneStreamInOrder(
      c: Codec, cfg: WriterConfig, feed: Feed, w: World, sub: Subscription, ps: PacerState, stream: Stream)
    requires c.Lawful() && cfg.Valid() && Orderly(c, cfg, feed)
    requires forall other :: HasStream(sub, other) ==> other == stream
    requires w.cfg.Valid() && PlanOf(c, CatalogFor(c, cfg, feed), sub, None).Ok?
    ensures var end := PlanPass(c, w, PlanOf(c, CatalogFor(c, cfg, feed), sub, None).value, ps);
      var all := Picked(c, NamedFilters(sub, stream), Arrived(Heard(cfg, feed(stream))));
      && SeenIn(end.progress.delivered) <= all
      && (end.exit == Drained ==> SeenIn(end.progress.delivered) == all)
  {
    hide *;
    var cat, content := CatalogFor(c, cfg, feed), ContentFor(cfg, feed);
    var plan := PlanOf(c, cat, sub, None).value;
    OrderlyStream(c, cfg, feed, stream);
    StoppedIsRecorded(c, cfg, feed);
    OpenReplayDeliversAll(c, cat, sub, content, stream);
    RecordThenReplay(c, cfg, feed, w, sub, None, ps, stream);
    OfferedIs(c, cfg, feed, sub, plan.fromSlot);
    OnlyLane(c, cat, sub, content, stream);
    SendsAPrefix(w, Offered(c, cfg, feed, sub, plan.fromSlot), ps, PlanPass(c, w, plan, ps));
    SeenPrefix(PlanPass(c, w, plan, ps).progress.delivered, Offered(c, cfg, feed, sub, plan.fromSlot));
  }

  lemma SendsAPrefix(w: World, offered: seq<Tagged>, ps: PacerState, end: PassEnd)
    requires w.cfg.Valid() && SendsInOrder(w, offered, ps, end)
    ensures end.progress.delivered <= offered && (end.exit == Drained ==> end.progress.delivered == offered)
  {
  }

  lemma OnlyLane(c: Codec, cat: Catalog, sub: Subscription, content: Content, stream: Stream)
    requires forall other :: HasStream(sub, other) ==> other == stream
    ensures var out := MergeAll(FullLanes(c, cat, sub, content)).out;
      SeenIn(out) == Strip(Project(out, LaneIndex(stream)))
  {
    hide FullLane, MergeAll, Strip, SeenIn, Tag, Stamped, NoFailure, Project, HasStream;
    var full, k := FullLanes(c, cat, sub, content), LaneIndex(stream);
    forall other: Stream | other != stream ensures FullLane(c, cat, sub, content, other) == [] {
      UnsubscribedLane(c, cat, sub, content, other);
    }
    LaneIsStamped(c, cat, sub, content, stream);
    StampedIsFine(full[k]);
    MergeOfOneLane(full, k);
    MergeInterleaves(full, k);
    SeenOfTag(full[k], k);
  }

  ghost predicate SawMessage(es: seq<Event>) {
    exists n :: 0 <= n < |es| && es[n].Arrive?
  }

  /** And a replay can be had as soon as one subscribed stream saw a message. */
  lemma ReplayableExactly(c: Codec, cfg: WriterConfig, feed: Feed, sub: Subscription)
    requires c.Lawful() && cfg.Valid() && Orderly(c, cfg, feed)
    ensures var r := PlanOf(c, CatalogFor(c, cfg, feed), sub, None);
      && (r.Ok? <==> exists stream :: HasStream(sub, stream) && SawMessage(feed(stream)))
      && (r.Err? ==> r.error == NoChunksAvailable)
  {
    PlannableExactly(c, cfg, feed, sub);
    hide PlanOf, CatalogFor, HasStream, SawMessage;
    forall stream ensures DiskOf(cfg, feed(stream)) != map[] <==> SawMessage(feed(stream)) {
      DiskIsEmptyExactly(cfg, feed(stream));
    }
  }

  lemma DiskIsEmptyExactly(cfg: WriterConfig, es: seq<Event>)
    requires cfg.Valid() && NoStop(es) && SlotsRise(es)
    ensures DiskOf(cfg, es) != map[] <==> SawMessage(es)
  {
    hide DiskOf, Bucket, SlotsRise, NoStop, AcceptedInto, ArrivalsOf, Heard;
    if n :| 0 <= n < |es| && es[n].Arrive? {
      var i := Bucket(cfg, es[n].rec.slot);
      RangeIsHeard(cfg, es, n);
      AcceptedIsHeard(cfg, es, i);
      DiskHoldsAccepted(cfg, es, i);
      assert i in DiskOf(cfg, es);
    } else {
      NothingOnDisk(cfg, es);
    }
  }

  lemma NothingOnDisk(cfg: WriterConfig, es: seq<Event>)
    requires cfg.Valid() && NoStop(es) && SlotsRise(es) && !SawMessage(es)
    ensures DiskOf(cfg, es) == map[]
  {
    var st := Run(cfg, EMPTY, es);
    RisingIsKept(cfg, es, 0);
    RunNear(cfg, EMPTY, es);
    WatermarkIsHighWater(cfg, es);
    hide Run, Bucket, LastAt, Idled, SlotsRise, Cut;
    assert st.open.Keys == {} && st.disk.Keys == {};
    assert st.open == map[] && st.disk == map[];
  }
}
