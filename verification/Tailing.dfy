/** A follower of one stream while its recorder records: whatever way the sealed
    chunks take to the reader, it is sent every matching message of what is
    listed, once and in arrival order, exactly if no chunk comes after a later
    one. */
module Tailing {
  import opened Core
  import opened Arith
  import opened Updates
  import opened Codecs
  import opened Shuffle
  import opened Merge
  import opened Replay
  import opened Plan
  import opened Coverage
  import opened Recorder
  import opened Conservation
  import opened Idle
  import opened Chunker
  import opened Archive
  import opened Fidelity
  import opened Faithful
  import opened Growth
  import opened Follow

  // ----- what listed chunks hold, in terms of what arrived -----

  /** Where the range of an arrival starts. */
  function RangeStart(cfg: WriterConfig, e: Event): nat
    requires cfg.Valid() && e.Arrive?
  {
    Bucket(cfg, e.rec.slot) * cfg.slotsPerChunk
  }

  /** What arrived for the ranges with these starts, in arrival order. */
  function ArrivedIn(cfg: WriterConfig, es: seq<Event>, starts: set<nat>): seq<Update>
    requires cfg.Valid() && OnlyArrivals(es)
  {
    if es == [] then []
    else
      var n := |es| - 1;
      var before := ArrivedIn(cfg, es[..n], starts);
      if RangeStart(cfg, es[n]) in starts then before + [es[n].rec.update] else before
  }

  lemma {:induction false} ArrivedInHas(cfg: WriterConfig, es: seq<Event>, starts: set<nat>, u: Update)
    requires cfg.Valid() && OnlyArrivals(es)
    ensures u in ArrivedIn(cfg, es, starts)
      <==> exists n :: 0 <= n < |es| && es[n].rec.update == u && RangeStart(cfg, es[n]) in starts
  {
    hide RangeStart;
    if es != [] {
      var n := |es| - 1;
      ArrivedInHas(cfg, es[..n], starts, u);
      assert forall k :: 0 <= k < n ==> es[..n][k] == es[k];
    }
  }

  lemma {:induction false} NoArrivalIn(cfg: WriterConfig, es: seq<Event>, starts: set<nat>)
    requires cfg.Valid() && OnlyArrivals(es)
    requires forall n :: 0 <= n < |es| ==> RangeStart(cfg, es[n]) !in starts
    ensures ArrivedIn(cfg, es, starts) == []
  {
    hide RangeStart;
    if es != [] {
      assert forall k :: 0 <= k < |es| - 1 ==> es[..|es| - 1][k] == es[k];
      NoArrivalIn(cfg, es[..|es| - 1], starts);
    }
  }

  lemma ArrivedInStep(cfg: WriterConfig, es: seq<Event>, starts: set<nat>)
    requires cfg.Valid() && OnlyArrivals(es) && es != []
    ensures var n := |es| - 1;
      ArrivedIn(cfg, es, starts)
        == if RangeStart(cfg, es[n]) in starts then ArrivedIn(cfg, es[..n], starts) + [es[n].rec.update]
           else ArrivedIn(cfg, es[..n], starts)
  {
    hide RangeStart;
  }

  lemma FirstRange(cfg: WriterConfig, es: seq<Event>, starts: set<nat>, i: nat, n: nat)
    requires cfg.Valid() && OnlyArrivals(es) && SlotsRise(es) && n < |es|
    requires i * cfg.slotsPerChunk in starts && forall s :: s in starts ==> i * cfg.slotsPerChunk <= s
    ensures var rest := starts - {i * cfg.slotsPerChunk};
      var b := Bucket(cfg, es[n].rec.slot);
      && (RangeStart(cfg, es[n]) in starts <==> b == i || RangeStart(cfg, es[n]) in rest)
      && (b == i ==> RangeStart(cfg, es[n]) !in rest && forall m :: 0 <= m < n ==> RangeStart(cfg, es[m]) !in rest)
  {
    var b := Bucket(cfg, es[n].rec.slot);
    RisingBuckets(cfg, es, n);
    hide Bucket, SlotsRise;
    if b < i { MulMono(b + 1, i, cfg.slotsPerChunk); }
    if i < b { MulMono(i + 1, b, cfg.slotsPerChunk); }
    if b == i {
      forall m | 0 <= m < n ensures RangeStart(cfg, es[m]) !in starts - {i * cfg.slotsPerChunk} {
        MulMono(Bucket(cfg, es[m].rec.slot), i, cfg.slotsPerChunk);
      }
    }
  }

  lemma NothingToSplit(cfg: WriterConfig, starts: set<nat>, i: nat)
    requires cfg.Valid()
    ensures ArrivedIn(cfg, [], starts) == [] && UpdatesOf(ArrivalsOf(cfg, [], i)) == []
  {
  }

  lemma SnocToParts(own: seq<Update>, after: seq<Update>, u: Update)
    ensures (own + after) + [u] == own + (after + [u])
    ensures after == [] ==> (own + after) + [u] == (own + [u]) + after
  {
  }

  lemma EarlierPart(cfg: WriterConfig, es: seq<Event>, rest: set<nat>)
    requires cfg.Valid() && OnlyArrivals(es) && es != []
    requires forall m :: 0 <= m < |es| - 1 ==> RangeStart(cfg, es[m]) !in rest
    ensures ArrivedIn(cfg, es[..|es| - 1], rest) == []
  {
    hide RangeStart, ArrivedIn;
    NoArrivalIn(cfg, es[..|es| - 1], rest);
  }

  lemma FirstOnes(es: seq<Event>)
    requires OnlyArrivals(es) && SlotsRise(es) && es != []
    ensures OnlyArrivals(es[..|es| - 1]) && SlotsRise(es[..|es| - 1])
  {
  }

  /** In slot order, the first of the listed ranges comes first. */
  lemma {:induction false} InSplits(cfg: WriterConfig, es: seq<Event>, starts: set<nat>, i: nat)
    requires cfg.Valid() && OnlyArrivals(es) && SlotsRise(es)
    requires i * cfg.slotsPerChunk in starts && forall s :: s in starts ==> i * cfg.slotsPerChunk <= s
    ensures ArrivedIn(cfg, es, starts)
      == UpdatesOf(ArrivalsOf(cfg, es, i)) + ArrivedIn(cfg, es, starts - {i * cfg.slotsPerChunk})
  {
    var rest := starts - {i * cfg.slotsPerChunk};
    hide UpdatesOf, ArrivalsOf, SlotsRise, ArrivedIn, RangeStart, Bucket;
    if es == [] {
      NothingToSplit(cfg, starts, i);
      NothingToSplit(cfg, rest, i);
    } else {
      var n := |es| - 1;
      FirstOnes(es);
      InSplits(cfg, es[..n], starts, i);
      ArrivalsUpdates(cfg, es, i);
      FirstRange(cfg, es, starts, i, n);
      ArrivedInStep(cfg, es, starts);
      ArrivedInStep(cfg, es, rest);
      SnocToParts(UpdatesOf(ArrivalsOf(cfg, es[..n], i)), ArrivedIn(cfg, es[..n], rest), es[n].rec.update);
      if Bucket(cfg, es[n].rec.slot) == i {
        EarlierPart(cfg, es, rest);
      }
    }
  }

  /** Starts of ranges. */
  ghost predicate AreStarts(cfg: WriterConfig, starts: seq<nat>)
    requires cfg.Valid()
  {
    forall s :: s in starts ==> Bucket(cfg, s) * cfg.slotsPerChunk == s
  }

  function SetOf(starts: seq<nat>): set<nat> {
    set s | s in starts
  }

  lemma FirstStart(cfg: WriterConfig, starts: seq<nat>)
    requires cfg.Valid() && IsAscending(starts) && AreStarts(cfg, starts) && starts != []
    ensures Bucket(cfg, starts[0]) * cfg.slotsPerChunk == starts[0]
    ensures starts[0] in SetOf(starts) && forall s :: s in SetOf(starts) ==> starts[0] <= s
    ensures SetOf(starts) - {starts[0]} == SetOf(starts[1..])
    ensures IsAscending(starts[1..]) && AreStarts(cfg, starts[1..])
  {
    hide Bucket;
    assert starts == [starts[0]] + starts[1..];
    assert forall s :: s in starts[1..] ==> s in starts && starts[0] < s;
  }

  lemma NoStart(cfg: WriterConfig, es: seq<Event>)
    requires cfg.Valid() && OnlyArrivals(es)
    ensures ArrivedIn(cfg, es, {}) == []
  {
    NoArrivalIn(cfg, es, {});
  }

  lemma AcceptedHead(cfg: WriterConfig, es: seq<Event>, starts: seq<nat>)
    requires cfg.Valid()
    ensures AcceptedFrom(cfg, es, starts)
      == if starts == [] then []
         else UpdatesOf(AcceptedInto(cfg, EMPTY, es, Bucket(cfg, starts[0]))) + AcceptedFrom(cfg, es, starts[1..])
  {
    hide UpdatesOf, AcceptedInto, Bucket;
  }

  lemma {:induction false} AcceptedIsIn(cfg: WriterConfig, es: seq<Event>, starts: seq<nat>)
    requires cfg.Valid() && NoStop(es) && SlotsRise(es) && IsAscending(starts) && AreStarts(cfg, starts)
    ensures OnlyArrivals(Heard(cfg, es))
    ensures AcceptedFrom(cfg, es, starts) == ArrivedIn(cfg, Heard(cfg, es), SetOf(starts))
  {
    hide *;
    HeardRise(cfg, es);
    AcceptedHead(cfg, es, starts);
    if starts == [] {
      NoneOf(starts);
      NoStart(cfg, Heard(cfg, es));
    } else {
      FirstStart(cfg, starts);
      AcceptedIsIn(cfg, es, starts[1..]);
      AcceptedIsHeard(cfg, es, Bucket(cfg, starts[0]));
      InSplits(cfg, Heard(cfg, es), SetOf(starts), Bucket(cfg, starts[0]));
    }
  }

  lemma NoneOf(starts: seq<nat>)
    ensures starts == [] ==> SetOf(starts) == {}
  {
  }

  lemma ListedStarts(c: Codec, cfg: WriterConfig, feed: Feed, part: Catalog, stream: Stream)
    requires cfg.Valid() && PartOf(part, CatalogFor(c, cfg, feed))
    ensures var starts := Ascending(TreeOf(part, stream).Keys);
      && IsAscending(starts) && AreStarts(cfg, starts) && SetOf(starts) == TreeOf(part, stream).Keys
      && forall s :: s in starts ==> Bucket(cfg, s) in DiskOf(cfg, feed(stream))
  {
    hide DiskOf, CatalogFor, Ascending, TreeOf, Bucket, PartOf, IsAscending;
    var starts := Ascending(TreeOf(part, stream).Keys);
    forall s | s in starts
      ensures Bucket(cfg, s) in DiskOf(cfg, feed(stream)) && Bucket(cfg, s) * cfg.slotsPerChunk == s
    {
      ListedStart(c, cfg, feed, part, stream, s);
    }
    assert forall s :: s in SetOf(starts) <==> s in TreeOf(part, stream).Keys;
  }

  lemma ListedStart(c: Codec, cfg: WriterConfig, feed: Feed, part: Catalog, stream: Stream, s: nat)
    requires cfg.Valid() && PartOf(part, CatalogFor(c, cfg, feed)) && s in TreeOf(part, stream)
    ensures Bucket(cfg, s) in DiskOf(cfg, feed(stream)) && Bucket(cfg, s) * cfg.slotsPerChunk == s
  {
    hide *;
    InWhole(part, CatalogFor(c, cfg, feed), stream, s);
    TreeOfFeed(c, cfg, feed, stream);
  }

  lemma InWhole(part: Catalog, whole: Catalog, stream: Stream, s: nat)
    requires PartOf(part, whole) && s in TreeOf(part, stream)
    ensures s in TreeOf(whole, stream) && TreeOf(whole, stream)[s] == TreeOf(part, stream)[s]
  {
    hide TreeOf;
    assert TreePart(TreeOf(part, stream), TreeOf(whole, stream));
  }

  /** The messages of a stream its recorder is to keep. */
  function Told(cfg: WriterConfig, feed: Feed, stream: Stream): (es: seq<Event>)
    requires cfg.Valid()
    ensures OnlyArrivals(es)
  {
    HeardAreMessages(cfg, feed(stream));
    Heard(cfg, feed(stream))
  }

  /** Chunks of a stream recorded in slot order hold the messages that are to be
      kept for their ranges, in arrival order. */
  lemma HeldIsArrivedIn(c: Codec, cfg: WriterConfig, feed: Feed, part: Catalog, stream: Stream)
    requires cfg.Valid() && PartOf(part, CatalogFor(c, cfg, feed))
    requires NoStop(feed(stream)) && SlotsRise(feed(stream))
    ensures HeldOf(part, ContentFor(cfg, feed), stream)
      == ArrivedIn(cfg, Told(cfg, feed, stream), TreeOf(part, stream).Keys)
  {
    ToldIs(cfg, feed, stream);
    hide *;
    var starts := Ascending(TreeOf(part, stream).Keys);
    ListedStarts(c, cfg, feed, part, stream);
    HeldIsAccepted(cfg, feed, stream, starts);
    AcceptedIsIn(cfg, feed(stream), starts);
    HeldIs(part, ContentFor(cfg, feed), stream);
  }

  lemma ToldIs(cfg: WriterConfig, feed: Feed, stream: Stream)
    requires cfg.Valid()
    ensures Told(cfg, feed, stream) == Heard(cfg, feed(stream))
  {
  }

  lemma HeldIs(cat: Catalog, content: Content, stream: Stream)
    ensures HeldOf(cat, content, stream) == HeldFrom(stream, content, Ascending(TreeOf(cat, stream).Keys))
  {
  }

  // ----- what a subscriber of the stream wants of it -----

  /** Whether a message matches some filter and is not before the start. */
  ghost predicate Wants(c: Codec, sub: Subscription, stream: Stream, u: Update) {
    NamesOf(c, NamedFilters(sub, stream), u) != [] && SlotOf(u) >= Base(sub)
  }

  ghost predicate Only(sub: Subscription, stream: Stream) {
    forall other :: HasStream(sub, other) ==> other == stream
  }

  lemma {:induction false} OneLaneSeen(out: seq<Tagged>, k: nat)
    requires forall t :: t in out ==> t.lane == k
    ensures SeenIn(out) == Strip(Project(out, k))
  {
    if out != [] {
      assert out[0] in out && forall t :: t in out[1..] ==> t in out;
      OneLaneSeen(out[1..], k);
      var head, rest := Got(out[0].item), Project(out[1..], k);
      assert ([head] + rest)[0] == head && ([head] + rest)[1..] == rest;
    }
  }

  lemma OnlyItsLane(c: Codec, cat: Catalog, sub: Subscription, content: Content, stream: Stream, lane: nat, step: Step)
    requires Only(sub, stream) && lane < 3 && step in FullLanes(c, cat, sub, content)[lane]
    ensures lane == LaneIndex(stream)
  {
    hide WantedFrom, HasStream;
    var own := if lane == 0 then Tx else if lane == 1 then Acct else Block;
    assert step in FullLane(c, cat, sub, content, own);
    assert HasStream(sub, own);
  }

  lemma SeenOfDeliverable(c: Codec, cat: Catalog, sub: Subscription, content: Content, from: nat, stream: Stream)
    requires Recorded(c, cat, content) && Only(sub, stream)
    ensures SeenIn(Deliverable(c, cat, sub, content, from))
      == Since(Picked(c, NamedFilters(sub, stream), HeldOf(cat, content, stream)), from)
  {
    hide *;
    var out := Deliverable(c, cat, sub, content, from);
    RecordedNeverFails(c, cat, sub, content);
    StreamOfDeliverable(c, cat, sub, content, from, stream);
    forall t | t in out ensures t.lane == LaneIndex(stream) {
      DeliverableMember(c, cat, sub, content, from, t);
      MergedIsInLane(FullLanes(c, cat, sub, content), t);
      OnlyItsLane(c, cat, sub, content, stream, t.lane, Got(t.item));
    }
    OneLaneSeen(out, LaneIndex(stream));
  }

  lemma {:induction false} SeenHas(out: seq<Tagged>, seen: Seen)
    ensures seen in SeenIn(out) <==> exists t :: t in out && (t.item.update, t.item.names) == seen
    ensures |SeenIn(out)| == |out|
  {
    if out != [] {
      SeenHas(out[1..], seen);
      assert out == [out[0]] + out[1..];
    }
  }

  lemma {:induction false} SinceHas(all: seq<Seen>, from: nat, seen: Seen)
    ensures seen in Since(all, from) <==> seen in all && SlotOf(seen.0) >= from
  {
    hide SlotOf;
    if all != [] {
      SinceHas(all[1..], from, seen);
      assert all == [all[0]] + all[1..];
    }
  }

  lemma {:induction false} PickedHas(c: Codec, named: Named, us: seq<Update>, u: Update)
    requires u in us && NamesOf(c, named, u) != []
    ensures (u, NamesOf(c, named, u)) in Picked(c, named, us)
  {
    hide NamesOf;
    assert us == [us[0]] + us[1..];
    if us[0] != u { PickedHas(c, named, us[1..], u); }
  }

  /** What is delivered carries the slot of its message. */
  lemma DeliveredIsStamped(c: Codec, cat: Catalog, sub: Subscription, content: Content, from: nat, t: Tagged)
    requires t in Deliverable(c, cat, sub, content, from)
    ensures t.item.slot == SlotOf(t.item.update)
  {
    DeliverableMember(c, cat, sub, content, from, t);
    hide FullLane, MergeAll, Stamped, SlotOf;
    MergedIsInLane(FullLanes(c, cat, sub, content), t);
    var stream := if t.lane == 0 then Tx else if t.lane == 1 then Acct else Block;
    LaneIsStamped(c, cat, sub, content, stream);
    StampedMember(FullLane(c, cat, sub, content, stream), t.item);
  }

  lemma StampedMember(lane: seq<Step>, item: Item)
    requires Stamped(lane) && Got(item) in lane
    ensures item.slot == SlotOf(item.update)
  {
    hide SlotOf;
  }

  /** What the listed chunks offer, as a sequence of matching arrivals. */
  ghost function Matching(
      c: Codec, cfg: WriterConfig, feed: Feed, sub: Subscription, stream: Stream, starts: set<nat>): seq<Seen>
    requires cfg.Valid()
  {
    Since(Picked(c, NamedFilters(sub, stream), ArrivedIn(cfg, Told(cfg, feed, stream), starts)), Base(sub))
  }

  lemma OfferedIsMatching(c: Codec, cfg: WriterConfig, feed: Feed, part: Catalog, sub: Subscription, stream: Stream)
    requires c.Lawful() && cfg.Valid() && Orderly(c, cfg, feed) && PartOf(part, CatalogFor(c, cfg, feed))
    requires Only(sub, stream)
    ensures SeenIn(Deliverable(c, part, sub, ContentFor(cfg, feed), Base(sub)))
      == Matching(c, cfg, feed, sub, stream, TreeOf(part, stream).Keys)
  {
    hide Orderly, PartOf, Recorded, Picked, Since, SeenIn, Deliverable, HeldOf, ArrivedIn, CatalogFor, ContentFor, Only;
    OrderlyStream(c, cfg, feed, stream);
    StoppedIsRecorded(c, cfg, feed);
    PartIsRecorded(c, part, CatalogFor(c, cfg, feed), ContentFor(cfg, feed));
    HeldIsArrivedIn(c, cfg, feed, part, stream);
    SeenOfDeliverable(c, part, sub, ContentFor(cfg, feed), Base(sub), stream);
  }

  lemma SlotOfArrival(c: Codec, cfg: WriterConfig, feed: Feed, stream: Stream, n: nat)
    requires cfg.Valid() && Orderly(c, cfg, feed) && n < |Told(cfg, feed, stream)|
    ensures var e := Told(cfg, feed, stream)[n]; e.Arrive? && SlotOf(e.rec.update) == e.rec.slot
  {
    assert Recordable(c, cfg, stream, feed(stream));
    hide Recordable, Heard;
    HeardIsSlotted(c, cfg, stream, feed(stream));
  }

  /** Every message on offer is a wanted arrival for a listed range. */
  lemma OfferedArrived(
      c: Codec, cfg: WriterConfig, feed: Feed, part: Catalog, sub: Subscription, stream: Stream, t: Tagged)
    returns (n: nat)
    requires c.Lawful() && cfg.Valid() && Orderly(c, cfg, feed) && PartOf(part, CatalogFor(c, cfg, feed))
    requires Only(sub, stream) && t in Deliverable(c, part, sub, ContentFor(cfg, feed), Base(sub))
    ensures n < |Told(cfg, feed, stream)|
    ensures Told(cfg, feed, stream)[n].Arrive? && Told(cfg, feed, stream)[n].rec.slot == t.item.slot
    ensures Wants(c, sub, stream, Told(cfg, feed, stream)[n].rec.update)
    ensures RangeStart(cfg, Told(cfg, feed, stream)[n]) in TreeOf(part, stream).Keys
  {
    hide Orderly, PartOf, Deliverable, CatalogFor, ContentFor, Only, Picked, Since, SeenIn, ArrivedIn, SlotOf, TreeOf;
    hide NamesOf, RangeStart;
    var named, starts := NamedFilters(sub, stream), TreeOf(part, stream).Keys;
    var out, seen := Deliverable(c, part, sub, ContentFor(cfg, feed), Base(sub)), (t.item.update, t.item.names);
    OfferedIsMatching(c, cfg, feed, part, sub, stream);
    SeenHas(out, seen);
    var held := ArrivedIn(cfg, Told(cfg, feed, stream), starts);
    SinceHas(Picked(c, named, held), Base(sub), seen);
    PickedFrom(c, named, held, seen);
    assert t.item.update in held;
    ArrivedInHas(cfg, Told(cfg, feed, stream), starts, t.item.update);
    n :| 0 <= n < |Told(cfg, feed, stream)| && Told(cfg, feed, stream)[n].rec.update == t.item.update
      && RangeStart(cfg, Told(cfg, feed, stream)[n]) in starts;
    SlotOfArrival(c, cfg, feed, stream, n);
    DeliveredIsStamped(c, part, sub, ContentFor(cfg, feed), Base(sub), t);
  }

  /** And every wanted arrival for a listed range is on offer. */
  lemma ArrivedOffered(
      c: Codec, cfg: WriterConfig, feed: Feed, part: Catalog, sub: Subscription, stream: Stream, n: nat)
    returns (t: Tagged)
    requires c.Lawful() && cfg.Valid() && Orderly(c, cfg, feed) && PartOf(part, CatalogFor(c, cfg, feed))
    requires Only(sub, stream) && n < |Told(cfg, feed, stream)| && Told(cfg, feed, stream)[n].Arrive?
    requires Wants(c, sub, stream, Told(cfg, feed, stream)[n].rec.update)
    requires RangeStart(cfg, Told(cfg, feed, stream)[n]) in TreeOf(part, stream).Keys
    ensures t in Deliverable(c, part, sub, ContentFor(cfg, feed), Base(sub))
    ensures Told(cfg, feed, stream)[n].rec.slot == t.item.slot
  {
    hide Orderly, PartOf, Deliverable, CatalogFor, ContentFor, Only, Picked, Since, SeenIn, ArrivedIn, SlotOf, TreeOf;
    hide NamesOf, RangeStart;
    var named, starts, u := NamedFilters(sub, stream), TreeOf(part, stream).Keys, Told(cfg, feed, stream)[n].rec.update;
    var out, seen := Deliverable(c, part, sub, ContentFor(cfg, feed), Base(sub)), (u, NamesOf(c, named, u));
    OfferedIsMatching(c, cfg, feed, part, sub, stream);
    ArrivedInHas(cfg, Told(cfg, feed, stream), starts, u);
    var held := ArrivedIn(cfg, Told(cfg, feed, stream), starts);
    PickedHas(c, named, held, u);
    SinceHas(Picked(c, named, held), Base(sub), seen);
    SeenHas(out, seen);
    t :| t in out && (t.item.update, t.item.names) == seen;
    SlotOfArrival(c, cfg, feed, stream, n);
    DeliveredIsStamped(c, part, sub, ContentFor(cfg, feed), Base(sub), t);
  }

  // ----- when a chunk comes late -----

  /** The range that starts at `s` holds a wanted arrival. */
  ghost predicate Offers(c: Codec, cfg: WriterConfig, feed: Feed, sub: Subscription, stream: Stream, s: nat)
    requires cfg.Valid()
  {
    exists n :: 0 <= n < |Told(cfg, feed, stream)| && OffersAt(c, cfg, feed, sub, stream, s, n)
  }

  ghost predicate OffersAt(
      c: Codec, cfg: WriterConfig, feed: Feed, sub: Subscription, stream: Stream, s: nat, n: nat)
    requires cfg.Valid() && n < |Told(cfg, feed, stream)|
  {
    var e := Told(cfg, feed, stream)[n];
    e.Arrive? && RangeStart(cfg, e) == s && Wants(c, sub, stream, e.rec.update)
  }

  /** A chunk listed by turn `k`, and one first listed at turn `k + 1`, both with
      something wanted. */
  ghost predicate NewAfter(f: Follower, cfg: WriterConfig, feed: Feed, stream: Stream, k: nat, s: nat, t: nat)
    requires cfg.Valid()
  {
    && s in TreeOf(SeenBy(f, k), stream) && Offers(f.c, cfg, feed, f.sub, stream, s)
    && t in TreeOf(f.env(k + 1).cat, stream) && t !in TreeOf(SeenBy(f, k), stream)
    && Offers(f.c, cfg, feed, f.sub, stream, t)
  }

  /** No chunk of the stream with anything wanted is first listed at turn `k + 1`
      below one with something wanted that was listed before. */
  ghost predicate NoGapAt(f: Follower, cfg: WriterConfig, feed: Feed, stream: Stream, k: nat)
    requires cfg.Valid()
  {
    forall s, t :: NewAfter(f, cfg, feed, stream, k, s, t) ==> s < t
  }

  ghost predicate NoGaps(f: Follower, cfg: WriterConfig, feed: Feed, stream: Stream, n: nat)
    requires cfg.Valid()
  {
    forall k :: 0 <= k < n ==> NoGapAt(f, cfg, feed, stream, k)
  }

  /** Ranges are ordered as the slots of what they hold. */
  lemma RangeOrder(cfg: WriterConfig, a: Event, b: Event, s: nat, t: nat)
    requires cfg.Valid() && a.Arrive? && b.Arrive? && RangeStart(cfg, a) == s && RangeStart(cfg, b) == t && s != t
    ensures s < t <==> a.rec.slot < b.rec.slot
  {
    var i, j := Bucket(cfg, a.rec.slot), Bucket(cfg, b.rec.slot);
    if a.rec.slot <= b.rec.slot {
      DivMono(a.rec.slot, b.rec.slot, cfg.slotsPerChunk);
      MulMono(i, j, cfg.slotsPerChunk);
    } else {
      DivMono(b.rec.slot, a.rec.slot, cfg.slotsPerChunk);
      MulMono(j, i, cfg.slotsPerChunk);
    }
  }

  /** The catalogs list chunks the recorders leave. */
  ghost predicate Reads(f: Follower, cfg: WriterConfig, feed: Feed, n: nat)
    requires cfg.Valid()
  {
    forall k :: 0 <= k <= n ==> PartOf(f.env(k).cat, CatalogFor(f.c, cfg, feed))
  }

  lemma ReadsIsFrom(f: Follower, cfg: WriterConfig, feed: Feed, n: nat)
    requires f.c.Lawful() && cfg.Valid() && Orderly(f.c, cfg, feed) && Reads(f, cfg, feed, n)
    ensures ReadsFrom(f, CatalogFor(f.c, cfg, feed), ContentFor(cfg, feed), n)
  {
    hide Orderly, PartOf, CatalogFor, ContentFor, Recorded, HeldInOrder;
    OrderlyStream(f.c, cfg, feed, Tx);
    StoppedIsRecorded(f.c, cfg, feed);
    OrderlyIsHeldInOrder(f.c, cfg, feed);
  }

  lemma NewChunks(f: Follower, archive: Catalog, content: Content, k: nat, stream: Stream)
    requires ReadsFrom(f, archive, content, k + 1)
    ensures PartOf(SeenBy(f, k), archive) && PartOf(Added(SeenBy(f, k), SeenBy(f, k + 1)), archive)
    ensures TreeOf(Added(SeenBy(f, k), SeenBy(f, k + 1)), stream).Keys
      == TreeOf(f.env(k + 1).cat, stream).Keys - TreeOf(SeenBy(f, k), stream).Keys
  {
    hide PartOf, Added, Both, Recorded, HeldInOrder, TreeOf;
    SeenIsPart(f, archive, content, k + 1);
    SeenIsPart(f, archive, content, k);
    SeenNext(f, k + 1);
    hide SeenBy;
    AddedIsPart(SeenBy(f, k), SeenBy(f, k + 1));
    PartOfPart(Added(SeenBy(f, k), SeenBy(f, k + 1)), SeenBy(f, k + 1), archive);
    AddedTree(SeenBy(f, k), SeenBy(f, k + 1), stream);
    BothTree(SeenBy(f, k), f.env(k + 1).cat, stream);
  }

  /** On one stream in slot order, nothing comes late exactly if there is no gap. */
  lemma InTimeExactly(f: Follower, cfg: WriterConfig, feed: Feed, k: nat, stream: Stream)
    requires f.c.Lawful() && cfg.Valid() && Orderly(f.c, cfg, feed) && Reads(f, cfg, feed, k + 1)
    requires Only(f.sub, stream)
    ensures InTimeAt(f, ContentFor(cfg, feed), k) <==> NoGapAt(f, cfg, feed, stream, k)
  {
    hide *;
    var before, new_ := SeenBy(f, k), Added(SeenBy(f, k), SeenBy(f, k + 1));
    ReadsIsFrom(f, cfg, feed, k + 1);
    NewChunks(f, CatalogFor(f.c, cfg, feed), ContentFor(cfg, feed), k, stream);
    InTimeIs(f, ContentFor(cfg, feed), k);
    if NoGapAt(f, cfg, feed, stream, k) {
      forall t, u
        | t in Deliverable(f.c, before, f.sub, ContentFor(cfg, feed), Base(f.sub))
          && u in Deliverable(f.c, new_, f.sub, ContentFor(cfg, feed), Base(f.sub))
        ensures t.item.slot < u.item.slot
      {
        NoGapSeparates(f, cfg, feed, k, stream, t, u);
      }
      SeparatedIsInTime(f, ContentFor(cfg, feed), k);
    }
    if InTimeAt(f, ContentFor(cfg, feed), k) {
      forall s, t | NewAfter(f, cfg, feed, stream, k, s, t) ensures s < t {
        InTimeSeparates(f, cfg, feed, k, stream, s, t);
      }
      NoGapIs(f, cfg, feed, stream, k);
    }
  }

  lemma SeparatedIsInTime(f: Follower, content: Content, k: nat)
    requires forall t, u ::
      t in Deliverable(f.c, SeenBy(f, k), f.sub, content, Base(f.sub))
      && u in Deliverable(f.c, Added(SeenBy(f, k), SeenBy(f, k + 1)), f.sub, content, Base(f.sub))
      ==> t.item.slot < u.item.slot
    ensures InTimeAt(f, content, k)
  {
    hide Deliverable, Added, SeenBy;
  }

  lemma NoGapIs(f: Follower, cfg: WriterConfig, feed: Feed, stream: Stream, k: nat)
    requires cfg.Valid()
    ensures NoGapAt(f, cfg, feed, stream, k)
      <==> forall s, t :: NewAfter(f, cfg, feed, stream, k, s, t) ==> s < t
  {
    hide NewAfter;
  }

  lemma OffersIf(c: Codec, cfg: WriterConfig, feed: Feed, sub: Subscription, stream: Stream, n: nat)
    requires cfg.Valid() && n < |Told(cfg, feed, stream)| && Told(cfg, feed, stream)[n].Arrive?
    requires Wants(c, sub, stream, Told(cfg, feed, stream)[n].rec.update)
    ensures Offers(c, cfg, feed, sub, stream, RangeStart(cfg, Told(cfg, feed, stream)[n]))
  {
    hide Wants, RangeStart;
    assert OffersAt(c, cfg, feed, sub, stream, RangeStart(cfg, Told(cfg, feed, stream)[n]), n);
  }

  lemma NoGapSeparates(
      f: Follower, cfg: WriterConfig, feed: Feed, k: nat, stream: Stream, t: Tagged, u: Tagged)
    requires f.c.Lawful() && cfg.Valid() && Orderly(f.c, cfg, feed) && Reads(f, cfg, feed, k + 1)
    requires Only(f.sub, stream) && NoGapAt(f, cfg, feed, stream, k)
    requires t in Deliverable(f.c, SeenBy(f, k), f.sub, ContentFor(cfg, feed), Base(f.sub))
    requires u in Deliverable(
      f.c, Added(SeenBy(f, k), SeenBy(f, k + 1)), f.sub, ContentFor(cfg, feed), Base(f.sub))
    ensures t.item.slot < u.item.slot
  {
    hide *;
    ReadsIsFrom(f, cfg, feed, k + 1);
    NewChunks(f, CatalogFor(f.c, cfg, feed), ContentFor(cfg, feed), k, stream);
    var m := OfferedArrived(f.c, cfg, feed, SeenBy(f, k), f.sub, stream, t);
    var n := OfferedArrived(f.c, cfg, feed, Added(SeenBy(f, k), SeenBy(f, k + 1)), f.sub, stream, u);
    OffersIf(f.c, cfg, feed, f.sub, stream, m);
    OffersIf(f.c, cfg, feed, f.sub, stream, n);
    var low, high := RangeStart(cfg, Told(cfg, feed, stream)[m]), RangeStart(cfg, Told(cfg, feed, stream)[n]);
    GapIs(f, cfg, feed, stream, k, low, high);
    NoGapIs(f, cfg, feed, stream, k);
    RangeOrder(cfg, Told(cfg, feed, stream)[m], Told(cfg, feed, stream)[n], low, high);
  }

  lemma GapIs(f: Follower, cfg: WriterConfig, feed: Feed, stream: Stream, k: nat, s: nat, t: nat)
    requires cfg.Valid()
    ensures NewAfter(f, cfg, feed, stream, k, s, t) <==>
      && s in TreeOf(SeenBy(f, k), stream) && Offers(f.c, cfg, feed, f.sub, stream, s)
      && t in TreeOf(f.env(k + 1).cat, stream) && t !in TreeOf(SeenBy(f, k), stream)
      && Offers(f.c, cfg, feed, f.sub, stream, t)
  {
    hide Offers, SeenBy, TreeOf;
  }

  lemma OfferingArrival(c: Codec, cfg: WriterConfig, feed: Feed, sub: Subscription, stream: Stream, s: nat)
    returns (n: nat)
    requires cfg.Valid() && Offers(c, cfg, feed, sub, stream, s)
    ensures n < |Told(cfg, feed, stream)|
    ensures Told(cfg, feed, stream)[n].Arrive? && RangeStart(cfg, Told(cfg, feed, stream)[n]) == s
    ensures Wants(c, sub, stream, Told(cfg, feed, stream)[n].rec.update)
  {
    hide Wants, RangeStart;
    n :| 0 <= n < |Told(cfg, feed, stream)| && OffersAt(c, cfg, feed, sub, stream, s, n);
  }

  lemma InTimeSeparates(
      f: Follower, cfg: WriterConfig, feed: Feed, k: nat, stream: Stream, s: nat, t: nat)
    requires f.c.Lawful() && cfg.Valid() && Orderly(f.c, cfg, feed) && Reads(f, cfg, feed, k + 1)
    requires Only(f.sub, stream) && InTimeAt(f, ContentFor(cfg, feed), k)
    requires NewAfter(f, cfg, feed, stream, k, s, t)
    ensures s < t
  {
    hide *;
    ReadsIsFrom(f, cfg, feed, k + 1);
    NewChunks(f, CatalogFor(f.c, cfg, feed), ContentFor(cfg, feed), k, stream);
    GapIs(f, cfg, feed, stream, k, s, t);
    var m := OfferingArrival(f.c, cfg, feed, f.sub, stream, s);
    var n := OfferingArrival(f.c, cfg, feed, f.sub, stream, t);
    var a := ArrivedOffered(f.c, cfg, feed, SeenBy(f, k), f.sub, stream, m);
    var b := ArrivedOffered(f.c, cfg, feed, Added(SeenBy(f, k), SeenBy(f, k + 1)), f.sub, stream, n);
    InTimeOrders(f, ContentFor(cfg, feed), k, a, b);
    RangeOrder(cfg, Told(cfg, feed, stream)[m], Told(cfg, feed, stream)[n], s, t);
  }

  lemma InTimeOrders(f: Follower, content: Content, k: nat, t: Tagged, u: Tagged)
    requires InTimeAt(f, content, k)
    requires t in Deliverable(f.c, SeenBy(f, k), f.sub, content, Base(f.sub))
    requires u in Deliverable(f.c, Added(SeenBy(f, k), SeenBy(f, k + 1)), f.sub, content, Base(f.sub))
    ensures t.item.slot < u.item.slot
  {
    hide Deliverable, Added, SeenBy;
  }

  lemma {:induction false} NeverLateExactly(f: Follower, cfg: WriterConfig, feed: Feed, n: nat, stream: Stream)
    requires f.c.Lawful() && cfg.Valid() && Orderly(f.c, cfg, feed) && Reads(f, cfg, feed, n)
    requires Only(f.sub, stream)
    ensures NeverLate(f, ContentFor(cfg, feed), n) <==> NoGaps(f, cfg, feed, stream, n)
  {
    hide InTimeAt, NoGapAt, Orderly, Only, ContentFor, PartOf, CatalogFor;
    forall k | 0 <= k < n ensures InTimeAt(f, ContentFor(cfg, feed), k) <==> NoGapAt(f, cfg, feed, stream, k) {
      InTimeExactly(f, cfg, feed, k, stream);
    }
  }

  // ----- the follower of one stream -----

  /** Whatever way the chunks of a recorder in slot order take to the reader: a
      follower of the stream is never sent a message twice or out of arrival
      order. After every drained turn it was sent all matching messages of the
      chunks listed by then exactly if no chunk with a wanted message was first
      listed after a higher one; otherwise some are never sent. */
  lemma FollowsLiveRecorder(
      f: Follower, cfg: WriterConfig, feed: Feed, first: ReplayPlan, deadline: nat, n: nat, stream: Stream)
    requires f.c.Lawful() && cfg.Valid() && Orderly(f.c, cfg, feed) && Reads(f, cfg, feed, n)
    requires f.Valid() && Planned(f, first) && DrainsFor(f, Begin(first, deadline), n + 1) && Only(f.sub, stream)
    ensures var sent := SeenIn(After(f, Begin(first, deadline), n + 1).delivered);
      var all := Matching(f.c, cfg, feed, f.sub, stream, TreeOf(SeenBy(f, n), stream).Keys);
      && Sub(sent, all)
      && (sent == all <==> NoGaps(f, cfg, feed, stream, n))
      && (sent != all ==> |sent| < |all|)
  {
    hide *;
    var content := ContentFor(cfg, feed);
    var out := After(f, Begin(first, deadline), n + 1).delivered;
    var all := Deliverable(f.c, SeenBy(f, n), f.sub, content, Base(f.sub));
    ReadsIsFrom(f, cfg, feed, n);
    SeenIsPart(f, CatalogFor(f.c, cfg, feed), content, n);
    FollowRefinesExactly(f, CatalogFor(f.c, cfg, feed), content, first, deadline, n);
    NeverLateExactly(f, cfg, feed, n, stream);
    OfferedIsMatching(f.c, cfg, feed, SeenBy(f, n), f.sub, stream);
    SeenOfSub(out, all);
  }

  lemma {:induction false} SeenOfSub(part: seq<Tagged>, all: seq<Tagged>)
    requires Sub(part, all)
    ensures Sub(SeenIn(part), SeenIn(all))
    ensures |SeenIn(part)| == |part| && |SeenIn(all)| == |all|
  {
    if all != [] {
      if part != [] && part[0] == all[0] && Sub(part[1..], all[1..]) {
        SeenOfSub(part[1..], all[1..]);
        assert SeenIn(part)[1..] == SeenIn(part[1..]);
      } else {
        SeenOfSub(part, all[1..]);
      }
      assert SeenIn(all)[1..] == SeenIn(all[1..]);
    }
  }
}
