/** Record, index, plan, merge, deliver: what a subscriber gets from a recorded
    directory, in terms of what arrived at the recorders. */
module Fidelity {
  import opened Core
  import opened Updates
  import opened Codecs
  import opened Merge
  import opened Pacing
  import opened Drive
  import opened Replay
  import opened Plan
  import opened Coverage
  import opened Recorder
  import opened Conservation
  import opened Chunker
  import opened Archive

  /** What the subscriber sees of a message: its content and the filter names. */
  type Seen = (Update, seq<string>)

  function Strip(lane: seq<Step>): seq<Seen> {
    if lane == [] then []
    else if lane[0].Failed? then Strip(lane[1..])
    else [(lane[0].item.update, lane[0].item.names)] + Strip(lane[1..])
  }

  ghost function PickOne(c: Codec, named: Named, u: Update): seq<Seen> {
    var names := NamesOf(c, named, u);
    if names == [] then [] else [(u, names)]
  }

  /** The direct answer: the messages some filter matches, each once, in order,
      with the names of all the filters it matches. */
  ghost function Picked(c: Codec, named: Named, us: seq<Update>): seq<Seen> {
    if us == [] then [] else PickOne(c, named, us[0]) + Picked(c, named, us[1..])
  }

  // ----- lanes, stripped of what planning adds -----

  lemma StripHead(lane: seq<Step>)
    requires lane != []
    ensures Strip(lane)
      == if lane[0].Failed? then Strip(lane[1..])
         else [(lane[0].item.update, lane[0].item.names)] + Strip(lane[1..])
  {
  }

  lemma {:induction false} StripConcat(a: seq<Step>, b: seq<Step>)
    ensures Strip(a + b) == Strip(a) + Strip(b)
  {
    if a == [] {
      assert a + b == b;
    } else {
      assert (a + b)[0] == a[0] && (a + b)[1..] == a[1..] + b;
      StripHead(a);
      StripHead(a + b);
      hide Strip;
      StripConcat(a[1..], b);
    }
  }

  lemma PickedHead(c: Codec, named: Named, us: seq<Update>)
    requires us != []
    ensures Picked(c, named, us) == PickOne(c, named, us[0]) + Picked(c, named, us[1..])
  {
    hide PickOne;
  }

  lemma {:induction false} PickedConcat(c: Codec, named: Named, a: seq<Update>, b: seq<Update>)
    ensures Picked(c, named, a + b) == Picked(c, named, a) + Picked(c, named, b)
  {
    if a == [] {
      assert a + b == b;
    } else {
      hide *;
      PickedConcat(c, named, a[1..], b);
      JoinHead(a, b);
      PickedHead(c, named, a);
      PickedHead(c, named, a + b);
      assert (PickOne(c, named, a[0]) + Picked(c, named, a[1..])) + Picked(c, named, b)
        == PickOne(c, named, a[0]) + (Picked(c, named, a[1..]) + Picked(c, named, b));
    }
  }

  lemma JoinHead(a: seq<Update>, b: seq<Update>)
    requires a != []
    ensures a + b != [] && (a + b)[0] == a[0] && (a + b)[1..] == a[1..] + b
  {
  }

  lemma {:induction false} StripWanted(c: Codec, named: Named, meta: ChunkMeta, us: seq<Update>, n: nat)
    requires n <= |us|
    ensures Strip(Wanted(c, named, meta, us, n)) == Picked(c, named, us[n..])
    decreases |us| - n
  {
    hide NamesOf, ExtractRecvNs, SlotOf;
    if n < |us| {
      StripWanted(c, named, meta, us, n + 1);
      assert us[n..][0] == us[n] && us[n..][1..] == us[n + 1..];
      var rest := Wanted(c, named, meta, us, n + 1);
      if NamesOf(c, named, us[n]) != [] {
        var got := Got(ItemOf(c, named, meta, us, n));
        assert ([got] + rest)[0] == got && ([got] + rest)[1..] == rest;
      }
    }
  }

  /** The messages recorded in the chunks at these starts, in order. */
  function HeldFrom(stream: Stream, content: Content, starts: seq<nat>): seq<Update> {
    if starts == [] then [] else MessagesAt(content, stream, starts[0]) + HeldFrom(stream, content, starts[1..])
  }

  lemma {:induction false} StripWantedFrom(
      c: Codec, tree: Tree, stream: Stream, named: Named, content: Content, starts: seq<nat>)
    requires forall s :: s in starts ==> s in tree
    ensures Strip(WantedFrom(c, tree, stream, named, content, starts))
      == Picked(c, named, HeldFrom(stream, content, starts))
  {
    if starts != [] {
      hide Wanted, Strip, Picked;
      var us := MessagesAt(content, stream, starts[0]);
      StripWantedFrom(c, tree, stream, named, content, starts[1..]);
      StripWanted(c, named, tree[starts[0]].meta, us, 0);
      assert us[0..] == us;
      StripConcat(
        WantedAt(c, tree, stream, named, content, starts[0]),
        WantedFrom(c, tree, stream, named, content, starts[1..]));
      PickedConcat(c, named, us, HeldFrom(stream, content, starts[1..]));
    } else {
      assert Strip([]) == [];
    }
  }

  lemma {:induction false} NobodyAsked(c: Codec, us: seq<Update>)
    ensures Picked(c, [], us) == []
  {
    if us != [] { NobodyAsked(c, us[1..]); }
  }

  /** Everything the catalog holds of a stream, in chunk order. */
  function HeldOf(cat: Catalog, content: Content, stream: Stream): seq<Update> {
    HeldFrom(stream, content, Ascending(TreeOf(cat, stream).Keys))
  }

  lemma LaneIsPicked(c: Codec, cat: Catalog, sub: Subscription, content: Content, stream: Stream)
    ensures Strip(FullLane(c, cat, sub, content, stream))
      == Picked(c, NamedFilters(sub, stream), HeldOf(cat, content, stream))
  {
    hide Strip, Picked, WantedFrom;
    if HasStream(sub, stream) {
      StripWantedFrom(
        c, TreeOf(cat, stream), stream, NamedFilters(sub, stream), content, Ascending(TreeOf(cat, stream).Keys));
    } else {
      assert NamedFilters(sub, stream) == [];
      NobodyAsked(c, HeldOf(cat, content, stream));
      EmptyStrip();
    }
  }

  lemma EmptyStrip()
    ensures Strip([]) == []
  {
  }

  // ----- lanes carry the slots of their messages -----

  /** Items that carry the slot of their message. */
  ghost predicate Stamped(lane: seq<Step>) {
    forall i :: 0 <= i < |lane| ==> lane[i].Got? && lane[i].item.slot == SlotOf(lane[i].item.update)
  }

  lemma {:induction false} WantedIsStamped(c: Codec, named: Named, meta: ChunkMeta, us: seq<Update>, n: nat)
    requires n <= |us|
    ensures Stamped(Wanted(c, named, meta, us, n))
    decreases |us| - n
  {
    hide NamesOf, ExtractRecvNs, SlotOf;
    if n < |us| { WantedIsStamped(c, named, meta, us, n + 1); }
  }

  lemma StampedConcat(a: seq<Step>, b: seq<Step>)
    requires Stamped(a) && Stamped(b)
    ensures Stamped(a + b)
  {
  }

  lemma {:induction false} HeldIsStamped(
      c: Codec, tree: Tree, stream: Stream, named: Named, content: Content, starts: seq<nat>)
    requires forall s :: s in starts ==> s in tree
    ensures Stamped(WantedFrom(c, tree, stream, named, content, starts))
  {
    if starts != [] {
      hide Wanted, Stamped;
      WantedIsStamped(c, named, tree[starts[0]].meta, MessagesAt(content, stream, starts[0]), 0);
      HeldIsStamped(c, tree, stream, named, content, starts[1..]);
      StampedConcat(
        WantedAt(c, tree, stream, named, content, starts[0]),
        WantedFrom(c, tree, stream, named, content, starts[1..]));
    }
  }

  ghost predicate UpdatesRise(us: seq<Update>) {
    forall i, j :: 0 <= i < j < |us| ==> SlotOf(us[i]) <= SlotOf(us[j])
  }

  ghost predicate SeenRise(seen: seq<Seen>) {
    forall i, j :: 0 <= i < j < |seen| ==> SlotOf(seen[i].0) <= SlotOf(seen[j].0)
  }

  lemma {:induction false} PickedFrom(c: Codec, named: Named, us: seq<Update>, seen: Seen)
    requires seen in Picked(c, named, us)
    ensures exists i :: 0 <= i < |us| && us[i] == seen.0 && seen.1 == NamesOf(c, named, us[i]) != []
  {
    hide NamesOf;
    if seen in PickOne(c, named, us[0]) {
    } else {
      PickedFrom(c, named, us[1..], seen);
      var i :| 0 <= i < |us[1..]| && us[1..][i] == seen.0 && seen.1 == NamesOf(c, named, us[1..][i]) != [];
      assert us[i + 1] == seen.0;
    }
  }

  lemma {:induction false} PickedRises(c: Codec, named: Named, us: seq<Update>)
    requires UpdatesRise(us)
    ensures SeenRise(Picked(c, named, us))
  {
    if us != [] {
      PickedRises(c, named, us[1..]);
      var rest := Picked(c, named, us[1..]);
      hide NamesOf, SlotOf;
      forall j | 0 <= j < |rest| ensures SlotOf(us[0]) <= SlotOf(rest[j].0) {
        PickedFrom(c, named, us[1..], rest[j]);
      }
    }
  }

  lemma {:induction false} StripAt(lane: seq<Step>)
    requires Stamped(lane)
    ensures |Strip(lane)| == |lane|
    ensures forall i :: 0 <= i < |lane| ==> Strip(lane)[i].0 == lane[i].item.update
  {
    hide SlotOf;
    if lane != [] { StripAt(lane[1..]); }
  }

  lemma StampedIsSorted(lane: seq<Step>)
    requires Stamped(lane) && SeenRise(Strip(lane))
    ensures SlotSorted(lane)
  {
    StripAt(lane);
    hide SlotOf, Strip;
    forall i, j | 0 <= i < j < |lane| ensures lane[i].item.slot <= lane[j].item.slot {
      assert SlotOf(Strip(lane)[i].0) <= SlotOf(Strip(lane)[j].0);
    }
  }

  lemma NothingStamped()
    ensures Stamped([])
  {
  }

  lemma LaneIsStamped(c: Codec, cat: Catalog, sub: Subscription, content: Content, stream: Stream)
    ensures Stamped(FullLane(c, cat, sub, content, stream))
  {
    NothingStamped();
    hide Stamped, WantedFrom;
    if HasStream(sub, stream) {
      var tree := TreeOf(cat, stream);
      HeldIsStamped(c, tree, stream, NamedFilters(sub, stream), content, Ascending(tree.Keys));
    }
  }

  lemma StampedIsFine(lane: seq<Step>)
    requires Stamped(lane)
    ensures NoFailure(lane)
  {
    hide SlotOf;
  }

  /** Messages held in slot order make a sorted lane. */
  lemma LaneIsSorted(c: Codec, cat: Catalog, sub: Subscription, content: Content, stream: Stream)
    requires UpdatesRise(HeldOf(cat, content, stream))
    ensures SlotSorted(FullLane(c, cat, sub, content, stream))
  {
    hide *;
    PickedRises(c, NamedFilters(sub, stream), HeldOf(cat, content, stream));
    LaneIsPicked(c, cat, sub, content, stream);
    LaneIsStamped(c, cat, sub, content, stream);
    StampedIsSorted(FullLane(c, cat, sub, content, stream));
  }

  /** Every stream's messages are held in slot order. */
  ghost predicate HeldInOrder(cat: Catalog, content: Content) {
    forall stream :: UpdatesRise(HeldOf(cat, content, stream))
  }

  lemma LanesAreSorted(c: Codec, cat: Catalog, sub: Subscription, content: Content)
    requires HeldInOrder(cat, content)
    ensures Sorted(FullLanes(c, cat, sub, content))
  {
    hide FullLane, SlotSorted, Stamped, UpdatesRise, HeldOf;
    forall stream
      ensures SlotSorted(FullLane(c, cat, sub, content, stream)) && NoFailure(FullLane(c, cat, sub, content, stream))
    {
      LaneIsSorted(c, cat, sub, content, stream);
      LaneIsStamped(c, cat, sub, content, stream);
      StampedIsFine(FullLane(c, cat, sub, content, stream));
    }
    hide NoFailure;
  }

  /** Then everything deliverable comes sorted by slot, ties by stream. */
  lemma DeliverableIsSorted(c: Codec, cat: Catalog, sub: Subscription, content: Content, from: nat)
    requires HeldInOrder(cat, content)
    ensures MergeSorted(Deliverable(c, cat, sub, content, from))
  {
    LanesAreSorted(c, cat, sub, content);
    hide FullLanes, MergeAll, FloorOut, SlotSorted, HeldInOrder, MergeSorted;
    var full := FullLanes(c, cat, sub, content);
    SortedFloor(full, from);
    FloorCommutes(full, from);
    hide NoFailures, FloorLanes;
    MergeSorts(FloorLanes(full, from));
  }

  // ----- nothing held is below the floor of an open-ended request -----

  ghost predicate AtLeast(lane: seq<Step>, low: nat) {
    forall i :: 0 <= i < |lane| ==> lane[i].Got? && low <= lane[i].item.slot
  }

  lemma {:induction false} FloorKeepsAll(lane: seq<Step>, from: nat)
    requires AtLeast(lane, from)
    ensures FloorLane(lane, from) == lane
  {
    if lane != [] { FloorKeepsAll(lane[1..], from); }
  }

  lemma AtLeastConcat(a: seq<Step>, b: seq<Step>, low: nat)
    requires AtLeast(a, low) && AtLeast(b, low)
    ensures AtLeast(a + b, low)
  {
  }

  lemma InRangeAtLeast(lane: seq<Step>, low: nat, start: nat, end: nat)
    requires SlotsIn(lane, start, end) && low <= start
    ensures AtLeast(lane, low)
  {
  }

  lemma ChunkAtLeast(c: Codec, tree: Tree, stream: Stream, named: Named, content: Content, s: nat, low: nat)
    requires RecordedTree(c, tree, stream, content) && s in tree && low <= s
    ensures AtLeast(WantedAt(c, tree, stream, named, content, s), low)
  {
    var us := MessagesAt(content, stream, s);
    assert Records(c, tree[s], us);
    hide RecordedTree, Wanted;
    WantedInRange(c, named, tree[s].meta, us, 0, s, tree[s].endSlotExclusive);
    hide Records;
    InRangeAtLeast(WantedAt(c, tree, stream, named, content, s), low, s, tree[s].endSlotExclusive);
  }

  lemma {:induction false} HeldAtLeast(
      c: Codec, tree: Tree, stream: Stream, named: Named, content: Content, starts: seq<nat>, low: nat)
    requires RecordedTree(c, tree, stream, content)
    requires forall s :: s in starts ==> s in tree && low <= s
    ensures AtLeast(WantedFrom(c, tree, stream, named, content, starts), low)
  {
    if starts != [] {
      var s := starts[0];
      hide RecordedTree, Records, Wanted, WantedAt, AtLeast, SlotsIn;
      assert s in starts && forall r :: r in starts[1..] ==> r in starts;
      ChunkAtLeast(c, tree, stream, named, content, s, low);
      HeldAtLeast(c, tree, stream, named, content, starts[1..], low);
      AtLeastConcat(
        WantedAt(c, tree, stream, named, content, s), WantedFrom(c, tree, stream, named, content, starts[1..]), low);
    }
  }

  lemma MinStartIsLeast(cat: Catalog, sub: Subscription, stream: Stream)
    requires HasStream(sub, stream)
    ensures MinStart(cat, sub, stream).Some? <==> TreeOf(cat, stream) != map[]
    ensures MinStart(cat, sub, stream).Some? ==>
      forall s :: s in Ascending(TreeOf(cat, stream).Keys) ==> MinStart(cat, sub, stream).value <= s
  {
    var tree := TreeOf(cat, stream);
    var starts := Ascending(tree.Keys);
    if tree != map[] {
      var s :| s in tree;
      assert s in starts;
    } else {
      EmptyAscending();
    }
    hide Ascending;
  }

  lemma EmptyAscending()
    ensures Ascending({}) == []
  {
  }

  lemma FloorIsLeast(cat: Catalog, sub: Subscription, stream: Stream)
    ensures var floor, own := FirstAvailable(cat, sub), MinStart(cat, sub, stream);
      own.Some? ==> floor.Some? && floor.value <= own.value
    ensures FirstAvailable(cat, sub).Some? <==> exists s :: MinStart(cat, sub, s).Some?
  {
    hide MinStart;
    var a, b, d := MinStart(cat, sub, Tx), MinStart(cat, sub, Acct), MinStart(cat, sub, Block);
    if FirstAvailable(cat, sub).Some? {
      assert a.Some? || b.Some? || d.Some?;
    }
    forall s | MinStart(cat, sub, s).Some? ensures a.Some? || b.Some? || d.Some? {
      assert s == Tx || s == Acct || s == Block;
    }
    assert stream == Tx || stream == Acct || stream == Block;
  }

  lemma LaneAboveFloor(c: Codec, cat: Catalog, sub: Subscription, content: Content, stream: Stream)
    requires Recorded(c, cat, content) && FirstAvailable(cat, sub).Some?
    ensures AtLeast(FullLane(c, cat, sub, content, stream), FirstAvailable(cat, sub).value)
  {
    if HasStream(sub, stream) {
      var tree := TreeOf(cat, stream);
      TreeIsRecorded(c, cat, stream, content);
      MinStartIsLeast(cat, sub, stream);
      FloorIsLeast(cat, sub, stream);
      hide Recorded, RecordedTree, MinStart, FirstAvailable, WantedFrom, NamedFilters;
      HeldAtLeast(
        c, tree, stream, NamedFilters(sub, stream), content, Ascending(tree.Keys), FirstAvailable(cat, sub).value);
    }
  }

  function LaneIndex(stream: Stream): nat {
    match stream
    case Tx => 0
    case Acct => 1
    case Block => 2
  }

  /** The messages from a slot on. */
  function Since(seen: seq<Seen>, from: nat): seq<Seen> {
    if seen == [] then []
    else if SlotOf(seen[0].0) < from then Since(seen[1..], from)
    else [seen[0]] + Since(seen[1..], from)
  }

  lemma {:induction false} StripFloor(lane: seq<Step>, from: nat)
    requires Stamped(lane)
    ensures Strip(FloorLane(lane, from)) == Since(Strip(lane), from)
  {
    hide SlotOf;
    if lane != [] {
      StripFloor(lane[1..], from);
      FloorHead(lane, from);
      StripHead(lane);
      var rest := FloorLane(lane[1..], from);
      if lane[0].item.slot >= from {
        StripHead([lane[0]] + rest);
        assert ([lane[0]] + rest)[1..] == rest;
      }
      hide FloorLane, Strip;
      var head, more := (lane[0].item.update, lane[0].item.names), Strip(lane[1..]);
      assert ([head] + more)[1..] == more;
    }
  }

  lemma {:induction false} ProjectPrefix(a: seq<Tagged>, b: seq<Tagged>, lane: nat)
    requires a <= b
    ensures Project(a, lane) <= Project(b, lane)
  {
    if a != [] {
      ProjectPrefix(a[1..], b[1..], lane);
    }
  }

  lemma {:induction false} StripPrefix(a: seq<Step>, b: seq<Step>)
    requires a <= b
    ensures Strip(a) <= Strip(b)
  {
    if a != [] {
      StripPrefix(a[1..], b[1..]);
    }
  }

  /** What every pass does with the messages it is offered, in every world: it
      sends a prefix of them, and all of them exactly when each is in time. */
  ghost predicate SendsInOrder(w: World, offered: seq<Tagged>, ps: PacerState, end: PassEnd)
    requires w.cfg.Valid()
  {
    && end.progress.delivered <= offered
    && (end.exit == Drained <==> Undisturbed(w, offered, Start(ps)))
    && (end.exit == Drained ==> end.progress.delivered == offered)
    && end.exit != DecodeError
  }

  lemma PassSendsInOrder(c: Codec, w: World, plan: ReplayPlan, ps: PacerState)
    requires w.cfg.Valid() && !MergeAll(PlanLanes(c, plan)).failed
    ensures SendsInOrder(
      w, FloorOut(MergeAll(PlanLanes(c, plan)).out, plan.fromSlot), ps, PlanPass(c, w, plan, ps))
  {
    var out := FloorOut(MergeAll(PlanLanes(c, plan)).out, plan.fromSlot);
    hide MergeAll, PlanLanes, FloorOut, Undisturbed;
    GetsThroughExactly(w, out, false, Start(ps));
    EveryExitAccounts(w, out, false, Start(ps));
    assert [] + out == out;
    hide Pump;
  }

  /** The deliverable messages of one stream are what its filters match among
      everything held, from the start slot on. */
  lemma StreamOfDeliverable(c: Codec, cat: Catalog, sub: Subscription, content: Content, from: nat, stream: Stream)
    requires !MergeAll(FullLanes(c, cat, sub, content)).failed
    ensures Strip(Project(Deliverable(c, cat, sub, content, from), LaneIndex(stream)))
      == Since(Picked(c, NamedFilters(sub, stream), HeldOf(cat, content, stream)), from)
  {
    hide FullLane, MergeAll, Strip, Since, Picked, Project, Stamped, HeldOf, FloorLane, FloorOut;
    var full, k := FullLanes(c, cat, sub, content), LaneIndex(stream);
    FloorCommutes(full, from);
    MergeInterleaves(FloorLanes(full, from), k);
    LaneIsStamped(c, cat, sub, content, stream);
    StripFloor(full[k], from);
    LaneIsPicked(c, cat, sub, content, stream);
  }

  lemma RecordedNeverFails(c: Codec, cat: Catalog, sub: Subscription, content: Content)
    ensures !MergeAll(FullLanes(c, cat, sub, content)).failed
  {
    hide FullLane, MergeAll, Stamped;
    forall stream ensures NoFailure(FullLane(c, cat, sub, content, stream)) {
      LaneIsStamped(c, cat, sub, content, stream);
      StampedIsFine(FullLane(c, cat, sub, content, stream));
    }
    NoFailuresDrains(FullLanes(c, cat, sub, content));
  }

  /** Over any recorded catalog, from any available start, in every world: what
      is sent is a prefix of what is deliverable, and all of it exactly when
      every message is in time. */
  lemma ReplayDelivers(
      c: Codec, w: World, cat: Catalog, sub: Subscription, content: Content, requested: Option<nat>, ps: PacerState)
    requires Recorded(c, cat, content) && w.cfg.Valid() && PlanOf(c, cat, sub, requested).Ok?
    ensures var plan := PlanOf(c, cat, sub, requested).value;
      SendsInOrder(w, Deliverable(c, cat, sub, content, plan.fromSlot), ps, PlanPass(c, w, plan, ps))
  {
    hide *;
    PlanIsComplete(c, cat, sub, content, requested);
    RecordedNeverFails(c, cat, sub, content);
    PassSendsInOrder(c, w, PlanOf(c, cat, sub, requested).value, ps);
  }

  /** Without a start slot, everything held and wanted is deliverable. */
  lemma OpenReplayDeliversAll(c: Codec, cat: Catalog, sub: Subscription, content: Content, stream: Stream)
    requires Recorded(c, cat, content) && PlanOf(c, cat, sub, None).Ok?
    ensures var out := Deliverable(c, cat, sub, content, PlanOf(c, cat, sub, None).value.fromSlot);
      && out == MergeAll(FullLanes(c, cat, sub, content)).out
      && Strip(Project(out, LaneIndex(stream))) == Picked(c, NamedFilters(sub, stream), HeldOf(cat, content, stream))
  {
    hide *;
    PlanIsComplete(c, cat, sub, content, None);
    OpenStart(cat, sub);
    FloorOfFull(c, cat, sub, content);
    LaneOfStream(c, cat, sub, content, stream);
    MergeInterleaves(FullLanes(c, cat, sub, content), LaneIndex(stream));
    LaneIsPicked(c, cat, sub, content, stream);
  }

  /** What a sent prefix shows of one stream is a prefix of what is offered. */
  lemma SentOfStream(w: World, offered: seq<Tagged>, ps: PacerState, end: PassEnd, lane: nat)
    requires w.cfg.Valid() && SendsInOrder(w, offered, ps, end)
    ensures Strip(Project(end.progress.delivered, lane)) <= Strip(Project(offered, lane))
  {
    hide Undisturbed, Strip, Project;
    ProjectPrefix(end.progress.delivered, offered, lane);
    StripPrefix(Project(end.progress.delivered, lane), Project(offered, lane));
  }

  lemma OpenStart(cat: Catalog, sub: Subscription)
    ensures StartSlot(cat, sub, None).Ok? <==> FirstAvailable(cat, sub).Some?
    ensures StartSlot(cat, sub, None).Ok? ==> StartSlot(cat, sub, None).value == FirstAvailable(cat, sub).value
  {
    hide FirstAvailable;
  }

  lemma LaneOfStream(c: Codec, cat: Catalog, sub: Subscription, content: Content, stream: Stream)
    ensures LaneIndex(stream) < 3
    ensures FullLanes(c, cat, sub, content)[LaneIndex(stream)] == FullLane(c, cat, sub, content, stream)
  {
    hide FullLane;
  }

  lemma FloorOfFull(c: Codec, cat: Catalog, sub: Subscription, content: Content)
    requires Recorded(c, cat, content) && FirstAvailable(cat, sub).Some?
    ensures var full := FullLanes(c, cat, sub, content);
      !MergeAll(full).failed && Deliverable(c, cat, sub, content, FirstAvailable(cat, sub).value) == MergeAll(full).out
  {
    var from := FirstAvailable(cat, sub).value;
    var full := FullLanes(c, cat, sub, content);
    forall stream ensures AtLeast(FullLane(c, cat, sub, content, stream), from) {
      LaneAboveFloor(c, cat, sub, content, stream);
    }
    hide Recorded, FullLane, FirstAvailable;
    FloorKeepsAll(full[0], from);
    FloorKeepsAll(full[1], from);
    FloorKeepsAll(full[2], from);
    assert FloorLanes(full, from) == full;
    FloorCommutes(full, from);
    assert NoFailures(full);
    NoFailuresDrains(full);
  }

  // ----- in terms of what arrived -----

  /** The messages a recorder accepted, range by range: those of the ranges at
      these starts. */
  function AcceptedFrom(cfg: WriterConfig, es: seq<Event>, starts: seq<nat>): seq<Update>
    requires cfg.Valid()
  {
    if starts == [] then []
    else UpdatesOf(AcceptedInto(cfg, EMPTY, es, Bucket(cfg, starts[0]))) + AcceptedFrom(cfg, es, starts[1..])
  }

  lemma {:induction false} HeldIsAccepted(cfg: WriterConfig, feed: Feed, stream: Stream, starts: seq<nat>)
    requires cfg.Valid() && forall s :: s in starts ==> Bucket(cfg, s) in DiskOf(cfg, feed(stream))
    ensures HeldFrom(stream, ContentFor(cfg, feed), starts) == AcceptedFrom(cfg, feed(stream), starts)
  {
    hide DiskOf, AcceptedInto, UpdatesOf;
    if starts != [] {
      DiskHoldsAccepted(cfg, feed(stream), Bucket(cfg, starts[0]));
      HeldIsAccepted(cfg, feed, stream, starts[1..]);
    }
  }

  lemma TreeOfFeed(c: Codec, cfg: WriterConfig, feed: Feed, stream: Stream)
    requires cfg.Valid()
    ensures var tree, disk := TreeOf(CatalogFor(c, cfg, feed), stream), DiskOf(cfg, feed(stream));
      && (tree == map[] <==> disk == map[])
      && (forall s :: s in tree ==> Bucket(cfg, s) in disk && Bucket(cfg, s) * cfg.slotsPerChunk == s)
      && (forall i :: i in disk ==> i * cfg.slotsPerChunk in tree && Bucket(cfg, i * cfg.slotsPerChunk) == i)
  {
    var tree, disk := TreeOf(CatalogFor(c, cfg, feed), stream), DiskOf(cfg, feed(stream));
    hide DiskOf, EntryOf;
    if disk == map[] {
      assert tree == map[];
    } else {
      assert tree == TreeFor(c, cfg, stream, disk);
      hide TreeFor, CatalogFor;
      forall s | s in tree
        ensures Bucket(cfg, s) in disk && Bucket(cfg, s) * cfg.slotsPerChunk == s
      {
        var i := StartsOnly(c, cfg, stream, disk, s);
      }
      forall i | i in disk
        ensures i * cfg.slotsPerChunk in tree && Bucket(cfg, i * cfg.slotsPerChunk) == i
      {
        StartOf(c, cfg, stream, disk, i);
      }
      var i :| i in disk;
      assert i * cfg.slotsPerChunk in tree;
    }
  }

  /** The starts of a recorded stream's chunks. */
  function StartsOf(c: Codec, cfg: WriterConfig, feed: Feed, stream: Stream): seq<nat>
    requires cfg.Valid()
  {
    Ascending(TreeOf(CatalogFor(c, cfg, feed), stream).Keys)
  }

  /** A replay can be planned exactly when a subscribed stream has a chunk. */
  lemma PlannableExactly(c: Codec, cfg: WriterConfig, feed: Feed, sub: Subscription)
    requires c.Lawful() && cfg.Valid() && forall stream :: Recordable(c, cfg, stream, feed(stream))
    ensures var r := PlanOf(c, CatalogFor(c, cfg, feed), sub, None);
      && (r.Ok? <==> exists stream :: HasStream(sub, stream) && DiskOf(cfg, feed(stream)) != map[])
      && (r.Err? ==> r.error == NoChunksAvailable)
  {
    var cat := CatalogFor(c, cfg, feed);
    StoppedIsRecorded(c, cfg, feed);
    PlanIsComplete(c, cat, sub, ContentFor(cfg, feed), None);
    FloorIsLeast(cat, sub, Tx);
    hide Recordable, DiskOf, FirstAvailable, CatalogFor, PlanStream, HasStream, Recorded;
    forall stream
      ensures MinStart(cat, sub, stream).Some? <==> HasStream(sub, stream) && DiskOf(cfg, feed(stream)) != map[]
    {
      TreeOfFeed(c, cfg, feed, stream);
      if HasStream(sub, stream) { MinStartIsLeast(cat, sub, stream); }
    }
    hide MinStart;
  }

  /** What a replay of the recorded directory offers. */
  ghost function Offered(c: Codec, cfg: WriterConfig, feed: Feed, sub: Subscription, from: nat): seq<Tagged>
    requires cfg.Valid()
  {
    Deliverable(c, CatalogFor(c, cfg, feed), sub, ContentFor(cfg, feed), from)
  }

  /** Record, stop, replay from any available start, in every world: of each
      stream, what is offered is exactly the matching messages among those its
      recorder accepted, from the start on, whatever the recorders went through;
      a prefix of it is sent, and all of it exactly when every message is in
      time. */
  lemma RecordedIsReplayed(
      c: Codec, cfg: WriterConfig, feed: Feed, w: World, sub: Subscription, requested: Option<nat>, ps: PacerState,
      stream: Stream)
    requires c.Lawful() && cfg.Valid() && forall s :: Recordable(c, cfg, s, feed(s))
    requires w.cfg.Valid() && PlanOf(c, CatalogFor(c, cfg, feed), sub, requested).Ok?
    ensures var plan := PlanOf(c, CatalogFor(c, cfg, feed), sub, requested).value;
      var offered, end := Offered(c, cfg, feed, sub, plan.fromSlot), PlanPass(c, w, plan, ps);
      var all := Picked(c, NamedFilters(sub, stream), AcceptedFrom(cfg, feed(stream), StartsOf(c, cfg, feed, stream)));
      && SendsInOrder(w, offered, ps, end)
      && Strip(Project(offered, LaneIndex(stream))) == Since(all, plan.fromSlot)
      && Strip(Project(end.progress.delivered, LaneIndex(stream))) <= Since(all, plan.fromSlot)
      && (requested.None? ==> Since(all, plan.fromSlot) == all)
  {
    hide *;
    StoppedIsRecorded(c, cfg, feed);
    HeldInArchive(c, cfg, feed, stream);
    var cat, content := CatalogFor(c, cfg, feed), ContentFor(cfg, feed);
    var plan := PlanOf(c, cat, sub, requested).value;
    OfferedIs(c, cfg, feed, sub, plan.fromSlot);
    ReplayDelivers(c, w, cat, sub, content, requested, ps);
    RecordedNeverFails(c, cat, sub, content);
    StreamOfDeliverable(c, cat, sub, content, plan.fromSlot, stream);
    SentOfStream(w, Offered(c, cfg, feed, sub, plan.fromSlot), ps, PlanPass(c, w, plan, ps), LaneIndex(stream));
    if requested.None? {
      OpenReplayDeliversAll(c, cat, sub, content, stream);
    }
  }

  lemma OfferedIs(c: Codec, cfg: WriterConfig, feed: Feed, sub: Subscription, from: nat)
    requires cfg.Valid()
    ensures Offered(c, cfg, feed, sub, from)
      == Deliverable(c, CatalogFor(c, cfg, feed), sub, ContentFor(cfg, feed), from)
  {
  }

  /** Everything the archive holds of a stream is everything accepted. */
  lemma HeldInArchive(c: Codec, cfg: WriterConfig, feed: Feed, stream: Stream)
    requires cfg.Valid()
    ensures HeldOf(CatalogFor(c, cfg, feed), ContentFor(cfg, feed), stream)
      == AcceptedFrom(cfg, feed(stream), StartsOf(c, cfg, feed, stream))
  {
    TreeOfFeed(c, cfg, feed, stream);
    hide DiskOf, CatalogFor, ContentFor, AcceptedFrom, HeldFrom;
    HeldIsAccepted(cfg, feed, stream, StartsOf(c, cfg, feed, stream));
  }
}
