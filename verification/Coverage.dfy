/** Plan completeness: over recorded chunks, a plan covers every wanted message
    from its start slot on, and nothing else. */
module Coverage {
  import opened Core
  import opened Updates
  import opened Codecs
  import opened Frames
  import opened IndexRead
  import opened Filters
  import opened Cursor
  import opened Merge
  import opened Replay
  import opened Plan

  // ----- what the user asked for, stated on messages -----

  /** The names of the filters a message satisfies. */
  ghost function NamesOf(c: Codec, named: Named, u: Update): seq<string> {
    if named == [] then []
    else (if Matches(c, named[0].1, u) then [named[0].0] else []) + NamesOf(c, named[1..], u)
  }

  function SlotOf(u: Update): nat {
    if ExtractSlot(u).Some? then ExtractSlot(u).value else 0
  }

  ghost function ItemOf(c: Codec, named: Named, meta: ChunkMeta, us: seq<Update>, i: nat): Item
    requires i < |us|
  {
    Item(SlotOf(us[i]), us[i], NamesOf(c, named, us[i]), ExtractRecvNs(us[i], meta, i))
  }

  /** Scanning a chunk's messages from ordinal `n` on for the wanted ones. */
  ghost function Wanted(c: Codec, named: Named, meta: ChunkMeta, us: seq<Update>, n: nat): seq<Step>
    requires n <= |us|
    decreases |us| - n
  {
    if n == |us| then []
    else if NamesOf(c, named, us[n]) == [] then Wanted(c, named, meta, us, n + 1)
    else [Got(ItemOf(c, named, meta, us, n))] + Wanted(c, named, meta, us, n + 1)
  }

  // ----- recorded chunks -----

  ghost predicate ForStream(named: Named, stream: Stream) {
    forall i :: 0 <= i < |named| ==> named[i].1.StreamOf() == stream
  }

  /** The payload file decodes to exactly these messages. */
  ghost predicate PayloadIs(c: Codec, zst: Bytes, us: seq<Update>) {
    && Decode(zst).Ok?
    && forall i :: 0 <= i < |us| ==> DecodeMessage(c, Decode(zst).value, i) == Some(us[i])
  }

  /** The entry's files record exactly these messages, all inside its range. */
  ghost predicate Records(c: Codec, e: ChunkEntry, us: seq<Update>) {
    && PayloadIs(c, e.zst, us)
    && ParseIndex(c, e.idx).Ok? && IndexOf(c, ParseIndex(c, e.idx).value, e.stream, us)
    && |us| < U32
    && (forall i :: 0 <= i < |us| ==> e.startSlot <= SlotOf(us[i]) < e.endSlotExclusive)
    && e.startSlot < e.endSlotExclusive
  }

  // ----- one chunk: index, bitmaps and lazy decoding give the scan -----

  lemma {:induction false} NamesAgree(c: Codec, idx: ChunkIndex, named: Named, stream: Stream, us: seq<Update>, i: nat)
    requires IndexOf(c, idx, stream, us) && |us| < U32 && ForStream(named, stream) && i < |us|
    ensures NamesAt(BitmapsOf(c, idx, named), i) == NamesOf(c, named, us[i])
  {
    assert idx.Valid();
    hide IndexOf, Matches, Selected;
    if named != [] {
      assert named[0].1.StreamOf() == stream;
      SelectedIsScanned(c, idx, us, named[0].1);
      assert i in Scanned(c, us, named[0].1) <==> Matches(c, named[0].1, us[i]);
      NamesAgree(c, idx, named[1..], stream, us, i);
      assert BitmapsOf(c, idx, named)[1..] == BitmapsOf(c, idx, named[1..]);
    }
  }

  lemma {:induction false} UnionHead(bitmaps: seq<(string, set<nat>)>)
    requires bitmaps != []
    ensures UnionOf(bitmaps) == bitmaps[0].1 + UnionOf(bitmaps[1..])
  {
    var n := |bitmaps| - 1;
    if n > 0 {
      UnionHead(bitmaps[..n]);
      assert bitmaps[..n][1..] == bitmaps[1..][..n - 1];
      assert bitmaps[1..][n - 1] == bitmaps[n];
    }
  }

  /** An ordinal is planned exactly when at least one filter names it. */
  lemma {:induction false} UnionIsNamed(bitmaps: seq<(string, set<nat>)>, i: nat)
    ensures i in UnionOf(bitmaps) <==> NamesAt(bitmaps, i) != []
  {
    if bitmaps != [] {
      UnionHead(bitmaps);
      UnionIsNamed(bitmaps[1..], i);
    }
  }

  /** And every name it carries is a filter whose bitmap contains it. */
  lemma {:induction false} NamesAtExactly(bitmaps: seq<(string, set<nat>)>, i: nat, name: string)
    ensures name in NamesAt(bitmaps, i) <==> exists b :: b in bitmaps && b.0 == name && i in b.1
  {
    if bitmaps != [] {
      NamesAtExactly(bitmaps[1..], i, name);
      assert bitmaps == [bitmaps[0]] + bitmaps[1..];
    }
  }

  lemma {:induction false} BitmapsBounded(c: Codec, idx: ChunkIndex, named: Named, i: nat)
    requires idx.Valid() && i in UnionOf(BitmapsOf(c, idx, named))
    ensures i in MatchAll(idx.header.messageCount)
  {
    hide TxHolds, AcctHolds;
    if named != [] {
      UnionHead(BitmapsOf(c, idx, named));
      assert BitmapsOf(c, idx, named)[1..] == BitmapsOf(c, idx, named[1..]);
      if i in UnionOf(BitmapsOf(c, idx, named[1..])) {
        BitmapsBounded(c, idx, named[1..], i);
      }
    }
  }

  ghost function WantedOrds(c: Codec, named: Named, us: seq<Update>, n: nat): (r: seq<nat>)
    requires n <= |us|
    ensures IsAscending(r)
    ensures forall i :: i in r <==> n <= i < |us| && NamesOf(c, named, us[i]) != []
    decreases |us| - n
  {
    if n == |us| then []
    else if NamesOf(c, named, us[n]) == [] then WantedOrds(c, named, us, n + 1)
    else
      var rest := WantedOrds(c, named, us, n + 1);
      assert forall k :: 0 <= k < |rest| ==> rest[k] in rest;
      [n] + rest
  }

  lemma StepIsItem(c: Codec, d: DecodedChunk, plan: ChunkPlan, named: Named, us: seq<Update>, n: nat)
    requires n < |us| && DecodeMessage(c, d, n) == Some(us[n]) && NamesAt(plan.named, n) == NamesOf(c, named, us[n])
    ensures StepAt(c, d, plan, n) == Got(ItemOf(c, named, plan.entry.meta, us, n))
  {
  }

  lemma {:induction false} StepsAreWanted(
      c: Codec, d: DecodedChunk, plan: ChunkPlan, named: Named, us: seq<Update>, n: nat)
    requires n <= |us|
    requires forall i :: 0 <= i < |us| ==> DecodeMessage(c, d, i) == Some(us[i])
    requires forall i :: 0 <= i < |us| ==> NamesAt(plan.named, i) == NamesOf(c, named, us[i])
    ensures StepsAt(c, d, plan, WantedOrds(c, named, us, n)) == Wanted(c, named, plan.entry.meta, us, n)
    decreases |us| - n
  {
    hide DecodeMessage, NamesAt, NamesOf, StepAt, ItemOf;
    if n < |us| {
      StepsAreWanted(c, d, plan, named, us, n + 1);
      StepIsItem(c, d, plan, named, us, n);
      if NamesOf(c, named, us[n]) != [] {
        StepsAtCons(c, d, plan, n, WantedOrds(c, named, us, n + 1));
      }
    }
  }

  lemma StepsAtCons(c: Codec, d: DecodedChunk, plan: ChunkPlan, ord: nat, ords: seq<nat>)
    ensures StepsAt(c, d, plan, [ord] + ords) == [StepAt(c, d, plan, ord)] + StepsAt(c, d, plan, ords)
  {
    hide StepAt;
    assert ([ord] + ords)[0] == ord && ([ord] + ords)[1..] == ords;
  }

  /** A planned chunk yields exactly what scanning its messages would. */
  lemma ChunkIsScanned(c: Codec, e: ChunkEntry, named: Named, us: seq<Update>)
    requires Records(c, e, us) && ForStream(named, e.stream)
    ensures var idx := ParseIndex(c, e.idx).value;
      PlanSteps(c, PlanChunk(c, named, e, idx)) == Wanted(c, named, e.meta, us, 0)
  {
    var idx := ParseIndex(c, e.idx).value;
    var plan := PlanChunk(c, named, e, idx);
    var d := Decode(e.zst).value;
    hide ParseIndex, Decode, DecodeMessage, IndexOf, NamesAt, NamesOf, UnionOf, BitmapsOf;
    forall i | 0 <= i < |us| ensures NamesAt(plan.named, i) == NamesOf(c, named, us[i]) {
      NamesAgree(c, idx, named, e.stream, us, i);
    }
    PlannedOrds(c, e, named, us, idx);
    StepsAreWanted(c, d, plan, named, us, 0);
    if plan.union == {} {
      assert WantedOrds(c, named, us, 0) == [] by { AscendingEmpty(); }
    }
  }

  lemma AscendingEmpty()
    ensures Ascending({}) == []
  {
  }

  lemma PlannedOrds(c: Codec, e: ChunkEntry, named: Named, us: seq<Update>, idx: ChunkIndex)
    requires IndexOf(c, idx, e.stream, us) && |us| < U32
    requires forall i :: 0 <= i < |us| ==> NamesAt(BitmapsOf(c, idx, named), i) == NamesOf(c, named, us[i])
    ensures Ascending(UnionOf(BitmapsOf(c, idx, named))) == WantedOrds(c, named, us, 0)
  {
    var union, ords := UnionOf(BitmapsOf(c, idx, named)), WantedOrds(c, named, us, 0);
    assert idx.header.messageCount == |us|;
    hide IndexOf, UnionOf, NamesAt, NamesOf, BitmapsOf;
    forall i: nat ensures i in Ascending(union) <==> i in ords {
      UnionIsNamed(BitmapsOf(c, idx, named), i);
      if i in union {
        BitmapsBounded(c, idx, named, i);
        assert i < |us|;
      }
    }
    AscendingUnique(Ascending(union), ords);
  }

  // ----- a whole stream -----

  /** What is recorded where: the messages of every chunk. */
  type Content = (Stream, nat) -> seq<Update>

  function MessagesAt(content: Content, stream: Stream, start: nat): seq<Update> {
    content(stream, start)
  }

  /** The catalog lists recorded chunks, each under its own stream and start. */
  ghost predicate Recorded(c: Codec, cat: Catalog, content: Content) {
    forall stream, start :: stream in cat.streams && start in cat.streams[stream] ==>
      var e := cat.streams[stream][start];
      e.stream == stream && e.startSlot == start && Records(c, e, MessagesAt(content, stream, start))
  }

  ghost predicate RecordedTree(c: Codec, tree: Tree, stream: Stream, content: Content) {
    forall start :: start in tree ==>
      tree[start].stream == stream && tree[start].startSlot == start
      && Records(c, tree[start], MessagesAt(content, stream, start))
  }

  lemma TreeIsRecorded(c: Codec, cat: Catalog, stream: Stream, content: Content)
    requires Recorded(c, cat, content)
    ensures RecordedTree(c, TreeOf(cat, stream), stream, content)
  {
    hide Records;
  }

  ghost function WantedAt(c: Codec, tree: Tree, stream: Stream, named: Named, content: Content, start: nat): seq<Step>
    requires start in tree
  {
    var us := MessagesAt(content, stream, start);
    Wanted(c, named, tree[start].meta, us, 0)
  }

  /** The wanted messages of the chunks at these starts, in order. */
  ghost function WantedFrom(
      c: Codec, tree: Tree, stream: Stream, named: Named, content: Content, starts: seq<nat>): seq<Step>
    requires forall s :: s in starts ==> s in tree
  {
    if starts == [] then []
    else
      var rest := WantedFrom(c, tree, stream, named, content, starts[1..]);
      WantedAt(c, tree, stream, named, content, starts[0]) + rest
  }

  /** Everything held on a stream that the subscription wants. */
  ghost function FullLane(c: Codec, cat: Catalog, sub: Subscription, content: Content, stream: Stream): seq<Step> {
    var tree := TreeOf(cat, stream);
    if !HasStream(sub, stream) then []
    else WantedFrom(c, tree, stream, NamedFilters(sub, stream), content, Ascending(tree.Keys))
  }

  ghost function FullLanes(c: Codec, cat: Catalog, sub: Subscription, content: Content): Lanes {
    [FullLane(c, cat, sub, content, Tx), FullLane(c, cat, sub, content, Acct), FullLane(c, cat, sub, content, Block)]
  }

  ghost predicate SlotsIn(lane: seq<Step>, low: nat, high: nat) {
    forall i :: 0 <= i < |lane| ==> lane[i].Got? && low <= lane[i].item.slot < high
  }

  lemma {:induction false} WantedInRange(
      c: Codec, named: Named, meta: ChunkMeta, us: seq<Update>, n: nat, low: nat, high: nat)
    requires n <= |us| && forall i :: 0 <= i < |us| ==> low <= SlotOf(us[i]) < high
    ensures SlotsIn(Wanted(c, named, meta, us, n), low, high)
    decreases |us| - n
  {
    hide NamesOf, ExtractRecvNs;
    if n < |us| { WantedInRange(c, named, meta, us, n + 1, low, high); }
  }

  lemma {:induction false} FloorDropsAll(lane: seq<Step>, low: nat, high: nat, from: nat)
    requires SlotsIn(lane, low, high) && high <= from
    ensures FloorLane(lane, from) == []
  {
    if lane != [] { FloorDropsAll(lane[1..], low, high, from); }
  }

  /** The plan of the chunks at `starts` that are in range covers them all. */
  ghost predicate Covers(
      c: Codec, tree: Tree, stream: Stream, named: Named, content: Content, starts: seq<nat>, from: nat, to: nat)
    requires forall s :: s in starts ==> s in tree
  {
    var planned := PlanEntries(c, named, InRange(tree, starts, from, to));
    && planned.Ok?
    && FloorLane(AllSteps(c, planned.value), from)
      == FloorLane(WantedFrom(c, tree, stream, named, content, starts), from)
  }

  lemma CoversOneMore(
      c: Codec, tree: Tree, stream: Stream, named: Named, content: Content, s: nat, rest: seq<nat>, from: nat, to: nat)
    requires s in tree && s < to && forall r :: r in rest ==> r in tree
    requires RecordedTree(c, tree, stream, content) && ForStream(named, stream)
    requires Covers(c, tree, stream, named, content, rest, from, to)
    ensures Covers(c, tree, stream, named, content, [s] + rest, from, to)
  {
    RangeCoversOne(c, tree, stream, named, content, s, from, to);
    hide Records, RecordedTree, ForStream, PlanChunk, ParseIndex, PlanSteps, FloorLane, WantedAt, AllSteps, PlanEntries;
    assert ([s] + rest)[0] == s && ([s] + rest)[1..] == rest;
    var wanted := WantedFrom(c, tree, stream, named, content, rest);
    assert WantedFrom(c, tree, stream, named, content, [s] + rest)
      == WantedAt(c, tree, stream, named, content, s) + wanted;
    FloorConcat(WantedAt(c, tree, stream, named, content, s), wanted, from);
    if Overlaps(tree[s], s, from, to) {
      OneMorePlan(c, named, tree[s], InRange(tree, rest, from, to), from);
    } else {
      assert [] + FloorLane(wanted, from) == FloorLane(wanted, from);
    }
  }

  /** The chunks in range give, from the floor on, what all chunks give. */
  lemma {:induction false} RangeCovers(
      c: Codec, tree: Tree, stream: Stream, named: Named, content: Content, starts: seq<nat>, from: nat, to: nat)
    requires forall s :: s in starts ==> s in tree && s < to
    requires RecordedTree(c, tree, stream, content) && ForStream(named, stream)
    ensures Covers(c, tree, stream, named, content, starts, from, to)
  {
    if starts != [] {
      hide RecordedTree, ForStream, Covers;
      assert starts == [starts[0]] + starts[1..];
      assert starts[0] in starts && forall r :: r in starts[1..] ==> r in starts;
      RangeCovers(c, tree, stream, named, content, starts[1..], from, to);
      CoversOneMore(c, tree, stream, named, content, starts[0], starts[1..], from, to);
    }
  }

  lemma OneMorePlan(c: Codec, named: Named, e: ChunkEntry, entries: seq<ChunkEntry>, from: nat)
    requires ParseIndex(c, e.idx).Ok? && PlanEntries(c, named, entries).Ok?
    ensures var head := PlanChunk(c, named, e, ParseIndex(c, e.idx).value);
      var all := PlanEntries(c, named, [e] + entries);
      && all.Ok?
      && FloorLane(AllSteps(c, all.value), from)
        == FloorLane(PlanSteps(c, head), from) + FloorLane(AllSteps(c, PlanEntries(c, named, entries).value), from)
  {
    hide PlanChunk, ParseIndex, PlanSteps, FloorLane;
    var head := PlanChunk(c, named, e, ParseIndex(c, e.idx).value);
    var more := PlanEntries(c, named, entries).value;
    assert ([e] + entries)[0] == e && ([e] + entries)[1..] == entries;
    assert ([head] + more)[0] == head && ([head] + more)[1..] == more;
    FloorConcat(PlanSteps(c, head), AllSteps(c, more), from);
  }

  lemma RangeCoversOne(
      c: Codec, tree: Tree, stream: Stream, named: Named, content: Content, start: nat, from: nat, to: nat)
    requires start in tree && start < to
    requires RecordedTree(c, tree, stream, content) && ForStream(named, stream)
    ensures ParseIndex(c, tree[start].idx).Ok?
    ensures var idx := ParseIndex(c, tree[start].idx).value;
      PlanSteps(c, PlanChunk(c, named, tree[start], idx)) == WantedAt(c, tree, stream, named, content, start)
    ensures !Overlaps(tree[start], start, from, to) ==>
      FloorLane(WantedAt(c, tree, stream, named, content, start), from) == []
  {
    var e, us := tree[start], MessagesAt(content, stream, start);
    assert Records(c, e, us);
    ChunkIsScanned(c, e, named, us);
    WantedInRange(c, named, e.meta, us, 0, e.startSlot, e.endSlotExclusive);
    if !Overlaps(e, start, from, to) {
      FloorDropsAll(WantedAt(c, tree, stream, named, content, start), e.startSlot, e.endSlotExclusive, from);
    }
  }

  lemma LastStart(tree: Tree, start: nat)
    requires start in tree
    ensures var starts := Ascending(tree.Keys);
      starts != [] && starts[|starts| - 1] in tree && start <= starts[|starts| - 1]
  {
    var starts := Ascending(tree.Keys);
    assert start in starts;
    var i :| 0 <= i < |starts| && starts[i] == start;
    assert starts[|starts| - 1] in starts;
  }

  /** Chunk ranges are not empty, so the newest end excludes no chunk. */
  lemma EndExcludesNothing(c: Codec, cat: Catalog, stream: Stream, content: Content, start: nat)
    requires Recorded(c, cat, content) && start in TreeOf(cat, stream)
    ensures start < EndSlot(cat)
  {
    hide Ascending, EndSlot, Records, MaxEnd;
    var tree := cat.streams[stream];
    LastStart(tree, start);
    var last := Ascending(tree.Keys)[|Ascending(tree.Keys)| - 1];
    RecordedIsNonEmpty(c, tree[last], MessagesAt(content, stream, last));
    LastEnd(cat, stream);
    EndIsNewest(cat, stream);
  }

  lemma RecordedIsNonEmpty(c: Codec, e: ChunkEntry, us: seq<Update>)
    requires Records(c, e, us)
    ensures e.startSlot < e.endSlotExclusive
  {
  }

  lemma LastEnd(cat: Catalog, stream: Stream)
    requires stream in cat.streams && Ascending(cat.streams[stream].Keys) != []
    ensures var tree := cat.streams[stream]; var starts := Ascending(tree.Keys);
      starts[|starts| - 1] in tree && MaxEnd(cat, stream) == Some(tree[starts[|starts| - 1]].endSlotExclusive)
  {
    var starts := Ascending(cat.streams[stream].Keys);
    assert starts[|starts| - 1] in starts;
  }

  lemma EndIsNewest(cat: Catalog, stream: Stream)
    ensures MaxEnd(cat, stream).Some? ==> MaxEnd(cat, stream).value <= EndSlot(cat)
  {
    hide MaxEnd;
  }

  lemma NamedForStream(sub: Subscription, stream: Stream)
    ensures ForStream(NamedFilters(sub, stream), stream)
  {
  }

  /** Plan completeness for one stream. */
  lemma LaneIsCovered(c: Codec, cat: Catalog, sub: Subscription, content: Content, stream: Stream, from: nat)
    requires Recorded(c, cat, content)
    ensures var planned := PlanStream(c, cat, sub, stream, from, EndSlot(cat));
      && planned.Ok?
      && FloorLane(AllSteps(c, planned.value), from) == FloorLane(FullLane(c, cat, sub, content, stream), from)
  {
    if HasStream(sub, stream) {
      var tree := TreeOf(cat, stream);
      forall s | s in Ascending(tree.Keys) ensures s < EndSlot(cat) {
        EndExcludesNothing(c, cat, stream, content, s);
      }
      TreeIsRecorded(c, cat, stream, content);
      NamedForStream(sub, stream);
      hide Recorded, RecordedTree, Records, EndSlot, FloorLane, WantedFrom, NamedFilters, AllSteps, PlanEntries;
      RangeCovers(c, tree, stream, NamedFilters(sub, stream), content, Ascending(tree.Keys), from, EndSlot(cat));
    }
  }

  /** The messages a client should get from a catalog: everything held and
      wanted with slot at least `from`, merged. */
  ghost function Deliverable(c: Codec, cat: Catalog, sub: Subscription, content: Content, from: nat): seq<Tagged> {
    FloorOut(MergeAll(FullLanes(c, cat, sub, content)).out, from)
  }

  /** A chunk asked for is held, and none of the request is below all of them. */
  ghost predicate IsAvailable(cat: Catalog, sub: Subscription, requested: Option<nat>) {
    exists m: nat :: IsFloor(cat, sub, m) && (requested.Some? ==> m <= requested.value)
  }

  lemma AvailableIs(cat: Catalog, sub: Subscription, requested: Option<nat>)
    ensures StartSlot(cat, sub, requested).Ok? <==> IsAvailable(cat, sub, requested)
  {
    FirstAvailableIs(cat, sub);
    hide FirstAvailable, IsFloor;
    if FirstAvailable(cat, sub).Some? { assert IsFloor(cat, sub, FirstAvailable(cat, sub).value); }
  }

  /** Planning succeeds whenever the start slot is available, and driving the
      plan offers exactly the deliverable messages, in any world. */
  lemma PlanIsComplete(c: Codec, cat: Catalog, sub: Subscription, content: Content, requested: Option<nat>)
    requires Recorded(c, cat, content)
    ensures PlanOf(c, cat, sub, requested).Ok? <==> StartSlot(cat, sub, requested).Ok?
    ensures PlanOf(c, cat, sub, requested).Ok? <==> IsAvailable(cat, sub, requested)
    ensures var r := PlanOf(c, cat, sub, requested);
      r.Ok? ==>
        && r.value.fromSlot == StartSlot(cat, sub, requested).value
        && FloorOut(MergeAll(PlanLanes(c, r.value)).out, r.value.fromSlot)
          == Deliverable(c, cat, sub, content, r.value.fromSlot)
        && MergeAll(PlanLanes(c, r.value)).failed == MergeAll(FullLanes(c, cat, sub, content)).failed
  {
    var start := StartSlot(cat, sub, requested);
    AvailableIs(cat, sub, requested);
    if start.Ok? {
      var from := start.value;
      LaneIsCovered(c, cat, sub, content, Tx, from);
      LaneIsCovered(c, cat, sub, content, Acct, from);
      LaneIsCovered(c, cat, sub, content, Block, from);
      var plan := PlanOf(c, cat, sub, requested).value;
      hide StartSlot, EndSlot, PlanStream, FullLane, FloorLane, AllSteps, MergeAll, FloorOut, Recorded;
      var planned, full := PlanLanes(c, plan), FullLanes(c, cat, sub, content);
      assert FloorLanes(planned, from) == FloorLanes(full, from);
      FloorCommutes(planned, from);
      FloorCommutes(full, from);
    }
  }

  // ----- who gets a message -----

  lemma {:induction false} NamesOfExactly(c: Codec, named: Named, u: Update, name: string)
    ensures name in NamesOf(c, named, u)
      <==> exists i :: 0 <= i < |named| && named[i].0 == name && Matches(c, named[i].1, u)
  {
    hide Matches;
    if named != [] {
      NamesOfExactly(c, named[1..], u, name);
      if i :| 0 <= i < |named[1..]| && named[1..][i].0 == name && Matches(c, named[1..][i].1, u) {
        assert named[i + 1].0 == name && Matches(c, named[i + 1].1, u);
      }
      if i :| 0 <= i < |named| && named[i].0 == name && Matches(c, named[i].1, u) {
        if i > 0 { assert named[1..][i - 1] == named[i]; }
      }
    }
  }

  /** A filter of this name, of the subscription's for this stream, asks for the
      message. */
  ghost predicate AskedBy(c: Codec, sub: Subscription, stream: Stream, u: Update, name: string) {
    match stream
    case Tx =>
      exists i :: 0 <= i < |sub.transactions| && sub.transactions[i].0 == name
        && IsAsked(c, ForTx(sub.transactions[i].1), u)
    case Acct =>
      exists i :: 0 <= i < |sub.accounts| && sub.accounts[i].0 == name && IsAsked(c, ForAcct(sub.accounts[i].1), u)
    case Block => exists i :: 0 <= i < |sub.blocksMeta| && sub.blocksMeta[i].0 == name
  }

  /** A message of a stream goes with exactly the names of the filters that ask for
      it, and a filter for another stream is not asked. */
  lemma NamesAreAsked(c: Codec, sub: Subscription, stream: Stream, u: Update, name: string)
    ensures name in NamesOf(c, NamedFilters(sub, stream), u) <==> AskedBy(c, sub, stream, u, name)
  {
    var named := NamedFilters(sub, stream);
    NamesOfExactly(c, named, u, name);
    forall i | 0 <= i < |named| ensures Matches(c, named[i].1, u) <==> IsAsked(c, named[i].1, u) {
      MatchIsAsked(c, named[i].1, u);
    }
    NamedAre(sub, stream);
    hide Matches, NamesOf, NamedFilters, IsAskedTx, IsAskedAcct;
    if AskedBy(c, sub, stream, u, name) {
      match stream
      case Tx =>
        var i :| 0 <= i < |sub.transactions| && sub.transactions[i].0 == name
          && IsAsked(c, ForTx(sub.transactions[i].1), u);
        assert named[i].0 == name && Matches(c, named[i].1, u);
      case Acct =>
        var i :| 0 <= i < |sub.accounts| && sub.accounts[i].0 == name && IsAsked(c, ForAcct(sub.accounts[i].1), u);
        assert named[i].0 == name && Matches(c, named[i].1, u);
      case Block =>
        var i :| 0 <= i < |sub.blocksMeta| && sub.blocksMeta[i].0 == name;
        assert named[i].0 == name && Matches(c, named[i].1, u);
    }
  }

  lemma NamedAre(sub: Subscription, stream: Stream)
    ensures var named := NamedFilters(sub, stream);
      match stream
      case Tx =>
        && |named| == |sub.transactions|
        && forall i :: 0 <= i < |named| ==> named[i] == (sub.transactions[i].0, ForTx(sub.transactions[i].1))
      case Acct =>
        && |named| == |sub.accounts|
        && forall i :: 0 <= i < |named| ==> named[i] == (sub.accounts[i].0, ForAcct(sub.accounts[i].1))
      case Block =>
        && |named| == |sub.blocksMeta|
        && forall i :: 0 <= i < |named| ==> named[i] == (sub.blocksMeta[i].0, ForBlock(sub.blocksMeta[i].1))
  {
  }

  /** The caches tell the chunks of a recorded catalog apart. */
  lemma KeysTellApart(
      c: Codec, cat: Catalog, content: Content, stream: Stream, start: nat, other: Stream, otherStart: nat)
    requires Recorded(c, cat, content)
    requires stream in cat.streams && start in cat.streams[stream]
    requires other in cat.streams && otherStart in cat.streams[other]
    requires KeyOf(cat.streams[stream][start]) == KeyOf(cat.streams[other][otherStart])
    ensures stream == other && start == otherStart
  {
    hide Records;
  }
}
