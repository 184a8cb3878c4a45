/** Catalogs that list parts of one archive: what a catalog with more chunks
    offers, and when a replay resumed above the last slot sent completes an
    earlier one. */
module Growth {
  import opened Core
  import opened Updates
  import opened Codecs
  import opened Shuffle
  import opened Merge
  import opened Plan
  import opened Coverage
  import opened Fidelity

  // ----- merging interleaved lanes -----

  ghost predicate LanesShuffle(all: Lanes, a: Lanes, b: Lanes) {
    Shuffles(all[0], a[0], b[0]) && Shuffles(all[1], a[1], b[1]) && Shuffles(all[2], a[2], b[2])
  }

  /** The head of the whole is the head of the part it comes from. */
  lemma BestOfPart(all: Lanes, a: Lanes, b: Lanes, j: nat)
    requires Sorted(all) && LanesShuffle(all, a, b) && Best(all, 3) == Some(j)
    requires a[j] != [] && a[j][0] == all[j][0]
    ensures !SomeHeadFailed(a) && Best(a, 3) == Some(j)
  {
    assert IsBest(all, 3, j);
    hide Best;
    forall k | 0 <= k < 3 && a[k] != []
      ensures a[k][0].Got? && AtOrBefore(a[j][0].item.slot, j, a[k][0].item.slot, k)
    {
      ShuffleHolds(all[k], a[k], b[k]);
      assert a[k][0] in all[k] && NoFailure(all[k]) && SlotSorted(all[k]);
      assert all[k][0].item.slot <= a[k][0].item.slot;
    }
    assert IsBest(a, 3, j);
    BestIsUnique(a, Best(a, 3).value, j);
  }

  lemma SortedPop(all: Lanes, j: nat)
    requires Sorted(all) && j < 3 && all[j] != []
    ensures Sorted(Pop(all, j)) && !SomeHeadFailed(all)
  {
    SortedTail(all[j]);
    hide SlotSorted;
  }

  lemma ShuffleStep(all: Lanes, a: Lanes, b: Lanes, j: nat)
    requires Sorted(all) && LanesShuffle(all, a, b) && Best(all, 3) == Some(j)
    requires j < 3 && all[j] != [] && a[j] != [] && a[j][0] == all[j][0]
    requires Shuffles(MergeAll(Pop(all, j)).out, MergeAll(Pop(a, j)).out, MergeAll(b).out)
    ensures Shuffles(MergeAll(all).out, MergeAll(a).out, MergeAll(b).out)
  {
    hide *;
    SortedPop(all, j);
    BestOfPart(all, a, b, j);
    MergeStep(all, j);
    MergeStep(a, j);
    ShufflePrepends([Tagged(j, all[j][0].item)], MergeAll(Pop(all, j)).out, MergeAll(Pop(a, j)).out, MergeAll(b).out);
  }

  lemma LanesTurn(all: Lanes, a: Lanes, b: Lanes)
    requires LanesShuffle(all, a, b)
    ensures LanesShuffle(all, b, a)
  {
    hide Shuffles;
    ShuffleTurns(all[0], a[0], b[0]);
    ShuffleTurns(all[1], a[1], b[1]);
    ShuffleTurns(all[2], a[2], b[2]);
  }

  lemma NothingToMerge(rs: Lanes)
    requires rs == [[], [], []]
    ensures MergeAll(rs).out == []
  {
  }

  /** Merging sorted lanes interleaved from two sets of lanes interleaves what
      the two merge into. */
  lemma {:induction false} MergeOfShuffle(all: Lanes, a: Lanes, b: Lanes)
    requires Sorted(all) && LanesShuffle(all, a, b)
    ensures Shuffles(MergeAll(all).out, MergeAll(a).out, MergeAll(b).out)
    decreases TotalSteps(all)
  {
    hide MergeAll, SlotSorted;
    if Best(all, 3).None? {
      NothingToMerge(all);
      NothingToMerge(a);
      NothingToMerge(b);
    } else {
      var j := Best(all, 3).value;
      assert all[j] != [] && Shuffles(all[j], a[j], b[j]);
      hide Best;
      SortedPop(all, j);
      if a[j] != [] && all[j][0] == a[j][0] && Shuffles(all[j][1..], a[j][1..], b[j]) {
        MergeOfShuffle(Pop(all, j), Pop(a, j), b);
        ShuffleStep(all, a, b, j);
      } else {
        MergeOfShuffle(Pop(all, j), a, Pop(b, j));
        ShuffleTurns(MergeAll(Pop(all, j)).out, MergeAll(a).out, MergeAll(Pop(b, j)).out);
        LanesTurn(all, a, b);
        ShuffleStep(all, b, a, j);
        ShuffleTurns(MergeAll(all).out, MergeAll(b).out, MergeAll(a).out);
      }
    }
  }

  // ----- cutting a rising sequence at a slot -----

  ghost predicate OutRises(out: seq<Tagged>) {
    forall i, j :: 0 <= i < j < |out| ==> out[i].item.slot <= out[j].item.slot
  }

  /** What is at or below a slot. */
  function CeilOut(out: seq<Tagged>, last: nat): seq<Tagged> {
    if out == [] then []
    else if out[0].item.slot > last then CeilOut(out[1..], last)
    else [out[0]] + CeilOut(out[1..], last)
  }

  lemma {:induction false} CeilShuffles(all: seq<Tagged>, a: seq<Tagged>, b: seq<Tagged>, last: nat)
    requires Shuffles(all, a, b)
    ensures Shuffles(CeilOut(all, last), CeilOut(a, last), CeilOut(b, last))
  {
    if all != [] {
      if a != [] && all[0] == a[0] && Shuffles(all[1..], a[1..], b) {
        CeilShuffles(all[1..], a[1..], b, last);
      } else {
        CeilShuffles(all[1..], a, b[1..], last);
      }
    }
  }

  lemma {:induction false} FloorShuffles(all: seq<Tagged>, a: seq<Tagged>, b: seq<Tagged>, from: nat)
    requires Shuffles(all, a, b)
    ensures Shuffles(FloorOut(all, from), FloorOut(a, from), FloorOut(b, from))
  {
    if all != [] {
      if a != [] && all[0] == a[0] && Shuffles(all[1..], a[1..], b) {
        FloorShuffles(all[1..], a[1..], b, from);
      } else {
        FloorShuffles(all[1..], a, b[1..], from);
      }
    }
  }

  lemma {:induction false} CeilHolds(out: seq<Tagged>, last: nat)
    ensures forall t :: t in CeilOut(out, last) <==> t in out && t.item.slot <= last
    ensures (forall t :: t in out ==> t.item.slot <= last) ==> CeilOut(out, last) == out
    ensures (forall t :: t in out ==> t.item.slot > last) ==> CeilOut(out, last) == []
  {
    if out != [] {
      CeilHolds(out[1..], last);
      assert out == [out[0]] + out[1..];
    }
  }

  lemma {:induction false} FloorOutHolds(out: seq<Tagged>, from: nat)
    ensures forall t :: t in FloorOut(out, from) <==> t in out && t.item.slot >= from
    ensures (forall t :: t in out ==> t.item.slot >= from) ==> FloorOut(out, from) == out
  {
    if out != [] {
      FloorOutHolds(out[1..], from);
      assert out == [out[0]] + out[1..];
    }
  }

  lemma {:induction false} FloorOutTwice(out: seq<Tagged>, low: nat, high: nat)
    requires low <= high
    ensures FloorOut(FloorOut(out, low), high) == FloorOut(out, high)
  {
    if out != [] { FloorOutTwice(out[1..], low, high); }
  }

  lemma CutHead(out: seq<Tagged>, last: nat)
    requires out != [] && out[0].item.slot <= last
    ensures CeilOut(out, last) == [out[0]] + CeilOut(out[1..], last)
    ensures FloorOut(out, last + 1) == FloorOut(out[1..], last + 1)
  {
  }

  lemma RisesFromHead(out: seq<Tagged>)
    requires OutRises(out) && out != []
    ensures OutRises(out[1..]) && forall t :: t in out ==> out[0].item.slot <= t.item.slot
  {
  }

  lemma OnlyAbove(out: seq<Tagged>, last: nat)
    requires forall t :: t in out ==> t.item.slot > last
    ensures out == CeilOut(out, last) + FloorOut(out, last + 1)
  {
    hide CeilOut, FloorOut;
    CeilHolds(out, last);
    FloorOutHolds(out, last + 1);
    assert [] + out == out;
  }

  lemma HeadRejoins(head: Tagged, out: seq<Tagged>, low: seq<Tagged>, high: seq<Tagged>)
    requires out != [] && head == out[0] && out[1..] == low + high
    ensures out == ([head] + low) + high
  {
    assert out == [out[0]] + out[1..];
  }

  /** A rising sequence is what is at most at the slot, then what is above. */
  lemma {:induction false} RisingSplits(out: seq<Tagged>, last: nat)
    requires OutRises(out)
    ensures out == CeilOut(out, last) + FloorOut(out, last + 1)
  {
    if out != [] {
      hide *;
      RisesFromHead(out);
      if out[0].item.slot > last {
        OnlyAbove(out, last);
      } else {
        RisingSplits(out[1..], last);
        CutHead(out, last);
        HeadRejoins(out[0], out, CeilOut(out[1..], last), FloorOut(out[1..], last + 1));
      }
    }
  }

  ghost predicate AllLater(late: seq<Tagged>, last: nat) {
    forall t :: t in late ==> t.item.slot > last
  }

  /** `sent` is at most at `last`, and `late` was added anywhere: above `last`
      there is the rest, and below there is more than `sent` exactly if some of
      the additions are below. */
  lemma ResumedOut(all: seq<Tagged>, sent: seq<Tagged>, late: seq<Tagged>, last: nat)
    requires Shuffles(all, sent, late) && OutRises(all)
    requires forall t :: t in sent ==> t.item.slot <= last
    ensures all == CeilOut(all, last) + FloorOut(all, last + 1)
    ensures Sub(sent, CeilOut(all, last))
    ensures sent == CeilOut(all, last) <==> AllLater(late, last)
  {
    hide Shuffles, Sub, CeilOut, FloorOut, OutRises;
    RisingSplits(all, last);
    CeilShuffles(all, sent, late, last);
    CeilHolds(sent, last);
    CeilHolds(late, last);
    ShuffleIsSub(CeilOut(all, last), sent, CeilOut(late, last));
    ShuffleHolds(CeilOut(all, last), sent, CeilOut(late, last));
    SubHolds(sent, CeilOut(all, last));
    if CeilOut(late, last) != [] { assert CeilOut(late, last)[0] in CeilOut(late, last); }
  }

  // ----- a catalog that lists part of another -----

  ghost predicate TreePart(small: Tree, tree: Tree) {
    forall s :: s in small ==> s in tree && tree[s] == small[s]
  }

  /** Everything this catalog lists, that one lists too. */
  ghost predicate PartOf(part: Catalog, whole: Catalog) {
    forall stream :: TreePart(TreeOf(part, stream), TreeOf(whole, stream))
  }

  /** The chunks that are new. */
  function Added(before: Catalog, after: Catalog): Catalog {
    Catalog(map stream | stream in after.streams :: after.streams[stream] - TreeOf(before, stream).Keys)
  }

  lemma AddedTree(before: Catalog, after: Catalog, stream: Stream)
    ensures TreeOf(Added(before, after), stream) == TreeOf(after, stream) - TreeOf(before, stream).Keys
  {
  }

  lemma AddedIsPart(before: Catalog, after: Catalog)
    ensures PartOf(Added(before, after), after)
  {
    hide Added;
    forall stream ensures TreePart(TreeOf(Added(before, after), stream), TreeOf(after, stream)) {
      AddedTree(before, after, stream);
    }
  }

  lemma PartOfPart(a: Catalog, b: Catalog, c: Catalog)
    requires PartOf(a, b) && PartOf(b, c)
    ensures PartOf(a, c)
  {
    forall stream ensures TreePart(TreeOf(a, stream), TreeOf(c, stream)) {
      assert TreePart(TreeOf(a, stream), TreeOf(b, stream)) && TreePart(TreeOf(b, stream), TreeOf(c, stream));
    }
  }

  /** What either of two catalogs lists. */
  function Both(a: Catalog, b: Catalog): Catalog {
    Catalog(map stream | stream in a.streams || stream in b.streams :: TreeOf(a, stream) + TreeOf(b, stream))
  }

  lemma BothTree(a: Catalog, b: Catalog, stream: Stream)
    ensures TreeOf(Both(a, b), stream) == TreeOf(a, stream) + TreeOf(b, stream)
  {
  }

  lemma BothParts(a: Catalog, b: Catalog, whole: Catalog)
    requires PartOf(a, whole) && PartOf(b, whole)
    ensures PartOf(a, Both(a, b)) && PartOf(b, Both(a, b)) && PartOf(Both(a, b), whole)
    ensures PartOf(Added(b, Both(a, b)), a)
  {
    hide Both, Added;
    forall stream
      ensures TreePart(TreeOf(a, stream), TreeOf(Both(a, b), stream))
      ensures TreePart(TreeOf(b, stream), TreeOf(Both(a, b), stream))
      ensures TreePart(TreeOf(Both(a, b), stream), TreeOf(whole, stream))
      ensures TreePart(TreeOf(Added(b, Both(a, b)), stream), TreeOf(a, stream))
    {
      BothTree(a, b, stream);
      AddedTree(b, Both(a, b), stream);
      assert TreePart(TreeOf(a, stream), TreeOf(whole, stream)) && TreePart(TreeOf(b, stream), TreeOf(whole, stream));
    }
  }

  // ----- starts, chunk by chunk -----

  function OnlyIn(starts: seq<nat>, keys: set<nat>): seq<nat> {
    if starts == [] then []
    else if starts[0] in keys then [starts[0]] + OnlyIn(starts[1..], keys)
    else OnlyIn(starts[1..], keys)
  }

  lemma {:induction false} OnlyInHolds(starts: seq<nat>, keys: set<nat>)
    requires IsAscending(starts)
    ensures IsAscending(OnlyIn(starts, keys))
    ensures forall s :: s in OnlyIn(starts, keys) <==> s in starts && s in keys
  {
    if starts != [] {
      assert starts == [starts[0]] + starts[1..];
      OnlyInHolds(starts[1..], keys);
      assert forall i :: 0 <= i < |OnlyIn(starts[1..], keys)| ==>
          OnlyIn(starts[1..], keys)[i] in OnlyIn(starts[1..], keys);
    }
  }

  lemma AscendingOnly(all: set<nat>, keys: set<nat>)
    requires keys <= all
    ensures OnlyIn(Ascending(all), keys) == Ascending(keys)
  {
    OnlyInHolds(Ascending(all), keys);
    hide OnlyIn, Ascending, IsAscending;
    AscendingUnique(OnlyIn(Ascending(all), keys), Ascending(keys));
  }

  lemma SameWantedAt(
      c: Codec, small: Tree, tree: Tree, stream: Stream, named: Named, content: Content, start: nat)
    requires TreePart(small, tree) && start in small
    ensures start in tree
    ensures WantedAt(c, small, stream, named, content, start) == WantedAt(c, tree, stream, named, content, start)
  {
    hide Wanted;
  }

  /** Chunk by chunk, the wanted steps of the whole interleave those of a part
      and those of the rest. */
  lemma {:induction false} WantedShuffles(
      c: Codec, tree: Tree, a: Tree, b: Tree, stream: Stream, named: Named, content: Content, starts: seq<nat>)
    requires TreePart(a, tree) && TreePart(b, tree)
    requires forall s :: s in starts ==> s in tree && (s in a <==> s !in b)
    ensures (forall s :: s in OnlyIn(starts, a.Keys) ==> s in a) && (forall s :: s in OnlyIn(starts, b.Keys) ==> s in b)
    ensures Shuffles(
      WantedFrom(c, tree, stream, named, content, starts),
      WantedFrom(c, a, stream, named, content, OnlyIn(starts, a.Keys)),
      WantedFrom(c, b, stream, named, content, OnlyIn(starts, b.Keys)))
  {
    if starts != [] {
      var s, rest := starts[0], starts[1..];
      assert s in starts && forall r :: r in rest ==> r in starts;
      WantedShuffles(c, tree, a, b, stream, named, content, rest);
      hide WantedAt, Shuffles;
      var all := WantedFrom(c, tree, stream, named, content, rest);
      var left := WantedFrom(c, a, stream, named, content, OnlyIn(rest, a.Keys));
      var right := WantedFrom(c, b, stream, named, content, OnlyIn(rest, b.Keys));
      var here := WantedAt(c, tree, stream, named, content, s);
      if s in a {
        SameWantedAt(c, a, tree, stream, named, content, s);
        ShufflePrepends(here, all, left, right);
        assert OnlyIn(starts, a.Keys)[1..] == OnlyIn(rest, a.Keys);
      } else {
        SameWantedAt(c, b, tree, stream, named, content, s);
        ShuffleTurns(all, left, right);
        ShufflePrepends(here, all, right, left);
        ShuffleTurns(here + all, here + right, left);
        assert OnlyIn(starts, b.Keys)[1..] == OnlyIn(rest, b.Keys);
      }
    }
  }

  lemma GrownLane(c: Codec, before: Catalog, after: Catalog, sub: Subscription, content: Content, stream: Stream)
    requires PartOf(before, after)
    ensures Shuffles(
      FullLane(c, after, sub, content, stream), FullLane(c, before, sub, content, stream),
      FullLane(c, Added(before, after), sub, content, stream))
  {
    var small, tree, more := TreeOf(before, stream), TreeOf(after, stream), TreeOf(Added(before, after), stream);
    assert TreePart(small, tree);
    AddedTree(before, after, stream);
    AscendingOnly(tree.Keys, small.Keys);
    AscendingOnly(tree.Keys, more.Keys);
    hide WantedFrom, NamedFilters, Added, TreeOf, Ascending, OnlyIn;
    if HasStream(sub, stream) {
      WantedShuffles(
        c, tree, small, more, stream, NamedFilters(sub, stream), content, Ascending(tree.Keys));
    }
  }

  /** A catalog with more chunks, wherever they lie, interleaves each wanted lane
      with what is wanted of the new chunks. */
  lemma GrownLanes(c: Codec, before: Catalog, after: Catalog, sub: Subscription, content: Content)
    requires PartOf(before, after)
    ensures LanesShuffle(
      FullLanes(c, after, sub, content), FullLanes(c, before, sub, content),
      FullLanes(c, Added(before, after), sub, content))
  {
    hide FullLane, Added, PartOf, Shuffles;
    GrownLane(c, before, after, sub, content, Tx);
    GrownLane(c, before, after, sub, content, Acct);
    GrownLane(c, before, after, sub, content, Block);
  }

  // ----- what a part of an archive inherits -----

  lemma PartIsRecorded(c: Codec, part: Catalog, whole: Catalog, content: Content)
    requires PartOf(part, whole) && Recorded(c, whole, content)
    ensures Recorded(c, part, content)
  {
    hide Records;
    forall stream, start | stream in part.streams && start in part.streams[stream]
      ensures var e := part.streams[stream][start];
        e.stream == stream && e.startSlot == start && Records(c, e, MessagesAt(content, stream, start))
    {
      assert TreePart(TreeOf(part, stream), TreeOf(whole, stream));
      assert start in TreeOf(whole, stream);
      assert stream in whole.streams;
    }
  }

  lemma {:induction false} HeldSub(stream: Stream, content: Content, starts: seq<nat>, keys: set<nat>)
    ensures Sub(HeldFrom(stream, content, OnlyIn(starts, keys)), HeldFrom(stream, content, starts))
  {
    if starts != [] {
      HeldSub(stream, content, starts[1..], keys);
      hide MessagesAt, Sub;
      var here, part := MessagesAt(content, stream, starts[0]), HeldFrom(stream, content, OnlyIn(starts[1..], keys));
      SubPrepends(here, part, HeldFrom(stream, content, starts[1..]));
      if starts[0] in keys {
        assert OnlyIn(starts, keys)[1..] == OnlyIn(starts[1..], keys);
        SubBehind(here, part, HeldFrom(stream, content, starts[1..]));
      }
    }
  }

  lemma {:induction false} RisesInSub(part: seq<Update>, all: seq<Update>)
    requires Sub(part, all) && UpdatesRise(all)
    ensures UpdatesRise(part)
  {
    hide SlotOf;
    if part != [] {
      if part[0] == all[0] && Sub(part[1..], all[1..]) {
        RisesInSub(part[1..], all[1..]);
        SubHolds(part[1..], all[1..]);
        forall j | 0 < j < |part| ensures SlotOf(part[0]) <= SlotOf(part[j]) {
          assert part[1..][j - 1] in all[1..];
        }
      } else {
        RisesInSub(part, all[1..]);
      }
    }
  }

  lemma PartIsInOrder(part: Catalog, whole: Catalog, content: Content)
    requires PartOf(part, whole) && HeldInOrder(whole, content)
    ensures HeldInOrder(part, content)
  {
    hide HeldFrom, UpdatesRise, Ascending;
    forall stream ensures UpdatesRise(HeldOf(part, content, stream)) {
      var small, tree := TreeOf(part, stream), TreeOf(whole, stream);
      assert TreePart(small, tree);
      AscendingOnly(tree.Keys, small.Keys);
      HeldSub(stream, content, Ascending(tree.Keys), small.Keys);
      assert UpdatesRise(HeldOf(whole, content, stream));
      RisesInSub(HeldOf(part, content, stream), HeldOf(whole, content, stream));
    }
  }

  // ----- what catalogs offer -----

  lemma DeliverableIs(c: Codec, cat: Catalog, sub: Subscription, content: Content, from: nat)
    ensures Deliverable(c, cat, sub, content, from) == FloorOut(MergeAll(FullLanes(c, cat, sub, content)).out, from)
  {
    hide MergeAll, FullLanes;
  }

  lemma DeliverableMember(c: Codec, cat: Catalog, sub: Subscription, content: Content, from: nat, t: Tagged)
    ensures t in Deliverable(c, cat, sub, content, from)
      <==> t in MergeAll(FullLanes(c, cat, sub, content)).out && t.item.slot >= from
  {
    FloorOutHolds(MergeAll(FullLanes(c, cat, sub, content)).out, from);
  }

  /** Raising the start only leaves out what is below it. */
  lemma DeliverableRaised(c: Codec, cat: Catalog, sub: Subscription, content: Content, low: nat, high: nat)
    requires low <= high
    ensures FloorOut(Deliverable(c, cat, sub, content, low), high) == Deliverable(c, cat, sub, content, high)
  {
    FloorOutTwice(MergeAll(FullLanes(c, cat, sub, content)).out, low, high);
  }

  lemma DeliverableRises(c: Codec, cat: Catalog, sub: Subscription, content: Content, from: nat)
    requires HeldInOrder(cat, content)
    ensures OutRises(Deliverable(c, cat, sub, content, from))
  {
    DeliverableIsSorted(c, cat, sub, content, from);
    hide Deliverable, HeldInOrder;
  }

  /** More chunks interleave what was on offer with what the new ones offer. */
  lemma DeliverableShuffles(
      c: Codec, before: Catalog, after: Catalog, sub: Subscription, content: Content, from: nat)
    requires PartOf(before, after) && HeldInOrder(after, content)
    ensures Shuffles(
      Deliverable(c, after, sub, content, from), Deliverable(c, before, sub, content, from),
      Deliverable(c, Added(before, after), sub, content, from))
  {
    hide *;
    var all, a := FullLanes(c, after, sub, content), FullLanes(c, before, sub, content);
    var b := FullLanes(c, Added(before, after), sub, content);
    LanesAreSorted(c, after, sub, content);
    GrownLanes(c, before, after, sub, content);
    MergeOfShuffle(all, a, b);
    FloorShuffles(MergeAll(all).out, MergeAll(a).out, MergeAll(b).out, from);
    DeliverableIs(c, after, sub, content, from);
    DeliverableIs(c, before, sub, content, from);
    DeliverableIs(c, Added(before, after), sub, content, from);
  }

  // ----- resuming over a grown catalog -----

  function LastSlotIn(out: seq<Tagged>): nat
    requires out != []
  {
    out[|out| - 1].item.slot
  }

  lemma LastSlotIs(out: seq<Tagged>)
    ensures out != [] ==> LastSlotIn(out) == out[|out| - 1].item.slot && out[|out| - 1] in out
  {
  }

  /** No wanted message of a new chunk, from the base on, is at or below one that
      was on offer before. */
  ghost predicate NothingLate(
      c: Codec, before: Catalog, after: Catalog, sub: Subscription, content: Content, base: nat)
  {
    forall t, u ::
      t in Deliverable(c, before, sub, content, base) && u in Deliverable(c, Added(before, after), sub, content, base)
      ==> t.item.slot < u.item.slot
  }

  /** `out` is what the catalog offers from the base on, or leaves some of it out
      unless `exact`; nothing on offer is above its last slot. */
  ghost predicate Caught(
      c: Codec, cat: Catalog, sub: Subscription, content: Content, base: nat, out: seq<Tagged>, exact: bool)
  {
    var all := Deliverable(c, cat, sub, content, base);
    && Sub(out, all) && (out == all <==> exact)
    && (out == [] ==> all == [])
    && (out != [] ==> forall t :: t in all ==> t.item.slot <= LastSlotIn(out))
  }

  lemma RisesToLast(out: seq<Tagged>)
    requires OutRises(out)
    ensures out != [] ==> forall t :: t in out ==> t.item.slot <= LastSlotIn(out)
  {
  }

  /** A first pass catches everything. */
  lemma FirstCaught(c: Codec, cat: Catalog, sub: Subscription, content: Content, base: nat)
    requires HeldInOrder(cat, content)
    ensures Caught(c, cat, sub, content, base, Deliverable(c, cat, sub, content, base), true)
  {
    hide Deliverable, HeldInOrder, Sub, OutRises;
    var out := Deliverable(c, cat, sub, content, base);
    DeliverableRises(c, cat, sub, content, base);
    RisesToLast(out);
    SubOfSame(out);
  }

  /** Where everything that was sent ends. */
  lemma CaughtEnds(
      c: Codec, cat: Catalog, sub: Subscription, content: Content, base: nat, out: seq<Tagged>, exact: bool)
    requires Caught(c, cat, sub, content, base, out, exact) && out != []
    ensures out[|out| - 1] in Deliverable(c, cat, sub, content, base) && base <= LastSlotIn(out)
  {
    hide Deliverable, Sub;
    SubHolds(out, Deliverable(c, cat, sub, content, base));
    DeliverableMember(c, cat, sub, content, base, out[|out| - 1]);
  }

  /** Whatever chunks are added: resuming above a slot that nothing on offer
      before was above, what was on offer and what the resumption finds are in
      order, without repetition, part of what is on offer now, and all of it
      exactly if nothing new from the base on is at or below that slot. */
  lemma ResumedDelivery(
      c: Codec, before: Catalog, after: Catalog, sub: Subscription, content: Content, base: nat, last: nat)
    requires PartOf(before, after) && HeldInOrder(after, content) && base <= last
    requires forall t :: t in Deliverable(c, before, sub, content, base) ==> t.item.slot <= last
    ensures var sent := Deliverable(c, before, sub, content, base);
      var resumed := Deliverable(c, after, sub, content, last + 1);
      var all := Deliverable(c, after, sub, content, base);
      && Sub(sent + resumed, all)
      && (sent + resumed == all <==> AllLater(Deliverable(c, Added(before, after), sub, content, base), last))
      && all == CeilOut(all, last) + resumed && Sub(sent, CeilOut(all, last))
  {
    hide *;
    var sent, resumed := Deliverable(c, before, sub, content, base), Deliverable(c, after, sub, content, last + 1);
    var all := Deliverable(c, after, sub, content, base);
    var late := Deliverable(c, Added(before, after), sub, content, base);
    DeliverableShuffles(c, before, after, sub, content, base);
    DeliverableRises(c, after, sub, content, base);
    DeliverableRaised(c, after, sub, content, base, last + 1);
    ResumedOut(all, sent, late, last);
    SubAppends(sent, CeilOut(all, last), resumed);
    SameEnding(sent, CeilOut(all, last), resumed);
  }

  lemma SameEnding(a: seq<Tagged>, b: seq<Tagged>, more: seq<Tagged>)
    ensures a + more == b + more <==> a == b
  {
    if a + more == b + more {
      assert |a| == |b|;
      assert a == (a + more)[..|a|] && b == (b + more)[..|b|];
    }
  }

  lemma LateIsLate(
      c: Codec, before: Catalog, after: Catalog, sub: Subscription, content: Content, base: nat, out: seq<Tagged>,
      exact: bool)
    requires Caught(c, before, sub, content, base, out, exact) && out != []
    ensures AllLater(Deliverable(c, Added(before, after), sub, content, base), LastSlotIn(out))
      <==> NothingLate(c, before, after, sub, content, base)
  {
    CaughtEnds(c, before, sub, content, base, out, exact);
    hide Deliverable, Sub, Added;
  }

  /** On top of a catch that fell short or not, the resumption. */
  lemma CatchGoesOn(all: seq<Tagged>, sent: seq<Tagged>, resumed: seq<Tagged>, out: seq<Tagged>)
    requires out != [] && Sub(out, sent) && OutRises(all)
    requires all == CeilOut(all, LastSlotIn(out)) + resumed && Sub(sent, CeilOut(all, LastSlotIn(out)))
    ensures Sub(out + resumed, all)
    ensures out + resumed == all <==> out == sent && sent + resumed == all
    ensures forall t :: t in all ==> t.item.slot <= LastSlotIn(out + resumed)
  {
    hide Sub, CeilOut, OutRises;
    var low := CeilOut(all, LastSlotIn(out));
    SubOfSub(out, sent, low);
    SubAppends(out, low, resumed);
    SameEnding(out, low, resumed);
    SameEnding(sent, low, resumed);
    SubHolds(out, sent);
    SubHolds(sent, low);
    CeilHolds(all, LastSlotIn(out));
    RisesToLast(all);
    if resumed == [] {
      assert out + resumed == out && low + resumed == low;
    } else {
      assert LastSlotIn(out + resumed) == LastSlotIn(all);
    }
  }

  /** The next pass keeps the catch exact exactly if nothing came late. */
  lemma NextCaught(
      c: Codec, before: Catalog, after: Catalog, sub: Subscription, content: Content, base: nat, out: seq<Tagged>,
      exact: bool)
    requires PartOf(before, after) && HeldInOrder(after, content)
    requires Caught(c, before, sub, content, base, out, exact)
    ensures var from := if out == [] then base else LastSlotIn(out) + 1;
      Caught(
        c, after, sub, content, base, out + Deliverable(c, after, sub, content, from),
        exact && NothingLate(c, before, after, sub, content, base))
  {
    hide Deliverable, HeldInOrder, PartOf, Added, Sub, CeilOut, FloorOut, OutRises;
    var all := Deliverable(c, after, sub, content, base);
    if out == [] {
      FirstCaught(c, after, sub, content, base);
      assert out + all == all;
    } else {
      var last := LastSlotIn(out);
      var sent, resumed := Deliverable(c, before, sub, content, base), Deliverable(c, after, sub, content, last + 1);
      CaughtEnds(c, before, sub, content, base, out, exact);
      LateIsLate(c, before, after, sub, content, base, out, exact);
      ResumedDelivery(c, before, after, sub, content, base, last);
      DeliverableRises(c, after, sub, content, base);
      hide NothingLate, AllLater;
      CatchGoesOn(all, sent, resumed, out);
    }
  }

  /** A pass over a catalog that lists what the sum of all catalogs has beyond
      those seen before offers what the sum would. */
  lemma PassSees(
      c: Codec, seen: Catalog, cat: Catalog, whole: Catalog, sub: Subscription, content: Content, base: nat,
      out: seq<Tagged>, exact: bool)
    requires PartOf(seen, whole) && PartOf(cat, whole) && HeldInOrder(whole, content)
    requires Caught(c, seen, sub, content, base, out, exact)
    ensures var from := if out == [] then base else LastSlotIn(out) + 1;
      Deliverable(c, cat, sub, content, from) == Deliverable(c, Both(seen, cat), sub, content, from)
  {
    hide Deliverable, HeldInOrder, PartOf, Added, Both, Sub, Shuffles;
    var from := if out == [] then base else LastSlotIn(out) + 1;
    var both := Both(seen, cat);
    var rest := Deliverable(c, Added(cat, both), sub, content, from);
    BothParts(seen, cat, whole);
    PartIsInOrder(both, whole, content);
    DeliverableShuffles(c, cat, both, sub, content, from);
    if rest != [] {
      RestWasSeen(c, Added(cat, both), seen, whole, sub, content, from, rest[0]);
      DeliverableMember(c, seen, sub, content, base, rest[0]);
      DeliverableMember(c, seen, sub, content, from, rest[0]);
      if out != [] { CaughtEnds(c, seen, sub, content, base, out, exact); }
    }
    ShuffleAlone(Deliverable(c, both, sub, content, from), Deliverable(c, cat, sub, content, from));
  }

  lemma RestWasSeen(
      c: Codec, part: Catalog, seen: Catalog, whole: Catalog, sub: Subscription, content: Content, from: nat, t: Tagged)
    requires PartOf(part, seen) && PartOf(seen, whole) && HeldInOrder(whole, content)
    requires t in Deliverable(c, part, sub, content, from)
    ensures t in Deliverable(c, seen, sub, content, from)
  {
    hide *;
    PartIsInOrder(seen, whole, content);
    DeliverableShuffles(c, part, seen, sub, content, from);
    ShuffleHolds(
      Deliverable(c, seen, sub, content, from), Deliverable(c, part, sub, content, from),
      Deliverable(c, Added(part, seen), sub, content, from));
  }
}
