/** The three-way merge a replay performs, as a function on the sequences the
    cursors yield, and what it keeps: order, completeness, floors, resumption. */
module Merge {
  import opened Core
  import opened Updates

  /** A message read from a chunk, ready to send. */
  datatype Item = Item(slot: nat, update: Update, names: seq<string>, recvNs: Option<nat>)

  /** What a cursor yields: a message, or an error decoding one. */
  datatype Step = Got(item: Item) | Failed

  datatype Tagged = Tagged(lane: nat, item: Item)

  datatype Merged = Merged(out: seq<Tagged>, failed: bool)

  /** Three lanes, one per stream. */
  type Lanes = s: seq<seq<Step>> | |s| == 3 witness [[], [], []]

  ghost predicate SomeHeadFailed(rs: Lanes) {
    exists k :: 0 <= k < 3 && rs[k] != [] && rs[k][0].Failed?
  }

  /** The lane whose head is least by (slot, lane), among lanes below `n`. */
  function Best(rs: Lanes, n: nat): (best: Option<nat>)
    requires n <= 3 && forall k :: 0 <= k < n && rs[k] != [] ==> rs[k][0].Got?
    ensures best.None? ==> forall k :: 0 <= k < n ==> rs[k] == []
    ensures best.Some? ==> IsBest(rs, n, best.value)
  {
    if n == 0 then None
    else
      var best := Best(rs, n - 1);
      if rs[n - 1] == [] then best
      else if best.None? || rs[n - 1][0].item.slot < rs[best.value][0].item.slot then Some(n - 1)
      else best
  }

  ghost predicate IsBest(rs: Lanes, n: nat, j: nat)
    requires n <= 3 && forall k :: 0 <= k < n && rs[k] != [] ==> rs[k][0].Got?
  {
    && j < n && rs[j] != []
    && forall k :: 0 <= k < n && rs[k] != [] ==>
         rs[j][0].item.slot < rs[k][0].item.slot || (rs[j][0].item.slot == rs[k][0].item.slot && j <= k)
  }

  function Pop(rs: Lanes, j: nat): Lanes
    requires j < 3 && rs[j] != []
  {
    rs[j := rs[j][1..]]
  }

  function TotalSteps(rs: Lanes): nat {
    |rs[0]| + |rs[1]| + |rs[2]|
  }

  /** Peek every lane; stop at an error; otherwise take the least head. */
  ghost function MergeAll(rs: Lanes): Merged
    decreases TotalSteps(rs)
  {
    if SomeHeadFailed(rs) then Merged([], true)
    else
      var best := Best(rs, 3);
      if best.None? then Merged([], false)
      else
        var rest := MergeAll(Pop(rs, best.value));
        Merged([Tagged(best.value, rs[best.value][0].item)] + rest.out, rest.failed)
  }

  ghost predicate NoFailure(lane: seq<Step>) {
    forall i :: 0 <= i < |lane| ==> lane[i].Got?
  }

  ghost predicate NoFailures(rs: Lanes) {
    NoFailure(rs[0]) && NoFailure(rs[1]) && NoFailure(rs[2])
  }

  // ----- completeness: nothing lost, nothing invented, lane order kept -----

  function Project(out: seq<Tagged>, lane: nat): seq<Step> {
    if out == [] then []
    else if out[0].lane == lane then [Got(out[0].item)] + Project(out[1..], lane)
    else Project(out[1..], lane)
  }

  /** A merge interleaves: what it took from a lane is a prefix of the lane, and
      the whole lane when the merge ran dry. */
  lemma {:induction false} MergeInterleaves(rs: Lanes, lane: nat)
    requires lane < 3
    ensures Project(MergeAll(rs).out, lane) <= rs[lane]
    ensures !MergeAll(rs).failed ==> Project(MergeAll(rs).out, lane) == rs[lane]
    decreases TotalSteps(rs)
  {
    if !SomeHeadFailed(rs) && Best(rs, 3).Some? {
      var j := Best(rs, 3).value;
      MergeInterleaves(Pop(rs, j), lane);
      var out, rest := MergeAll(rs).out, MergeAll(Pop(rs, j)).out;
      assert out[0] == Tagged(j, rs[j][0].item) && out[1..] == rest;
      assert rs[j] == [rs[j][0]] + rs[j][1..];
    }
  }

  lemma {:induction false} NoFailuresDrains(rs: Lanes)
    requires NoFailures(rs)
    ensures !MergeAll(rs).failed
    decreases TotalSteps(rs)
  {
    if Best(rs, 3).Some? {
      NoFailuresDrains(Pop(rs, Best(rs, 3).value));
    }
  }

  // ----- order -----

  ghost predicate AtOrBefore(slotA: nat, laneA: nat, slotB: nat, laneB: nat) {
    slotA < slotB || (slotA == slotB && laneA <= laneB)
  }

  ghost predicate SlotSorted(lane: seq<Step>) {
    forall i, j :: 0 <= i < j < |lane| && lane[i].Got? && lane[j].Got? ==> lane[i].item.slot <= lane[j].item.slot
  }

  ghost predicate MergeSorted(out: seq<Tagged>) {
    forall i, j :: 0 <= i < j < |out| ==> AtOrBefore(out[i].item.slot, out[i].lane, out[j].item.slot, out[j].lane)
  }

  ghost predicate LanesAbove(rs: Lanes, slot: nat, lane: nat) {
    forall k, i :: 0 <= k < 3 && 0 <= i < |rs[k]| && rs[k][i].Got? ==> AtOrBefore(slot, lane, rs[k][i].item.slot, k)
  }

  lemma {:induction false} MergeStaysAbove(rs: Lanes, slot: nat, lane: nat)
    requires LanesAbove(rs, slot, lane)
    ensures forall t :: t in MergeAll(rs).out ==> AtOrBefore(slot, lane, t.item.slot, t.lane)
    decreases TotalSteps(rs)
  {
    if !SomeHeadFailed(rs) && Best(rs, 3).Some? {
      var j := Best(rs, 3).value;
      var next := Pop(rs, j);
      assert LanesAbove(next, slot, lane) by {
        hide AtOrBefore;
        assert forall i :: 0 <= i < |next[j]| ==> next[j][i] == rs[j][i + 1];
      }
      MergeStaysAbove(next, slot, lane);
    }
  }

  lemma BestBelowAll(rs: Lanes)
    requires !SomeHeadFailed(rs) && Best(rs, 3).Some?
    requires SlotSorted(rs[0]) && SlotSorted(rs[1]) && SlotSorted(rs[2])
    ensures LanesAbove(rs, rs[Best(rs, 3).value][0].item.slot, Best(rs, 3).value)
  {
    var j := Best(rs, 3).value;
    assert IsBest(rs, 3, j);
    hide Best;
    forall k, i | 0 <= k < 3 && 0 <= i < |rs[k]| && rs[k][i].Got?
      ensures AtOrBefore(rs[j][0].item.slot, j, rs[k][i].item.slot, k)
    {
      assert rs[k][0].Got?;
      assert SlotSorted(rs[k]);
      if i > 0 { assert rs[k][0].item.slot <= rs[k][i].item.slot; }
    }
  }

  lemma SortedTail(lane: seq<Step>)
    requires SlotSorted(lane) && lane != []
    ensures SlotSorted(lane[1..])
  {
  }

  lemma SortedPrepend(t: Tagged, rest: seq<Tagged>)
    requires MergeSorted(rest)
    requires forall u :: u in rest ==> AtOrBefore(t.item.slot, t.lane, u.item.slot, u.lane)
    ensures MergeSorted([t] + rest)
  {
    hide AtOrBefore;
    var out := [t] + rest;
    forall a, b | 0 <= a < b < |out|
      ensures AtOrBefore(out[a].item.slot, out[a].lane, out[b].item.slot, out[b].lane)
    {
      assert out[b] == rest[b - 1] && rest[b - 1] in rest;
      if a > 0 { assert out[a] == rest[a - 1]; }
    }
  }

  /** Slot-sorted lanes merge into a stably sorted sequence: by slot, equal slots
      by lane (and within a lane in lane order, by `MergeInterleaves`). */
  lemma {:induction false} MergeSorts(rs: Lanes)
    requires SlotSorted(rs[0]) && SlotSorted(rs[1]) && SlotSorted(rs[2])
    ensures MergeSorted(MergeAll(rs).out)
    decreases TotalSteps(rs)
  {
    if !SomeHeadFailed(rs) && Best(rs, 3).Some? {
      var j := Best(rs, 3).value;
      BestBelowAll(rs);
      SortedTail(rs[j]);
      MergeSorts(Pop(rs, j));
      assert LanesAbove(Pop(rs, j), rs[j][0].item.slot, j) by {
        hide AtOrBefore, Best;
        var next := Pop(rs, j);
        assert forall i :: 0 <= i < |next[j]| ==> next[j][i] == rs[j][i + 1];
      }
      MergeStaysAbove(Pop(rs, j), rs[j][0].item.slot, j);
      hide Best, SlotSorted, LanesAbove, MergeSorted, AtOrBefore;
      SortedPrepend(Tagged(j, rs[j][0].item), MergeAll(Pop(rs, j)).out);
    }
  }

  // ----- the slot floor -----

  function FloorLane(lane: seq<Step>, from: nat): seq<Step> {
    if lane == [] then []
    else if lane[0].Got? && lane[0].item.slot < from then FloorLane(lane[1..], from)
    else [lane[0]] + FloorLane(lane[1..], from)
  }

  function FloorLanes(rs: Lanes, from: nat): Lanes {
    [FloorLane(rs[0], from), FloorLane(rs[1], from), FloorLane(rs[2], from)]
  }

  function FloorOut(out: seq<Tagged>, from: nat): seq<Tagged> {
    if out == [] then []
    else if out[0].item.slot < from then FloorOut(out[1..], from)
    else [out[0]] + FloorOut(out[1..], from)
  }

  lemma FloorSkips(rs: Lanes, from: nat, j: nat)
    requires j < 3 && rs[j] != [] && rs[j][0].Got? && rs[j][0].item.slot < from
    ensures FloorLanes(Pop(rs, j), from) == FloorLanes(rs, from)
  {
  }

  lemma FloorPops(rs: Lanes, from: nat, j: nat)
    requires j < 3 && rs[j] != [] && (rs[j][0].Failed? || rs[j][0].item.slot >= from)
    ensures FloorLanes(rs, from)[j] == [rs[j][0]] + FloorLane(rs[j][1..], from)
    ensures FloorLanes(Pop(rs, j), from) == Pop(FloorLanes(rs, from), j)
  {
  }

  lemma BestIsUnique(rs: Lanes, i: nat, j: nat)
    requires forall k :: 0 <= k < 3 && rs[k] != [] ==> rs[k][0].Got?
    requires IsBest(rs, 3, i) && IsBest(rs, 3, j)
    ensures i == j
  {
  }

  /** The best lane and its head are unchanged by a floor no head is below. */
  lemma BestSurvivesFloor(rs: Lanes, from: nat)
    requires !SomeHeadFailed(rs) && Best(rs, 3).Some? && rs[Best(rs, 3).value][0].item.slot >= from
    ensures var fs, j := FloorLanes(rs, from), Best(rs, 3).value;
      !SomeHeadFailed(fs) && fs[j] != [] && fs[j][0] == rs[j][0] && Best(fs, 3) == Some(j)
  {
    var fs, j := FloorLanes(rs, from), Best(rs, 3).value;
    assert IsBest(rs, 3, j);
    hide Best;
    forall k | 0 <= k < 3 && rs[k] != [] ensures fs[k] != [] && fs[k][0] == rs[k][0] {
      FloorPops(rs, from, k);
    }
    assert forall k :: 0 <= k < 3 && rs[k] == [] ==> fs[k] == [];
    assert IsBest(fs, 3, j);
    BestIsUnique(fs, Best(fs, 3).value, j);
  }

  /** Dropping low slots after merging is merging the lanes without them, even
      for lanes that are not sorted. */
  lemma {:induction false} FloorCommutes(rs: Lanes, from: nat)
    ensures MergeAll(FloorLanes(rs, from)) == Merged(FloorOut(MergeAll(rs).out, from), MergeAll(rs).failed)
    decreases TotalSteps(rs)
  {
    var fs := FloorLanes(rs, from);
    if SomeHeadFailed(rs) {
      var k :| 0 <= k < 3 && rs[k] != [] && rs[k][0].Failed?;
      FloorPops(rs, from, k);
      assert SomeHeadFailed(fs);
    } else if Best(rs, 3).None? {
      assert fs == rs;
    } else {
      var j := Best(rs, 3).value;
      FloorCommutes(Pop(rs, j), from);
      var out, rest := MergeAll(rs).out, MergeAll(Pop(rs, j)).out;
      assert out[0] == Tagged(j, rs[j][0].item) && out[1..] == rest;
      if rs[j][0].item.slot < from {
        FloorSkips(rs, from, j);
      } else {
        BestSurvivesFloor(rs, from);
        FloorPops(rs, from, j);
        hide FloorLanes, Best;
      }
    }
  }

  lemma FloorHead(lane: seq<Step>, from: nat)
    requires lane != []
    ensures FloorLane(lane, from)
      == if lane[0].Got? && lane[0].item.slot < from then FloorLane(lane[1..], from)
         else [lane[0]] + FloorLane(lane[1..], from)
  {
  }

  lemma {:induction false} FloorConcat(a: seq<Step>, b: seq<Step>, from: nat)
    ensures FloorLane(a + b, from) == FloorLane(a, from) + FloorLane(b, from)
  {
    if a == [] {
      assert a + b == b;
    } else {
      assert (a + b)[0] == a[0] && (a + b)[1..] == a[1..] + b;
      FloorHead(a, from);
      FloorHead(a + b, from);
      hide FloorLane;
      FloorConcat(a[1..], b, from);
    }
  }

  /** Raising the floor in two steps is raising it at once. */
  lemma {:induction false} FloorTwice(lane: seq<Step>, low: nat, high: nat)
    requires low <= high
    ensures FloorLane(FloorLane(lane, low), high) == FloorLane(lane, high)
  {
    if lane != [] { FloorTwice(lane[1..], low, high); }
  }

  // ----- resumption: later lanes appended to earlier ones -----

  function Joined(a: Lanes, b: Lanes): Lanes {
    [a[0] + b[0], a[1] + b[1], a[2] + b[2]]
  }

  /** Every slot of `a` is below every slot of `b`. */
  ghost predicate AllBefore(a: Lanes, b: Lanes) {
    forall k, i, l, j | 0 <= k < 3 && 0 <= i < |a[k]| && 0 <= l < 3 && 0 <= j < |b[l]| ::
      a[k][i].Got? && b[l][j].Got? ==> a[k][i].item.slot < b[l][j].item.slot
  }

  lemma JoinedPop(a: Lanes, b: Lanes, j: nat)
    requires j < 3 && a[j] != []
    ensures Joined(Pop(a, j), b) == Pop(Joined(a, b), j)
  {
    assert (a[j] + b[j])[1..] == a[j][1..] + b[j];
    forall k | 0 <= k < 3 ensures Joined(Pop(a, j), b)[k] == Pop(Joined(a, b), j)[k] {
    }
  }

  lemma BestOfJoined(a: Lanes, b: Lanes)
    requires NoFailures(a) && NoFailures(b) && AllBefore(a, b) && Best(a, 3).Some?
    ensures !SomeHeadFailed(Joined(a, b)) && Best(Joined(a, b), 3) == Best(a, 3)
  {
    var ab, j := Joined(a, b), Best(a, 3).value;
    assert IsBest(a, 3, j);
    hide Best;
    forall k | 0 <= k < 3 && ab[k] != []
      ensures ab[k][0].Got? && AtOrBefore(ab[j][0].item.slot, j, ab[k][0].item.slot, k)
    {
      if a[k] == [] { assert ab[k][0] == b[k][0]; }
    }
    assert IsBest(ab, 3, j);
    BestIsUnique(ab, Best(ab, 3).value, j);
  }

  lemma PopKeepsBefore(a: Lanes, b: Lanes, j: nat)
    requires NoFailures(a) && AllBefore(a, b) && j < 3 && a[j] != []
    ensures NoFailures(Pop(a, j)) && AllBefore(Pop(a, j), b)
  {
    var next := Pop(a, j);
    assert forall i :: 0 <= i < |next[j]| ==> next[j][i] == a[j][i + 1];
  }

  lemma JoinedHead(a: Lanes, b: Lanes, j: nat)
    requires j < 3 && a[j] != []
    ensures Joined(a, b)[j] != [] && Joined(a, b)[j][0] == a[j][0]
  {
  }

  lemma NoHeadFails(rs: Lanes)
    requires NoFailures(rs)
    ensures !SomeHeadFailed(rs)
  {
  }

  lemma MergeStep(rs: Lanes, j: nat)
    requires !SomeHeadFailed(rs) && Best(rs, 3) == Some(j)
    ensures rs[j] != [] && rs[j][0].Got?
    ensures MergeAll(rs).out == [Tagged(j, rs[j][0].item)] + MergeAll(Pop(rs, j)).out
  {
  }

  lemma AppendStep(a: Lanes, b: Lanes, j: nat)
    requires NoFailures(a) && NoFailures(b) && AllBefore(a, b) && Best(a, 3) == Some(j)
    ensures a[j] != [] && a[j][0].Got?
    ensures MergeAll(a).out == [Tagged(j, a[j][0].item)] + MergeAll(Pop(a, j)).out
    ensures MergeAll(Joined(a, b)).out == [Tagged(j, a[j][0].item)] + MergeAll(Joined(Pop(a, j), b)).out
  {
    BestOfJoined(a, b);
    NoHeadFails(a);
    hide MergeAll, Joined, SomeHeadFailed, NoFailures, AllBefore, Best;
    MergeStep(a, j);
    JoinedPop(a, b, j);
    JoinedHead(a, b, j);
    MergeStep(Joined(a, b), j);
  }

  /** Merging lanes extended by strictly later slots is merging the old lanes and
      then the extensions. */
  lemma {:induction false} MergeAppends(a: Lanes, b: Lanes)
    requires NoFailures(a) && NoFailures(b) && AllBefore(a, b)
    ensures MergeAll(Joined(a, b)).out == MergeAll(a).out + MergeAll(b).out
    decreases TotalSteps(a)
  {
    hide AllBefore;
    if Best(a, 3).None? {
      assert forall k :: 0 <= k < 3 ==> a[k] + b[k] == b[k];
      assert Joined(a, b) == b;
    } else {
      hide MergeAll, Joined, SomeHeadFailed, NoFailures;
      var j := Best(a, 3).value;
      PopKeepsBefore(a, b, j);
      MergeAppends(Pop(a, j), b);
      AppendStep(a, b, j);
    }
  }

  // ----- one lane only -----

  function Tag(lane: seq<Step>, k: nat): seq<Tagged> {
    if lane == [] then []
    else if lane[0].Failed? then Tag(lane[1..], k)
    else [Tagged(k, lane[0].item)] + Tag(lane[1..], k)
  }

  /** With the other lanes empty, the merge is the lane itself. */
  lemma {:induction false} MergeOfOneLane(rs: Lanes, k: nat)
    requires k < 3 && NoFailure(rs[k]) && forall l :: 0 <= l < 3 && l != k ==> rs[l] == []
    ensures MergeAll(rs) == Merged(Tag(rs[k], k), false)
    decreases TotalSteps(rs)
  {
    if rs[k] != [] {
      assert Best(rs, 3) == Some(k);
      MergeOfOneLane(Pop(rs, k), k);
    }
  }

  // ----- resuming a replay above the last slot it delivered -----

  ghost predicate AllAtMost(lane: seq<Step>, high: nat) {
    forall i :: 0 <= i < |lane| ==> lane[i].Got? && lane[i].item.slot <= high
  }

  ghost predicate AllAbove(lane: seq<Step>, low: nat) {
    forall i :: 0 <= i < |lane| ==> lane[i].Got? && lane[i].item.slot > low
  }

  lemma {:induction false} FloorEmpties(lane: seq<Step>, high: nat)
    requires AllAtMost(lane, high)
    ensures FloorLane(lane, high + 1) == []
  {
    if lane != [] { FloorEmpties(lane[1..], high); }
  }

  lemma {:induction false} FloorSpares(lane: seq<Step>, low: nat, from: nat)
    requires AllAbove(lane, low) && from <= low + 1
    ensures FloorLane(lane, from) == lane
  {
    if lane != [] { FloorSpares(lane[1..], low, from); }
  }

  lemma {:induction false} FloorKeepsOrder(lane: seq<Step>, from: nat)
    requires SlotSorted(lane) && NoFailure(lane)
    ensures SlotSorted(FloorLane(lane, from)) && NoFailure(FloorLane(lane, from))
    ensures forall s :: s in FloorLane(lane, from) ==> s in lane
  {
    if lane != [] {
      SortedTail(lane);
      FloorHead(lane, from);
      hide FloorLane, SlotSorted;
      FloorKeepsOrder(lane[1..], from);
      SortedWith(lane, FloorLane(lane[1..], from));
    }
  }

  lemma SortedWith(lane: seq<Step>, rest: seq<Step>)
    requires SlotSorted(lane) && NoFailure(lane) && lane != []
    requires SlotSorted(rest) && NoFailure(rest) && forall s :: s in rest ==> s in lane[1..]
    ensures SlotSorted([lane[0]] + rest) && NoFailure([lane[0]] + rest)
    ensures forall s :: s in rest ==> s in lane
  {
    forall i | 0 <= i < |rest| ensures lane[0].item.slot <= rest[i].item.slot && rest[i] in lane {
      assert rest[i] in lane[1..];
      var k :| 0 <= k < |lane[1..]| && lane[1..][k] == rest[i];
      assert lane[k + 1] == rest[i];
    }
  }

  ghost predicate Sorted(rs: Lanes) {
    NoFailures(rs) && SlotSorted(rs[0]) && SlotSorted(rs[1]) && SlotSorted(rs[2])
  }

  lemma SortedFloor(rs: Lanes, from: nat)
    requires Sorted(rs)
    ensures Sorted(FloorLanes(rs, from))
  {
    FloorKeepsOrder(rs[0], from);
    FloorKeepsOrder(rs[1], from);
    FloorKeepsOrder(rs[2], from);
  }

  ghost predicate LanesAtMost(rs: Lanes, high: nat) {
    AllAtMost(rs[0], high) && AllAtMost(rs[1], high) && AllAtMost(rs[2], high)
  }

  /** Everything in `more` is later than `low`. */
  ghost predicate LanesLater(more: Lanes, low: nat) {
    AllAbove(more[0], low) && AllAbove(more[1], low) && AllAbove(more[2], low)
  }

  lemma FloorJoined(a: Lanes, b: Lanes, from: nat)
    ensures FloorLanes(Joined(a, b), from) == Joined(FloorLanes(a, from), FloorLanes(b, from))
  {
    hide FloorLane;
    FloorConcat(a[0], b[0], from);
    FloorConcat(a[1], b[1], from);
    FloorConcat(a[2], b[2], from);
  }

  lemma LaterIsSpared(more: Lanes, low: nat, from: nat)
    requires LanesLater(more, low) && from <= low + 1
    ensures FloorLanes(more, from) == more && NoFailures(more)
  {
    FloorSpares(more[0], low, from);
    FloorSpares(more[1], low, from);
    FloorSpares(more[2], low, from);
  }

  lemma FloorEmptiesAll(rs: Lanes, base: nat, high: nat)
    requires base <= high && LanesAtMost(FloorLanes(rs, base), high)
    ensures FloorLanes(rs, high + 1) == [[], [], []]
  {
    var floored := FloorLanes(rs, base);
    FloorTwice(rs[0], base, high + 1);
    FloorTwice(rs[1], base, high + 1);
    FloorTwice(rs[2], base, high + 1);
    hide FloorLane;
    FloorEmpties(floored[0], high);
    FloorEmpties(floored[1], high);
    FloorEmpties(floored[2], high);
  }

  lemma EarlierThanLater(a: Lanes, b: Lanes, at: nat)
    requires LanesAtMost(a, at) && LanesLater(b, at)
    ensures AllBefore(a, b)
  {
  }

  lemma NothingJoined(more: Lanes)
    ensures Joined([[], [], []], more) == more
  {
    assert forall k :: 0 <= k < 3 ==> [] + more[k] == more[k];
  }

  /** Above everything old, only what was added is left. */
  lemma ResumeLeavesAdded(rs: Lanes, more: Lanes, base: nat, last: nat)
    requires base <= last && LanesAtMost(FloorLanes(rs, base), last)
    ensures FloorLanes(Joined(rs, more), last + 1) == FloorLanes(more, last + 1)
    ensures FloorLanes(more, last + 1) == FloorLanes(FloorLanes(more, base), last + 1)
  {
    FloorJoined(rs, more, last + 1);
    FloorTwice(more[0], base, last + 1);
    FloorTwice(more[1], base, last + 1);
    FloorTwice(more[2], base, last + 1);
    hide FloorLane, LanesAtMost;
    FloorEmptiesAll(rs, base, last);
    NothingJoined(FloorLanes(more, last + 1));
  }

  /** Over sorted lanes whose additions from the base on are above the last slot
      delivered: replaying up to there, then resuming just above it over the
      longer lanes, is replaying the longer lanes. */
  lemma ResumeCompletes(rs: Lanes, more: Lanes, base: nat, last: nat)
    requires base <= last && NoFailures(FloorLanes(rs, base)) && LanesAtMost(FloorLanes(rs, base), last)
    requires LanesLater(FloorLanes(more, base), last)
    ensures FloorOut(MergeAll(Joined(rs, more)).out, base)
      == FloorOut(MergeAll(rs).out, base) + FloorOut(MergeAll(Joined(rs, more)).out, last + 1)
  {
    hide *;
    FloorCommutes(rs, base);
    FloorCommutes(Joined(rs, more), base);
    FloorCommutes(Joined(rs, more), last + 1);
    FloorJoined(rs, more, base);
    ResumeLeavesAdded(rs, more, base, last);
    LaterIsSpared(FloorLanes(more, base), last, last + 1);
    EarlierThanLater(FloorLanes(rs, base), FloorLanes(more, base), last);
    MergeAppends(FloorLanes(rs, base), FloorLanes(more, base));
  }

  /** What is merged is a message of its lane. */
  lemma {:induction false} MergedIsInLane(rs: Lanes, t: Tagged)
    requires t in MergeAll(rs).out
    ensures t.lane < 3 && Got(t.item) in rs[t.lane]
    decreases TotalSteps(rs)
  {
    var j := Best(rs, 3).value;
    if t != Tagged(j, rs[j][0].item) {
      MergedIsInLane(Pop(rs, j), t);
    }
  }
}
