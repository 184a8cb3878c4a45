/** `drive_replay`: the merge loop over three live cursors, refining the pure
    merge and the pure send loop. */
module Replay {
  import opened Core
  import opened Codecs
  import opened Cursor
  import opened Merge
  import opened Pacing
  import opened Drive
  import opened Causes

  datatype Status = Internal | SendTimeout | TooFarBehind | OutOfRange

  /** The subscriber's end of the channel. */
  class Channel {
    var delivered: seq<Tagged>
    var statuses: seq<Status>

    constructor ()
      ensures delivered == [] && statuses == []
    {
      delivered, statuses := [], [];
    }
  }

  /** One list of chunk plans per stream. */
  type LanePlans = s: seq<seq<ChunkPlan>> | |s| == 3 witness [[], [], []]

  datatype ReplayPlan = ReplayPlan(fromSlot: nat, toSlotExclusive: nat, lanes: LanePlans)

  datatype ReplayStats = ReplayStats(sent: nat, bytes: nat, lagMax: nat, lastSlot: Option<nat>, drained: bool)

  function StatsOf(p: Progress, drained: bool): ReplayStats {
    ReplayStats(p.emitted, p.bytes, p.lagMax, p.lastSlot, drained)
  }

  type Cursors = seq<Option<StreamCursor>>

  ghost function Members(cs: Cursors): set<object> {
    set i | 0 <= i < |cs| && cs[i].Some? :: cs[i].value
  }

  ghost predicate ReadyCursor(o: Option<StreamCursor>, cache: ChunkCache)
    reads if o.Some? then {o.value} else {}
  {
    o.Some? ==> o.value.Valid() && Backed(cache, o.value.plans)
  }

  ghost predicate Ready(cs: Cursors, cache: ChunkCache)
    reads Members(cs)
  {
    && |cs| == 3
    && (forall i :: 0 <= i < 3 ==> ReadyCursor(cs[i], cache))
    && (forall i, j :: 0 <= i < j < 3 && cs[i].Some? && cs[j].Some? ==> cs[i].value != cs[j].value)
  }

  /** What one lane still has to give. */
  ghost function LaneOf(c: Codec, o: Option<StreamCursor>): seq<Step>
    requires o.Some? ==> o.value.Valid()
    reads if o.Some? then {o.value} else {}
  {
    if o.Some? then o.value.Remaining(c) else []
  }

  ghost function LanesOf(c: Codec, cs: Cursors, cache: ChunkCache): Lanes
    requires Ready(cs, cache)
    reads Members(cs)
  {
    [LaneOf(c, cs[0]), LaneOf(c, cs[1]), LaneOf(c, cs[2])]
  }

  ghost predicate PeekedHead(c: Codec, o: Option<StreamCursor>)
    reads if o.Some? then {o.value} else {}
  {
    o.Some? && o.value.Valid() && o.value.Remaining(c) != [] && o.value.peeked.Some?
  }

  /** Peek one cursor of three; the others are not touched. */
  method PeekOne(c: Codec, cs: Cursors, cache: ChunkCache, i: nat) returns (r: Result<Option<nat>, PeekError>)
    requires Ready(cs, cache) && IsChunkCache(cache) && i < 3 && cs[i].Some?
    modifies cs[i].value, cache
    ensures Ready(cs, cache) && IsChunkCache(cache)
    ensures forall k :: 0 <= k < 3 && old(PeekedHead(c, cs[k])) && k != i ==> PeekedHead(c, cs[k])
    ensures r.Err? ==> SomeHeadFailed(old(LanesOf(c, cs, cache)))
    ensures r.Ok? ==> LanesOf(c, cs, cache) == old(LanesOf(c, cs, cache))
    ensures r == Ok(None) ==> LaneOf(c, cs[i]) == []
    ensures r.Ok? && r.value.Some? ==> PeekedHead(c, cs[i]) && HeadSlot(LaneOf(c, cs[i]), r.value.value)
  {
    hide StreamCursor.Remaining, IsChunkCache, Backed;
    ghost var was := LanesOf(c, cs, cache);
    var item := cs[i].value.Peek(c, cache);
    match item
    case Err(e) =>
      assert was[i] != [] && was[i][0].Failed?;
      return Err(e);
    case Ok(None) => return Ok(None);
    case Ok(Some(it)) => return Ok(Some(it.slot));
  }

  ghost predicate HeadSlot(lane: seq<Step>, slot: nat) {
    lane != [] && lane[0].Got? && lane[0].item.slot == slot
  }

  ghost predicate HeadsGot(rs: Lanes, n: nat)
    requires n <= 3
  {
    forall k :: 0 <= k < n && rs[k] != [] ==> rs[k][0].Got?
  }

  /** The loop's running best is the merge's best so far. */
  ghost predicate Tracks(rs: Lanes, n: nat, best: Option<(nat, nat)>)
    requires n <= 3
  {
    && HeadsGot(rs, n)
    && Best(rs, n) == (if best.Some? then Some(best.value.0) else None)
    && (best.Some? ==> best.value.0 < n && HeadSlot(rs[best.value.0], best.value.1))
  }

  lemma TracksEmpty(rs: Lanes, n: nat, best: Option<(nat, nat)>)
    requires n < 3 && Tracks(rs, n, best) && rs[n] == []
    ensures Tracks(rs, n + 1, best)
  {
  }

  /** Comparing (slot, lane) pairs, as the source does. */
  predicate Beats(slot: nat, lane: nat, best: Option<(nat, nat)>) {
    best.None? || slot < best.value.1 || (slot == best.value.1 && lane < best.value.0)
  }

  lemma TracksCandidate(rs: Lanes, n: nat, best: Option<(nat, nat)>, slot: nat)
    requires n < 3 && Tracks(rs, n, best) && HeadSlot(rs[n], slot)
    ensures Tracks(rs, n + 1, if Beats(slot, n, best) then Some((n, slot)) else best)
  {
  }

  /** The selection loop: peek every cursor and keep the least head. */
  method PeekBest(c: Codec, cs: Cursors, cache: ChunkCache) returns (r: Result<Option<nat>, PeekError>)
    requires Ready(cs, cache) && IsChunkCache(cache)
    modifies Members(cs), cache
    ensures Ready(cs, cache) && IsChunkCache(cache)
    ensures r.Err? ==> SomeHeadFailed(old(LanesOf(c, cs, cache)))
    ensures r.Ok? ==> LanesOf(c, cs, cache) == old(LanesOf(c, cs, cache))
    ensures r.Ok? ==> !SomeHeadFailed(LanesOf(c, cs, cache)) && r.value == Best(LanesOf(c, cs, cache), 3)
    ensures r.Ok? && r.value.Some? ==> PeekedHead(c, cs[r.value.value])
  {
    var best: Option<(nat, nat)> := None;
    ghost var rs := LanesOf(c, cs, cache);
    var i := 0;
    while i < 3
      invariant 0 <= i <= 3 && Ready(cs, cache) && IsChunkCache(cache)
      invariant LanesOf(c, cs, cache) == rs && Tracks(rs, i, best)
      invariant best.Some? ==> PeekedHead(c, cs[best.value.0])
    {
      hide LaneOf, PeekedHead, IsChunkCache, Best, Tracks, StreamCursor.Remaining;
      if cs[i].None? {
        assert rs[i] == [] by { EmptyLane(c, cs, cache, i); }
        TracksEmpty(rs, i, best);
      } else {
        var slot := PeekOne(c, cs, cache, i);
        if slot.Err? {
          return Err(slot.error);
        }
        if slot.value.Some? {
          TracksCandidate(rs, i, best, slot.value.value);
          if Beats(slot.value.value, i, best) {
            best := Some((i, slot.value.value));
          }
        } else {
          TracksEmpty(rs, i, best);
        }
      }
      i := i + 1;
    }
    return Ok(if best.Some? then Some(best.value.0) else None);
  }

  lemma EmptyLane(c: Codec, cs: Cursors, cache: ChunkCache, i: nat)
    requires Ready(cs, cache) && i < 3 && cs[i].None?
    ensures LanesOf(c, cs, cache)[i] == []
  {
  }

  // ----- the pass -----

  method MakeCursor(plans: seq<ChunkPlan>, ghost c: Codec, ghost cache: ChunkCache) returns (o: Option<StreamCursor>)
    requires Backed(cache, plans)
    ensures o.Some? ==> fresh(o.value)
    ensures ReadyCursor(o, cache) && LaneOf(c, o) == AllSteps(c, plans)
  {
    if plans == [] {
      return None;
    }
    var cursor := new StreamCursor(plans);
    return Some(cursor);
  }

  method MakeCursors(ghost c: Codec, plan: ReplayPlan, ghost cache: ChunkCache) returns (cs: Cursors)
    requires forall i :: 0 <= i < 3 ==> Backed(cache, plan.lanes[i])
    ensures Ready(cs, cache) && fresh(Members(cs))
    ensures LanesOf(c, cs, cache) == PlanLanes(c, plan)
  {
    hide AllSteps, StreamCursor.Remaining, Backed;
    var c0 := MakeCursor(plan.lanes[0], c, cache);
    var c1 := MakeCursor(plan.lanes[1], c, cache);
    var c2 := MakeCursor(plan.lanes[2], c, cache);
    cs := [c0, c1, c2];
  }

  ghost function PlanLanes(c: Codec, plan: ReplayPlan): Lanes
  {
    [AllSteps(c, plan.lanes[0]), AllSteps(c, plan.lanes[1]), AllSteps(c, plan.lanes[2])]
  }

  /** What a pass over these lanes does: merge, drop below the floor, send. */
  ghost function PassOver(w: World, rs: Lanes, from: nat, p: Progress): PassEnd
    requires w.cfg.Valid()
  {
    Pump(w, FloorOut(MergeAll(rs).out, from), MergeAll(rs).failed, p)
  }

  /** What a plan has to offer, merged and from its start on. */
  ghost function OutOf(c: Codec, plan: ReplayPlan): seq<Tagged> {
    FloorOut(MergeAll(PlanLanes(c, plan)).out, plan.fromSlot)
  }

  ghost function PlanPass(c: Codec, w: World, plan: ReplayPlan, ps: PacerState): PassEnd
    requires w.cfg.Valid()
  {
    PassOver(w, PlanLanes(c, plan), plan.fromSlot, Start(ps))
  }

  /** One turn of the loop, on the pure side. */
  lemma PassTurn(w: World, rs: Lanes, from: nat, p: Progress, j: nat)
    requires w.cfg.Valid() && !SomeHeadFailed(rs) && Best(rs, 3) == Some(j)
    ensures rs[j] != [] && rs[j][0].Got?
    ensures var item := rs[j][0].item;
      && (item.slot < from ==> PassOver(w, rs, from, p) == PassOver(w, Pop(rs, j), from, p))
      && (item.slot >= from ==>
        var (next, exit) := Attempt(w, Tagged(j, item), p);
        PassOver(w, rs, from, p)
          == if exit.Some? then PassEnd(next, exit.value) else PassOver(w, Pop(rs, j), from, next))
  {
    MergeStep(rs, j);
    assert MergeAll(rs).failed == MergeAll(Pop(rs, j)).failed;
    var out, rest := MergeAll(rs).out, MergeAll(Pop(rs, j)).out;
    hide MergeAll, Attempt, Best, SomeHeadFailed;
    assert out[0] == Tagged(j, rs[j][0].item) && out[1..] == rest;
  }

  lemma PassOverDone(w: World, rs: Lanes, from: nat, p: Progress)
    requires w.cfg.Valid()
    ensures SomeHeadFailed(rs) ==> PassOver(w, rs, from, p) == PassEnd(p, DecodeError)
    ensures !SomeHeadFailed(rs) && Best(rs, 3).None? ==> PassOver(w, rs, from, p) == PassEnd(p, Drained)
  {
  }

  /** What the subscriber is told when a pass ends early. */
  function StatusOf(exit: Option<Exit>): seq<Status> {
    match exit
    case Some(DecodeError) => [Internal]
    case Some(SendTimedOut) => [SendTimeout]
    case Some(LagDropped) => [TooFarBehind]
    case _ => []
  }

  /** What the subscriber is told is why the pass ended: that a message could not
      be decoded, with all before it in time; that the first message something
      befell met a send that timed out; that this one went through too late. It
      is told nothing otherwise. */
  ghost predicate TellsWhy(w: World, out: seq<Tagged>, failed: bool, p: Progress, told: seq<Status>)
    requires w.cfg.Valid()
  {
    && (told == [Internal] <==> failed && Undisturbed(w, out, p))
    && (told == [SendTimeout] <==> exists n :: FirstDisturbed(w, out, p, n) && Befell(w, out, p, n, SendTimedOut))
    && (told == [TooFarBehind] <==> exists n :: FirstDisturbed(w, out, p, n) && LagsOut(w, out, p, n))
    && (told == [] || told == [Internal] || told == [SendTimeout] || told == [TooFarBehind])
  }

  lemma StatusTellsWhy(w: World, out: seq<Tagged>, failed: bool, p: Progress)
    requires w.cfg.Valid()
    ensures TellsWhy(w, out, failed, p, StatusOf(Some(Pump(w, out, failed, p).exit)))
  {
    EndsExactly(w, out, failed, p, DecodeError);
    EndsExactly(w, out, failed, p, SendTimedOut);
    EndsExactly(w, out, failed, p, LagDropped);
    hide Pump, Undisturbed, FirstDisturbed, LagsOut;
  }

  /** What a pass that could decode everything reports:
      the bytes and the last slot of what it delivered, the worst lag it warned of,
      and whether all that was on offer got through. `sent` misses a message that
      came too late. */
  ghost predicate Accounts(w: World, out: seq<Tagged>, p: Progress, delivered: seq<Tagged>, stats: ReplayStats)
    requires w.cfg.Valid()
  {
    && delivered <= out && stats.bytes == TotalSize(w, delivered) && stats.lastSlot == LastSlotOf(delivered)
    && stats.sent == |delivered| - (if exists n :: FirstDisturbed(w, out, p, n) && LagsOut(w, out, p, n) then 1 else 0)
    && IsPeak(w, out, p, stats.sent, stats.lagMax)
    && (stats.drained <==> Undisturbed(w, out, p))
  }

  lemma PassAccounts(w: World, out: seq<Tagged>, failed: bool, ps: PacerState)
    requires w.cfg.Valid()
    ensures var end := Pump(w, out, failed, Start(ps));
      end.exit != DecodeError ==>
        Accounts(w, out, Start(ps), end.progress.delivered, StatsOf(end.progress, end.exit == Drained))
  {
    var p := Start(ps);
    assert Tallied(w, p);
    EveryExitAccounts(w, out, failed, p);
    EndsExactly(w, out, failed, p, LagDropped);
    EndsExactly(w, out, failed, p, Drained);
    EndsExactly(w, out, failed, p, DecodeError);
    PeakIsReported(w, out, failed, p);
    hide Pump, Undisturbed, FirstDisturbed, LagsOut, IsPeak, TotalSize, LastSlotOf;
    assert [] + out == out;
  }

  function PacerOf(pacer: Pacer): PacerState
    reads pacer
  {
    PacerState(pacer.anchor, pacer.lastWarn)
  }

  /** The pacer and the channel agree with the counters; `base` is what earlier
      passes delivered. */
  ghost predicate InStep(pacer: Pacer, tx: Channel, p: Progress, base: seq<Tagged>)
    reads pacer, tx
  {
    p.pacer == pacer.State() && tx.delivered == base + p.delivered
  }

  /** Pace and send one message, updating the counters of the pass. */
  method SendOne(w: World, t: Tagged, pacer: Pacer, tx: Channel, p: Progress, ghost base: seq<Tagged>)
    returns (next: Progress, exit: Option<Exit>)
    requires w.cfg.Valid() && pacer.cfg == w.cfg && InStep(pacer, tx, p, base)
    modifies pacer, tx
    ensures (next, exit) == Attempt(w, t, p) && InStep(pacer, tx, next, base)
    ensures tx.statuses == old(tx.statuses) + StatusOf(exit)
    ensures StatusOf(exit)
      == if Befell(w, [t], p, 0, SendTimedOut) then [SendTimeout]
         else if LagsOut(w, [t], p, 0) then [TooFarBehind]
         else []
    ensures exit.Some? ==> Befell(w, [t], p, 0, exit.value)
  {
    AttemptBefell(w, [t], p);
    AttemptInTime(w, [t], p);
    var e := w.env(p.turn);
    var target := pacer.Target(t.item.recvNs, e.nowTarget);
    next := p.(pacer := PacerOf(pacer), turn := p.turn + 1);
    if e.cancelled {
      return next, Some(Cancelled);
    }
    match e.send
    case TimedOut =>
      tx.statuses := tx.statuses + [SendTimeout];
      return next, Some(SendTimedOut);
    case Closed =>
      return next, Some(SubscriberClosed);
    case SentOk =>
      tx.delivered := tx.delivered + [t];
      next := next.(
        delivered := next.delivered + [t], bytes := next.bytes + w.size(t.item), lastSlot := Some(t.item.slot));
      var action := pacer.ObserveEmit(target, e.nowObserve);
      next := next.(pacer := PacerOf(pacer));
      if action.LagDrop? {
        tx.statuses := tx.statuses + [TooFarBehind];
        return next, Some(LagDropped);
      }
      if action.LagWarn? {
        next := next.(lagMax := Max(next.lagMax, action.lag));
      }
      next := next.(emitted := next.emitted + 1);
      return next, None;
  }

  lemma PoppedLanes(was: Lanes, now: Lanes, j: nat, item: Item)
    requires j < 3 && was[j] == [Got(item)] + now[j]
    requires forall k :: 0 <= k < 3 && k != j ==> was[k] == now[k]
    ensures was[j][0] == Got(item) && now == Pop(was, j)
  {
  }

  /** Take the peeked winner off its cursor. */
  method TakeWinner(c: Codec, cs: Cursors, cache: ChunkCache, j: nat) returns (item: Item)
    requires Ready(cs, cache) && j < 3 && PeekedHead(c, cs[j])
    modifies Members(cs)
    ensures Ready(cs, cache)
    ensures var was := old(LanesOf(c, cs, cache));
      was[j] != [] && was[j][0] == Got(item) && LanesOf(c, cs, cache) == Pop(was, j)
  {
    hide StreamCursor.Remaining;
    ghost var was := LanesOf(c, cs, cache);
    var taken := cs[j].value.TakePeeked(c);
    item := taken.value;
    PoppedLanes(was, LanesOf(c, cs, cache), j, item);
  }

  /** One replay pass, refining the pure merge-and-send of its plan. */
  method DriveReplay(c: Codec, w: World, plan: ReplayPlan, cache: ChunkCache, pacer: Pacer, tx: Channel)
    returns (r: Result<ReplayStats, PeekError>)
    requires IsChunkCache(cache) && w.cfg.Valid() && pacer.cfg == w.cfg
    requires forall i :: 0 <= i < 3 ==> Backed(cache, plan.lanes[i])
    modifies cache, pacer, tx
    ensures IsChunkCache(cache)
    ensures var end := PlanPass(c, w, plan, old(pacer.State()));
      && tx.delivered == old(tx.delivered) + end.progress.delivered
      && tx.statuses == old(tx.statuses) + StatusOf(Some(end.exit))
      && pacer.State() == end.progress.pacer
      && (r.Err? <==> end.exit == DecodeError)
      && (r.Ok? ==> r.value == StatsOf(end.progress, end.exit == Drained))
    ensures var failed, told := MergeAll(PlanLanes(c, plan)).failed, tx.statuses[|old(tx.statuses)|..];
      TellsWhy(w, OutOf(c, plan), failed, Start(old(pacer.State())), told)
    ensures var delivered := tx.delivered[|old(tx.delivered)|..];
      r.Ok? ==> Accounts(w, OutOf(c, plan), Start(old(pacer.State())), delivered, r.value)
  {
    PassAccounts(w, OutOf(c, plan), MergeAll(PlanLanes(c, plan)).failed, pacer.State());
    StatusTellsWhy(w, OutOf(c, plan), MergeAll(PlanLanes(c, plan)).failed, Start(pacer.State()));
    var cs := MakeCursors(c, plan, cache);
    var p := Start(PacerOf(pacer));
    var exit;
    hide LanesOf, PassOver, IsChunkCache, PlanLanes, TellsWhy, Accounts, OutOf;
    p, exit := MergeLoop(c, w, cs, plan.fromSlot, cache, pacer, tx, p, tx.delivered);
    match exit
    case DecodeError => return Err(DecodeMessageFailed);
    case _ => return Ok(StatsOf(p, exit == Drained));
  }

  /** One turn of the loop: peek, pick, skip or send. */
  method Turn(
      c: Codec, w: World, cs: Cursors, fromSlot: nat, cache: ChunkCache, pacer: Pacer, tx: Channel,
      p: Progress, ghost base: seq<Tagged>)
    returns (next: Progress, exit: Option<Exit>)
    requires Ready(cs, cache) && IsChunkCache(cache)
    requires w.cfg.Valid() && pacer.cfg == w.cfg && InStep(pacer, tx, p, base)
    modifies Members(cs), cache, pacer, tx
    ensures Ready(cs, cache) && IsChunkCache(cache) && InStep(pacer, tx, next, base)
    ensures tx.statuses == old(tx.statuses) + StatusOf(exit)
    ensures exit.Some? ==> PassEnd(next, exit.value) == PassOver(w, old(LanesOf(c, cs, cache)), fromSlot, p)
    ensures exit.None? ==>
      PassOver(w, LanesOf(c, cs, cache), fromSlot, next) == PassOver(w, old(LanesOf(c, cs, cache)), fromSlot, p)
    ensures exit.None? ==> TotalSteps(LanesOf(c, cs, cache)) < TotalSteps(old(LanesOf(c, cs, cache)))
  {
    hide LanesOf, PassOver, IsChunkCache, Attempt, Best, PeekedHead, SomeHeadFailed;
    ghost var rs := LanesOf(c, cs, cache);
    PassOverDone(w, rs, fromSlot, p);
    var best := PeekBest(c, cs, cache);
    if best.Err? {
      tx.statuses := tx.statuses + [Internal];
      return p, Some(DecodeError);
    }
    if best.value.None? {
      return p, Some(Drained);
    }
    var j := best.value.value;
    PassTurn(w, rs, fromSlot, p, j);
    PopShrinks(rs, j);
    var item := TakeWinner(c, cs, cache, j);
    if item.slot < fromSlot {
      return p, None;
    }
    next, exit := SendOne(w, Tagged(j, item), pacer, tx, p, base);
  }

  lemma PopShrinks(rs: Lanes, j: nat)
    requires j < 3 && rs[j] != []
    ensures TotalSteps(Pop(rs, j)) < TotalSteps(rs)
  {
  }

  /** The loop of a pass over three ready cursors. */
  method MergeLoop(
      c: Codec, w: World, cs: Cursors, fromSlot: nat, cache: ChunkCache, pacer: Pacer, tx: Channel,
      start: Progress, ghost base: seq<Tagged>)
    returns (p: Progress, exit: Exit)
    requires Ready(cs, cache) && IsChunkCache(cache)
    requires w.cfg.Valid() && pacer.cfg == w.cfg && InStep(pacer, tx, start, base)
    modifies Members(cs), cache, pacer, tx
    ensures IsChunkCache(cache) && InStep(pacer, tx, p, base)
    ensures PassEnd(p, exit) == old(PassOver(w, LanesOf(c, cs, cache), fromSlot, start))
    ensures tx.statuses == old(tx.statuses) + StatusOf(Some(exit))
  {
    p := start;
    ghost var end := PassOver(w, LanesOf(c, cs, cache), fromSlot, p);
    while true
      invariant Ready(cs, cache) && IsChunkCache(cache) && InStep(pacer, tx, p, base)
      invariant PassOver(w, LanesOf(c, cs, cache), fromSlot, p) == end
      invariant tx.statuses == old(tx.statuses)
      decreases TotalSteps(LanesOf(c, cs, cache))
    {
      hide LanesOf, PassOver, IsChunkCache, InStep, TotalSteps;
      var ended;
      p, ended := Turn(c, w, cs, fromSlot, cache, pacer, tx, p, base);
      if ended.Some? {
        return p, ended.value;
      }
    }
  }
}
