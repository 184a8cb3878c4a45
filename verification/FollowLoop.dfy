/** The loop of `follow_replay` over live caches, a live pacer and a live
    channel, refining the turn-by-turn specification. */
module FollowLoop {
  import opened Core
  import opened Codecs
  import opened Cursor
  import opened Merge
  import opened Pacing
  import opened Drive
  import opened Replay
  import opened Plan
  import opened Follow
  import opened Ending

  /** Every chunk file is the immutable one behind its cache key. */
  ghost predicate Shelved(cache: ChunkCache, cat: Catalog) {
    forall stream, start :: stream in cat.streams && start in cat.streams[stream] ==>
      cache.file(KeyOf(cat.streams[stream][start])) == cat.streams[stream][start].zst
  }

  ghost predicate PlanBacked(cache: ChunkCache, plan: ReplayPlan) {
    forall i :: 0 <= i < 3 ==> Backed(cache, plan.lanes[i])
  }

  lemma StreamBacked(c: Codec, cat: Catalog, sub: Subscription, cache: ChunkCache, stream: Stream, from: nat, to: nat)
    requires Shelved(cache, cat) && PlanStream(c, cat, sub, stream, from, to).Ok?
    ensures Backed(cache, PlanStream(c, cat, sub, stream, from, to).value)
  {
    if HasStream(sub, stream) {
      var tree, entries := TreeOf(cat, stream), ChunksInRange(cat, stream, from, to);
      InRangeFromTree(tree, Ascending(tree.Keys), from, to);
      EntriesPlanned(c, NamedFilters(sub, stream), entries);
      hide PlanEntries, ChunksInRange, NamedFilters;
      forall i | 0 <= i < |entries| ensures cache.file(KeyOf(entries[i])) == entries[i].zst {
        assert entries[i] in entries;
        var s :| s in tree && tree[s] == entries[i];
        assert stream in cat.streams;
      }
    }
  }

  /** A plan only names files the catalog lists. */
  lemma PlanIsBacked(c: Codec, cat: Catalog, sub: Subscription, cache: ChunkCache, requested: Option<nat>)
    requires Shelved(cache, cat) && PlanOf(c, cat, sub, requested).Ok?
    ensures PlanBacked(cache, PlanOf(c, cat, sub, requested).value)
  {
    hide PlanStream, Backed, StartSlot, EndSlot, Shelved;
    var plan := PlanOf(c, cat, sub, requested).value;
    StreamBacked(c, cat, sub, cache, Tx, plan.fromSlot, plan.toSlotExclusive);
    StreamBacked(c, cat, sub, cache, Acct, plan.fromSlot, plan.toSlotExclusive);
    StreamBacked(c, cat, sub, cache, Block, plan.fromSlot, plan.toSlotExclusive);
  }

  /** What the subscriber is told when the connection ends. */
  function FarewellOf(exit: FollowExit): seq<Status> {
    match exit
    case CannotPlan(_) => [OutOfRange]
    case PassEnded(e) => StatusOf(Some(e))
    case _ => []
  }

  /** The subscriber is told why it is sent no more: nothing can be planned where
      it would resume, a message cannot be decoded, a send timed out or went
      through too late. A connection that idles out or is stopped, or whose
      subscriber is gone, ends without a word. */
  ghost predicate Farewell(exit: FollowExit, told: seq<Status>) {
    && (told == [OutOfRange] <==> exit.CannotPlan?)
    && (told == [Internal] <==> exit == PassEnded(DecodeError))
    && (told == [SendTimeout] <==> exit == PassEnded(SendTimedOut))
    && (told == [TooFarBehind] <==> exit == PassEnded(LagDropped))
    && (|told| <= 1)
  }

  lemma FarewellIs(exit: FollowExit)
    ensures Farewell(exit, FarewellOf(exit))
  {
  }

  /** The caches are the decoders' and hold the catalogs' files. */
  ghost predicate CachesReady(f: Follower, index: IndexCache, chunks: ChunkCache)
    reads index, chunks
  {
    && f.Valid()
    && IsIndexCache(f.c, index) && IsChunkCache(chunks)
    && (forall n :: CatalogBacked(index, f.env(n).cat) && Shelved(chunks, f.env(n).cat))
  }

  /** The loop's own variables; the pacer and the channel are live objects. */
  datatype Local = Local(total: ReplayStats, plan: Option<ReplayPlan>, deadline: nat, turn: nat)

  /** The live objects and the locals are the state; `base` was delivered before. */
  ghost predicate InAgreement(
      f: Follower, l: Local, st: FollowState, chunks: ChunkCache, pacer: Pacer, tx: Channel, base: seq<Tagged>)
    reads pacer, tx
  {
    && pacer.cfg == f.pacing
    && st == FollowState(l.total, l.plan, l.deadline, l.turn, pacer.State(), st.delivered)
    && tx.delivered == base + st.delivered
    && (l.plan.Some? ==> PlanBacked(chunks, l.plan.value))
  }

  /** What the connection returns, once it has ended. */
  ghost predicate Reports(done: Option<Result<ReplayStats, PeekError>>, next: FollowState, exit: Option<FollowExit>) {
    && (done.Some? <==> exit.Some?)
    && (done.Some? ==> (done.value.Err? <==> exit.value == PassEnded(DecodeError)))
    && (done.Some? && done.value.Ok? ==> done.value.value == next.total)
  }

  /** The plan of this turn: the one in hand, or a new one above the last slot. */
  method TakePlan(f: Follower, l: Local, ghost st: FollowState, index: IndexCache, chunks: ChunkCache)
    returns (r: Result<ReplayPlan, PlanError>)
    requires CachesReady(f, index, chunks) && (l.plan.Some? ==> PlanBacked(chunks, l.plan.value))
    requires l.plan == st.plan && l.turn == st.turn && l.total == st.total
    modifies index
    ensures CachesReady(f, index, chunks) && r == PlanFor(f, st)
    ensures r.Ok? ==> PlanBacked(chunks, r.value)
  {
    hide PlanOf, IsIndexCache, IsChunkCache, CatalogBacked, Shelved, PlanBacked;
    if l.plan.Some? {
      return Ok(l.plan.value);
    }
    var cat, at := f.env(l.turn).cat, ResumeAt(f.sub, l.total.lastSlot);
    r := PlanReplay(f.c, cat, f.sub, index, at);
    if r.Ok? {
      PlanIsBacked(f.c, cat, f.sub, chunks, at);
    }
  }

  /** After a pass: add it up and decide how to go on. */
  method Settle(f: Follower, l: Local, r: Result<ReplayStats, PeekError>, ghost st: FollowState, ghost pass: PassEnd)
    returns (l': Local, done: Option<Result<ReplayStats, PeekError>>, ghost next: FollowState,
      ghost exit: Option<FollowExit>)
    requires l == Local(st.total, st.plan, st.deadline, st.turn)
    requires r.Err? <==> pass.exit == DecodeError
    requires r.Ok? ==> r.value == StatsOf(pass.progress, pass.exit == Drained)
    ensures (next, exit) == AfterPass(f, st, pass)
    ensures Reports(done, next, exit) && l' == Local(next.total, next.plan, next.deadline, next.turn) && l'.plan.None?
    ensures next.pacer == pass.progress.pacer && next.delivered == st.delivered + pass.progress.delivered
    ensures exit.Some? ==> FarewellOf(exit.value) == StatusOf(Some(pass.exit))
    ensures exit.None? ==> StatusOf(Some(pass.exit)) == []
    ensures var e, quiet := f.env(st.turn), pass.exit == Drained && pass.progress.emitted == 0;
      && (exit.None? <==> pass.exit == Drained && (!quiet || (e.nowCheck < st.deadline && !e.stopInSleep)))
      && (exit == Some(IdleOut) <==> quiet && e.nowCheck >= st.deadline)
      && (exit == Some(Stopped) <==> quiet && e.nowCheck < st.deadline && e.stopInSleep)
      && next.deadline == if exit.None? && !quiet then e.nowAfter + f.idleTimeout else st.deadline
  {
    next, exit := AfterPass(f, st, pass).0, AfterPass(f, st, pass).1;
    var e := f.env(l.turn);
    l' := Local(l.total, None, l.deadline, l.turn + 1);
    if r.Err? {
      return l', Some(Err(r.error)), next, exit;
    }
    l' := l'.(total := AddUp(l.total, r.value));
    if !r.value.drained {
      l' := l'.(total := l'.total.(drained := false));
      return l', Some(Ok(l'.total)), next, exit;
    }
    if r.value.sent > 0 {
      l' := l'.(deadline := e.nowAfter + f.idleTimeout);
      return l', None, next, exit;
    }
    if e.nowCheck >= l.deadline || e.stopInSleep {
      return l', Some(Ok(l'.total)), next, exit;
    }
    return l', None, next, exit;
  }

  /** Drive one pass and settle it. */
  method RunPass(
      f: Follower, l: Local, plan: ReplayPlan, index: IndexCache, chunks: ChunkCache, pacer: Pacer, tx: Channel,
      ghost st: FollowState, ghost base: seq<Tagged>)
    returns (l': Local, done: Option<Result<ReplayStats, PeekError>>, ghost next: FollowState,
      ghost exit: Option<FollowExit>)
    requires CachesReady(f, index, chunks) && InAgreement(f, l, st, chunks, pacer, tx, base) && PlanBacked(chunks, plan)
    modifies chunks, pacer, tx
    ensures CachesReady(f, index, chunks) && InAgreement(f, l', next, chunks, pacer, tx, base)
    ensures (next, exit) == AfterPass(f, st, PlanPass(f.c, f.env(st.turn).world, plan, st.pacer))
    ensures Reports(done, next, exit)
    ensures tx.statuses == old(tx.statuses) + (if exit.Some? then FarewellOf(exit.value) else [])
  {
    hide PlanPass, IsIndexCache, IsChunkCache, Backed, AfterPass, CatalogBacked, Shelved, Reports, FarewellOf, StatusOf;
    ghost var pass := PlanPass(f.c, f.env(l.turn).world, plan, st.pacer);
    var stats := DriveReplay(f.c, f.env(l.turn).world, plan, chunks, pacer, tx);
    l', done, next, exit := Settle(f, l, stats, st, pass);
    assert (base + st.delivered) + pass.progress.delivered == base + (st.delivered + pass.progress.delivered);
  }

  lemma PlannedTurnIs(f: Follower, st: FollowState)
    requires f.Valid()
    ensures f.env(st.turn).stopped ==> FollowTurn(f, st) == (st, Some(Stopped))
    ensures !f.env(st.turn).stopped && PlanFor(f, st).Err? ==>
      FollowTurn(f, st) == (Undrained(st), Some(CannotPlan(PlanFor(f, st).error)))
    ensures !f.env(st.turn).stopped && PlanFor(f, st).Ok? ==>
      FollowTurn(f, st)
        == AfterPass(f, st, PlanPass(f.c, f.env(st.turn).world, PlanFor(f, st).value, st.pacer))
  {
    hide PlanFor, PlanPass, AfterPass;
  }

  /** Tell the subscriber that there is nothing further to serve. */
  method Refuse(
      f: Follower, l: Local, chunks: ChunkCache, pacer: Pacer, tx: Channel, ghost st: FollowState,
      ghost base: seq<Tagged>)
    returns (l': Local)
    requires InAgreement(f, l, st, chunks, pacer, tx, base)
    modifies tx
    ensures InAgreement(f, l', Undrained(st), chunks, pacer, tx, base) && l'.total == Undrained(st).total
    ensures tx.statuses == old(tx.statuses) + [OutOfRange]
  {
    hide PlanBacked;
    tx.statuses := tx.statuses + [OutOfRange];
    l' := l.(total := l.total.(drained := false));
  }

  lemma AgreeOnPlan(
      f: Follower, l: Local, st: FollowState, chunks: ChunkCache, pacer: Pacer, tx: Channel, base: seq<Tagged>)
    requires InAgreement(f, l, st, chunks, pacer, tx, base)
    ensures l.plan == st.plan && l.turn == st.turn && l.total == st.total
    ensures l.plan.Some? ==> PlanBacked(chunks, l.plan.value)
  {
    hide PlanBacked;
  }

  /** One turn of the loop: stop, plan, drive one pass, settle it. */
  method OneTurn(
      f: Follower, l: Local, index: IndexCache, chunks: ChunkCache, pacer: Pacer, tx: Channel,
      ghost st: FollowState, ghost base: seq<Tagged>)
    returns (l': Local, done: Option<Result<ReplayStats, PeekError>>, ghost next: FollowState,
      ghost exit: Option<FollowExit>)
    requires CachesReady(f, index, chunks) && InAgreement(f, l, st, chunks, pacer, tx, base)
    modifies index, chunks, pacer, tx
    ensures CachesReady(f, index, chunks) && InAgreement(f, l', next, chunks, pacer, tx, base)
    ensures (next, exit) == FollowTurn(f, st) && Reports(done, next, exit)
    ensures tx.statuses == old(tx.statuses) + (if exit.Some? then FarewellOf(exit.value) else [])
  {
    PlannedTurnIs(f, st);
    AgreeOnPlan(f, l, st, chunks, pacer, tx, base);
    hide PlanFor, PlanPass, CachesReady, PlanBacked, FollowTurn, AfterPass, InAgreement, Undrained;
    var e := f.env(l.turn);
    if e.stopped {
      return l, Some(Ok(l.total)), st, Some(Stopped);
    }
    var plan := TakePlan(f, l, st, index, chunks);
    if plan.Err? {
      l' := Refuse(f, l, chunks, pacer, tx, st, base);
      return l', Some(Ok(l'.total)), Undrained(st), Some(CannotPlan(plan.error));
    }
    l', done, next, exit := RunPass(f, l, plan.value, index, chunks, pacer, tx, st, base);
  }

  /** A connection that ended at turn `n`: why, what the subscriber was told, and
      what is reported of it. */
  ghost predicate IsOutcome(
      f: Follower, first: ReplayPlan, now: nat, n: nat, exit: FollowExit, delivered: seq<Tagged>, told: seq<Status>,
      r: Result<ReplayStats, PeekError>)
    requires f.Valid()
  {
    && EndedAt(f, first, now, n, exit) && Farewell(exit, told)
    && (r.Err? <==> exit == PassEnded(DecodeError))
    && (r.Ok? && OneMeasure(f) ==> Reported(f, first, now, n, exit, delivered, r.value))
  }

  lemma OutcomeIs(
      f: Follower, first: ReplayPlan, now: nat, horizon: nat, r: Result<ReplayStats, PeekError>,
      base: seq<Tagged>, said: seq<Status>, delivered: seq<Tagged>, told: seq<Status>)
    requires f.Valid() && f.env(horizon).stopped
    requires var end := FollowAll(f, Begin(first, now + f.idleTimeout), horizon);
      && Reports(Some(r), end.state, Some(end.exit))
      && delivered == base + end.state.delivered && told == said + FarewellOf(end.exit)
    ensures var n := TurnsOf(f, Begin(first, now + f.idleTimeout), horizon);
      IsOutcome(
        f, first, now, n, FollowAll(f, Begin(first, now + f.idleTimeout), horizon).exit, delivered[|base|..],
        told[|said|..], r)
  {
    var st0 := Begin(first, now + f.idleTimeout);
    var exit := FollowAll(f, st0, horizon).exit;
    ConnectionEnds(f, first, now, horizon, exit);
    FarewellIs(exit);
    hide FollowAll, TurnsOf, WentOn, GoesOn, EndsFor, Farewell, FarewellOf, Reported, OneMeasure;
    if exit != PassEnded(DecodeError) && OneMeasure(f) { ReportsAll(f, first, now, horizon); }
  }

  /** `follow_replay`: turn after turn until one ends the connection. Some turn
      sees the shutdown if nothing else ends it. */
  method FollowReplay(
      f: Follower, first: ReplayPlan, now: nat, index: IndexCache, chunks: ChunkCache, tx: Channel, ghost horizon: nat)
    returns (r: Result<ReplayStats, PeekError>)
    requires CachesReady(f, index, chunks) && PlanBacked(chunks, first) && f.env(horizon).stopped
    modifies index, chunks, tx
    ensures var end := FollowAll(f, Begin(first, now + f.idleTimeout), horizon);
      && tx.delivered == old(tx.delivered) + end.state.delivered
      && tx.statuses == old(tx.statuses) + FarewellOf(end.exit)
      && Reports(Some(r), end.state, Some(end.exit))
    ensures var n := TurnsOf(f, Begin(first, now + f.idleTimeout), horizon);
      var delivered, told := tx.delivered[|old(tx.delivered)|..], tx.statuses[|old(tx.statuses)|..];
      IsOutcome(f, first, now, n, FollowAll(f, Begin(first, now + f.idleTimeout), horizon).exit, delivered, told, r)
  {
    var pacer := new Pacer(f.pacing);
    var l := Local(NOTHING, Some(first), now + f.idleTimeout, 0);
    ghost var base, told := tx.delivered, tx.statuses;
    ghost var st := Begin(first, now + f.idleTimeout);
    ghost var end := FollowAll(f, st, horizon);
    hide *;
    while true
      invariant CachesReady(f, index, chunks) && InAgreement(f, l, st, chunks, pacer, tx, base)
      invariant f.Valid() && st.turn <= horizon && FollowAll(f, st, horizon) == end
      invariant tx.statuses == told
      decreases horizon - st.turn
    {
      FollowOn(f, st, horizon);
      var done;
      ghost var exit;
      l, done, st, exit := OneTurn(f, l, index, chunks, pacer, tx, st, base);
      if done.Some? {
        OutcomeIs(f, first, now, horizon, done.value, base, told, tx.delivered, tx.statuses);
        return done.value;
      }
    }
  }
}
