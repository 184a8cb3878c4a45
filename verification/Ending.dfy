/** How a whole connection ends and what it reports, on the clock readings and the
    answers of the world around its turns. */
module Ending {
  import opened Core
  import opened Merge
  import opened Drive
  import opened Causes
  import opened Replay
  import opened Follow

  /** The turn's pass sends something. */
  ghost predicate Sends(f: Follower, st: FollowState)
    requires f.Valid()
  {
    PlanFor(f, st).Ok? && PassAt(f, st).progress.delivered != []
  }

  /** The turn finds nothing new. */
  ghost predicate IsQuiet(f: Follower, st: FollowState)
    requires f.Valid()
  {
    Drains(f, st) && !Sends(f, st)
  }

  /** A connection that starts at `now`, before turn `k`. */
  ghost function StateBefore(f: Follower, first: ReplayPlan, now: nat, k: nat): FollowState
    requires f.Valid()
  {
    After(f, Begin(first, now + f.idleTimeout), k)
  }

  /** The clock after the last turn before `k` that sent something, or at the
      start. */
  ghost function QuietSince(f: Follower, first: ReplayPlan, now: nat, k: nat): nat
    requires f.Valid()
  {
    if k == 0 then now
    else if Sends(f, StateBefore(f, first, now, k - 1)) then f.env(k - 1).nowAfter
    else QuietSince(f, first, now, k - 1)
  }

  /** Nothing was sent for the idle timeout. */
  ghost predicate HasIdled(f: Follower, first: ReplayPlan, now: nat, k: nat)
    requires f.Valid()
  {
    f.env(k).nowCheck >= QuietSince(f, first, now, k) + f.idleTimeout
  }

  /** The turn is not the last: it sent something, or it was quiet, not for too
      long, and slept undisturbed. */
  ghost predicate GoesOn(f: Follower, first: ReplayPlan, now: nat, k: nat)
    requires f.Valid()
  {
    var st := StateBefore(f, first, now, k);
    && Drains(f, st)
    && (Sends(f, st) || (!HasIdled(f, first, now, k) && !f.env(k).stopInSleep))
  }

  /** Why a connection ends at turn `k`. */
  ghost predicate EndsFor(f: Follower, first: ReplayPlan, now: nat, k: nat, exit: FollowExit)
    requires f.Valid()
  {
    var st, e := StateBefore(f, first, now, k), f.env(k);
    match exit
    case Stopped => e.stopped || (IsQuiet(f, st) && !HasIdled(f, first, now, k) && e.stopInSleep)
    case CannotPlan(why) => !e.stopped && PlanFor(f, st) == Err(why)
    case PassEnded(how) => !e.stopped && PlanFor(f, st).Ok? && PassAt(f, st).exit == how && how != Drained
    case IdleOut => IsQuiet(f, st) && HasIdled(f, first, now, k)
  }

  ghost predicate WentOn(f: Follower, first: ReplayPlan, now: nat, n: nat)
    requires f.Valid()
  {
    forall k :: 0 <= k < n ==> GoesOn(f, first, now, k)
  }

  /** Turn `n` is the first not to go on, and why. */
  ghost predicate EndedAt(f: Follower, first: ReplayPlan, now: nat, n: nat, exit: FollowExit)
    requires f.Valid()
  {
    WentOn(f, first, now, n) && !GoesOn(f, first, now, n) && EndsFor(f, first, now, n, exit)
  }

  // ----- one turn -----

  lemma SendsIs(f: Follower, st: FollowState)
    requires f.Valid() && Drains(f, st)
    ensures Sends(f, st) <==> PassAt(f, st).progress.emitted > 0
  {
    PlannedTurn(f, st);
    DrainedPass(f, st);
    hide PlanFor, PassAt;
  }

  lemma TurnCases(f: Follower, st: FollowState)
    requires f.Valid()
    ensures var (next, exit) := FollowTurn(f, st);
      var e := f.env(st.turn);
      if e.stopped then exit == Some(Stopped)
      else if PlanFor(f, st).Err? then exit == Some(CannotPlan(PlanFor(f, st).error))
      else if !Drains(f, st) then exit == Some(PassEnded(PassAt(f, st).exit)) && PassAt(f, st).exit != Drained
      else if Sends(f, st) then exit.None? && next.deadline == e.nowAfter + f.idleTimeout && next.turn == st.turn + 1
      else if e.nowCheck >= st.deadline then exit == Some(IdleOut)
      else if e.stopInSleep then exit == Some(Stopped)
      else exit.None? && next.deadline == st.deadline && next.turn == st.turn + 1
  {
    if Drains(f, st) { SendsIs(f, st); }
    hide PlanFor, PlanPass, Sends;
  }

  lemma DrainsIs(f: Follower, st: FollowState)
    requires f.Valid()
    ensures Drains(f, st) <==> !f.env(st.turn).stopped && PlanFor(f, st).Ok? && PassAt(f, st).exit == Drained
  {
    hide PlanFor, PassAt;
  }

  lemma TurnGoes(f: Follower, first: ReplayPlan, now: nat, k: nat)
    requires f.Valid()
    requires var st := StateBefore(f, first, now, k);
      st.turn == k && st.deadline == QuietSince(f, first, now, k) + f.idleTimeout
    ensures var (next, exit) := FollowTurn(f, StateBefore(f, first, now, k));
      && (exit.None? <==> GoesOn(f, first, now, k))
      && (exit.None? ==> next.deadline == QuietSince(f, first, now, k + 1) + f.idleTimeout && next.turn == k + 1)
  {
    var st := StateBefore(f, first, now, k);
    TurnCases(f, st);
    DrainsIs(f, st);
    hide PlanFor, PassAt, StateBefore, FollowTurn, Drains, Sends;
  }

  lemma QuietIs(f: Follower, st: FollowState)
    requires f.Valid()
    ensures IsQuiet(f, st) <==> Drains(f, st) && !Sends(f, st)
  {
    hide Drains, Sends;
  }

  lemma EndsForIs(f: Follower, first: ReplayPlan, now: nat, k: nat)
    requires f.Valid()
    ensures var st, e := StateBefore(f, first, now, k), f.env(k);
      && (e.stopped ==> EndsFor(f, first, now, k, Stopped))
      && (!e.stopped && PlanFor(f, st).Err? ==> EndsFor(f, first, now, k, CannotPlan(PlanFor(f, st).error)))
      && (!e.stopped && PlanFor(f, st).Ok? && PassAt(f, st).exit != Drained ==>
            EndsFor(f, first, now, k, PassEnded(PassAt(f, st).exit)))
      && (IsQuiet(f, st) ==>
            if e.nowCheck >= QuietSince(f, first, now, k) + f.idleTimeout then EndsFor(f, first, now, k, IdleOut)
            else e.stopInSleep ==> EndsFor(f, first, now, k, Stopped))
  {
    hide PlanFor, PassAt, StateBefore, IsQuiet, QuietSince;
  }

  lemma TurnEnds(f: Follower, first: ReplayPlan, now: nat, k: nat)
    requires f.Valid()
    requires var st := StateBefore(f, first, now, k);
      st.turn == k && st.deadline == QuietSince(f, first, now, k) + f.idleTimeout
    ensures var exit := FollowTurn(f, StateBefore(f, first, now, k)).1;
      exit.Some? ==> EndsFor(f, first, now, k, exit.value)
  {
    var st := StateBefore(f, first, now, k);
    TurnCases(f, st);
    DrainsIs(f, st);
    QuietIs(f, st);
    hide *;
    EndsForIs(f, first, now, k);
  }

  lemma OneExit(f: Follower, first: ReplayPlan, now: nat, k: nat, a: FollowExit, b: FollowExit)
    requires f.Valid() && StateBefore(f, first, now, k).turn == k
    requires EndsFor(f, first, now, k, a) && EndsFor(f, first, now, k, b)
    ensures a == b
  {
    hide PlanFor, PassAt, StateBefore, QuietSince;
  }

  // ----- all turns -----

  lemma AtNext(f: Follower, first: ReplayPlan, now: nat, k: nat)
    requires f.Valid()
    ensures StateBefore(f, first, now, k + 1) == FollowTurn(f, StateBefore(f, first, now, k)).0
    ensures StateBefore(f, first, now, 0) == Begin(first, now + f.idleTimeout)
  {
    hide FollowTurn;
  }

  /** A connection that got to turn `k` goes on from there. */
  ghost predicate GetsTo(f: Follower, first: ReplayPlan, now: nat, horizon: nat, k: nat)
    requires f.Valid() && f.env(horizon).stopped
  {
    var st0, st := Begin(first, now + f.idleTimeout), StateBefore(f, first, now, k);
    && st.turn == k && k <= horizon
    && st.deadline == QuietSince(f, first, now, k) + f.idleTimeout
    && FollowAll(f, st0, horizon) == FollowAll(f, st, horizon)
    && TurnsOf(f, st0, horizon) == k + TurnsOf(f, st, horizon)
    && WentOn(f, first, now, k)
  }

  lemma TurnsOn(f: Follower, st: FollowState, horizon: nat)
    requires f.Valid() && f.env(horizon).stopped && st.turn <= horizon
    ensures var (next, exit) := FollowTurn(f, st);
      && (exit.Some? ==> TurnsOf(f, st, horizon) == 0)
      && (exit.None? ==> next.turn <= horizon && TurnsOf(f, st, horizon) == 1 + TurnsOf(f, next, horizon))
  {
    hide PlanPass, PlanFor, AfterPass;
  }

  lemma {:induction false} ReachesTurn(f: Follower, first: ReplayPlan, now: nat, horizon: nat, k: nat)
    requires f.Valid() && f.env(horizon).stopped && k <= TurnsOf(f, Begin(first, now + f.idleTimeout), horizon)
    ensures GetsTo(f, first, now, horizon, k)
  {
    hide *;
    if k == 0 {
      ReachesStart(f, first, now, horizon);
    } else {
      ReachesTurn(f, first, now, horizon, k - 1);
      ReachesNext(f, first, now, horizon, k - 1);
    }
  }

  lemma ReachesStart(f: Follower, first: ReplayPlan, now: nat, horizon: nat)
    requires f.Valid() && f.env(horizon).stopped
    ensures GetsTo(f, first, now, horizon, 0)
  {
    AtNext(f, first, now, 0);
    hide FollowAll, GoesOn, StateBefore, TurnsOf;
  }

  lemma ReachesNext(f: Follower, first: ReplayPlan, now: nat, horizon: nat, k: nat)
    requires f.Valid() && f.env(horizon).stopped && k < TurnsOf(f, Begin(first, now + f.idleTimeout), horizon)
    requires GetsTo(f, first, now, horizon, k)
    ensures GetsTo(f, first, now, horizon, k + 1)
  {
    hide StateBefore, QuietSince, FollowAll, TurnsOf, WentOn, GoesOn, FollowTurn, EndsFor;
    var st := StateBefore(f, first, now, k);
    AtNext(f, first, now, k);
    TurnGoes(f, first, now, k);
    TurnsOn(f, st, horizon);
    FollowOn(f, st, horizon);
    WentOnMore(f, first, now, k);
  }

  lemma WentOnMore(f: Follower, first: ReplayPlan, now: nat, n: nat)
    requires f.Valid() && WentOn(f, first, now, n) && GoesOn(f, first, now, n)
    ensures WentOn(f, first, now, n + 1)
  {
    hide GoesOn;
  }

  /** A connection goes on as long as its turns send something or find nothing for
      less than the idle timeout since the last one that did. It ends at the first
      turn that is otherwise, in one way exactly if there is the reason for it. */
  lemma ConnectionEnds(f: Follower, first: ReplayPlan, now: nat, horizon: nat, exit: FollowExit)
    requires f.Valid() && f.env(horizon).stopped
    ensures var st0 := Begin(first, now + f.idleTimeout);
      var n := TurnsOf(f, st0, horizon);
      && n <= horizon && WentOn(f, first, now, n) && !GoesOn(f, first, now, n)
      && (FollowAll(f, st0, horizon).exit == exit <==> EndsFor(f, first, now, n, exit))
      && FollowAll(f, st0, horizon).state == StateBefore(f, first, now, n + 1)
  {
    hide StateBefore, QuietSince, FollowAll, TurnsOf, WentOn, GoesOn, FollowTurn, EndsFor;
    ZeroTurn(first, now + f.idleTimeout);
    var st0 := Begin(first, now + f.idleTimeout);
    var n := TurnsOf(f, st0, horizon);
    ReachesTurn(f, first, now, horizon, n);
    var st := StateBefore(f, first, now, n);
    TurnsOn(f, st, horizon);
    FollowOn(f, st, horizon);
    TurnGoes(f, first, now, n);
    TurnEnds(f, first, now, n);
    AtNext(f, first, now, n);
    var how := FollowAll(f, st0, horizon).exit;
    if EndsFor(f, first, now, n, exit) { OneExit(f, first, now, n, exit, how); }
  }

  // ----- what it reports -----

  /** The turn gets as far as a pass. */
  ghost predicate RunsPass(f: Follower, st: FollowState)
    requires f.Valid()
  {
    !f.env(st.turn).stopped && PlanFor(f, st).Ok?
  }

  ghost function OutAt(f: Follower, st: FollowState): seq<Tagged>
    requires f.Valid()
  {
    if RunsPass(f, st) then PassAt(f, st).progress.delivered else []
  }

  ghost function LagOf(f: Follower, st: FollowState): nat
    requires f.Valid()
  {
    if RunsPass(f, st) then PassAt(f, st).progress.lagMax else 0
  }

  /** The worst lag any of the turns up to `n` warned of. */
  ghost predicate IsWorst(f: Follower, first: ReplayPlan, now: nat, n: nat, worst: nat)
    requires f.Valid()
  {
    && (forall k: nat :: k < n ==> LagOf(f, StateBefore(f, first, now, k)) <= worst)
    && (worst != 0 ==> exists k: nat :: k < n && LagOf(f, StateBefore(f, first, now, k)) == worst)
  }

  /** The length of an encoded message is the same in every turn. */
  ghost predicate OneMeasure(f: Follower) {
    forall n :: f.env(n).world.size == f.env(0).world.size
  }

  /** What the counters say after `n` turns. */
  ghost predicate Totals(
      f: Follower, first: ReplayPlan, now: nat, n: nat, delivered: seq<Tagged>, total: ReplayStats)
    requires f.Valid()
  {
    && total.bytes == TotalSize(f.env(0).world, delivered)
    && total.lastSlot == LastSlotOf(delivered)
    && IsWorst(f, first, now, n, total.lagMax)
  }

  /** What the counters say of a connection that ended at turn `n`. */
  ghost predicate Reported(
      f: Follower, first: ReplayPlan, now: nat, n: nat, exit: FollowExit, delivered: seq<Tagged>, total: ReplayStats)
    requires f.Valid()
  {
    && Totals(f, first, now, n + 1, delivered, total)
    && total.sent + (if exit == PassEnded(LagDropped) then 1 else 0) == |delivered|
    && (total.drained <==> exit.Stopped? || exit.IdleOut?)
  }

  lemma {:induction false} SizeOfMore(w: World, a: seq<Tagged>, b: seq<Tagged>)
    ensures TotalSize(w, a + b) == TotalSize(w, a) + TotalSize(w, b)
  {
    if b == [] {
      assert a + b == a;
    } else {
      var n := |b| - 1;
      assert (a + b)[..|a + b| - 1] == a + b[..n] && (a + b)[|a + b| - 1] == b[n];
      SizeOfMore(w, a, b[..n]);
    }
  }

  lemma SizeOfNone(w: World)
    ensures TotalSize(w, []) == 0
  {
  }

  lemma {:induction false} SameSize(v: World, w: World, out: seq<Tagged>)
    requires v.size == w.size
    ensures TotalSize(v, out) == TotalSize(w, out)
  {
    if out != [] { SameSize(v, w, out[..|out| - 1]); }
  }

  lemma PassCounts(f: Follower, st: FollowState)
    requires f.Valid() && PlanFor(f, st).Ok?
    ensures var end := PassAt(f, st); var p := end.progress;
      && p.bytes == TotalSize(f.env(st.turn).world, p.delivered) && p.lastSlot == LastSlotOf(p.delivered)
      && p.emitted + (if end.exit == LagDropped then 1 else 0) == |p.delivered|
  {
    var plan, w := PlanFor(f, st).value, f.env(st.turn).world;
    assert Tallied(w, Start(st.pacer));
    hide MergeAll, PlanLanes, FloorOut, Attempt, PlanFor, Pump;
    EveryExitAccounts(
      w, FloorOut(MergeAll(PlanLanes(f.c, plan)).out, plan.fromSlot), MergeAll(PlanLanes(f.c, plan)).failed,
      Start(st.pacer));
    hide TotalSize, LastSlotOf;
  }

  /** What one turn adds to what was reported before. */
  lemma TurnAdds(f: Follower, st: FollowState)
    requires f.Valid() && FollowTurn(f, st).1 != Some(PassEnded(DecodeError))
    ensures var (next, exit) := FollowTurn(f, st);
      && next.delivered == st.delivered + OutAt(f, st)
      && next.total.bytes == st.total.bytes + TotalSize(f.env(st.turn).world, OutAt(f, st))
      && next.total.lastSlot == (if OutAt(f, st) == [] then st.total.lastSlot else LastSlotOf(OutAt(f, st)))
      && next.total.sent + (if exit == Some(PassEnded(LagDropped)) then 1 else 0) == st.total.sent + |OutAt(f, st)|
      && next.total.lagMax == Max(st.total.lagMax, LagOf(f, st))
      && (next.total.drained <==> st.total.drained && (exit.None? || exit.value.Stopped? || exit.value.IdleOut?))
  {
    if RunsPass(f, st) {
      PassCounts(f, st);
      LastOfSome(OutAt(f, st));
    }
    hide PlanFor, PlanPass, TotalSize, LastSlotOf;
  }

  lemma WorstMore(f: Follower, first: ReplayPlan, now: nat, n: nat, worst: nat)
    requires f.Valid() && IsWorst(f, first, now, n, worst)
    ensures IsWorst(f, first, now, n + 1, Max(worst, LagOf(f, StateBefore(f, first, now, n))))
  {
    hide LagOf, StateBefore;
    var more := Max(worst, LagOf(f, StateBefore(f, first, now, n)));
    if more != 0 {
      if more == worst {
        var k: nat :| k < n && LagOf(f, StateBefore(f, first, now, k)) == worst;
      } else {
        assert LagOf(f, StateBefore(f, first, now, n)) == more;
      }
    }
  }

  lemma SizeOfTurn(f: Follower, st: FollowState)
    requires f.Valid() && OneMeasure(f)
    ensures TotalSize(f.env(0).world, st.delivered + OutAt(f, st))
      == TotalSize(f.env(0).world, st.delivered) + TotalSize(f.env(st.turn).world, OutAt(f, st))
  {
    hide OutAt, TotalSize;
    SizeOfMore(f.env(0).world, st.delivered, OutAt(f, st));
    SameSize(f.env(st.turn).world, f.env(0).world, OutAt(f, st));
  }

  lemma TotalsMore(f: Follower, first: ReplayPlan, now: nat, n: nat)
    requires f.Valid() && OneMeasure(f)
    requires var st := StateBefore(f, first, now, n); st.turn == n && Totals(f, first, now, n, st.delivered, st.total)
    requires FollowTurn(f, StateBefore(f, first, now, n)).1 != Some(PassEnded(DecodeError))
    ensures var next := StateBefore(f, first, now, n + 1); Totals(f, first, now, n + 1, next.delivered, next.total)
  {
    hide FollowTurn, StateBefore, OutAt, LagOf, TotalSize, LastSlotOf, IsWorst, OneMeasure, RunsPass, PassAt;
    var st := StateBefore(f, first, now, n);
    AtNext(f, first, now, n);
    TurnAdds(f, st);
    SizeOfTurn(f, st);
    LastOfMore(st.delivered, OutAt(f, st));
    LastOfSome(OutAt(f, st));
    WorstMore(f, first, now, n, st.total.lagMax);
  }

  lemma {:induction false} TotalsAt(f: Follower, first: ReplayPlan, now: nat, horizon: nat, n: nat)
    requires f.Valid() && OneMeasure(f) && f.env(horizon).stopped
    requires n <= TurnsOf(f, Begin(first, now + f.idleTimeout), horizon)
    ensures var st := StateBefore(f, first, now, n);
      && st.turn == n && Totals(f, first, now, n, st.delivered, st.total)
      && st.total.drained && st.total.sent == |st.delivered|
  {
    hide StateBefore, QuietSince, FollowAll, TurnsOf, WentOn, GoesOn, FollowTurn, EndsFor, OneMeasure, TotalSize, OutAt,
      LagOf;
    ReachesTurn(f, first, now, horizon, n);
    if n == 0 {
      AtNext(f, first, now, 0);
      SizeOfNone(f.env(0).world);
    } else {
      TotalsAt(f, first, now, horizon, n - 1);
      ReachesTurn(f, first, now, horizon, n - 1);
      var st := StateBefore(f, first, now, n - 1);
      TurnsOn(f, st, horizon);
      hide Totals, GetsTo;
      TurnAdds(f, st);
      TotalsMore(f, first, now, n - 1);
      AtNext(f, first, now, n - 1);
    }
  }

  /** A connection that could decode everything reports the bytes, the last slot
      and the worst lag of all it delivered; `sent` misses a message that came too
      late, and `drained` says that nothing cut it short. */
  lemma ReportsAll(f: Follower, first: ReplayPlan, now: nat, horizon: nat)
    requires f.Valid() && OneMeasure(f) && f.env(horizon).stopped
    requires FollowAll(f, Begin(first, now + f.idleTimeout), horizon).exit != PassEnded(DecodeError)
    ensures var st0 := Begin(first, now + f.idleTimeout);
      var end, n := FollowAll(f, st0, horizon), TurnsOf(f, st0, horizon);
      Reported(f, first, now, n, end.exit, end.state.delivered, end.state.total)
  {
    hide StateBefore, QuietSince, FollowAll, TurnsOf, WentOn, GoesOn, FollowTurn, EndsFor, OneMeasure, Totals, OutAt,
      LagOf;
    hide TotalSize, LastSlotOf;
    var st0 := Begin(first, now + f.idleTimeout);
    var n := TurnsOf(f, st0, horizon);
    TotalsAt(f, first, now, horizon, n);
    ReachesTurn(f, first, now, horizon, n);
    var st := StateBefore(f, first, now, n);
    TurnsOn(f, st, horizon);
    FollowOn(f, st, horizon);
    AtNext(f, first, now, n);
    TurnAdds(f, st);
    TotalsMore(f, first, now, n);
  }

  // ----- one pacer for all passes -----

  /** The next pass is paced from where the last one left off: the same anchor, or
      that of the first message sent with a time; and its last warning. */
  lemma PacingGoesOn(f: Follower, st: FollowState)
    requires f.Valid() && Drains(f, st)
    ensures var out, w := OutOf(f.c, PlanFor(f, st).value), f.env(st.turn).world;
      var p, next := Start(st.pacer), FollowTurn(f, st).0.pacer;
      && next.anchor == AnchorAt(w, out, p, |out|) && next.lastWarn == LastWarnAt(w, out, p, |out|)
      && (st.pacer.anchor.Some? ==> next.anchor == st.pacer.anchor)
  {
    var plan := PlanFor(f, st).value;
    var out, w, failed := OutOf(f.c, plan), f.env(st.turn).world, MergeAll(PlanLanes(f.c, plan)).failed;
    PacerIsPassed(f, st);
    hide PlanFor, PlanLanes, MergeAll, FloorOut, FollowTurn, Pump, LastWarnAt;
    PacerIsLeft(w, out, failed, Start(st.pacer));
    if st.pacer.anchor.Some? { AnchorIsKept(w, out, Start(st.pacer), |out|); }
  }

  lemma PacerIsPassed(f: Follower, st: FollowState)
    requires f.Valid() && Drains(f, st)
    ensures FollowTurn(f, st).0.pacer == PassAt(f, st).progress.pacer
  {
    hide PlanFor, PlanPass;
  }

  lemma {:induction false} AnchorIsKept(w: World, out: seq<Tagged>, p: Progress, n: nat)
    requires n <= |out| && p.pacer.anchor.Some?
    ensures AnchorAt(w, out, p, n) == p.pacer.anchor
  {
    if n > 0 { AnchorIsKept(w, out, p, n - 1); }
  }
}
