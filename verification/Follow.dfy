/** `follow_replay`: pass after pass over a catalog that changes underneath,
    each resuming above the last slot sent; what all the passes add up to. */
module Follow {
  import opened Core
  import opened Codecs
  import opened Shuffle
  import opened Merge
  import opened Pacing
  import opened Drive
  import opened Replay
  import opened Plan
  import opened Coverage
  import opened Fidelity
  import opened Growth

  /** What the world does around one turn of the loop: shutdown, the catalog
      snapshot, the sends, and the clock when it is read. */
  datatype TurnEnv = TurnEnv(
    stopped: bool, cat: Catalog, world: World, nowAfter: nat, nowCheck: nat, stopInSleep: bool)

  datatype FollowExit = Stopped | CannotPlan(error: PlanError) | PassEnded(exit: Exit) | IdleOut

  datatype FollowState = FollowState(
    total: ReplayStats, plan: Option<ReplayPlan>, deadline: nat, turn: nat, pacer: PacerState, delivered: seq<Tagged>)

  datatype FollowEnd = FollowEnd(state: FollowState, exit: FollowExit)

  datatype Follower = Follower(
    c: Codec, sub: Subscription, pacing: PacingConfig, idleTimeout: nat, env: nat -> TurnEnv)
  {
    ghost predicate Valid() {
      pacing.Valid() && forall n :: env(n).world.cfg == pacing
    }
  }

  const NOTHING: ReplayStats := ReplayStats(0, 0, 0, None, true)

  function Begin(first: ReplayPlan, deadline: nat): FollowState {
    FollowState(NOTHING, Some(first), deadline, 0, FRESH, [])
  }

  /** Above the last slot sent, or where the client asked to start. */
  function ResumeAt(sub: Subscription, last: Option<nat>): Option<nat> {
    if last.Some? then Some(last.value + 1) else sub.fromSlot
  }

  function AddUp(total: ReplayStats, pass: ReplayStats): ReplayStats {
    ReplayStats(
      total.sent + pass.sent, total.bytes + pass.bytes, Max(total.lagMax, pass.lagMax),
      if pass.lastSlot.Some? then pass.lastSlot else total.lastSlot, total.drained)
  }

  ghost function PlanFor(f: Follower, st: FollowState): Result<ReplayPlan, PlanError> {
    if st.plan.Some? then Ok(st.plan.value)
    else PlanOf(f.c, f.env(st.turn).cat, f.sub, ResumeAt(f.sub, st.total.lastSlot))
  }

  /** The state when a pass returns. */
  function Absorb(st: FollowState, pass: PassEnd): FollowState {
    var p := pass.progress;
    FollowState(
      AddUp(st.total, StatsOf(p, pass.exit == Drained)), None, st.deadline, st.turn + 1, p.pacer,
      st.delivered + p.delivered)
  }

  function Undrained(st: FollowState): FollowState {
    st.(total := st.total.(drained := false))
  }

  /** After a pass: end, go straight on, or go on after a sleep. */
  function AfterPass(f: Follower, st: FollowState, pass: PassEnd): (FollowState, Option<FollowExit>) {
    var e, next := f.env(st.turn), Absorb(st, pass);
    if pass.exit == DecodeError then (next.(total := st.total), Some(PassEnded(DecodeError)))
    else if pass.exit != Drained then (Undrained(next), Some(PassEnded(pass.exit)))
    else if pass.progress.emitted > 0 then (next.(deadline := e.nowAfter + f.idleTimeout), None)
    else if e.nowCheck >= st.deadline then (next, Some(IdleOut))
    else if e.stopInSleep then (next, Some(Stopped))
    else (next, None)
  }

  ghost function FollowTurn(f: Follower, st: FollowState): (r: (FollowState, Option<FollowExit>))
    requires f.Valid()
    ensures r.1.None? ==> r.0.turn == st.turn + 1
    ensures f.env(st.turn).stopped ==> r.1.Some?
  {
    if f.env(st.turn).stopped then (st, Some(Stopped))
    else
      match PlanFor(f, st)
      case Err(e) => (Undrained(st), Some(CannotPlan(e)))
      case Ok(plan) => AfterPass(f, st, PlanPass(f.c, f.env(st.turn).world, plan, st.pacer))
  }

  /** A whole connection; some turn sees the shutdown if none ends it before. */
  ghost function FollowAll(f: Follower, st: FollowState, horizon: nat): FollowEnd
    requires f.Valid() && f.env(horizon).stopped && st.turn <= horizon
    decreases horizon - st.turn
  {
    var (next, exit) := FollowTurn(f, st);
    if exit.Some? then FollowEnd(next, exit.value) else FollowAll(f, next, horizon)
  }

  // ----- runs of drained passes -----

  ghost function After(f: Follower, st: FollowState, n: nat): FollowState
    requires f.Valid()
  {
    if n == 0 then st else FollowTurn(f, After(f, st, n - 1)).0
  }

  ghost function PassAt(f: Follower, st: FollowState): PassEnd
    requires f.Valid() && PlanFor(f, st).Ok?
  {
    PlanPass(f.c, f.env(st.turn).world, PlanFor(f, st).value, st.pacer)
  }

  /** The turn plans, and its pass sends everything it has. */
  ghost predicate Drains(f: Follower, st: FollowState)
    requires f.Valid()
  {
    !f.env(st.turn).stopped && PlanFor(f, st).Ok? && PassAt(f, st).exit == Drained
  }

  ghost predicate DrainsFor(f: Follower, st: FollowState, n: nat)
    requires f.Valid()
  {
    forall k :: 0 <= k < n ==> Drains(f, After(f, st, k))
  }

  /** A drained turn appends its pass; the last slot is that of the last message
      delivered so far. */
  lemma DrainedTurn(f: Follower, st: FollowState)
    requires f.Valid() && Drains(f, st) && st.total.lastSlot == LastSlotOf(st.delivered)
    ensures var next, out := FollowTurn(f, st).0, PassAt(f, st).progress.delivered;
      && next.delivered == st.delivered + out && next.plan.None? && next.turn == st.turn + 1
      && next.total.lastSlot == LastSlotOf(next.delivered)
      && next.total.sent == st.total.sent + |out|
      && out == FloorOut(MergeAll(PlanLanes(f.c, PlanFor(f, st).value)).out, PlanFor(f, st).value.fromSlot)
  {
    hide *;
    DrainedPass(f, st);
    AbsorbedTurn(f, st);
    LastOfMore(st.delivered, PassAt(f, st).progress.delivered);
  }

  /** What a drained pass sent, and that its counters say so. */
  lemma DrainedPass(f: Follower, st: FollowState)
    requires f.Valid() && Drains(f, st)
    ensures var plan, p := PlanFor(f, st).value, PassAt(f, st).progress;
      && PlanFor(f, st).Ok?
      && p.delivered == FloorOut(MergeAll(PlanLanes(f.c, plan)).out, plan.fromSlot)
      && p.emitted == |p.delivered| && p.lastSlot == LastSlotOf(p.delivered)
  {
    var plan, w := PlanFor(f, st).value, f.env(st.turn).world;
    var rs := MergeAll(PlanLanes(f.c, plan));
    hide MergeAll, PlanLanes, FloorOut, Attempt, PlanFor;
    EveryExitAccounts(w, FloorOut(rs.out, plan.fromSlot), rs.failed, Start(st.pacer));
    hide Pump, TotalSize, LastSlotOf;
  }

  /** A drained turn only adds its pass up. */
  lemma AbsorbedTurn(f: Follower, st: FollowState)
    requires f.Valid() && Drains(f, st)
    ensures var next, p := FollowTurn(f, st).0, PassAt(f, st).progress;
      && next.delivered == st.delivered + p.delivered && next.plan.None? && next.turn == st.turn + 1
      && next.total.lastSlot == (if p.lastSlot.Some? then p.lastSlot else st.total.lastSlot)
      && next.total.sent == st.total.sent + p.emitted
  {
    hide PlanPass, PlanFor;
  }

  lemma LastOfMore(a: seq<Tagged>, b: seq<Tagged>)
    ensures LastSlotOf(a + b) == if LastSlotOf(b).Some? then LastSlotOf(b) else LastSlotOf(a)
  {
    if b == [] {
      assert a + b == a;
    } else {
      assert (a + b)[|a + b| - 1] == b[|b| - 1];
    }
  }

  lemma AfterOne(f: Follower, st: FollowState, n: nat)
    requires f.Valid()
    ensures After(f, st, 0) == st && After(f, st, n + 1) == FollowTurn(f, After(f, st, n)).0
  {
    hide FollowTurn;
  }

  lemma DrainsAt(f: Follower, st: FollowState, n: nat, k: nat)
    requires f.Valid() && DrainsFor(f, st, n) && k < n
    ensures Drains(f, After(f, st, k)) && DrainsFor(f, st, k)
  {
    hide Drains, After;
  }

  lemma {:induction false} RunsOn(f: Follower, first: ReplayPlan, deadline: nat, n: nat)
    requires f.Valid() && DrainsFor(f, Begin(first, deadline), n)
    ensures var st := After(f, Begin(first, deadline), n);
      && st.turn == n && (n > 0 ==> st.plan.None?) && st.total.lastSlot == LastSlotOf(st.delivered)
      && st.total.sent == |st.delivered|
  {
    hide Drains, FollowTurn, PassAt, DrainsFor, After, FloorOut, MergeAll, PlanLanes, PlanFor;
    if n == 0 {
      AfterOne(f, Begin(first, deadline), 0);
    } else {
      var st := After(f, Begin(first, deadline), n - 1);
      DrainsAt(f, Begin(first, deadline), n, n - 1);
      RunsOn(f, first, deadline, n - 1);
      AfterOne(f, Begin(first, deadline), n - 1);
      hide LastSlotOf;
      DrainedTurn(f, st);
    }
  }

  /** The run starts from a plan of the first catalog. */
  ghost predicate Planned(f: Follower, first: ReplayPlan)
  {
    PlanOf(f.c, f.env(0).cat, f.sub, f.sub.fromSlot) == Ok(first)
  }

  lemma PlanAt(f: Follower, first: ReplayPlan, deadline: nat, k: nat)
    requires f.Valid() && Planned(f, first) && DrainsFor(f, Begin(first, deadline), k + 1)
    ensures var st := After(f, Begin(first, deadline), k);
      && Drains(f, st) && st.turn == k
      && PlanFor(f, st) == PlanOf(f.c, f.env(k).cat, f.sub, ResumeAt(f.sub, st.total.lastSlot))
  {
    DrainsAt(f, Begin(first, deadline), k + 1, k);
    RunsOn(f, first, deadline, k);
    AfterOne(f, Begin(first, deadline), 0);
    hide FollowTurn, PassAt, PlanOf, DrainsFor, Drains, After;
  }

  /** A pass that may start, and where. */
  ghost predicate StartsAt(cat: Catalog, sub: Subscription, last: Option<nat>, from: nat) {
    StartSlot(cat, sub, ResumeAt(sub, last)) == Ok(from)
  }

  /** A turn over a recorded catalog delivers what is deliverable from where it
      resumes. */
  lemma TurnDelivers(f: Follower, content: Content, first: ReplayPlan, deadline: nat, k: nat) returns (from: nat)
    requires f.Valid() && Planned(f, first) && DrainsFor(f, Begin(first, deadline), k + 1)
    requires Recorded(f.c, f.env(k).cat, content)
    ensures var st := After(f, Begin(first, deadline), k);
      && StartsAt(f.env(k).cat, f.sub, LastSlotOf(st.delivered), from)
      && After(f, Begin(first, deadline), k + 1).delivered
        == st.delivered + Deliverable(f.c, f.env(k).cat, f.sub, content, from)
  {
    var st := After(f, Begin(first, deadline), k);
    hide PlanOf, PlanFor, Drains, Recorded, PassAt, FollowTurn, Deliverable, After, DrainsFor, LastSlotOf;
    PlanAt(f, first, deadline, k);
    DrainsAt(f, Begin(first, deadline), k + 1, k);
    RunsOn(f, first, deadline, k);
    AfterOne(f, Begin(first, deadline), k);
    DrainedTurn(f, st);
    PlanIsComplete(f.c, f.env(k).cat, f.sub, content, ResumeAt(f.sub, st.total.lastSlot));
    PlannedTurn(f, st);
    from := PlanFor(f, st).value.fromSlot;
  }

  lemma PlannedTurn(f: Follower, st: FollowState)
    requires f.Valid() && Drains(f, st)
    ensures PlanFor(f, st).Ok?
  {
  }

  // ----- following refines one replay -----

  /** Where the client wants to start; without a wish, at the very beginning. */
  function Base(sub: Subscription): nat {
    if sub.fromSlot.Some? then sub.fromSlot.value else 0
  }

  lemma {:induction false} FloorZero(out: seq<Tagged>)
    ensures FloorOut(out, 0) == out
  {
    if out != [] { FloorZero(out[1..]); }
  }

  /** From a fresh start a catalog delivers everything from the base on. */
  lemma FreshStart(c: Codec, cat: Catalog, sub: Subscription, content: Content, from: nat)
    requires Recorded(c, cat, content) && StartsAt(cat, sub, None, from)
    ensures Deliverable(c, cat, sub, content, from) == Deliverable(c, cat, sub, content, Base(sub))
  {
    if sub.fromSlot.None? {
      FloorOfFull(c, cat, sub, content);
      FloorZero(MergeAll(FullLanes(c, cat, sub, content)).out);
    }
  }

  lemma LastOfSome(out: seq<Tagged>)
    ensures LastSlotOf(out).Some? <==> out != []
    ensures out != [] ==> LastSlotOf(out).value == out[|out| - 1].item.slot
  {
  }

  lemma ResumeStarts(cat: Catalog, sub: Subscription, last: Option<nat>, from: nat)
    requires StartsAt(cat, sub, last, from)
    ensures last.Some? ==> from == last.value + 1
  {
    hide FirstAvailable;
  }

  /** What the first `n + 1` turns can rely on: each finds a catalog of chunks of
      one recorded archive, in which every stream is in slot order. Which of its
      chunks a catalog lists, and whether they stay, is open. */
  ghost predicate ReadsFrom(f: Follower, archive: Catalog, content: Content, n: nat) {
    && Recorded(f.c, archive, content) && HeldInOrder(archive, content)
    && forall k :: 0 <= k <= n ==> PartOf(f.env(k).cat, archive)
  }

  /** Everything listed up to turn `n`. */
  ghost function SeenBy(f: Follower, n: nat): Catalog {
    if n == 0 then f.env(0).cat else Both(SeenBy(f, n - 1), f.env(n).cat)
  }

  lemma {:induction false} SeenIsPart(f: Follower, archive: Catalog, content: Content, n: nat)
    requires ReadsFrom(f, archive, content, n)
    ensures PartOf(SeenBy(f, n), archive) && PartOf(f.env(n).cat, archive)
    ensures HeldInOrder(SeenBy(f, n), content) && Recorded(f.c, f.env(n).cat, content)
    ensures n > 0 ==> ReadsFrom(f, archive, content, n - 1) && PartOf(SeenBy(f, n - 1), SeenBy(f, n))
  {
    hide PartOf, Both, Recorded, HeldInOrder;
    if n > 0 {
      SeenIsPart(f, archive, content, n - 1);
      BothParts(SeenBy(f, n - 1), f.env(n).cat, archive);
    }
    PartIsInOrder(SeenBy(f, n), archive, content);
    PartIsRecorded(f.c, f.env(n).cat, archive, content);
  }

  /** The chunks first listed at turn `k + 1` hold nothing wanted at or below
      something wanted that was listed before. */
  ghost predicate InTimeAt(f: Follower, content: Content, k: nat) {
    NothingLate(f.c, SeenBy(f, k), SeenBy(f, k + 1), f.sub, content, Base(f.sub))
  }

  ghost predicate NeverLate(f: Follower, content: Content, n: nat) {
    forall k :: 0 <= k < n ==> InTimeAt(f, content, k)
  }

  lemma NeverLateMore(f: Follower, content: Content, n: nat)
    ensures NeverLate(f, content, 0)
    ensures NeverLate(f, content, n + 1) <==> NeverLate(f, content, n) && InTimeAt(f, content, n)
  {
    hide InTimeAt;
  }

  /** Where a turn resumes, given what was delivered before. */
  lemma ResumesFrom(f: Follower, content: Content, cat: Catalog, out: seq<Tagged>, from: nat)
    requires Recorded(f.c, cat, content) && StartsAt(cat, f.sub, LastSlotOf(out), from)
    ensures Deliverable(f.c, cat, f.sub, content, from)
      == Deliverable(f.c, cat, f.sub, content, if out == [] then Base(f.sub) else LastSlotIn(out) + 1)
  {
    hide *;
    LastOfSome(out);
    LastSlotIs(out);
    ResumeStarts(cat, f.sub, LastSlotOf(out), from);
    if out == [] {
      FreshStart(f.c, cat, f.sub, content, from);
    }
  }

  /** After every drained turn: what was delivered is, in order, part of what one
      replay of everything listed so far would deliver, and exactly that if
      nothing came late. */
  lemma {:induction false} FollowCatches(
      f: Follower, archive: Catalog, content: Content, first: ReplayPlan, deadline: nat, n: nat)
    requires f.Valid() && Planned(f, first) && DrainsFor(f, Begin(first, deadline), n + 1)
    requires ReadsFrom(f, archive, content, n)
    ensures Caught(
      f.c, SeenBy(f, n), f.sub, content, Base(f.sub), After(f, Begin(first, deadline), n + 1).delivered,
      NeverLate(f, content, n))
  {
    hide *;
    var st0, cat, base := Begin(first, deadline), f.env(n).cat, Base(f.sub);
    var out := After(f, st0, n).delivered;
    SeenIsPart(f, archive, content, n);
    DrainsAt(f, st0, n + 1, n);
    var from := TurnDelivers(f, content, first, deadline, n);
    ResumesFrom(f, content, cat, out, from);
    if n == 0 {
      AfterOne(f, st0, 0);
      NothingYet(first, deadline);
      NeverLateMore(f, content, 0);
      SeenFirst(f);
      FirstCaught(f.c, cat, f.sub, content, base);
      assert [] + Deliverable(f.c, cat, f.sub, content, base) == Deliverable(f.c, cat, f.sub, content, base);
    } else {
      FollowCatches(f, archive, content, first, deadline, n - 1);
      NeverLateMore(f, content, n - 1);
      InTimeIs(f, content, n - 1);
      SeenNext(f, n);
      SeenIsPart(f, archive, content, n - 1);
      ArchiveInOrder(f, archive, content, n);
      PassSees(f.c, SeenBy(f, n - 1), cat, archive, f.sub, content, base, out, NeverLate(f, content, n - 1));
      NextCaught(
        f.c, SeenBy(f, n - 1), SeenBy(f, n), f.sub, content, base, out, NeverLate(f, content, n - 1));
    }
  }

  lemma SeenFirst(f: Follower)
    ensures SeenBy(f, 0) == f.env(0).cat
  {
  }

  lemma SeenNext(f: Follower, n: nat)
    requires n > 0
    ensures SeenBy(f, n) == Both(SeenBy(f, n - 1), f.env(n).cat)
  {
    hide Both;
  }

  lemma ArchiveInOrder(f: Follower, archive: Catalog, content: Content, n: nat)
    requires ReadsFrom(f, archive, content, n)
    ensures HeldInOrder(archive, content)
  {
  }

  lemma NothingYet(first: ReplayPlan, deadline: nat)
    ensures Begin(first, deadline).delivered == []
  {
  }

  lemma InTimeIs(f: Follower, content: Content, k: nat)
    ensures InTimeAt(f, content, k)
      <==> NothingLate(f.c, SeenBy(f, k), SeenBy(f, k + 1), f.sub, content, Base(f.sub))
  {
    hide NothingLate, SeenBy;
  }

  /** Over catalogs that list chunks of one archive, which may come in any order
      and may go again: what all passes together deliver is never out of order
      and never repeats; it is what one replay of everything listed would
      deliver exactly if no chunk first listed later ever held a wanted message
      at or below one wanted before. Otherwise it falls short. */
  lemma FollowRefinesExactly(
      f: Follower, archive: Catalog, content: Content, first: ReplayPlan, deadline: nat, n: nat)
    requires f.Valid() && Planned(f, first) && DrainsFor(f, Begin(first, deadline), n + 1)
    requires ReadsFrom(f, archive, content, n)
    ensures var out := After(f, Begin(first, deadline), n + 1).delivered;
      var all := Deliverable(f.c, SeenBy(f, n), f.sub, content, Base(f.sub));
      && Sub(out, all)
      && (out == all <==> NeverLate(f, content, n))
      && (out != all ==> |out| < |all|)
  {
    hide *;
    FollowCatches(f, archive, content, first, deadline, n);
    CaughtExactly(
      f.c, SeenBy(f, n), f.sub, content, Base(f.sub), After(f, Begin(first, deadline), n + 1).delivered,
      NeverLate(f, content, n));
  }

  lemma CaughtExactly(
      c: Codec, cat: Catalog, sub: Subscription, content: Content, base: nat, out: seq<Tagged>, exact: bool)
    requires Caught(c, cat, sub, content, base, out, exact)
    ensures var all := Deliverable(c, cat, sub, content, base);
      && Sub(out, all)
      && (out == all <==> exact)
      && (out != all ==> |out| < |all|)
  {
    hide Deliverable, Sub;
    SubHolds(out, Deliverable(c, cat, sub, content, base));
  }

  /** Chunks once listed stay listed. */
  ghost predicate KeepsChunks(f: Follower, n: nat) {
    forall k :: 0 <= k < n ==> PartOf(f.env(k).cat, f.env(k + 1).cat)
  }

  lemma KeptAlong(f: Follower, n: nat)
    requires KeepsChunks(f, n) && n > 0
    ensures KeepsChunks(f, n - 1) && PartOf(f.env(n - 1).cat, f.env(n).cat)
  {
    hide PartOf;
  }

  lemma PartAdds(part: Catalog, whole: Catalog, stream: Stream)
    requires PartOf(part, whole)
    ensures TreeOf(part, stream) + TreeOf(whole, stream) == TreeOf(whole, stream)
  {
    assert TreePart(TreeOf(part, stream), TreeOf(whole, stream));
    hide TreeOf;
  }

  lemma {:induction false} KeptIsSeen(f: Follower, n: nat, stream: Stream)
    requires KeepsChunks(f, n)
    ensures TreeOf(SeenBy(f, n), stream) == TreeOf(f.env(n).cat, stream)
  {
    hide *;
    if n == 0 {
      SeenFirst(f);
    } else {
      KeptAlong(f, n);
      KeptIsSeen(f, n - 1, stream);
      SeenNext(f, n);
      BothTree(SeenBy(f, n - 1), f.env(n).cat, stream);
      PartAdds(f.env(n - 1).cat, f.env(n).cat, stream);
    }
  }

  /** Then one replay of the last catalog is one of everything listed. */
  lemma KeptOffersAll(f: Follower, content: Content, n: nat)
    requires KeepsChunks(f, n)
    ensures Deliverable(f.c, SeenBy(f, n), f.sub, content, Base(f.sub))
      == Deliverable(f.c, f.env(n).cat, f.sub, content, Base(f.sub))
  {
    hide MergeAll, FloorOut, SeenBy, TreeOf, WantedFrom, Ascending, NamedFilters;
    forall stream
      ensures FullLane(f.c, SeenBy(f, n), f.sub, content, stream) == FullLane(f.c, f.env(n).cat, f.sub, content, stream)
    {
      KeptIsSeen(f, n, stream);
    }
  }

  // ----- whole connections are runs -----

  lemma {:induction false} AfterShift(f: Follower, st: FollowState, n: nat)
    requires f.Valid()
    ensures After(f, FollowTurn(f, st).0, n) == After(f, st, n + 1)
  {
    hide FollowTurn;
    if n > 0 { AfterShift(f, st, n - 1); }
  }

  lemma TurnKinds(f: Follower, st: FollowState)
    requires f.Valid()
    ensures FollowTurn(f, st).1.None? || FollowTurn(f, st).1 == Some(IdleOut) ==> Drains(f, st)
  {
    hide PlanPass, PlanFor;
  }

  lemma FollowOn(f: Follower, st: FollowState, horizon: nat)
    requires f.Valid() && f.env(horizon).stopped && st.turn <= horizon
    ensures var (next, exit) := FollowTurn(f, st);
      && (exit.Some? ==> FollowAll(f, st, horizon) == FollowEnd(next, exit.value))
      && (exit.None? ==> next.turn <= horizon && FollowAll(f, st, horizon) == FollowAll(f, next, horizon))
  {
    hide PlanPass, PlanFor, AfterPass;
  }

  /** How many turns of a connection go on before the one that ends it. */
  ghost function TurnsOf(f: Follower, st: FollowState, horizon: nat): nat
    requires f.Valid() && f.env(horizon).stopped && st.turn <= horizon
    decreases horizon - st.turn
  {
    var (next, exit) := FollowTurn(f, st);
    if exit.Some? then 0 else 1 + TurnsOf(f, next, horizon)
  }

  /** A connection is a run of drained turns and one last turn; when it ends by
      idling, the last turn drained too. */
  lemma {:induction false} FollowIsARun(f: Follower, st: FollowState, horizon: nat)
    requires f.Valid() && f.env(horizon).stopped && st.turn <= horizon
    ensures var n := TurnsOf(f, st, horizon);
      && After(f, st, n + 1) == FollowAll(f, st, horizon).state && DrainsFor(f, st, n)
      && (FollowAll(f, st, horizon).exit == IdleOut ==> DrainsFor(f, st, n + 1))
    decreases horizon - st.turn
  {
    hide FollowTurn, Drains, FollowAll, After, DrainsFor;
    var (next, exit) := FollowTurn(f, st);
    FollowOn(f, st, horizon);
    TurnKinds(f, st);
    AfterOne(f, st, 0);
    NoTurns(f, st);
    if exit.Some? {
      if Drains(f, st) { DrainsMore(f, st, 0); }
    } else {
      var m := TurnsOf(f, next, horizon);
      FollowIsARun(f, next, horizon);
      AfterShift(f, st, m + 1);
      DrainsShift(f, st, m);
      if DrainsFor(f, next, m + 1) { DrainsShift(f, st, m + 1); }
    }
  }

  lemma DrainsMore(f: Follower, st: FollowState, n: nat)
    requires f.Valid() && DrainsFor(f, st, n) && Drains(f, After(f, st, n))
    ensures DrainsFor(f, st, n + 1)
  {
    hide Drains, After;
  }

  lemma NoTurns(f: Follower, st: FollowState)
    requires f.Valid()
    ensures DrainsFor(f, st, 0)
  {
  }

  lemma DrainsShift(f: Follower, st: FollowState, n: nat)
    requires f.Valid() && Drains(f, st) && DrainsFor(f, FollowTurn(f, st).0, n)
    ensures DrainsFor(f, st, n + 1)
  {
    hide FollowTurn, Drains;
    forall k | 0 <= k < n + 1 ensures Drains(f, After(f, st, k)) {
      if k > 0 { AfterShift(f, st, k - 1); }
    }
  }

  /** A connection followed until it idles has delivered what one replay of
      everything listed up to its last turn would, exactly if nothing came late;
      when chunks stay listed, that is one replay of its last catalog. */
  lemma FollowedToTheEnd(
      f: Follower, archive: Catalog, content: Content, first: ReplayPlan, deadline: nat, horizon: nat)
    requires f.Valid() && Planned(f, first) && f.env(horizon).stopped
    requires FollowAll(f, Begin(first, deadline), horizon).exit == IdleOut
    requires ReadsFrom(f, archive, content, TurnsOf(f, Begin(first, deadline), horizon))
    ensures var n := TurnsOf(f, Begin(first, deadline), horizon);
      var all := Deliverable(f.c, SeenBy(f, n), f.sub, content, Base(f.sub));
      && n < horizon
      && (FollowAll(f, Begin(first, deadline), horizon).state.delivered == all <==> NeverLate(f, content, n))
      && (KeepsChunks(f, n) ==> all == Deliverable(f.c, f.env(n).cat, f.sub, content, Base(f.sub)))
  {
    hide *;
    ZeroTurn(first, deadline);
    var n := TurnsOf(f, Begin(first, deadline), horizon);
    FollowIsARun(f, Begin(first, deadline), horizon);
    NotPastHorizon(f, first, deadline, horizon, n + 1);
    FollowRefinesExactly(f, archive, content, first, deadline, n);
    if KeepsChunks(f, n) { KeptOffersAll(f, content, n); }
  }

  lemma ZeroTurn(first: ReplayPlan, deadline: nat)
    ensures Begin(first, deadline).turn == 0
  {
  }

  lemma NotPastHorizon(f: Follower, first: ReplayPlan, deadline: nat, horizon: nat, n: nat)
    requires f.Valid() && f.env(horizon).stopped && DrainsFor(f, Begin(first, deadline), n)
    ensures n <= horizon
  {
    hide PlanFor, PassAt, After, DrainsFor;
    if n > horizon {
      DrainsAt(f, Begin(first, deadline), n, horizon);
      RunsOn(f, first, deadline, horizon);
    }
  }

  // ----- a catalog that stays as it is -----

  ghost predicate Fixed(f: Follower, n: nat) {
    forall k :: 0 <= k < n ==> f.env(k).cat == f.env(0).cat
  }

  ghost function HeldSlots(f: Follower, content: Content): seq<Tagged> {
    MergeAll(FullLanes(f.c, f.env(0).cat, f.sub, content)).out
  }

  /** How many of the first `n` passes sent anything. */
  ghost function Progressing(f: Follower, st: FollowState, n: nat): nat
    requires f.Valid()
  {
    if n == 0 then 0
    else
      Progressing(f, st, n - 1)
        + if |After(f, st, n).delivered| > |After(f, st, n - 1).delivered| then 1 else 0
  }

  /** Each pass that sends something raises the point to resume from. */
  ghost predicate Climbs(first: ReplayPlan, out: seq<Tagged>, passes: nat, bound: nat) {
    && (passes == 0 ==> out == [])
    && (passes > 0 ==> out != [] && first.fromSlot + passes <= out[|out| - 1].item.slot + 1 <= bound + 1)
  }

  lemma ClimbsOn(
      first: ReplayPlan, out: seq<Tagged>, passes: nat, bound: nat, held: seq<Tagged>, from: nat, sent: seq<Tagged>)
    requires Climbs(first, out, passes, bound) && sent == FloorOut(held, from)
    requires forall t :: t in held ==> t.item.slot <= bound
    requires if out == [] then from == first.fromSlot else from == out[|out| - 1].item.slot + 1
    ensures Climbs(first, out + sent, if sent == [] then passes else passes + 1, bound)
  {
    FloorOutHolds(held, from);
    hide FloorOut;
    if sent == [] {
      assert out + sent == out;
    } else {
      assert sent[|sent| - 1] in sent;
      assert (out + sent)[|out + sent| - 1] == sent[|sent| - 1];
    }
  }

  lemma FirstStarts(f: Follower, first: ReplayPlan)
    requires Planned(f, first)
    ensures StartsAt(f.env(0).cat, f.sub, None, first.fromSlot)
  {
    hide PlanStream, FirstAvailable, EndSlot;
  }

  lemma {:induction false} PassesClimb(
      f: Follower, content: Content, first: ReplayPlan, deadline: nat, n: nat, bound: nat)
    requires f.Valid() && Planned(f, first) && DrainsFor(f, Begin(first, deadline), n) && Fixed(f, n)
    requires Recorded(f.c, f.env(0).cat, content)
    requires forall t :: t in HeldSlots(f, content) ==> t.item.slot <= bound
    ensures Climbs(
      first, After(f, Begin(first, deadline), n).delivered, Progressing(f, Begin(first, deadline), n), bound)
  {
    var st0 := Begin(first, deadline);
    hide Drains, DrainsFor, Recorded, After, Planned, StartsAt, Deliverable, Climbs, HeldSlots, LastSlotOf, FloorOut;
    hide FollowTurn;
    AfterOne(f, st0, 0);
    if n == 0 {
      NoClimb(first, bound);
    } else {
      DrainsAt(f, st0, n, n - 1);
      PassesClimb(f, content, first, deadline, n - 1, bound);
      var out := After(f, st0, n - 1).delivered;
      assert f.env(n - 1).cat == f.env(0).cat;
      var from := TurnDelivers(f, content, first, deadline, n - 1);
      FirstStarts(f, first);
      SameStart(f.env(0).cat, f.sub, out, from, first.fromSlot);
      DeliverableHeld(f, content, from);
      var sent := Deliverable(f.c, f.env(0).cat, f.sub, content, from);
      ClimbsOn(first, out, Progressing(f, st0, n - 1), bound, HeldSlots(f, content), from, sent);
      assert |out + sent| == |out| + |sent|;
    }
  }

  lemma NoClimb(first: ReplayPlan, bound: nat)
    ensures Climbs(first, [], 0, bound)
  {
  }

  lemma DeliverableHeld(f: Follower, content: Content, from: nat)
    ensures Deliverable(f.c, f.env(0).cat, f.sub, content, from) == FloorOut(HeldSlots(f, content), from)
  {
    hide MergeAll, FullLanes, FloorOut;
  }

  lemma SameStart(cat: Catalog, sub: Subscription, out: seq<Tagged>, from: nat, start: nat)
    requires StartsAt(cat, sub, LastSlotOf(out), from) && StartsAt(cat, sub, None, start)
    ensures if out == [] then from == start else from == out[|out| - 1].item.slot + 1
  {
    LastOfSome(out);
    ResumeStarts(cat, sub, LastSlotOf(out), from);
    hide LastSlotOf, FirstAvailable;
  }

  /** Over a catalog that stays as it is, slots sorted or not, a follower sends
      something in no more passes than there are slots from its start on. */
  lemma FollowTerminates(f: Follower, content: Content, first: ReplayPlan, deadline: nat, n: nat, bound: nat)
    requires f.Valid() && Planned(f, first) && DrainsFor(f, Begin(first, deadline), n) && Fixed(f, n)
    requires Recorded(f.c, f.env(0).cat, content)
    requires forall t :: t in HeldSlots(f, content) ==> t.item.slot <= bound
    ensures Progressing(f, Begin(first, deadline), n) + first.fromSlot
      <= if bound < first.fromSlot then first.fromSlot else bound + 1
  {
    hide Progressing, After, DrainsFor, HeldSlots, Recorded, Planned, Drains;
    PassesClimb(f, content, first, deadline, n, bound);
  }

  // ----- messages recorded out of slot order -----

  ghost predicate EndsHighest(out: seq<Tagged>) {
    out != [] ==> forall t :: t in out ==> t.item.slot <= LastSlotIn(out)
  }

  lemma ResumedIsAbove(f: Follower, content: Content, from: nat, last: nat, t: Tagged)
    requires from <= last
    ensures t in Deliverable(f.c, f.env(0).cat, f.sub, content, last + 1)
      <==> t in Deliverable(f.c, f.env(0).cat, f.sub, content, from) && t.item.slot > last
  {
    hide *;
    DeliverableMember(f.c, f.env(0).cat, f.sub, content, from, t);
    DeliverableMember(f.c, f.env(0).cat, f.sub, content, last + 1, t);
  }

  /** The first pass over a recorded catalog delivers what is on offer. */
  lemma FirstTurnDelivers(f: Follower, content: Content, first: ReplayPlan, deadline: nat)
    requires f.Valid() && Planned(f, first) && DrainsFor(f, Begin(first, deadline), 1)
    requires Recorded(f.c, f.env(0).cat, content)
    ensures After(f, Begin(first, deadline), 1).delivered
      == Deliverable(f.c, f.env(0).cat, f.sub, content, first.fromSlot)
  {
    hide *;
    var from := TurnDelivers(f, content, first, deadline, 0);
    AfterOne(f, Begin(first, deadline), 0);
    NothingYet(first, deadline);
    FirstStarts(f, first);
    SameStart(f.env(0).cat, f.sub, [], from, first.fromSlot);
    var d := Deliverable(f.c, f.env(0).cat, f.sub, content, first.fromSlot);
    assert [] + d == d;
  }

  /** The pass after one that ended on slot `last` sends again, of the first
      delivery, everything above `last`. */
  lemma NextTurnResends(f: Follower, content: Content, first: ReplayPlan, deadline: nat, n: nat)
    returns (more: seq<Tagged>)
    requires f.Valid() && Planned(f, first) && DrainsFor(f, Begin(first, deadline), n + 1) && Fixed(f, n + 1)
    requires Recorded(f.c, f.env(0).cat, content)
    requires var out := After(f, Begin(first, deadline), n).delivered; out != [] && LastSlotIn(out) >= first.fromSlot
    ensures var d := Deliverable(f.c, f.env(0).cat, f.sub, content, first.fromSlot);
      var out := After(f, Begin(first, deadline), n).delivered;
      && After(f, Begin(first, deadline), n + 1).delivered == out + more
      && forall t :: t in more <==> t in d && t.item.slot > LastSlotIn(out)
  {
    hide *;
    var out := After(f, Begin(first, deadline), n).delivered;
    FixedAt(f, n + 1, n);
    var from := TurnDelivers(f, content, first, deadline, n);
    FirstStarts(f, first);
    SameStart(f.env(0).cat, f.sub, out, from, first.fromSlot);
    LastSlotIs(out);
    more := Deliverable(f.c, f.env(0).cat, f.sub, content, from);
    forall t
      ensures t in more
        <==> t in Deliverable(f.c, f.env(0).cat, f.sub, content, first.fromSlot) && t.item.slot > LastSlotIn(out)
    {
      ResumedIsAbove(f, content, first.fromSlot, LastSlotIn(out), t);
    }
  }

  lemma FixedAt(f: Follower, n: nat, k: nat)
    requires Fixed(f, n) && k < n
    ensures f.env(k).cat == f.env(0).cat && Fixed(f, k)
  {
  }

  /** A first delivery ends at or above its start. */
  lemma DeliveryEndsAbove(f: Follower, content: Content, from: nat)
    ensures var d := Deliverable(f.c, f.env(0).cat, f.sub, content, from); d != [] ==> LastSlotIn(d) >= from
  {
    hide *;
    var d := Deliverable(f.c, f.env(0).cat, f.sub, content, from);
    LastSlotIs(d);
    if d != [] {
      DeliverableMember(f.c, f.env(0).cat, f.sub, content, from, d[|d| - 1]);
    }
  }

  /** Once a pass has nothing to send, later ones have nothing either. */
  lemma {:induction false} QuietStays(f: Follower, content: Content, first: ReplayPlan, deadline: nat, n: nat)
    requires f.Valid() && Planned(f, first) && n >= 1
    requires DrainsFor(f, Begin(first, deadline), n) && Fixed(f, n) && Recorded(f.c, f.env(0).cat, content)
    requires EndsHighest(Deliverable(f.c, f.env(0).cat, f.sub, content, first.fromSlot))
    ensures After(f, Begin(first, deadline), n).delivered
      == Deliverable(f.c, f.env(0).cat, f.sub, content, first.fromSlot)
  {
    hide *;
    var st0, d := Begin(first, deadline), Deliverable(f.c, f.env(0).cat, f.sub, content, first.fromSlot);
    if n == 1 {
      FirstTurnDelivers(f, content, first, deadline);
    } else {
      DrainsAt(f, st0, n, n - 1);
      FixedAt(f, n, n - 1);
      QuietStays(f, content, first, deadline, n - 1);
      if d == [] {
        var from := TurnDelivers(f, content, first, deadline, n - 1);
        FirstStarts(f, first);
        SameStart(f.env(0).cat, f.sub, d, from, first.fromSlot);
        assert d + d == d;
      } else {
        DeliveryEndsAbove(f, content, first.fromSlot);
        var more := NextTurnResends(f, content, first, deadline, n - 1);
        EndsHighestIs(d);
        NoneIn(more);
        assert d + more == d;
      }
    }
  }

  lemma EndsHighestIs(out: seq<Tagged>)
    requires out != []
    ensures EndsHighest(out) <==> forall t :: t in out ==> t.item.slot <= LastSlotIn(out)
  {
  }

  lemma NoneIn(out: seq<Tagged>)
    ensures out == [] || out[0] in out
  {
  }

  lemma {:induction false} DeliveredOnlyGrows(f: Follower, first: ReplayPlan, deadline: nat, n: nat, m: nat)
    requires f.Valid() && n <= m && DrainsFor(f, Begin(first, deadline), m)
    ensures |After(f, Begin(first, deadline), n).delivered| <= |After(f, Begin(first, deadline), m).delivered|
  {
    hide *;
    if n < m {
      var st0 := Begin(first, deadline);
      DrainsAt(f, st0, m, m - 1);
      DeliveredOnlyGrows(f, first, deadline, n, m - 1);
      RunsOn(f, first, deadline, m - 1);
      DrainedTurn(f, After(f, st0, m - 1));
      AfterOne(f, st0, m - 1);
    }
  }

  /** Over a recorded catalog that stays as it is, however many passes follow the
      first: they send nothing more exactly if the catalog's delivery ends on its
      highest slot. Otherwise messages already sent are sent again. */
  lemma ResendsExactly(f: Follower, content: Content, first: ReplayPlan, deadline: nat, n: nat)
    requires f.Valid() && Planned(f, first) && n >= 2
    requires DrainsFor(f, Begin(first, deadline), n) && Fixed(f, n) && Recorded(f.c, f.env(0).cat, content)
    ensures var d := Deliverable(f.c, f.env(0).cat, f.sub, content, first.fromSlot);
      After(f, Begin(first, deadline), n).delivered == d <==> EndsHighest(d)
  {
    hide *;
    var st0, d := Begin(first, deadline), Deliverable(f.c, f.env(0).cat, f.sub, content, first.fromSlot);
    if EndsHighest(d) {
      QuietStays(f, content, first, deadline, n);
    } else {
      DrainsAt(f, st0, n, 1);
      DrainsTwice(f, st0, n);
      FixedTwice(f, n);
      FirstTurnDelivers(f, content, first, deadline);
      NotHighest(d);
      DeliveryEndsAbove(f, content, first.fromSlot);
      EndsHighestIs(d);
      var more := NextTurnResends(f, content, first, deadline, 1);
      var t :| t in d && t.item.slot > LastSlotIn(d);
      assert t in more;
      DeliveredOnlyGrows(f, first, deadline, 2, n);
    }
  }

  lemma NotHighest(out: seq<Tagged>)
    ensures !EndsHighest(out) ==> out != []
  {
  }

  lemma DrainsTwice(f: Follower, st: FollowState, n: nat)
    requires f.Valid() && DrainsFor(f, st, n) && n >= 2
    ensures DrainsFor(f, st, 2)
  {
    hide Drains, After;
  }

  lemma FixedTwice(f: Follower, n: nat)
    requires Fixed(f, n) && n >= 2
    ensures Fixed(f, 2)
  {
  }

  // ----- exactly when a follower drains -----

  lemma {:induction false} SomeBound(out: seq<Tagged>) returns (bound: nat)
    ensures forall t :: t in out ==> t.item.slot <= bound
  {
    bound := 0;
    if out != [] {
      var rest := SomeBound(out[1..]);
      bound := if rest < out[0].item.slot then out[0].item.slot else rest;
      assert out == [out[0]] + out[1..];
    }
  }

  lemma LaterStarts(cat: Catalog, sub: Subscription, from: nat, last: Option<nat>)
    requires StartsAt(cat, sub, None, from) && (last.Some? ==> last.value + 1 >= from)
    ensures StartSlot(cat, sub, ResumeAt(sub, last)).Ok?
  {
    hide FirstAvailable;
  }

  lemma ClimbsFar(first: ReplayPlan, out: seq<Tagged>, passes: nat, bound: nat)
    requires Climbs(first, out, passes, bound)
    ensures LastSlotOf(out).Some? ==> LastSlotOf(out).value + 1 >= first.fromSlot
  {
  }

  lemma StateShape(f: Follower, first: ReplayPlan, deadline: nat, n: nat)
    requires f.Valid() && DrainsFor(f, Begin(first, deadline), n)
    ensures var st := After(f, Begin(first, deadline), n);
      && st.turn == n && st.plan == (if n == 0 then Some(first) else None)
      && st.total.lastSlot == LastSlotOf(st.delivered)
  {
    hide DrainsFor, FollowTurn, LastSlotOf;
    RunsOn(f, first, deadline, n);
    if n == 0 { AfterOne(f, Begin(first, deadline), 0); }
  }

  /** Wherever a drained run has got to, it can plan on. */
  lemma ResumeIsAvailable(f: Follower, content: Content, first: ReplayPlan, deadline: nat, n: nat)
    requires f.Valid() && Planned(f, first) && DrainsFor(f, Begin(first, deadline), n) && Fixed(f, n)
    requires Recorded(f.c, f.env(0).cat, content)
    ensures var st := After(f, Begin(first, deadline), n);
      PlanOf(f.c, f.env(0).cat, f.sub, ResumeAt(f.sub, LastSlotOf(st.delivered))).Ok?
  {
    hide *;
    var st := After(f, Begin(first, deadline), n);
    var bound := SomeBound(HeldSlots(f, content));
    PassesClimb(f, content, first, deadline, n, bound);
    ClimbsFar(first, st.delivered, Progressing(f, Begin(first, deadline), n), bound);
    FirstStarts(f, first);
    LaterStarts(f.env(0).cat, f.sub, first.fromSlot, LastSlotOf(st.delivered));
    PlanIsComplete(f.c, f.env(0).cat, f.sub, content, ResumeAt(f.sub, LastSlotOf(st.delivered)));
  }

  /** The world lets this turn send all it has to. */
  ghost predicate TurnInTime(f: Follower, content: Content, st: FollowState)
    requires f.Valid()
  {
    && !f.env(st.turn).stopped
    && (PlanFor(f, st).Ok? ==>
          Undisturbed(
            f.env(st.turn).world, Deliverable(f.c, f.env(0).cat, f.sub, content, PlanFor(f, st).value.fromSlot),
            Start(st.pacer)))
  }

  lemma TurnDrainsExactly(f: Follower, content: Content, first: ReplayPlan, st: FollowState)
    requires f.Valid() && Planned(f, first) && Recorded(f.c, f.env(0).cat, content)
    requires f.env(st.turn).cat == f.env(0).cat && st.plan == (if st.turn == 0 then Some(first) else None)
    requires PlanOf(f.c, f.env(0).cat, f.sub, ResumeAt(f.sub, st.total.lastSlot)).Ok?
    ensures Drains(f, st) <==> TurnInTime(f, content, st)
  {
    hide PlanOf, Recorded, PlanLanes, MergeAll, PlanPass, Undisturbed, Deliverable;
    var requested := if st.turn == 0 then f.sub.fromSlot else ResumeAt(f.sub, st.total.lastSlot);
    assert PlanFor(f, st) == PlanOf(f.c, f.env(0).cat, f.sub, requested);
    ReplayDelivers(f.c, f.env(st.turn).world, f.env(0).cat, f.sub, content, requested, st.pacer);
  }

  /** Over a recorded catalog that stays as it is, a follower can always plan
      where it resumes; its turns all drain exactly if the world lets each of
      them send in time. */
  lemma {:induction false} FollowerDrainsExactly(
      f: Follower, content: Content, first: ReplayPlan, deadline: nat, n: nat)
    requires f.Valid() && Planned(f, first) && Fixed(f, n) && Recorded(f.c, f.env(0).cat, content)
    ensures DrainsFor(f, Begin(first, deadline), n)
      <==> forall k :: 0 <= k < n ==> TurnInTime(f, content, After(f, Begin(first, deadline), k))
  {
    hide *;
    var st0 := Begin(first, deadline);
    if n == 0 {
      NoTurns(f, st0);
    } else {
      FixedAt(f, n, n - 1);
      FollowerDrainsExactly(f, content, first, deadline, n - 1);
      if DrainsFor(f, st0, n - 1) {
        StateShape(f, first, deadline, n - 1);
        ResumeIsAvailable(f, content, first, deadline, n - 1);
        TurnDrainsExactly(f, content, first, After(f, st0, n - 1));
        if Drains(f, After(f, st0, n - 1)) { DrainsMore(f, st0, n - 1); }
      }
      if DrainsFor(f, st0, n) { DrainsAt(f, st0, n, n - 1); }
    }
  }
}
