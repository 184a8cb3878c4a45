/** One replay pass: peek three cursors, take the least, pace it, send it; and
    every way the pass can end. */
module Drive {
  import opened Core
  import opened Merge
  import opened Pacing

  datatype SendOutcome = SentOk | Closed | TimedOut

  /** What the world does around one send: the clock when the message is due,
      whether shutdown wins the wait, the send, the clock after it. */
  datatype EnvStep = EnvStep(nowTarget: nat, cancelled: bool, send: SendOutcome, nowObserve: nat)

  datatype World = World(cfg: PacingConfig, env: nat -> EnvStep, size: Item -> nat)

  datatype Exit = Drained | DecodeError | Cancelled | SubscriberClosed | SendTimedOut | LagDropped

  /** The counters of a pass in progress. `turn` counts the sends attempted. */
  datatype Progress = Progress(
    delivered: seq<Tagged>, emitted: nat, bytes: nat, lastSlot: Option<nat>, lagMax: nat,
    pacer: PacerState, turn: nat)

  datatype PassEnd = PassEnd(progress: Progress, exit: Exit)

  function Start(ps: PacerState): Progress {
    Progress([], 0, 0, None, 0, ps, 0)
  }

  function Max(a: nat, b: nat): nat {
    if a < b then b else a
  }

  function Deliver(w: World, t: Tagged, p: Progress): Progress {
    p.(delivered := p.delivered + [t], bytes := p.bytes + w.size(t.item), lastSlot := Some(t.item.slot))
  }

  /** Try to send one message; `Some(exit)` ends the pass. */
  function Attempt(w: World, t: Tagged, p: Progress): (Progress, Option<Exit>)
    requires w.cfg.Valid()
  {
    var e := w.env(p.turn);
    var (target, ps) := TargetAt(w.cfg, p.pacer, t.item.recvNs, e.nowTarget);
    var waited := p.(pacer := ps, turn := p.turn + 1);
    if e.cancelled then (waited, Some(Cancelled))
    else if e.send.TimedOut? then (waited, Some(SendTimedOut))
    else if e.send.Closed? then (waited, Some(SubscriberClosed))
    else
      var sent := Deliver(w, t, waited);
      var (action, ps') := ObserveAt(w.cfg, ps, target, e.nowObserve);
      var seen := sent.(pacer := ps');
      match action
      case LagDrop(_) => (seen, Some(LagDropped))
      case LagWarn(lag) => (seen.(lagMax := Max(seen.lagMax, lag), emitted := seen.emitted + 1), None)
      case LagOk => (seen.(emitted := seen.emitted + 1), None)
  }

  /** Send the messages one by one until they run out or the pass ends. */
  function Pump(w: World, out: seq<Tagged>, failed: bool, p: Progress): PassEnd
    requires w.cfg.Valid()
  {
    if out == [] then PassEnd(p, if failed then DecodeError else Drained)
    else
      var (next, exit) := Attempt(w, out[0], p);
      if exit.Some? then PassEnd(next, exit.value) else Pump(w, out[1..], failed, next)
  }

  // ----- accounting -----

  function TotalSize(w: World, out: seq<Tagged>): nat {
    if out == [] then 0 else TotalSize(w, out[..|out| - 1]) + w.size(out[|out| - 1].item)
  }

  function LastSlotOf(out: seq<Tagged>): Option<nat> {
    if out == [] then None else Some(out[|out| - 1].item.slot)
  }

  /** The counters describe exactly the messages delivered so far. */
  ghost predicate Tallied(w: World, p: Progress) {
    p.bytes == TotalSize(w, p.delivered) && p.lastSlot == LastSlotOf(p.delivered)
  }

  lemma DeliverTallies(w: World, t: Tagged, p: Progress)
    requires Tallied(w, p)
    ensures Tallied(w, Deliver(w, t, p))
  {
    var more := p.delivered + [t];
    assert more[..|more| - 1] == p.delivered && more[|more| - 1] == t;
  }

  lemma AttemptTallies(w: World, t: Tagged, p: Progress)
    requires w.cfg.Valid() && Tallied(w, p) && p.emitted == |p.delivered|
    ensures var (next, exit) := Attempt(w, t, p);
      && Tallied(w, next)
      && (exit.None? ==> next.delivered == p.delivered + [t] && next.emitted == |next.delivered|)
      && (exit == Some(LagDropped) ==> next.delivered == p.delivered + [t] && next.emitted + 1 == |next.delivered|)
      && (exit.Some? && exit != Some(LagDropped) ==>
            next.delivered == p.delivered && next.emitted == |next.delivered|
            && exit.value != Drained && exit.value != DecodeError)
  {
    var e := w.env(p.turn);
    var (target, ps) := TargetAt(w.cfg, p.pacer, t.item.recvNs, e.nowTarget);
    DeliverTallies(w, t, p.(pacer := ps, turn := p.turn + 1));
    hide TotalSize, TargetAt, ObserveAt;
  }

  /** On every exit, whatever the world does: what was delivered is a prefix of
      the messages, the counters describe exactly that prefix (`emitted` misses
      the last one on a lag drop), and only a drained pass or a decoding error
      delivered everything that was offered. */
  lemma {:induction false} EveryExitAccounts(w: World, out: seq<Tagged>, failed: bool, p: Progress)
    requires w.cfg.Valid() && Tallied(w, p) && p.emitted == |p.delivered|
    ensures var end := Pump(w, out, failed, p); var q := end.progress;
      && p.delivered <= q.delivered <= p.delivered + out
      && Tallied(w, q)
      && q.emitted + (if end.exit == LagDropped then 1 else 0) == |q.delivered|
      && (end.exit == Drained ==> q.delivered == p.delivered + out && !failed)
      && (end.exit == DecodeError ==> q.delivered == p.delivered + out && failed)
      && (end.exit == LagDropped ==> |q.delivered| > |p.delivered|)
    decreases |out|
  {
    if out != [] {
      AttemptTallies(w, out[0], p);
      var (next, exit) := Attempt(w, out[0], p);
      hide Attempt, Tallied;
      assert p.delivered + out == (p.delivered + [out[0]]) + out[1..];
      if exit.None? {
        EveryExitAccounts(w, out[1..], failed, next);
      }
    }
  }

  // ----- exactly when a pass gets through -----

  /** The anchor message `n` finds: one set before the pass, else the first
      stamped message before it and the instant that one was due. */
  function AnchorAt(w: World, out: seq<Tagged>, p: Progress, n: nat): Option<Anchor>
    requires n <= |out|
  {
    if n == 0 then p.pacer.anchor
    else
      var before := AnchorAt(w, out, p, n - 1);
      var source := out[n - 1].item.recvNs;
      if before.Some? || !w.cfg.enabled || source.None? then before
      else Some(Anchor(source.value, w.env(p.turn + n - 1).nowTarget))
  }

  /** When message `n` is due. */
  function DueAt(w: World, out: seq<Tagged>, p: Progress, n: nat): nat
    requires w.cfg.Valid() && n < |out|
  {
    var now, source, anchor := w.env(p.turn + n).nowTarget, out[n].item.recvNs, AnchorAt(w, out, p, n);
    if !w.cfg.enabled || source.None? || anchor.None? then now else TargetOf(w.cfg, anchor.value, source.value)
  }

  /** Nobody interrupts the send of message `n`, and it is over before the lag
      behind the message's own due time reaches the threshold. */
  predicate InTime(w: World, out: seq<Tagged>, p: Progress, n: nat)
    requires w.cfg.Valid() && n < |out|
  {
    var e, due := w.env(p.turn + n), DueAt(w, out, p, n);
    && !e.cancelled && e.send.SentOk?
    && (w.cfg.enabled ==> e.nowObserve <= due || e.nowObserve - due < w.cfg.lagDrop)
  }

  ghost predicate Undisturbed(w: World, out: seq<Tagged>, p: Progress)
    requires w.cfg.Valid()
  {
    forall n :: 0 <= n < |out| ==> InTime(w, out, p, n)
  }

  lemma AttemptInTime(w: World, out: seq<Tagged>, p: Progress)
    requires w.cfg.Valid() && out != []
    ensures var (next, exit) := Attempt(w, out[0], p);
      && (exit.None? <==> InTime(w, out, p, 0))
      && next.turn == p.turn + 1 && next.pacer.anchor == AnchorAt(w, out, p, 1)
      && exit != Some(Drained) && exit != Some(DecodeError)
  {
    hide TargetOf;
    assert AnchorAt(w, out, p, 0) == p.pacer.anchor;
  }

  lemma {:induction false} AnchorShift(w: World, out: seq<Tagged>, p: Progress, next: Progress, n: nat)
    requires n < |out| && next.turn == p.turn + 1 && next.pacer.anchor == AnchorAt(w, out, p, 1)
    ensures AnchorAt(w, out[1..], next, n) == AnchorAt(w, out, p, n + 1)
  {
    if n > 0 {
      AnchorShift(w, out, p, next, n - 1);
      assert out[1..][n - 1] == out[n];
    }
  }

  lemma InTimeShift(w: World, out: seq<Tagged>, p: Progress, next: Progress, n: nat)
    requires w.cfg.Valid() && n + 1 < |out|
    requires next.turn == p.turn + 1 && next.pacer.anchor == AnchorAt(w, out, p, 1)
    ensures InTime(w, out[1..], next, n) <==> InTime(w, out, p, n + 1)
  {
    AnchorShift(w, out, p, next, n);
    hide AnchorAt, TargetOf;
    assert out[1..][n] == out[n + 1];
  }

  /** A pass runs to the end of what it was offered exactly when every message
      is in time; otherwise it ends at the first one that is not. */
  lemma {:induction false} GetsThroughExactly(w: World, out: seq<Tagged>, failed: bool, p: Progress)
    requires w.cfg.Valid()
    ensures Pump(w, out, failed, p).exit == (if failed then DecodeError else Drained) <==> Undisturbed(w, out, p)
    ensures Pump(w, out, false, p).exit != DecodeError
    decreases |out|
  {
    if out != [] {
      AttemptInTime(w, out, p);
      var (next, exit) := Attempt(w, out[0], p);
      hide Attempt, InTime;
      GetsThroughExactly(w, out[1..], failed, next);
      GetsThroughExactly(w, out[1..], false, next);
      UndisturbedSplits(w, out, p, next);
    }
  }

  lemma UndisturbedSplits(w: World, out: seq<Tagged>, p: Progress, next: Progress)
    requires w.cfg.Valid() && out != []
    requires next.turn == p.turn + 1 && next.pacer.anchor == AnchorAt(w, out, p, 1)
    ensures Undisturbed(w, out, p) <==> InTime(w, out, p, 0) && Undisturbed(w, out[1..], next)
  {
    forall n | 0 <= n < |out| - 1 ensures InTime(w, out[1..], next, n) <==> InTime(w, out, p, n + 1) {
      InTimeShift(w, out, p, next, n);
    }
    hide InTime;
    if InTime(w, out, p, 0) && Undisturbed(w, out[1..], next) {
      forall n | 0 <= n < |out| ensures InTime(w, out, p, n) {
        if n > 0 { assert InTime(w, out[1..], next, n - 1); }
      }
    }
    if Undisturbed(w, out, p) {
      forall n | 0 <= n < |out| - 1 ensures InTime(w, out[1..], next, n) {
        assert InTime(w, out, p, n + 1);
      }
    }
  }
}
