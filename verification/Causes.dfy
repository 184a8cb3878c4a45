/** Why a pass ended, how far it came and how late it was, read off what the world
    did around each message. */
module Causes {
  import opened Core
  import opened Merge
  import opened Pacing
  import opened Drive

  /** How far behind the message's own due time its send was over. */
  function LagAt(w: World, out: seq<Tagged>, p: Progress, n: nat): nat
    requires w.cfg.Valid() && n < |out|
  {
    var now, due := w.env(p.turn + n).nowObserve, DueAt(w, out, p, n);
    if w.cfg.enabled && now > due then now - due else 0
  }

  /** Its send went through, but too late. */
  predicate LagsOut(w: World, out: seq<Tagged>, p: Progress, n: nat)
    requires w.cfg.Valid() && n < |out|
  {
    var e := w.env(p.turn + n);
    && !e.cancelled && e.send.SentOk?
    && w.cfg.enabled && e.nowObserve > DueAt(w, out, p, n) && LagAt(w, out, p, n) >= w.cfg.lagDrop
  }

  /** The first message something befalls. */
  ghost predicate FirstDisturbed(w: World, out: seq<Tagged>, p: Progress, n: nat)
    requires w.cfg.Valid()
  {
    && n < |out| && !InTime(w, out, p, n)
    && forall k :: 0 <= k < n ==> InTime(w, out, p, k)
  }

  /** What befell it. */
  predicate Befell(w: World, out: seq<Tagged>, p: Progress, n: nat, exit: Exit)
    requires w.cfg.Valid() && n < |out|
  {
    var e := w.env(p.turn + n);
    match exit
    case Cancelled => e.cancelled
    case SendTimedOut => !e.cancelled && e.send.TimedOut?
    case SubscriberClosed => !e.cancelled && e.send.Closed?
    case LagDropped => LagsOut(w, out, p, n)
    case _ => false
  }

  /** The one reason for each way to end. */
  ghost predicate Because(w: World, out: seq<Tagged>, failed: bool, p: Progress, exit: Exit)
    requires w.cfg.Valid()
  {
    match exit
    case Drained => !failed && Undisturbed(w, out, p)
    case DecodeError => failed && Undisturbed(w, out, p)
    case _ => exists n :: FirstDisturbed(w, out, p, n) && Befell(w, out, p, n, exit)
  }

  lemma AttemptBefell(w: World, out: seq<Tagged>, p: Progress)
    requires w.cfg.Valid() && out != []
    ensures var exit := Attempt(w, out[0], p).1;
      exit.Some? ==> !InTime(w, out, p, 0) && Befell(w, out, p, 0, exit.value)
  {
    hide TargetOf;
    assert AnchorAt(w, out, p, 0) == p.pacer.anchor;
  }

  lemma BefellShift(w: World, out: seq<Tagged>, p: Progress, next: Progress, n: nat, exit: Exit)
    requires w.cfg.Valid() && n + 1 < |out|
    requires next.turn == p.turn + 1 && next.pacer.anchor == AnchorAt(w, out, p, 1)
    ensures DueAt(w, out[1..], next, n) == DueAt(w, out, p, n + 1)
    ensures LagAt(w, out[1..], next, n) == LagAt(w, out, p, n + 1)
    ensures Befell(w, out[1..], next, n, exit) <==> Befell(w, out, p, n + 1, exit)
  {
    AnchorShift(w, out, p, next, n);
    hide AnchorAt, TargetOf;
    assert out[1..][n] == out[n + 1];
  }

  lemma FirstShift(w: World, out: seq<Tagged>, p: Progress, next: Progress, n: nat)
    requires w.cfg.Valid() && out != [] && InTime(w, out, p, 0)
    requires next.turn == p.turn + 1 && next.pacer.anchor == AnchorAt(w, out, p, 1)
    requires FirstDisturbed(w, out[1..], next, n)
    ensures FirstDisturbed(w, out, p, n + 1)
  {
    forall k | 0 <= k < |out| - 1 ensures InTime(w, out[1..], next, k) <==> InTime(w, out, p, k + 1) {
      InTimeShift(w, out, p, next, k);
    }
    hide InTime;
    forall k | 0 <= k < n + 1 ensures InTime(w, out, p, k) {
      if k > 0 { assert InTime(w, out[1..], next, k - 1); }
    }
  }

  /** How many messages reach the subscriber when message `n` is the first that
      something befalls: those before it, and it too if it only came too late. */
  function ReachedBy(n: nat, exit: Exit): nat {
    if exit == LagDropped then n + 1 else n
  }

  /** Where a pass stopped, and why. */
  ghost predicate StoppedBy(w: World, out: seq<Tagged>, p: Progress, end: PassEnd, n: nat)
    requires w.cfg.Valid()
  {
    && FirstDisturbed(w, out, p, n) && Befell(w, out, p, n, end.exit)
    && end.progress.delivered == p.delivered + out[..ReachedBy(n, end.exit)]
  }

  lemma StoppedShift(w: World, out: seq<Tagged>, p: Progress, next: Progress, end: PassEnd, n: nat)
    requires w.cfg.Valid() && out != [] && InTime(w, out, p, 0)
    requires next.turn == p.turn + 1 && next.pacer.anchor == AnchorAt(w, out, p, 1)
    requires next.delivered == p.delivered + [out[0]]
    requires StoppedBy(w, out[1..], next, end, n)
    ensures StoppedBy(w, out, p, end, n + 1)
  {
    FirstShift(w, out, p, next, n);
    BefellShift(w, out, p, next, n, end.exit);
    hide FirstDisturbed, Befell, InTime;
    var reached := ReachedBy(n, end.exit);
    assert n < |out[1..]| by { FirstIsIn(w, out[1..], next, n); }
    assert out[..reached + 1] == [out[0]] + out[1..][..reached];
    assert p.delivered + out[..reached + 1] == (p.delivered + [out[0]]) + out[1..][..reached];
  }

  lemma FirstIsIn(w: World, out: seq<Tagged>, p: Progress, n: nat)
    requires w.cfg.Valid() && FirstDisturbed(w, out, p, n)
    ensures n < |out|
  {
    hide InTime;
  }

  lemma AttemptDelivers(w: World, t: Tagged, p: Progress)
    requires w.cfg.Valid()
    ensures var (next, exit) := Attempt(w, t, p);
      next.delivered == p.delivered + (if exit.None? || exit == Some(LagDropped) then [t] else [])
  {
    hide TargetAt, ObserveAt;
  }

  /** A pass that something befalls stops there. */
  lemma {:induction false} StopsAtFirst(w: World, out: seq<Tagged>, failed: bool, p: Progress) returns (n: nat)
    requires w.cfg.Valid() && !Undisturbed(w, out, p)
    ensures StoppedBy(w, out, p, Pump(w, out, failed, p), n)
    decreases |out|
  {
    AttemptInTime(w, out, p);
    AttemptBefell(w, out, p);
    AttemptDelivers(w, out[0], p);
    var (next, exit) := Attempt(w, out[0], p);
    hide Attempt, InTime, Befell;
    if exit.Some? {
      n := 0;
      assert FirstDisturbed(w, out, p, 0);
      assert out[..ReachedBy(0, exit.value)] == if exit.value == LagDropped then [out[0]] else [];
    } else {
      UndisturbedSplits(w, out, p, next);
      n := StopsAtFirst(w, out[1..], failed, next);
      StoppedShift(w, out, p, next, Pump(w, out[1..], failed, next), n);
      n := n + 1;
    }
  }

  lemma FirstIsOne(w: World, out: seq<Tagged>, p: Progress, a: nat, b: nat)
    requires w.cfg.Valid() && FirstDisturbed(w, out, p, a) && FirstDisturbed(w, out, p, b)
    ensures a == b && !Undisturbed(w, out, p)
  {
    hide InTime;
  }

  lemma OneThingBefell(w: World, out: seq<Tagged>, p: Progress, n: nat, a: Exit, b: Exit)
    requires w.cfg.Valid() && n < |out| && Befell(w, out, p, n, a) && Befell(w, out, p, n, b)
    ensures a == b
  {
    hide LagAt, DueAt;
  }

  /** A pass ends in a given way exactly when there is the reason for it: all that
      was on offer got through, with or without a message that cannot be decoded
      at its end, or the first message that something befell met a shutdown, a
      send that timed out, a subscriber gone, or a lag at the limit. */
  lemma EndsExactly(w: World, out: seq<Tagged>, failed: bool, p: Progress, exit: Exit)
    requires w.cfg.Valid()
    ensures Pump(w, out, failed, p).exit == exit <==> Because(w, out, failed, p, exit)
  {
    var end := Pump(w, out, failed, p);
    GetsThroughExactly(w, out, failed, p);
    hide Pump, Undisturbed, FirstDisturbed, Befell;
    if !Undisturbed(w, out, p) {
      var n := StopsAtFirst(w, out, failed, p);
      NeitherEnd(w, out, p, n, end.exit);
      if Because(w, out, failed, p, exit) {
        var m :| FirstDisturbed(w, out, p, m) && Befell(w, out, p, m, exit);
        FirstIsOne(w, out, p, n, m);
        FirstIsIn(w, out, p, n);
        OneThingBefell(w, out, p, n, exit, end.exit);
      }
    } else if n: nat :| FirstDisturbed(w, out, p, n) {
      FirstIsOne(w, out, p, n, n);
      assert false;
    }
  }

  lemma NeitherEnd(w: World, out: seq<Tagged>, p: Progress, n: nat, exit: Exit)
    requires w.cfg.Valid() && FirstDisturbed(w, out, p, n) && Befell(w, out, p, n, exit)
    ensures exit != Drained && exit != DecodeError
  {
    hide LagsOut, InTime;
  }

  // ----- how late it was -----

  /** The last warning before message `n`. */
  function LastWarnAt(w: World, out: seq<Tagged>, p: Progress, n: nat): Option<nat>
    requires w.cfg.Valid() && n <= |out|
    decreases n, 0
  {
    if n == 0 then p.pacer.lastWarn
    else if WarnedAt(w, out, p, n - 1) then Some(w.env(p.turn + n - 1).nowObserve)
    else LastWarnAt(w, out, p, n - 1)
  }

  /** Message `n` is late enough to warn, not so late as to end the pass, and the
      last warning is more than ten seconds ago. */
  predicate WarnedAt(w: World, out: seq<Tagged>, p: Progress, n: nat)
    requires w.cfg.Valid() && n < |out|
    decreases n, 1
  {
    var now, last := w.env(p.turn + n).nowObserve, LastWarnAt(w, out, p, n);
    && w.cfg.enabled && now > DueAt(w, out, p, n) && w.cfg.lagWarn <= LagAt(w, out, p, n) < w.cfg.lagDrop
    && (last.Some? ==> now > last.value + 10_000_000_000)
  }

  /** The worst lag a warning among the first `m` messages told of, or that of
      before. */
  ghost predicate IsPeak(w: World, out: seq<Tagged>, p: Progress, m: nat, peak: nat)
    requires w.cfg.Valid()
  {
    && m <= |out| && p.lagMax <= peak
    && (forall k: nat :: k < m && WarnedAt(w, out, p, k) ==> LagAt(w, out, p, k) <= peak)
    && (peak != p.lagMax ==> exists k: nat :: k < m && WarnedAt(w, out, p, k) && LagAt(w, out, p, k) == peak)
  }

  lemma AttemptWarns(w: World, out: seq<Tagged>, p: Progress)
    requires w.cfg.Valid() && out != []
    ensures var (next, exit) := Attempt(w, out[0], p);
      && (exit.None? ==>
            && next.pacer.lastWarn == LastWarnAt(w, out, p, 1)
            && next.lagMax == if WarnedAt(w, out, p, 0) then Max(p.lagMax, LagAt(w, out, p, 0)) else p.lagMax)
      && (exit.Some? ==> next.lagMax == p.lagMax)
      && next.emitted == p.emitted + (if exit.None? then 1 else 0)
  {
    hide TargetOf;
    assert AnchorAt(w, out, p, 0) == p.pacer.anchor;
    assert LastWarnAt(w, out, p, 0) == p.pacer.lastWarn;
  }

  lemma {:induction false} WarnedShift(w: World, out: seq<Tagged>, p: Progress, next: Progress, n: nat)
    requires w.cfg.Valid() && n + 1 < |out|
    requires next.turn == p.turn + 1 && next.pacer.anchor == AnchorAt(w, out, p, 1)
    requires next.pacer.lastWarn == LastWarnAt(w, out, p, 1)
    ensures WarnedAt(w, out[1..], next, n) <==> WarnedAt(w, out, p, n + 1)
    ensures LagAt(w, out[1..], next, n) == LagAt(w, out, p, n + 1)
    ensures LastWarnAt(w, out[1..], next, n) == LastWarnAt(w, out, p, n + 1)
  {
    BefellShift(w, out, p, next, n, Cancelled);
    hide DueAt, LagAt;
    if n > 0 { WarnedShift(w, out, p, next, n - 1); }
  }

  lemma PeakShift(w: World, out: seq<Tagged>, p: Progress, next: Progress, m: nat, peak: nat)
    requires w.cfg.Valid() && out != []
    requires next.turn == p.turn + 1 && next.pacer.anchor == AnchorAt(w, out, p, 1)
    requires next.pacer.lastWarn == LastWarnAt(w, out, p, 1)
    requires next.lagMax == if WarnedAt(w, out, p, 0) then Max(p.lagMax, LagAt(w, out, p, 0)) else p.lagMax
    requires IsPeak(w, out[1..], next, m, peak)
    ensures IsPeak(w, out, p, m + 1, peak)
  {
    forall k: nat | k + 1 < |out|
      ensures WarnedAt(w, out[1..], next, k) <==> WarnedAt(w, out, p, k + 1)
      ensures LagAt(w, out[1..], next, k) == LagAt(w, out, p, k + 1)
    {
      WarnedShift(w, out, p, next, k);
    }
    hide WarnedAt, LagAt;
    forall k: nat | k < m + 1 && WarnedAt(w, out, p, k) ensures LagAt(w, out, p, k) <= peak {
      if k > 0 { assert WarnedAt(w, out[1..], next, k - 1); }
    }
    if peak != p.lagMax {
      if peak == next.lagMax {
        assert WarnedAt(w, out, p, 0) && LagAt(w, out, p, 0) == peak;
      } else {
        var k: nat :| k < m && WarnedAt(w, out[1..], next, k) && LagAt(w, out[1..], next, k) == peak;
        assert WarnedAt(w, out, p, k + 1) && LagAt(w, out, p, k + 1) == peak;
      }
    }
  }

  /** A pass reports the worst lag of the messages it warned about, among those
      that got through in time. */
  lemma {:induction false} PeakIsReported(w: World, out: seq<Tagged>, failed: bool, p: Progress)
    requires w.cfg.Valid()
    ensures var end := Pump(w, out, failed, p).progress;
      && end.emitted >= p.emitted
      && IsPeak(w, out, p, end.emitted - p.emitted, end.lagMax)
    decreases |out|
  {
    if out != [] {
      AttemptInTime(w, out, p);
      AttemptWarns(w, out, p);
      var (next, exit) := Attempt(w, out[0], p);
      hide Attempt, InTime, WarnedAt, LagAt, LastWarnAt;
      if exit.None? {
        PeakIsReported(w, out[1..], failed, next);
        var end := Pump(w, out[1..], failed, next).progress;
        PeakShift(w, out, p, next, end.emitted - next.emitted, end.lagMax);
      }
    }
  }

  // ----- what the next pass starts from -----

  lemma LastWarnShift(w: World, out: seq<Tagged>, p: Progress, next: Progress, n: nat)
    requires w.cfg.Valid() && n < |out|
    requires next.turn == p.turn + 1 && next.pacer.anchor == AnchorAt(w, out, p, 1)
    requires next.pacer.lastWarn == LastWarnAt(w, out, p, 1)
    ensures LastWarnAt(w, out[1..], next, n) == LastWarnAt(w, out, p, n + 1)
  {
    if n > 0 { WarnedShift(w, out, p, next, n - 1); }
    hide WarnedAt;
  }

  /** A pass that runs to its end leaves the anchor it found, or that of its first
      stamped message, and the last warning. */
  lemma {:induction false} PacerIsLeft(w: World, out: seq<Tagged>, failed: bool, p: Progress)
    requires w.cfg.Valid() && Pump(w, out, failed, p).exit == Drained
    ensures var ps := Pump(w, out, failed, p).progress.pacer;
      ps.anchor == AnchorAt(w, out, p, |out|) && ps.lastWarn == LastWarnAt(w, out, p, |out|)
    decreases |out|
  {
    if out != [] {
      AttemptInTime(w, out, p);
      AttemptWarns(w, out, p);
      var next := Attempt(w, out[0], p).0;
      hide Attempt, InTime, AnchorAt, LastWarnAt;
      PacerIsLeft(w, out[1..], failed, next);
      AnchorShift(w, out, p, next, |out| - 1);
      LastWarnShift(w, out, p, next, |out| - 1);
    }
  }
}
