/** Wall-clock pacing of a replay. Times are nanoseconds; the speed is the
    positive rational `speedNum / speedDen`. */
module Pacing {
  import opened Core
  import opened Arith

  datatype PacingConfig = PacingConfig(enabled: bool, speedNum: nat, speedDen: nat, lagWarn: nat, lagDrop: nat) {
    predicate Valid() {
      speedNum > 0 && speedDen > 0
    }
  }

  /** The source time and the instant the first stamped message was due. */
  datatype Anchor = Anchor(source: nat, real_: nat)

  datatype PacerState = PacerState(anchor: Option<Anchor>, lastWarn: Option<nat>)

  datatype LagAction = LagOk | LagWarn(lag: nat) | LagDrop(lag: nat)

  const WARN_INTERVAL: nat := 10_000_000_000

  const FRESH: PacerState := PacerState(None, None)

  function Scaled(cfg: PacingConfig, delta: nat): nat
    requires cfg.Valid()
  {
    delta * cfg.speedDen / cfg.speedNum
  }

  function SaturatingSub(a: nat, b: nat): nat {
    if a < b then 0 else a - b
  }

  function TargetOf(cfg: PacingConfig, anchor: Anchor, source: nat): nat
    requires cfg.Valid()
  {
    anchor.real_ + Scaled(cfg, SaturatingSub(source, anchor.source))
  }

  /** When a message is due, and the pacer afterwards. */
  function TargetAt(cfg: PacingConfig, ps: PacerState, source: Option<nat>, now: nat): (nat, PacerState)
    requires cfg.Valid()
  {
    if !cfg.enabled || source.None? then (now, ps)
    else if ps.anchor.None? then (now, ps.(anchor := Some(Anchor(source.value, now))))
    else (TargetOf(cfg, ps.anchor.value, source.value), ps)
  }

  /** The verdict after a message was sent, and the pacer afterwards. */
  function ObserveAt(cfg: PacingConfig, ps: PacerState, target: nat, now: nat): (LagAction, PacerState) {
    if !cfg.enabled || now <= target then (LagOk, ps)
    else
      var lag := now - target;
      if lag >= cfg.lagDrop then (LagDrop(lag), ps)
      else if lag >= cfg.lagWarn
              && (ps.lastWarn.None? || SaturatingSub(now, ps.lastWarn.value) > WARN_INTERVAL) then
        (LagWarn(lag), ps.(lastWarn := Some(now)))
      else (LagOk, ps)
  }

  class Pacer {
    const cfg: PacingConfig
    var anchor: Option<Anchor>
    var lastWarn: Option<nat>

    ghost function State(): PacerState
      reads this
    {
      PacerState(anchor, lastWarn)
    }

    constructor (cfg: PacingConfig)
      ensures this.cfg == cfg && State() == FRESH
    {
      this.cfg := cfg;
      anchor, lastWarn := None, None;
    }

    method Target(source: Option<nat>, now: nat) returns (target: nat)
      requires cfg.Valid()
      modifies this
      ensures (target, State()) == TargetAt(cfg, old(State()), source, now)
    {
      if !cfg.enabled {
        return now;
      }
      if source.None? {
        return now;
      }
      match anchor
      case None =>
        anchor := Some(Anchor(source.value, now));
        target := now;
      case Some(a) =>
        var delta := if source.value < a.source then 0 else source.value - a.source;
        target := a.real_ + delta * cfg.speedDen / cfg.speedNum;
    }

    method ObserveEmit(target: nat, now: nat) returns (action: LagAction)
      modifies this
      ensures (action, State()) == ObserveAt(cfg, old(State()), target, now)
    {
      if !cfg.enabled {
        return LagOk;
      }
      if now <= target {
        return LagOk;
      }
      var lag := now - target;
      if lag >= cfg.lagDrop {
        return LagDrop(lag);
      }
      if lag >= cfg.lagWarn {
        var shouldWarn := lastWarn.None? || (now > lastWarn.value && now - lastWarn.value > WARN_INTERVAL);
        if shouldWarn {
          lastWarn := Some(now);
          return LagWarn(lag);
        }
      }
      return LagOk;
    }
  }

  /** Due times never run backwards in source time, and miss the exact scaled
      time by less than a nanosecond. */
  lemma TargetsTrackSource(cfg: PacingConfig, anchor: Anchor, a: nat, b: nat)
    requires cfg.Valid() && a <= b
    ensures TargetOf(cfg, anchor, a) <= TargetOf(cfg, anchor, b)
    ensures anchor.source <= a ==>
      var wait := TargetOf(cfg, anchor, a) - anchor.real_;
      wait * cfg.speedNum <= (a - anchor.source) * cfg.speedDen < (wait + 1) * cfg.speedNum
  {
    var x, y := SaturatingSub(a, anchor.source), SaturatingSub(b, anchor.source);
    MulMono(x, y, cfg.speedDen);
    DivMono(x * cfg.speedDen, y * cfg.speedDen, cfg.speedNum);
    DivBounds(x * cfg.speedDen, cfg.speedNum);
  }

  // ----- whole connections -----

  datatype Call = AskTarget(source: Option<nat>, at: nat) | Observe(target: nat, at: nat)

  function AfterCall(cfg: PacingConfig, ps: PacerState, call: Call): PacerState
    requires cfg.Valid()
  {
    match call
    case AskTarget(source, at) => TargetAt(cfg, ps, source, at).1
    case Observe(target, at) => ObserveAt(cfg, ps, target, at).1
  }

  function RunCalls(cfg: PacingConfig, ps: PacerState, calls: seq<Call>): PacerState
    requires cfg.Valid()
  {
    if calls == [] then ps
    else AfterCall(cfg, RunCalls(cfg, ps, calls[..|calls| - 1]), calls[|calls| - 1])
  }

  /** Once set, the anchor survives every later call, whatever the clock does. */
  lemma {:induction false} AnchorSticks(cfg: PacingConfig, ps: PacerState, calls: seq<Call>)
    requires cfg.Valid() && ps.anchor.Some?
    ensures RunCalls(cfg, ps, calls).anchor == ps.anchor
  {
    if calls != [] { AnchorSticks(cfg, ps, calls[..|calls| - 1]); }
  }

  function VerdictAt(cfg: PacingConfig, ps: PacerState, calls: seq<Call>, i: nat): LagAction
    requires cfg.Valid() && i < |calls| && calls[i].Observe?
  {
    ObserveAt(cfg, RunCalls(cfg, ps, calls[..i]), calls[i].target, calls[i].at).0
  }

  lemma {:induction false} LastWarnIsKept(cfg: PacingConfig, ps: PacerState, calls: seq<Call>, i: nat)
    requires cfg.Valid() && i < |calls| && calls[i].Observe? && VerdictAt(cfg, ps, calls, i).LagWarn?
    requires forall a, b :: 0 <= a < b < |calls| ==> calls[a].at <= calls[b].at
    ensures var last := RunCalls(cfg, ps, calls).lastWarn; last.Some? && last.value >= calls[i].at
  {
    var n := |calls| - 1;
    if i < n {
      assert calls[..n][..i] == calls[..i];
      LastWarnIsKept(cfg, ps, calls[..n], i);
    }
  }

  /** With a clock that never runs backwards, warnings are more than ten seconds
      apart. */
  lemma WarningsAreSpaced(cfg: PacingConfig, ps: PacerState, calls: seq<Call>, i: nat, j: nat)
    requires cfg.Valid() && i < j < |calls| && calls[i].Observe? && calls[j].Observe?
    requires forall a, b :: 0 <= a < b < |calls| ==> calls[a].at <= calls[b].at
    requires VerdictAt(cfg, ps, calls, i).LagWarn? && VerdictAt(cfg, ps, calls, j).LagWarn?
    ensures calls[j].at > calls[i].at + 10_000_000_000
  {
    assert calls[..j][..i] == calls[..i];
    LastWarnIsKept(cfg, ps, calls[..j], i);
  }

  ghost predicate WarnedOf(cfg: PacingConfig, calls: seq<Call>, i: nat)
    requires cfg.Valid()
  {
    i < |calls| && calls[i].Observe? && VerdictAt(cfg, FRESH, calls, i).LagWarn?
  }

  /** The last warning a pacer remembers was given. */
  lemma {:induction false} LastWarnWasGiven(cfg: PacingConfig, calls: seq<Call>) returns (i: nat)
    requires cfg.Valid() && RunCalls(cfg, FRESH, calls).lastWarn.Some?
    ensures WarnedOf(cfg, calls, i) && RunCalls(cfg, FRESH, calls).lastWarn == Some(calls[i].at)
  {
    var n := |calls| - 1;
    assert calls[..n][..n] == calls[..n];
    if calls[n].Observe? && VerdictAt(cfg, FRESH, calls, n).LagWarn? {
      i := n;
    } else {
      i := LastWarnWasGiven(cfg, calls[..n]);
      assert calls[..n][..i] == calls[..i];
    }
  }

  /** Of a connection's pacer, with a clock that never runs backwards: a message
      is warned about exactly when it is late enough, not so late as to be dropped,
      and no warning was given in the ten seconds before. */
  lemma WarnsExactly(cfg: PacingConfig, calls: seq<Call>, j: nat)
    requires cfg.Valid() && j < |calls| && calls[j].Observe?
    requires forall a, b :: 0 <= a < b < |calls| ==> calls[a].at <= calls[b].at
    ensures WarnedOf(cfg, calls, j)
      <==> && cfg.enabled && calls[j].at > calls[j].target
           && cfg.lagWarn <= calls[j].at - calls[j].target < cfg.lagDrop
           && forall i :: 0 <= i < j && WarnedOf(cfg, calls, i) ==> calls[j].at > calls[i].at + 10_000_000_000
  {
    var before := calls[..j];
    hide RunCalls, VerdictAt;
    VerdictIs(cfg, calls, j);
    forall i | 0 <= i < j && WarnedOf(cfg, calls, i)
      ensures var last := RunCalls(cfg, FRESH, before).lastWarn; last.Some? && last.value >= calls[i].at
    {
      WarnedBefore(cfg, calls, j, i);
      LastWarnIsKept(cfg, FRESH, before, i);
    }
    if RunCalls(cfg, FRESH, before).lastWarn.Some? {
      var i := LastWarnWasGiven(cfg, before);
      WarnedBefore(cfg, calls, j, i);
    }
  }

  lemma VerdictIs(cfg: PacingConfig, calls: seq<Call>, j: nat)
    requires cfg.Valid() && j < |calls| && calls[j].Observe?
    ensures VerdictAt(cfg, FRESH, calls, j)
      == ObserveAt(cfg, RunCalls(cfg, FRESH, calls[..j]), calls[j].target, calls[j].at).0
  {
  }

  lemma WarnedBefore(cfg: PacingConfig, calls: seq<Call>, j: nat, i: nat)
    requires cfg.Valid() && i < j <= |calls|
    ensures WarnedOf(cfg, calls[..j], i) <==> WarnedOf(cfg, calls, i)
  {
    assert calls[..j][..i] == calls[..i];
  }
}
