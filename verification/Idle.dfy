/** What idle seals cost: a message that comes in slot order is lost exactly if a
    tick has found its range idle before. */
module Idle {
  import opened Updates
  import opened Recorder
  import opened Conservation

  // ----- the messages a recorder in slot order keeps -----

  /** The updates of all messages, in order. */
  function Arrived(es: seq<Event>): seq<Update> {
    if es == [] then []
    else
      var n := |es| - 1;
      if es[n].Arrive? then Arrived(es[..n]) + [es[n].rec.update] else Arrived(es[..n])
  }

  lemma {:induction false} HeardAreMessages(cfg: WriterConfig, es: seq<Event>)
    requires cfg.Valid()
    ensures OnlyArrivals(Heard(cfg, es)) && forall e :: e in Heard(cfg, es) ==> e in es
  {
    if es != [] {
      HeardAreMessages(cfg, es[..|es| - 1]);
      HeardNext(cfg, es);
      hide Heard, Due;
    }
  }

  lemma {:induction false} HeardRise(cfg: WriterConfig, es: seq<Event>)
    requires cfg.Valid() && SlotsRise(es)
    ensures OnlyArrivals(Heard(cfg, es)) && SlotsRise(Heard(cfg, es))
  {
    HeardAreMessages(cfg, es);
    if es != [] {
      var n := |es| - 1;
      var before, after := Heard(cfg, es[..n]), Heard(cfg, es);
      HeardRise(cfg, es[..n]);
      HeardAreMessages(cfg, es[..n]);
      HeardNext(cfg, es);
      hide Heard, Due;
      forall i, j | 0 <= i < j < |after| ensures after[i].rec.slot <= after[j].rec.slot {
        if j == |before| {
          assert before[i] in es[..n];
          var k :| 0 <= k < n && es[..n][k] == before[i];
          assert es[k] == before[i];
        }
      }
    }
  }

  lemma PlainIsDue(cfg: WriterConfig, es: seq<Event>)
    requires cfg.Valid() && OnlyArrivals(es) && SlotsRise(es) && es != []
    ensures Due(cfg, es, |es| - 1) && OnlyArrivals(es[..|es| - 1]) && SlotsRise(es[..|es| - 1])
  {
    var n := |es| - 1;
    FirstRise(es, n);
    RisingIsTimely(cfg, es);
    assert OnlyArrivals(es[..n]);
    NoTickNoIdle(cfg, es[..n], Bucket(cfg, es[n].rec.slot));
    hide Idled, WithinOf, Bucket, SlotsRise, TimelyWithin;
  }

  /** Without ticks all of a stream in slot order is kept. */
  lemma {:induction false} PlainIsHeard(cfg: WriterConfig, es: seq<Event>)
    requires cfg.Valid() && OnlyArrivals(es) && SlotsRise(es)
    ensures Heard(cfg, es) == es
  {
    if es != [] {
      var n := |es| - 1;
      PlainIsDue(cfg, es);
      PlainIsHeard(cfg, es[..n]);
      HeardNext(cfg, es);
      hide Heard, Due, SlotsRise, OnlyArrivals;
      assert es == es[..n] + [es[n]];
    }
  }

  // ----- when a range is found idle -----

  /** A message for the range of `m`, the last there was when tick `k` came too
      late after it. */
  ghost predicate FoundIdle(cfg: WriterConfig, es: seq<Event>, m: nat, k: nat)
    requires cfg.Valid()
  {
    && m < k < |es| && es[m].Arrive? && es[k].TickAt?
    && es[k].at > es[m].at + 300_000_000_000
    && forall j :: m < j < k && es[j].Arrive? ==> Bucket(cfg, es[j].rec.slot) != Bucket(cfg, es[m].rec.slot)
  }

  /** A message, too late a tick, and another message for the same range. */
  ghost predicate IdleGap(cfg: WriterConfig, es: seq<Event>, m: nat, k: nat, n: nat)
    requires cfg.Valid()
  {
    && FoundIdle(cfg, es, m, k) && k < n < |es| && es[n].Arrive?
    && Bucket(cfg, es[n].rec.slot) == Bucket(cfg, es[m].rec.slot)
  }

  ghost predicate IsLast(cfg: WriterConfig, es: seq<Event>, i: nat, m: nat)
    requires cfg.Valid()
  {
    && m < |es| && es[m].Arrive? && Bucket(cfg, es[m].rec.slot) == i
    && forall j :: m < j < |es| && es[j].Arrive? ==> Bucket(cfg, es[j].rec.slot) != i
  }

  lemma FirstRise(es: seq<Event>, n: nat)
    requires SlotsRise(es) && n <= |es|
    ensures SlotsRise(es[..n]) && (NoStop(es) ==> NoStop(es[..n]))
  {
  }

  lemma {:induction false} LastAtMeans(cfg: WriterConfig, es: seq<Event>, i: nat)
    requires cfg.Valid() && SlotsRise(es)
    ensures LastAt(cfg, es, i).Some? ==> exists m: nat :: IsLast(cfg, es, i, m) && es[m].at == LastAt(cfg, es, i).value
    ensures LastAt(cfg, es, i).None? ==> forall m :: 0 <= m < |es| && es[m].Arrive? ==> Bucket(cfg, es[m].rec.slot) != i
  {
    if es != [] {
      var n := |es| - 1;
      RisingIsTimely(cfg, es);
      FirstRise(es, n);
      LastAtMeans(cfg, es[..n], i);
      hide Bucket, WithinOf, SlotsRise;
      assert forall k :: 0 <= k < n ==> es[..n][k] == es[k];
      if es[n].Arrive? && Bucket(cfg, es[n].rec.slot) == i {
        assert IsLast(cfg, es, i, n);
      } else if LastAt(cfg, es, i).Some? {
        var m: nat :| IsLast(cfg, es[..n], i, m) && es[..n][m].at == LastAt(cfg, es, i).value;
        assert IsLast(cfg, es, i, m);
      }
    }
  }

  lemma OneLast(cfg: WriterConfig, es: seq<Event>, i: nat, a: nat, b: nat)
    requires cfg.Valid() && IsLast(cfg, es, i, a) && IsLast(cfg, es, i, b)
    ensures a == b
  {
    hide Bucket;
  }

  lemma IdleHere(cfg: WriterConfig, es: seq<Event>, i: nat)
    requires cfg.Valid() && SlotsRise(es) && es != []
    ensures IdlesNow(cfg, es, i)
      <==> exists m: nat :: 0 <= m < |es| && FoundIdle(cfg, es, m, |es| - 1) && Bucket(cfg, es[m].rec.slot) == i
  {
    var n := |es| - 1;
    FirstRise(es, n);
    LastAtMeans(cfg, es[..n], i);
    hide Bucket, LastAt, SlotsRise;
    assert forall k :: 0 <= k < n ==> es[..n][k] == es[k];
    if IdlesNow(cfg, es, i) {
      var m: nat :| IsLast(cfg, es[..n], i, m) && es[..n][m].at == LastAt(cfg, es[..n], i).value;
      assert FoundIdle(cfg, es, m, n);
    }
    if m: nat :| 0 <= m < |es| && FoundIdle(cfg, es, m, n) && Bucket(cfg, es[m].rec.slot) == i {
      assert IsLast(cfg, es[..n], i, m);
      var a: nat :| IsLast(cfg, es[..n], i, a) && es[..n][a].at == LastAt(cfg, es[..n], i).value;
      OneLast(cfg, es[..n], i, a, m);
    }
  }

  lemma {:induction false} IdledMeans(cfg: WriterConfig, es: seq<Event>, i: nat)
    requires cfg.Valid() && SlotsRise(es)
    ensures Idled(cfg, es, i) <==> exists m: nat, k: nat :: FoundIdle(cfg, es, m, k) && Bucket(cfg, es[m].rec.slot) == i
  {
    if es != [] {
      var n := |es| - 1;
      FirstRise(es, n);
      IdledMeans(cfg, es[..n], i);
      IdleHere(cfg, es, i);
      hide Bucket, IdlesNow, SlotsRise;
      forall m: nat, k: nat | k < n ensures FoundIdle(cfg, es, m, k) <==> FoundIdle(cfg, es[..n], m, k) {
        SameBefore(cfg, es, n, m, k);
      }
      if Idled(cfg, es[..n], i) {
        var m: nat, k: nat :| FoundIdle(cfg, es[..n], m, k) && Bucket(cfg, es[..n][m].rec.slot) == i;
        assert FoundIdle(cfg, es, m, k);
      } else if IdlesNow(cfg, es, i) {
        var m: nat :| 0 <= m < |es| && FoundIdle(cfg, es, m, n) && Bucket(cfg, es[m].rec.slot) == i;
      }
      if m: nat, k: nat :| FoundIdle(cfg, es, m, k) && Bucket(cfg, es[m].rec.slot) == i {
        if k < n { assert FoundIdle(cfg, es[..n], m, k); } else { assert k == n; }
      }
    }
  }

  lemma SameBefore(cfg: WriterConfig, es: seq<Event>, n: nat, m: nat, k: nat)
    requires cfg.Valid() && k < n <= |es|
    ensures FoundIdle(cfg, es, m, k) <==> FoundIdle(cfg, es[..n], m, k)
  {
    hide Bucket;
    assert forall j :: 0 <= j < n ==> es[..n][j] == es[j];
  }

  // ----- exactly when a message is lost -----

  /** How much of a range is not heard. */
  lemma {:induction false} HeardCounts(cfg: WriterConfig, es: seq<Event>, i: nat)
    requires cfg.Valid()
    ensures |ArrivalsOf(cfg, Heard(cfg, es), i)| <= |ArrivalsOf(cfg, es, i)|
    ensures (forall n :: 0 <= n < |es| && es[n].Arrive? && Bucket(cfg, es[n].rec.slot) == i ==> Due(cfg, es, n))
      ==> ArrivalsOf(cfg, Heard(cfg, es), i) == ArrivalsOf(cfg, es, i)
    ensures (exists n :: 0 <= n < |es| && es[n].Arrive? && Bucket(cfg, es[n].rec.slot) == i && !Due(cfg, es, n))
      ==> |ArrivalsOf(cfg, Heard(cfg, es), i)| < |ArrivalsOf(cfg, es, i)|
  {
    if es != [] {
      var n := |es| - 1;
      HeardCounts(cfg, es[..n], i);
      HeardStep(cfg, es, i);
      DueIsMessage(cfg, es, n);
      forall k | 0 <= k < n ensures Due(cfg, es[..n], k) <==> Due(cfg, es, k) {
        DueBefore(cfg, es, n, k);
      }
      hide Heard, Due, Bucket;
      assert forall k :: 0 <= k < n ==> es[..n][k] == es[k];
    }
  }

  lemma DueIsMessage(cfg: WriterConfig, es: seq<Event>, n: nat)
    requires cfg.Valid() && n < |es|
    ensures Due(cfg, es, n) ==> es[n].Arrive?
  {
    hide Bucket, Idled;
  }

  lemma DueBefore(cfg: WriterConfig, es: seq<Event>, m: nat, k: nat)
    requires cfg.Valid() && k < m <= |es|
    ensures Due(cfg, es[..m], k) <==> Due(cfg, es, k)
  {
    assert es[..m][..k + 1] == es[..k + 1] && es[..m][..k] == es[..k] && es[..m][k] == es[k];
    hide Bucket, Idled, HighWater;
  }

  /** In slot order a message is lost exactly if it closes an idle gap. */
  lemma DueExactly(cfg: WriterConfig, es: seq<Event>, n: nat)
    requires cfg.Valid() && SlotsRise(es) && n < |es| && es[n].Arrive?
    ensures !Due(cfg, es, n) <==> exists m: nat, k: nat :: IdleGap(cfg, es, m, k, n)
  {
    RisingIsTimely(cfg, es);
    FirstRise(es, n);
    var i := Bucket(cfg, es[n].rec.slot);
    IdledMeans(cfg, es[..n], i);
    hide Bucket, Idled, WithinOf, SlotsRise;
    forall m: nat, k: nat | k < n ensures FoundIdle(cfg, es, m, k) <==> FoundIdle(cfg, es[..n], m, k) {
      SameBefore(cfg, es, n, m, k);
    }
    if !Due(cfg, es, n) {
      var m: nat, k: nat :| FoundIdle(cfg, es[..n], m, k) && Bucket(cfg, es[..n][m].rec.slot) == i;
      assert es[..n][m] == es[m];
      assert IdleGap(cfg, es, m, k, n);
    }
    if m: nat, k: nat :| IdleGap(cfg, es, m, k, n) {
      assert FoundIdle(cfg, es[..n], m, k) && es[..n][m] == es[m];
    }
  }

  /** Every message of the run is kept. */
  ghost predicate KeepsAll(cfg: WriterConfig, es: seq<Event>)
    requires cfg.Valid()
  {
    forall i :: FramesOf(Run(cfg, EMPTY, es), i) == ArrivalsOf(cfg, es, i)
  }

  ghost predicate NoIdleGap(cfg: WriterConfig, es: seq<Event>)
    requires cfg.Valid()
  {
    forall m: nat, k: nat, n: nat :: !IdleGap(cfg, es, m, k, n)
  }

  /** Messages in slot order, and ticks whenever: under every configuration all
      messages are kept exactly if no message comes for a range after a tick that
      was more than the threshold past the last message there. */
  lemma RisingLosesExactly(cfg: WriterConfig, es: seq<Event>)
    requires cfg.Valid() && NoStop(es) && SlotsRise(es)
    ensures KeepsAll(cfg, es) <==> NoIdleGap(cfg, es)
  {
    hide Run, Heard, Due, FramesOf, ArrivalsOf, IdleGap, SlotsRise, Bucket;
    forall i: nat ensures FramesOf(Run(cfg, EMPTY, es), i) == ArrivalsOf(cfg, Heard(cfg, es), i) {
      RisingIsKept(cfg, es, i);
    }
    forall n | 0 <= n < |es| && es[n].Arrive?
      ensures !Due(cfg, es, n) <==> exists m: nat, k: nat :: IdleGap(cfg, es, m, k, n)
    {
      DueExactly(cfg, es, n);
    }
    if NoIdleGap(cfg, es) {
      forall i: nat ensures FramesOf(Run(cfg, EMPTY, es), i) == ArrivalsOf(cfg, es, i) {
        HeardCounts(cfg, es, i);
      }
    } else {
      var m: nat, k: nat, n: nat :| IdleGap(cfg, es, m, k, n);
      GapIsMessage(cfg, es, m, k, n);
      HeardCounts(cfg, es, Bucket(cfg, es[n].rec.slot));
    }
  }

  lemma GapIsMessage(cfg: WriterConfig, es: seq<Event>, m: nat, k: nat, n: nat)
    requires cfg.Valid() && IdleGap(cfg, es, m, k, n)
    ensures n < |es| && es[n].Arrive?
  {
    hide Bucket;
  }

  lemma {:induction false} ArrivedCounts(cfg: WriterConfig, es: seq<Event>)
    requires cfg.Valid()
    ensures |Arrived(Heard(cfg, es))| <= |Arrived(es)|
    ensures (forall n :: 0 <= n < |es| && es[n].Arrive? ==> Due(cfg, es, n)) ==> Arrived(Heard(cfg, es)) == Arrived(es)
    ensures (exists n :: 0 <= n < |es| && es[n].Arrive? && !Due(cfg, es, n))
      ==> |Arrived(Heard(cfg, es))| < |Arrived(es)|
  {
    if es != [] {
      var n := |es| - 1;
      ArrivedCounts(cfg, es[..n]);
      HeardNext(cfg, es);
      Snoc(Heard(cfg, es[..n]), es[n]);
      forall k | 0 <= k < n ensures Due(cfg, es[..n], k) <==> Due(cfg, es, k) {
        DueBefore(cfg, es, n, k);
      }
      hide Heard, Due, Bucket;
      assert forall k :: 0 <= k < n ==> es[..n][k] == es[k];
    }
  }

  /** What is kept is all that arrived under the same condition. */
  lemma HeardAllExactly(cfg: WriterConfig, es: seq<Event>)
    requires cfg.Valid() && SlotsRise(es)
    ensures Arrived(Heard(cfg, es)) == Arrived(es) <==> NoIdleGap(cfg, es)
    ensures |Arrived(Heard(cfg, es))| <= |Arrived(es)|
  {
    hide Heard, Due, Arrived, IdleGap, SlotsRise;
    ArrivedCounts(cfg, es);
    forall n | 0 <= n < |es| && es[n].Arrive?
      ensures !Due(cfg, es, n) <==> exists m: nat, k: nat :: IdleGap(cfg, es, m, k, n)
    {
      DueExactly(cfg, es, n);
    }
    if !NoIdleGap(cfg, es) {
      var m: nat, k: nat, n: nat :| IdleGap(cfg, es, m, k, n);
      GapIsMessage(cfg, es, m, k, n);
    }
  }

  /** A pause longer than the threshold, a tick, and the next message for the
      same range is lost, although it comes in slot order. */
  lemma PauseLosesTheNext(cfg: WriterConfig, a: Rec, b: Rec, pause: nat)
    requires cfg.Valid() && a.slot <= b.slot && Bucket(cfg, a.slot) == Bucket(cfg, b.slot) && pause > 300_000_000_000
    ensures var es := [Arrive(a, 0), TickAt(pause), Arrive(b, pause)];
      && NoStop(es) && SlotsRise(es)
      && FramesOf(Run(cfg, EMPTY, es), Bucket(cfg, a.slot)) == [a] && Arrived(es) == [a.update, b.update]
  {
    var es := [Arrive(a, 0), TickAt(pause), Arrive(b, pause)];
    var i := Bucket(cfg, a.slot);
    var two, one := es[..2], es[..1];
    assert es[..3] == es && two[..1] == one && one[..0] == [];
    hide Bucket;
    assert IdleGap(cfg, es, 0, 1, 2);
    DueExactly(cfg, es, 2);
    DueExactly(cfg, es, 0);
    FirstIsDue(cfg, es);
    RisingIsKept(cfg, es, i);
    DueBefore(cfg, es, 1, 0);
    hide Due, Heard, ArrivalsOf, FramesOf, Run, SlotsRise, IdleGap;
    HeardStep(cfg, es, i);
    HeardStep(cfg, two, i);
    DueIsMessage(cfg, two, 1);
    HeardStep(cfg, one, i);
    NothingHeard(cfg, i);
    assert Arrived(one) == [] + [a.update] && Arrived(two) == Arrived(one);
  }

  lemma FirstIsDue(cfg: WriterConfig, es: seq<Event>)
    requires cfg.Valid() && SlotsRise(es) && es != [] && es[0].Arrive?
    ensures Due(cfg, es, 0)
  {
    DueExactly(cfg, es, 0);
    hide Due, Bucket;
  }

  lemma NothingHeard(cfg: WriterConfig, i: nat)
    requires cfg.Valid()
    ensures ArrivalsOf(cfg, Heard(cfg, []), i) == []
  {
  }

  /** A range with any message is heard of. */
  lemma {:induction false} RangeIsHeard(cfg: WriterConfig, es: seq<Event>, n: nat)
    requires cfg.Valid() && SlotsRise(es) && n < |es| && es[n].Arrive?
    ensures ArrivalsOf(cfg, Heard(cfg, es), Bucket(cfg, es[n].rec.slot)) != []
  {
    var i, m := Bucket(cfg, es[n].rec.slot), |es| - 1;
    FirstRise(es, m);
    HeardStep(cfg, es, i);
    DueIsMessage(cfg, es, m);
    hide Heard, ArrivalsOf, Bucket, SlotsRise, IdleGap;
    if n < m {
      assert es[..m][n] == es[n];
      RangeIsHeard(cfg, es[..m], n);
    } else if !Due(cfg, es, n) {
      hide Due;
      DueExactly(cfg, es, n);
      var l: nat, k: nat :| IdleGap(cfg, es, l, k, n);
      GapStart(cfg, es, l, k, n);
      assert es[..m][l] == es[l];
      RangeIsHeard(cfg, es[..m], l);
    }
  }

  lemma GapStart(cfg: WriterConfig, es: seq<Event>, l: nat, k: nat, n: nat)
    requires cfg.Valid() && IdleGap(cfg, es, l, k, n)
    ensures l < n < |es| && es[l].Arrive? && es[n].Arrive?
    ensures Bucket(cfg, es[l].rec.slot) == Bucket(cfg, es[n].rec.slot)
  {
    hide Bucket;
  }
}
