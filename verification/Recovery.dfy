/** Starting again over what is on disk: the slot a lane resumes from, and which
    of the messages that then arrive are recorded. */
module Recovery {
  import opened Core
  import opened Arith
  import opened Updates
  import opened Recorder
  import opened Conservation
  import opened Idle
  import opened Faithful

  /** The slot range a sidecar's file name carries. A chunk sealed under another
      chunk size keeps the range it was sealed with. */
  datatype Stem = Stem(start: nat, end: nat)

  /** The highest end among the sealed chunks' names, if there is one. */
  ghost predicate IsResume(sealed: set<Stem>, resume: Option<nat>) {
    && (resume.None? <==> sealed == {})
    && (resume.Some? ==> exists s :: s in sealed && resume.value == s.end)
    && (resume.Some? ==> forall s :: s in sealed ==> s.end <= resume.value)
  }

  method LatestSealedEnd(sealed: set<Stem>) returns (maxEnd: Option<nat>)
    ensures IsResume(sealed, maxEnd)
  {
    maxEnd := None;
    var rest := sealed;
    while rest != {}
      invariant rest <= sealed && IsResume(sealed - rest, maxEnd)
      decreases rest
    {
      var s :| s in rest;
      NextEnd(sealed - rest, maxEnd, s);
      maxEnd := Some(if maxEnd.None? || maxEnd.value < s.end then s.end else maxEnd.value);
      assert sealed - (rest - {s}) == (sealed - rest) + {s};
      rest := rest - {s};
    }
    assert sealed - {} == sealed;
  }

  lemma NextEnd(seen: set<Stem>, maxEnd: Option<nat>, s: Stem)
    requires IsResume(seen, maxEnd)
    ensures IsResume(seen + {s}, Some(if maxEnd.None? || maxEnd.value < s.end then s.end else maxEnd.value))
  {
    if maxEnd.Some? && maxEnd.value >= s.end {
      var k :| k in seen && maxEnd.value == k.end;
      assert k in seen + {s};
    } else {
      assert s in seen + {s};
    }
  }

  /** No slot from the resume slot on belongs to a sealed chunk. */
  lemma ResumeIsPastSealed(sealed: set<Stem>, resume: Option<nat>, slot: nat)
    requires IsResume(sealed, resume) && (resume.Some? ==> slot >= resume.value)
    ensures forall s :: s in sealed ==> !(s.start <= slot < s.end)
  {
  }

  /** Every sealed range the recorder would run into has its sidecar listed. */
  ghost predicate Listed(cfg: WriterConfig, base: State, sealed: set<Stem>) {
    forall i :: i in base.disk ==> Stem(i * cfg.slotsPerChunk, i * cfg.slotsPerChunk + cfg.slotsPerChunk) in sealed
  }

  lemma ResumeIsFree(cfg: WriterConfig, base: State, sealed: set<Stem>, resume: Option<nat>, slot: nat)
    requires cfg.Valid() && IsResume(sealed, resume) && (resume.Some? ==> slot >= resume.value)
    requires Listed(cfg, base, sealed)
    ensures Bucket(cfg, slot) !in base.disk
  {
    DivBounds(slot, cfg.slotsPerChunk);
    ResumeIsPastSealed(sealed, resume, slot);
    var i := Bucket(cfg, slot);
    var stem := Stem(i * cfg.slotsPerChunk, i * cfg.slotsPerChunk + cfg.slotsPerChunk);
    assert stem.start <= slot < stem.end;
    hide Bucket, IsResume;
    assert stem !in sealed;
  }

  // ----- a run over old chunks is a run from scratch beside them -----

  /** The state of a fresh run, over what was on disk before. */
  function Over(st: State, base: State): State {
    State(st.open, base.disk + st.disk, base.orphans, st.watermark)
  }

  lemma OverSeal(base: State, st: State, i: nat, reason: SealReason)
    requires i in st.open
    ensures Seal(Over(st, base), i, reason) == Over(Seal(st, i, reason), base)
  {
    var x := SealedRec(st.open[i].recs, reason);
    assert (base.disk + st.disk)[i := x] == base.disk + st.disk[i := x];
  }

  lemma {:induction false} OverCapSeal(cfg: WriterConfig, base: State, st: State)
    requires cfg.Valid()
    ensures CapSeal(cfg, Over(st, base)) == Over(CapSeal(cfg, st), base)
    decreases |st.open|
  {
    if |st.open| >= cfg.maxOpen && st.open.Keys != {} {
      var oldest := MinOf(st.open.Keys);
      FewerOpen(st.open, oldest);
      OverSeal(base, st, oldest, CapReached);
      OverCapSeal(cfg, base, Seal(st, oldest, CapReached));
    }
  }

  lemma {:induction false} CapSealOrphans(cfg: WriterConfig, st: State)
    requires cfg.Valid()
    ensures CapSeal(cfg, st).orphans == st.orphans
    decreases |st.open|
  {
    if |st.open| >= cfg.maxOpen && st.open.Keys != {} {
      FewerOpen(st.open, MinOf(st.open.Keys));
      CapSealOrphans(cfg, Seal(st, MinOf(st.open.Keys), CapReached));
    }
  }

  lemma OverAccommodate(cfg: WriterConfig, base: State, st: State, i: nat, now: nat)
    requires cfg.Valid() && st.orphans == {} && !Taken(base, i)
    ensures Accommodate(cfg, Over(st, base), i, now) == Over(Accommodate(cfg, st, i, now), base)
    ensures Accommodate(cfg, st, i, now).orphans == {}
  {
    if i !in st.open {
      OverCapSeal(cfg, base, st);
      CapSealOrphans(cfg, st);
      hide CapSeal;
      OverOpen(base, CapSeal(cfg, st), i, now);
    }
  }

  lemma OverOpen(base: State, st: State, i: nat, now: nat)
    requires st.orphans == {} && !Taken(base, i)
    ensures OpenChunkAt(Over(st, base), i, now) == Over(OpenChunkAt(st, i, now), base)
  {
  }

  lemma OverSealAll(base: State, st: State, ids: set<nat>, reason: SealReason)
    requires ids <= st.open.Keys
    ensures SealAll(Over(st, base), ids, reason) == Over(SealAll(st, ids, reason), base)
  {
    var more := map i | i in ids :: SealedRec(st.open[i].recs, reason);
    assert (base.disk + st.disk) + more == base.disk + (st.disk + more);
  }

  lemma OverKept(cfg: WriterConfig, base: State, st: State, r: Rec, watermark: nat, now: nat)
    requires cfg.Valid() && st.orphans == {} && !Taken(base, Bucket(cfg, r.slot))
    ensures Kept(cfg, Over(st, base), r, watermark, now) == Over(Kept(cfg, st, r, watermark, now), base)
    ensures Kept(cfg, st, r, watermark, now).orphans == {}
  {
    hide Bucket, Taken, Accommodate;
    var i := Bucket(cfg, r.slot);
    OverAccommodate(cfg, base, st, i, now);
    var stored := Append(Accommodate(cfg, st, i, now), i, r, now);
    assert Append(Over(Accommodate(cfg, st, i, now), base), i, r, now) == Over(stored, base);
    assert Overdue(cfg, Over(stored, base), watermark) == Overdue(cfg, stored, watermark);
    hide Append;
    OverSealAll(base, stored, Overdue(cfg, stored, watermark), Watermark);
  }

  /** A message for a free range does the same beside old chunks. */
  lemma OverIngest(cfg: WriterConfig, base: State, st: State, r: Rec, now: nat)
    requires cfg.Valid() && st.orphans == {} && !Taken(base, Bucket(cfg, r.slot))
    ensures Ingest(cfg, Over(st, base), r, now) == Over(Ingest(cfg, st, r, now), base)
    ensures Ingest(cfg, st, r, now).orphans == {}
    ensures Accepts(cfg, Over(st, base), r) <==> Accepts(cfg, st, r)
  {
    var marked := st.(watermark := Some(Raised(st, r.slot)));
    OverKept(cfg, base, marked, r, Raised(st, r.slot), now);
    assert Raised(Over(st, base), r.slot) == Raised(st, r.slot);
    hide Kept, Bucket, Raised;
    assert Over(st, base).(watermark := marked.watermark) == Over(marked, base);
  }

  /** Every arrival is for a range that is free on disk. */
  ghost predicate AllFree(cfg: WriterConfig, base: State, es: seq<Event>)
    requires cfg.Valid()
  {
    forall n :: 0 <= n < |es| && es[n].Arrive? ==> !Taken(base, Bucket(cfg, es[n].rec.slot))
  }

  /** So does any event. */
  lemma OverStep(cfg: WriterConfig, base: State, st: State, e: Event)
    requires cfg.Valid() && st.orphans == {}
    requires e.Arrive? ==> !Taken(base, Bucket(cfg, e.rec.slot))
    ensures NextState(cfg, Over(st, base), e) == Over(NextState(cfg, st, e), base)
    ensures NextState(cfg, st, e).orphans == {}
  {
    hide Ingest, Bucket, Taken;
    match e
    case Arrive(r, at) => OverIngest(cfg, base, st, r, at);
    case TickAt(at) =>
      assert Stale(Over(st, base), at) == Stale(st, at);
      OverSealAll(base, st, Stale(st, at), Shutdown);
    case ShutDown => OverSealAll(base, st, st.open.Keys, Shutdown);
  }

  /** Messages for free ranges, ticks and stops: a run over old chunks is a fresh
      run beside them. */
  lemma {:induction false} OverRun(cfg: WriterConfig, base: State, es: seq<Event>, i: nat)
    requires cfg.Valid() && Started(base) && AllFree(cfg, base, es)
    ensures Run(cfg, base, es) == Over(Run(cfg, EMPTY, es), base) && Run(cfg, EMPTY, es).orphans == {}
    ensures AcceptedInto(cfg, base, es, i) == AcceptedInto(cfg, EMPTY, es, i)
  {
    if es == [] {
      assert base.disk + map[] == base.disk;
    } else {
      var n := |es| - 1;
      assert es[n].Arrive? ==> !Taken(base, Bucket(cfg, es[n].rec.slot));
      assert AllFree(cfg, base, es[..n]) by {
        assert forall k :: 0 <= k < n ==> es[..n][k] == es[k];
      }
      OverRun(cfg, base, es[..n], i);
      hide Ingest, Over, Accepts, Bucket, Taken, NextState;
      OverStep(cfg, base, Run(cfg, EMPTY, es[..n]), es[n]);
      if es[n].Arrive? { OverIngest(cfg, base, Run(cfg, EMPTY, es[..n]), es[n].rec, es[n].at); }
    }
  }

  /** A range whose payload was stranded accepts nothing, ever. */
  lemma {:induction false} StrandedAcceptsNothing(cfg: WriterConfig, base: State, es: seq<Event>, i: nat)
    requires cfg.Valid() && Started(base) && i in base.orphans
    ensures AcceptedInto(cfg, base, es, i) == []
  {
    if es != [] {
      var n := |es| - 1;
      StrandedAcceptsNothing(cfg, base, es[..n], i);
      RunKeepsNear(cfg, base, es[..n], 0);
      assert es[..n][..0] == [];
      assert Run(cfg, base, []) == base;
      hide Run, Bucket;
      assert i in Run(cfg, base, es[..n]).orphans;
    }
  }

  /** Resuming at the reported slot, with messages in slot order and ticks: what a
      fresh recorder would keep is recorded if and only if no message is for a
      range whose payload was stranded. Sealed ranges never get in the way. */
  lemma ResumeKeepsExactly(
      cfg: WriterConfig, base: State, sealed: set<Stem>, resume: Option<nat>, es: seq<Event>)
    requires cfg.Valid() && Started(base) && Listed(cfg, base, sealed) && IsResume(sealed, resume)
    requires NoStop(es) && SlotsRise(es)
    requires resume.Some? ==> forall n :: 0 <= n < |es| && es[n].Arrive? ==> es[n].rec.slot >= resume.value
    ensures (forall i :: AcceptedInto(cfg, base, es, i) == ArrivalsOf(cfg, Heard(cfg, es), i))
      <==> (forall n :: 0 <= n < |es| && es[n].Arrive? ==> Bucket(cfg, es[n].rec.slot) !in base.orphans)
  {
    hide AcceptedInto, ArrivalsOf, Bucket, IsResume, SlotsRise, Listed, Heard, NoStop;
    if n :| 0 <= n < |es| && es[n].Arrive? && Bucket(cfg, es[n].rec.slot) in base.orphans {
      var i := Bucket(cfg, es[n].rec.slot);
      StrandedAcceptsNothing(cfg, base, es, i);
      RangeIsHeard(cfg, es, n);
      assert AcceptedInto(cfg, base, es, i) != ArrivalsOf(cfg, Heard(cfg, es), i);
    } else {
      forall n | 0 <= n < |es| && es[n].Arrive? ensures !Taken(base, Bucket(cfg, es[n].rec.slot)) {
        ResumeIsFree(cfg, base, sealed, resume, es[n].rec.slot);
      }
      forall i: nat ensures AcceptedInto(cfg, base, es, i) == ArrivalsOf(cfg, Heard(cfg, es), i) {
        OverRun(cfg, base, es, i);
        AcceptedIsHeard(cfg, es, i);
      }
    }
  }
}
