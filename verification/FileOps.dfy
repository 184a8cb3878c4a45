/** The file operations of the recorder, the uploader and the sweeps, step by
    step on the directory and the bucket, each a run of lifecycle actions. */
module FileOps {
  import opened Lifecycle

  function PutPrefix(outcomes: nat -> PutOutcome, k: nat): seq<Action> {
    if k == 0 then [] else PutPrefix(outcomes, k - 1) + [PutStep(outcomes(k - 1))]
  }

  /** A whole upload: three PUTs, then the marker written and renamed. */
  function UploadActions(outcomes: nat -> PutOutcome): seq<Action> {
    PutPrefix(outcomes, 3) + [MarkStep] + [MarkStep]
  }

  function SweepPrefix(removed: nat -> bool, k: nat): seq<Action> {
    if k == 0 then [] else SweepPrefix(removed, k - 1) + [SweepStep(removed(k - 1))]
  }

  const SEAL_ACTIONS: seq<Action> := [SealStep] + [SealStep] + [SealStep] + [SealStep] + [SealStep] + [SealStep]

  lemma RunLast(s: RangeState, acts: seq<Action>, a: Action)
    ensures RunFiles(s, acts + [a]) == Apply(RunFiles(s, acts), a)
  {
    hide Apply;
    assert (acts + [a])[..|acts|] == acts;
  }

  lemma RunNone(s: RangeState, outcomes: nat -> PutOutcome, removed: nat -> bool)
    ensures RunFiles(s, []) == RunFiles(s, PutPrefix(outcomes, 0)) == RunFiles(s, SweepPrefix(removed, 0)) == s
  {
  }

  /** With the uploader at rest, the rest of an upload does nothing. */
  lemma {:induction false} UploadStops(s: RangeState, outcomes: nat -> PutOutcome, i: nat, k: nat)
    requires i <= k && RunFiles(s, PutPrefix(outcomes, i)).uploader.Resting?
    ensures RunFiles(s, PutPrefix(outcomes, k)) == RunFiles(s, PutPrefix(outcomes, i))
  {
    if i < k {
      UploadStops(s, outcomes, i, k - 1);
      RunLast(s, PutPrefix(outcomes, k - 1), PutStep(outcomes(k - 1)));
    }
  }

  lemma MarkingDoesNothing(s: RangeState)
    requires s.uploader.Resting?
    ensures Apply(s, MarkStep) == s
  {
  }

  lemma UploadEnds(s: RangeState, outcomes: nat -> PutOutcome)
    ensures RunFiles(s, UploadActions(outcomes))
      == Apply(Apply(RunFiles(s, PutPrefix(outcomes, 3)), MarkStep), MarkStep)
  {
    hide Apply, PutPrefix, RunFiles;
    RunLast(s, PutPrefix(outcomes, 3), MarkStep);
    RunLast(s, PutPrefix(outcomes, 3) + [MarkStep], MarkStep);
  }

  /** One PUT, on the uploader's side. */
  lemma PutTurn(s: RangeState, outcomes: nat -> PutOutcome, i: nat)
    requires i < 3
    ensures var t := RunFiles(s, PutPrefix(outcomes, i)); t.up && t.uploader == Putting(i) ==>
      var next := RunFiles(s, PutPrefix(outcomes, i + 1));
      var ext := EXTS[i];
      && next.local == t.local && next.up
      && (Final(ext) !in t.local ==> next.remote == t.remote && next.uploader == Resting)
      && (Final(ext) in t.local ==>
            next.remote == (if outcomes(i).PutLost? then t.remote else t.remote[ext := t.local[Final(ext)]])
            && next.uploader
              == if !outcomes(i).PutOk? then Resting else if i < 2 then Putting(i + 1) else Marking(false))
  {
    RunLast(s, PutPrefix(outcomes, i), PutStep(outcomes(i)));
    hide RunFiles;
  }

  lemma UploadCutShort(s: RangeState, outcomes: nat -> PutOutcome, i: nat)
    requires i <= 3 && RunFiles(s, PutPrefix(outcomes, i)).uploader.Resting?
    ensures RunFiles(s, UploadActions(outcomes)) == RunFiles(s, PutPrefix(outcomes, i))
  {
    UploadStops(s, outcomes, i, 3);
    UploadEnds(s, outcomes);
    hide RunFiles, Apply, PutPrefix, UploadActions;
    MarkingDoesNothing(RunFiles(s, PutPrefix(outcomes, 3)));
  }

  lemma MarkedAtLast(s: RangeState)
    requires s.up && s.uploader == Marking(false)
    ensures var end := Apply(Apply(s, MarkStep), MarkStep);
      && end.remote == s.remote && end.uploader == Resting
      && end.local == Rename(s.local[MarkerPartial := 0], MarkerPartial, Marker) && Marker in end.local
  {
  }

  lemma SweepTurn(s: RangeState, removed: nat -> bool, k: nat)
    requires k < 4
    ensures var t := RunFiles(s, SweepPrefix(removed, k)); t.up && t.uploader == Sweeping(k) ==>
      var next := RunFiles(s, SweepPrefix(removed, k + 1));
      && next.remote == t.remote && next.up
      && next.local == (if removed(k) then t.local - {SweptFile(k)} else t.local)
      && next.uploader == if k < 3 then Sweeping(k + 1) else Resting
  {
    RunLast(s, SweepPrefix(removed, k), SweepStep(removed(k)));
    hide RunFiles;
  }

  // ----- what an upload and a sweep leave -----

  /** Payload, index, sidecar: the order of the PUTs and of the unlinks. */
  function PlaceOf(ext: Ext): nat {
    match ext
    case Zst => 0
    case Idx => 1
    case Meta => 2
  }

  /** The file is there and its PUT is heard to succeed. */
  predicate PutsOne(local: map<File, nat>, outcomes: nat -> PutOutcome, ext: Ext) {
    Final(ext) in local && outcomes(PlaceOf(ext)).PutOk?
  }

  predicate PutsAll(local: map<File, nat>, outcomes: nat -> PutOutcome) {
    PutsOne(local, outcomes, Zst) && PutsOne(local, outcomes, Idx) && PutsOne(local, outcomes, Meta)
  }

  /** The file is there and its PUT arrives, heard of or not. */
  predicate Stores(local: map<File, nat>, outcomes: nat -> PutOutcome, ext: Ext) {
    Final(ext) in local && !outcomes(PlaceOf(ext)).PutLost?
  }

  /** The object is the local file now, or what it was before. */
  predicate StoredAs(
      before: map<Ext, nat>, after: map<Ext, nat>, local: map<File, nat>, ext: Ext, stored: bool)
  {
    if stored then Final(ext) in local && ext in after && after[ext] == local[Final(ext)]
    else (ext in after <==> ext in before) && (ext in after ==> after[ext] == before[ext])
  }

  /** The marker goes last. */
  function TurnOf(f: File): nat {
    match f
    case Final(ext) => PlaceOf(ext)
    case Marker => 3
    case _ => 4
  }

  predicate Unlinks(removed: nat -> bool, f: File) {
    TurnOf(f) < 4 && removed(TurnOf(f))
  }

  /** One range's files, here and in the bucket. */
  class Files {
    var local: map<File, nat>
    var remote: map<Ext, nat>

    constructor ()
      ensures local == map[] && remote == map[]
    {
      local, remote := map[], map[];
    }

    ghost predicate Are(s: RangeState)
      reads this
    {
      local == s.local && remote == s.remote
    }

    method RenameFile(from: File, to: File)
      requires from in local
      modifies this
      ensures local == Rename(old(local), from, to) && remote == old(remote)
    {
      var content := local[from];
      local := local - {from};
      local := local[to := content];
    }

    /** Seal the open range, a first time or again: every file complete before the
        sidecar appears. */
    method SealRange(g: nat, ghost s: RangeState)
      requires Are(s) && s.up && s.recorder == Open(g) && Holds(s.local, Partial(Zst), g)
      modifies this
      ensures Are(RunFiles(s, SEAL_ACTIONS)) && LocalTrio(RunFiles(s, SEAL_ACTIONS), g)
        && g in RunFiles(s, SEAL_ACTIONS).sealed
      ensures remote == old(remote)
      ensures forall f: File :: f in local <==> f.Final? || (f in old(local) && !f.Partial?)
      ensures forall f: File :: f in local && !f.Final? ==> local[f] == old(local)[f]
    {
      SealTurns(s);
      hide RunFiles, SEAL_ACTIONS;
      local := local[Partial(Meta) := g];
      RenameFile(Partial(Zst), Final(Zst));
      local := local[Partial(Idx) := g];
      RenameFile(Partial(Idx), Final(Idx));
      RenameFile(Partial(Meta), Final(Meta));
      assert Final(Zst) in local && Final(Idx) in local && Final(Meta) in local;
      assert Partial(Zst) !in local && Partial(Idx) !in local && Partial(Meta) !in local;
      forall f: File ensures f in local <==> f.Final? || (f in old(local) && !f.Partial?) {
        if f.Final? || f.Partial? { assert f.ext == Zst || f.ext == Idx || f.ext == Meta; }
      }
    }

    /** One PUT; a missing file or a reported failure ends the upload. */
    method PutOne(ext: Ext, outcome: PutOutcome) returns (ok: bool)
      modifies this
      ensures local == old(local) && (ok <==> Final(ext) in local && outcome.PutOk?)
      ensures remote
        == if Final(ext) in local && !outcome.PutLost? then old(remote)[ext := local[Final(ext)]] else old(remote)
    {
      if Final(ext) !in local {
        return false;
      }
      if !outcome.PutLost? {
        remote := remote[ext := local[Final(ext)]];
      }
      return outcome.PutOk?;
    }

    /** An empty file, then its final name. */
    method MarkUploaded()
      modifies this
      ensures local == Rename(old(local)[MarkerPartial := 0], MarkerPartial, Marker) && remote == old(remote)
    {
      local := local[MarkerPartial := 0];
      RenameFile(MarkerPartial, Marker);
    }

    /** Upload the three files in order, the sidecar last, then mark the range.
        The first PUT that fails ends the attempt. */
    method UploadChunk(outcomes: nat -> PutOutcome, ghost s: RangeState) returns (ok: bool)
      requires Are(s) && s.up && s.uploader == Putting(0)
      modifies this
      ensures Are(RunFiles(s, UploadActions(outcomes))) && RunFiles(s, UploadActions(outcomes)).uploader == Resting
      ensures ok <==> PutsAll(old(local), outcomes)
      ensures local == if ok then (old(local) - {MarkerPartial})[Marker := 0] else old(local)
      ensures StoredAs(old(remote), remote, local, Zst, Stores(local, outcomes, Zst))
      ensures StoredAs(
        old(remote), remote, local, Idx, PutsOne(local, outcomes, Zst) && Stores(local, outcomes, Idx))
      ensures StoredAs(
        old(remote), remote, local, Meta,
        PutsOne(local, outcomes, Zst) && PutsOne(local, outcomes, Idx) && Stores(local, outcomes, Meta))
    {
      hide RunFiles, PutPrefix, UploadActions, Apply;
      RunNone(s, outcomes, n => true);
      ghost var at := s;
      for i := 0 to 3
        invariant at == RunFiles(s, PutPrefix(outcomes, i)) && Are(at) && at.up
        invariant at.uploader == if i < 3 then Putting(i) else Marking(false)
        invariant local == old(local)
        invariant (i >= 1 ==> PutsOne(local, outcomes, Zst)) && (i >= 2 ==> PutsOne(local, outcomes, Idx))
        invariant i >= 3 ==> PutsOne(local, outcomes, Meta)
        invariant StoredAs(old(remote), remote, local, Zst, i >= 1)
        invariant StoredAs(old(remote), remote, local, Idx, i >= 2)
        invariant StoredAs(old(remote), remote, local, Meta, i >= 3)
      {
        PutTurn(s, outcomes, i);
        at := RunFiles(s, PutPrefix(outcomes, i + 1));
        var put := PutOne(EXTS[i], outcomes(i));
        if !put {
          UploadCutShort(s, outcomes, i + 1);
          return false;
        }
      }
      UploadEnds(s, outcomes);
      MarkedAtLast(at);
      MarkUploaded();
      return true;
    }

    /** Evict an uploaded range: payload, index, sidecar, then the marker; a file
        that cannot be unlinked is passed over. */
    method SweepRange(removed: nat -> bool, ghost s: RangeState)
      requires Are(s) && s.up && s.uploader == Sweeping(0)
      modifies this
      ensures Are(RunFiles(s, SweepPrefix(removed, 4))) && RunFiles(s, SweepPrefix(removed, 4)).uploader == Resting
      ensures remote == old(remote)
      ensures forall f: File :: f in local <==> f in old(local) && !Unlinks(removed, f)
      ensures forall f :: f in local ==> local[f] == old(local)[f]
    {
      hide RunFiles, SweepPrefix;
      RunNone(s, n => PutOk, removed);
      ghost var at := s;
      for k := 0 to 4
        invariant at == RunFiles(s, SweepPrefix(removed, k)) && Are(at) && at.up
        invariant at.uploader == if k < 4 then Sweeping(k) else Resting
        invariant remote == old(remote)
        invariant forall f: File :: f in local <==> f in old(local) && !(Unlinks(removed, f) && TurnOf(f) < k)
        invariant forall f :: f in local ==> local[f] == old(local)[f]
      {
        SweepTurn(s, removed, k);
        at := RunFiles(s, SweepPrefix(removed, k + 1));
        if removed(k) {
          local := local - {SweptFile(k)};
        }
      }
    }

    /** Startup: remove the half-written files a crash left; nothing else. */
    method SweepPartials(stuck: set<File>) returns (count: nat)
      modifies this
      ensures remote == old(remote)
      ensures local == map f | f in old(local) && (f.Final? || f.Marker? || f in stuck) :: old(local)[f]
      ensures count == |old(local).Keys| - |local.Keys|
    {
      count := 0;
      var rest := local.Keys;
      ghost var was := local;
      while rest != {}
        invariant rest <= was.Keys && rest <= local.Keys <= was.Keys
        invariant forall f :: f in local ==> local[f] == was[f]
        invariant forall f :: f in was && f !in rest ==> (f in local <==> f.Final? || f.Marker? || f in stuck)
        invariant count == |was.Keys| - |local.Keys| && remote == old(remote)
        decreases rest
      {
        var f :| f in rest;
        rest := rest - {f};
        if (f.Partial? || f.MarkerPartial?) && f !in stuck {
          assert (local - {f}).Keys == local.Keys - {f};
          local := local - {f};
          count := count + 1;
        }
      }
    }
  }

  /** Six sealing steps in a row. */
  lemma SealTurns(s: RangeState)
    requires s.up && s.recorder.Open? && Holds(s.local, Partial(Zst), s.recorder.gen)
    ensures var g, end := s.recorder.gen, RunFiles(s, SEAL_ACTIONS);
      && end.remote == s.remote && end.sealed == s.sealed + {g} && end.recorder.Closed?
      && end.local == Sealed(s.local, g)
      && LocalTrio(end, g)
  {
    var g := s.recorder.gen;
    var l1 := s.local[Partial(Meta) := g];
    var l2 := Rename(l1, Partial(Zst), Final(Zst));
    var l3 := l2[Partial(Idx) := g];
    var l4 := Rename(l3, Partial(Idx), Final(Idx));
    var s0 := s.(recorder := Sealing(g, 0));
    var s2 := s.(local := l2, recorder := Sealing(g, 2));
    var s4 := s.(local := l4, recorder := Sealing(g, 4));
    assert Apply(s, SealStep) == s0;
    assert Apply(Apply(s0, SealStep), SealStep) == s2;
    assert Apply(Apply(s2, SealStep), SealStep) == s4;
    hide RunFiles, SEAL_ACTIONS;
    SixSteps(s);
  }

  lemma SixSteps(s: RangeState)
    ensures RunFiles(s, SEAL_ACTIONS)
      == Apply(Apply(Apply(Apply(Apply(Apply(s, SealStep), SealStep), SealStep), SealStep), SealStep), SealStep)
  {
    hide RunFiles, Apply;
    RunNone(s, n => PutOk, n => true);
    RunLast(s, [], SealStep);
    assert [] + [SealStep] == [SealStep];
    RunLast(s, [SealStep], SealStep);
    RunLast(s, [SealStep] + [SealStep], SealStep);
    RunLast(s, [SealStep] + [SealStep] + [SealStep], SealStep);
    RunLast(s, [SealStep] + [SealStep] + [SealStep] + [SealStep], SealStep);
    RunLast(s, [SealStep] + [SealStep] + [SealStep] + [SealStep] + [SealStep], SealStep);
  }

  /** The directory after publishing payload, index and sidecar. */
  function Sealed(local: map<File, nat>, g: nat): map<File, nat> {
    var a := Rename(local[Partial(Meta) := g], Partial(Zst), Final(Zst));
    var b := Rename(a[Partial(Idx) := g], Partial(Idx), Final(Idx));
    Rename(b, Partial(Meta), Final(Meta))
  }
}
