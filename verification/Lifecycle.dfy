/** The files of one chunk range from opening to eviction, one micro-step per
    file write, rename, PUT and unlink, with crashes and restarts in between. */
module Lifecycle {

  datatype Ext = Zst | Idx | Meta

  /** The order both the uploader and the sweeps go through the files. */
  const EXTS: seq<Ext> := [Zst, Idx, Meta]

  datatype File = Final(ext: Ext) | Partial(ext: Ext) | Marker | MarkerPartial

  /** How far the recorder is with the range; `done` counts sealing steps. */
  datatype Recording = Closed | Open(gen: nat) | Sealing(gen: nat, done: nat)

  datatype Uploading = Resting | Putting(done: nat) | Marking(created: bool) | Sweeping(done: nat)

  /** Files hold the generation of the chunk that wrote them: each time a range
      is opened is a new one. `sealed` and `evicted` are history. */
  datatype RangeState = RangeState(
    up: bool, local: map<File, nat>, remote: map<Ext, nat>, recorder: Recording, uploader: Uploading,
    nextGen: nat, sealed: set<nat>, evicted: bool)

  const START: RangeState := RangeState(true, map[], map[], Closed, Resting, 0, {}, false)

  /** A PUT can be lost, and it can be stored although it reports failure. */
  datatype PutOutcome = PutOk | PutLost | PutStoredUnheard

  datatype Action =
    | OpenRange
    | SealStep
    | StartUpload
    | PutStep(outcome: PutOutcome)
    | MarkStep
    | StartSweep
    | SweepStep(removed: bool)
    | Crash
    | RecoverStep(file: File)
    | Restart

  // ----- the steps -----

  function Rename(local: map<File, nat>, from: File, to: File): map<File, nat> {
    if from in local then (local - {from})[to := local[from]] else local
  }

  /** A range is free when neither its payload nor its sidecar is there. */
  predicate Free(s: RangeState) {
    Final(Zst) !in s.local && Final(Meta) !in s.local
  }

  function OpenAt(s: RangeState): RangeState {
    if s.recorder.Closed? && Free(s) then
      s.(local := s.local[Partial(Zst) := s.nextGen], recorder := Open(s.nextGen), nextGen := s.nextGen + 1)
    else s
  }

  /** Finish the payload; write the sidecar; publish the payload; write the
      index; publish it; publish the sidecar. */
  function SealOn(s: RangeState): RangeState {
    match s.recorder
    case Closed => s
    case Open(g) => s.(recorder := Sealing(g, 0))
    case Sealing(g, done) =>
      if done == 0 then s.(local := s.local[Partial(Meta) := g], recorder := Sealing(g, 1))
      else if done == 1 then s.(local := Rename(s.local, Partial(Zst), Final(Zst)), recorder := Sealing(g, 2))
      else if done == 2 then s.(local := s.local[Partial(Idx) := g], recorder := Sealing(g, 3))
      else if done == 3 then s.(local := Rename(s.local, Partial(Idx), Final(Idx)), recorder := Sealing(g, 4))
      else s.(
        local := Rename(s.local, Partial(Meta), Final(Meta)), recorder := Closed, sealed := s.sealed + {g})
  }

  /** The scan takes a range with a sidecar and without a marker. */
  function UploadFrom(s: RangeState): RangeState {
    if s.uploader.Resting? && Final(Meta) in s.local && Marker !in s.local then s.(uploader := Putting(0)) else s
  }

  function PutOn(s: RangeState, outcome: PutOutcome): RangeState {
    if !s.uploader.Putting? || s.uploader.done >= 3 then s
    else
      var ext := EXTS[s.uploader.done];
      if Final(ext) !in s.local then s.(uploader := Resting)
      else
        var stored := if outcome.PutLost? then s else s.(remote := s.remote[ext := s.local[Final(ext)]]);
        if !outcome.PutOk? then stored.(uploader := Resting)
        else if s.uploader.done < 2 then stored.(uploader := Putting(s.uploader.done + 1))
        else stored.(uploader := Marking(false))
  }

  function MarkOn(s: RangeState): RangeState {
    if !s.uploader.Marking? then s
    else if !s.uploader.created then s.(local := s.local[MarkerPartial := 0], uploader := Marking(true))
    else s.(local := Rename(s.local, MarkerPartial, Marker), uploader := Resting)
  }

  function SweepFrom(s: RangeState): RangeState {
    if s.uploader.Resting? && Marker in s.local then s.(uploader := Sweeping(0), evicted := true) else s
  }

  function SweptFile(k: nat): File {
    if k < 3 then Final(EXTS[k]) else Marker
  }

  /** A failed unlink is skipped over. */
  function SweepOn(s: RangeState, removed: bool): RangeState {
    if !s.uploader.Sweeping? then s
    else
      var k := s.uploader.done;
      var after := if removed then s.(local := s.local - {SweptFile(k)}) else s;
      after.(uploader := if k < 3 then Sweeping(k + 1) else Resting)
  }

  /** A crash keeps the files and forgets everything else. */
  function Crashed(s: RangeState): RangeState {
    s.(up := false, recorder := Closed, uploader := Resting)
  }

  function RecoverOn(s: RangeState, file: File): RangeState {
    if file.Partial? || file.MarkerPartial? then s.(local := s.local - {file}) else s
  }

  /** An action that is not enabled changes nothing. */
  function Apply(s: RangeState, a: Action): RangeState {
    if a.Crash? then Crashed(s)
    else if a.RecoverStep? then if s.up then s else RecoverOn(s, a.file)
    else if a.Restart? then s.(up := true)
    else if !s.up then s
    else
      match a
      case OpenRange => OpenAt(s)
      case SealStep => SealOn(s)
      case StartUpload => UploadFrom(s)
      case PutStep(outcome) => PutOn(s, outcome)
      case MarkStep => MarkOn(s)
      case StartSweep => SweepFrom(s)
      case SweepStep(removed) => SweepOn(s, removed)
      case _ => s
  }

  function RunFiles(s: RangeState, acts: seq<Action>): RangeState {
    if acts == [] then s else Apply(RunFiles(s, acts[..|acts| - 1]), acts[|acts| - 1])
  }

  // ----- durability -----

  /** No evicted range is opened again. */
  predicate Allowed(s: RangeState, a: Action) {
    a.OpenRange? ==> !s.evicted
  }

  ghost predicate NeverReopens(s: RangeState, acts: seq<Action>) {
    forall n :: 0 <= n < |acts| ==> Allowed(RunFiles(s, acts[..n]), acts[n])
  }

  predicate Holds(local: map<File, nat>, file: File, g: nat) {
    file in local && local[file] == g
  }

  predicate RemoteHas(remote: map<Ext, nat>, ext: Ext, g: nat) {
    ext in remote && remote[ext] == g
  }

  predicate LocalTrio(s: RangeState, g: nat) {
    Holds(s.local, Final(Zst), g) && Holds(s.local, Final(Idx), g) && Holds(s.local, Final(Meta), g)
  }

  predicate RemoteTrio(s: RangeState, g: nat) {
    RemoteHas(s.remote, Zst, g) && RemoteHas(s.remote, Idx, g) && RemoteHas(s.remote, Meta, g)
  }

  /** What durability promises at every step. */
  ghost predicate Durable(s: RangeState) {
    && (forall g :: g in s.sealed ==> LocalTrio(s, g) || RemoteTrio(s, g))
    && (Marker in s.local ==> exists g :: g in s.sealed && RemoteTrio(s, g))
    && (Meta in s.remote ==> exists g :: g in s.sealed && RemoteTrio(s, g))
    && (Idx in s.remote ==> Zst in s.remote)
    && (Final(Meta) in s.local && !s.evicted ==> exists g :: g in s.sealed && LocalTrio(s, g))
  }

  /** Before the range is sealed. */
  predicate Unsealed(s: RangeState) {
    && s.remote == map[] && Marker !in s.local && Final(Meta) !in s.local && s.uploader.Resting? && !s.evicted
    && (!s.up ==> s.recorder.Closed?)
    && (!s.recorder.Closed? ==> s.recorder.gen < s.nextGen)
    && (s.recorder.Open? ==> Partial(Zst) in s.local && s.local[Partial(Zst)] == s.recorder.gen && Free(s))
    && (s.recorder.Sealing? ==> SealingFiles(s, s.recorder.gen, s.recorder.done))
  }

  predicate SealingFiles(s: RangeState, g: nat, done: nat) {
    && done <= 4
    && Holds(s.local, if done < 2 then Partial(Zst) else Final(Zst), g)
    && (done < 2 ==> Final(Zst) !in s.local)
    && (done >= 1 ==> Holds(s.local, Partial(Meta), g))
    && (done == 3 ==> Holds(s.local, Partial(Idx), g))
    && (done == 4 ==> Holds(s.local, Final(Idx), g))
  }

  predicate OnlyLocal(s: RangeState, ext: Ext, g: nat) {
    Final(ext) in s.local ==> s.local[Final(ext)] == g
  }

  predicate OnlyRemote(s: RangeState, ext: Ext, g: nat) {
    ext in s.remote ==> s.remote[ext] == g
  }

  /** From then on: one generation everywhere, complete here until it is
      complete there. */
  predicate SealedAs(s: RangeState, g: nat) {
    && s.sealed == {g} && g < s.nextGen && s.recorder.Closed? && (!s.up ==> s.uploader.Resting?)
    && OnlyLocal(s, Zst, g) && OnlyLocal(s, Idx, g) && OnlyLocal(s, Meta, g)
    && OnlyRemote(s, Zst, g) && OnlyRemote(s, Idx, g) && OnlyRemote(s, Meta, g)
    && (!s.evicted ==> LocalTrio(s, g))
    && (Idx in s.remote ==> Zst in s.remote)
    && (s.evicted || Marker in s.local || s.uploader.Marking? || Meta in s.remote ==> RemoteTrio(s, g))
    && (s.uploader.Putting? ==>
          s.uploader.done <= 2 && (s.uploader.done >= 1 ==> Zst in s.remote)
          && (s.uploader.done >= 2 ==> Idx in s.remote))
    && (s.uploader.Sweeping? ==> s.evicted)
  }

  ghost predicate Inv(s: RangeState) {
    (s.sealed == {} && Unsealed(s)) || exists g :: SealedAs(s, g)
  }

  lemma UnsealedStep(s: RangeState, a: Action)
    requires s.sealed == {} && Unsealed(s)
    ensures Inv(Apply(s, a))
  {
    var next := Apply(s, a);
    if a.SealStep? && s.up && s.recorder.Sealing? && s.recorder.done == 4 {
      assert SealedAs(next, s.recorder.gen);
    } else {
      assert next.sealed == {} && Unsealed(next);
    }
  }

  lemma PutStepKeeps(s: RangeState, g: nat, outcome: PutOutcome)
    requires SealedAs(s, g)
    ensures SealedAs(PutOn(s, outcome), g)
  {
    var next := PutOn(s, outcome);
    assert EXTS[0] == Zst && EXTS[1] == Idx && EXTS[2] == Meta;
  }

  lemma SweepStepKeeps(s: RangeState, g: nat, removed: bool)
    requires SealedAs(s, g)
    ensures SealedAs(SweepOn(s, removed), g)
  {
  }

  lemma SealedStep(s: RangeState, g: nat, a: Action)
    requires SealedAs(s, g) && Allowed(s, a)
    ensures SealedAs(Apply(s, a), g)
  {
    match a
    case PutStep(outcome) => PutStepKeeps(s, g, outcome);
    case SweepStep(removed) => SweepStepKeeps(s, g, removed);
    case OpenRange =>
    case SealStep =>
    case StartUpload =>
    case MarkStep =>
    case StartSweep =>
    case Crash =>
    case RecoverStep(_) =>
    case Restart =>
  }

  lemma StepKeepsInv(s: RangeState, a: Action)
    requires Inv(s) && Allowed(s, a)
    ensures Inv(Apply(s, a))
  {
    hide Apply, Unsealed, SealedAs, Allowed;
    if g :| SealedAs(s, g) {
      SealedStep(s, g, a);
    } else {
      UnsealedStep(s, a);
    }
  }

  lemma {:induction false} RunKeepsInv(s: RangeState, acts: seq<Action>)
    requires Inv(s) && NeverReopens(s, acts)
    ensures Inv(RunFiles(s, acts))
  {
    hide Apply, Inv, Allowed;
    if acts != [] {
      var n := |acts| - 1;
      assert NeverReopens(s, acts[..n]) by {
        forall k | 0 <= k < n ensures Allowed(RunFiles(s, acts[..n][..k]), acts[..n][k]) {
          assert acts[..n][..k] == acts[..k];
          assert Allowed(RunFiles(s, acts[..k]), acts[k]);
        }
      }
      RunKeepsInv(s, acts[..n]);
      StepKeepsInv(RunFiles(s, acts[..n]), acts[n]);
    }
  }

  lemma InvIsDurable(s: RangeState)
    requires Inv(s)
    ensures Durable(s)
  {
    if s.sealed != {} {
      var g :| SealedAs(s, g);
      assert g in s.sealed;
    }
  }

  lemma StartsWell()
    ensures Inv(START)
  {
    assert Unsealed(START);
  }

  /** Whatever the interleaving, whatever fails and whenever it crashes: what
      was ever sealed is whole somewhere, a marker or a remote sidecar means
      the remote trio is whole, and a local sidecar means the local trio is. */
  lemma DurableThroughout(acts: seq<Action>)
    requires NeverReopens(START, acts)
    ensures Durable(RunFiles(START, acts))
  {
    StartsWell();
    hide Inv, RunFiles, NeverReopens, Durable;
    RunKeepsInv(START, acts);
    InvIsDurable(RunFiles(START, acts));
  }

  // ----- reopening an evicted range -----

  lemma {:induction false} RunOn(s: RangeState, first: seq<Action>, rest: seq<Action>)
    ensures RunFiles(s, first + rest) == RunFiles(RunFiles(s, first), rest)
  {
    hide Apply;
    if rest == [] {
      assert first + rest == first;
    } else {
      var n := |rest| - 1;
      RunOn(s, first, rest[..n]);
      assert (first + rest)[..|first + rest| - 1] == first + rest[..n];
    }
  }

  lemma RunFour(s: RangeState, a: Action, b: Action, c: Action, d: Action)
    ensures RunFiles(s, [a, b, c, d]) == Apply(Apply(Apply(Apply(s, a), b), c), d)
  {
    hide Apply;
    RunOne(s, a);
    RunOne(Apply(s, a), b);
    RunOn(s, [a], [b]);
    RunOne(Apply(Apply(s, a), b), c);
    RunOn(s, [a] + [b], [c]);
    RunOne(Apply(Apply(Apply(s, a), b), c), d);
    RunOn(s, [a] + [b] + [c], [d]);
    hide RunFiles;
    assert [a] + [b] + [c] + [d] == [a, b, c, d];
  }

  lemma RunOne(s: RangeState, a: Action)
    ensures RunFiles(s, [a]) == Apply(s, a)
  {
    hide Apply;
    assert [a][..0] == [];
  }

  /** A state with the process up and these files. */
  function With(
      local: map<File, nat>, remote: map<Ext, nat>, recorder: Recording, uploader: Uploading, nextGen: nat,
      sealed: set<nat>, evicted: bool): RangeState
  {
    RangeState(true, local, remote, recorder, uploader, nextGen, sealed, evicted)
  }

  const OPENING: seq<Action> := [OpenRange, SealStep, SealStep, SealStep]
  const SEALING: seq<Action> := [SealStep, SealStep, SealStep, StartUpload]
  const PUTTING: seq<Action> := [PutStep(PutOk), PutStep(PutOk), PutStep(PutOk), MarkStep]
  const SWEEPING: seq<Action> := [MarkStep, StartSweep, SweepStep(true), SweepStep(true)]

  /** Interrupted once the sidecar is gone and before the marker is. */
  const INTERRUPTED: seq<Action> := [SweepStep(true), Crash, Restart, Restart]

  lemma AfterOpening(g: nat, junk: map<File, nat>, remote: map<Ext, nat>, sealed: set<nat>, evicted: bool)
    requires junk.Keys <= {Marker}
    ensures RunFiles(With(junk, remote, Closed, Resting, g, sealed, evicted), OPENING)
      == With(junk[Partial(Meta) := g][Final(Zst) := g], remote, Sealing(g, 2), Resting, g + 1, sealed, evicted)
  {
    var s := With(junk, remote, Closed, Resting, g, sealed, evicted);
    RunFour(s, OpenRange, SealStep, SealStep, SealStep);
    hide RunFiles;
    assert Apply(s, OpenRange) == With(junk[Partial(Zst) := g], remote, Open(g), Resting, g + 1, sealed, evicted);
    assert junk[Partial(Zst) := g][Partial(Meta) := g] - {Partial(Zst)} == junk[Partial(Meta) := g];
  }

  lemma AfterSealing(g: nat, junk: map<File, nat>, remote: map<Ext, nat>, sealed: set<nat>, evicted: bool)
    requires junk.Keys <= {Marker}
    ensures var whole := junk[Final(Zst) := g][Final(Idx) := g][Final(Meta) := g];
      RunFiles(
        With(junk[Partial(Meta) := g][Final(Zst) := g], remote, Sealing(g, 2), Resting, g + 1, sealed, evicted),
        SEALING)
        == With(
          whole, remote, Closed, if Marker in junk then Resting else Putting(0), g + 1, sealed + {g}, evicted)
  {
    var local := junk[Partial(Meta) := g][Final(Zst) := g];
    var whole := junk[Final(Zst) := g][Final(Idx) := g][Final(Meta) := g];
    var s := With(local, remote, Sealing(g, 2), Resting, g + 1, sealed, evicted);
    RunFour(s, SealStep, SealStep, SealStep, StartUpload);
    hide RunFiles;
    var t := With(local[Final(Idx) := g], remote, Sealing(g, 4), Resting, g + 1, sealed, evicted);
    assert local[Partial(Idx) := g] - {Partial(Idx)} == local;
    assert Apply(Apply(s, SealStep), SealStep) == t;
    hide With;
    PublishedLast(g, junk, remote, sealed, evicted);
  }

  lemma PublishedLast(g: nat, junk: map<File, nat>, remote: map<Ext, nat>, sealed: set<nat>, evicted: bool)
    requires junk.Keys <= {Marker}
    ensures var whole := junk[Final(Zst) := g][Final(Idx) := g][Final(Meta) := g];
      var t := With(
        junk[Partial(Meta) := g][Final(Zst) := g][Final(Idx) := g], remote, Sealing(g, 4), Resting,
        g + 1, sealed, evicted);
      Apply(Apply(t, SealStep), StartUpload)
        == With(whole, remote, Closed, if Marker in junk then Resting else Putting(0), g + 1, sealed + {g}, evicted)
  {
    assert junk[Partial(Meta) := g][Final(Zst) := g][Final(Idx) := g] - {Partial(Meta)}
      == junk[Final(Zst) := g][Final(Idx) := g];
  }

  const WHOLE: map<Ext, nat> := map[Zst := 0, Idx := 0, Meta := 0]

  lemma AfterPutting(local: map<File, nat>)
    requires local == map[Final(Zst) := 0, Final(Idx) := 0, Final(Meta) := 0]
    ensures RunFiles(With(local, map[], Closed, Putting(0), 1, {0}, false), PUTTING)
      == With(local[MarkerPartial := 0], WHOLE, Closed, Marking(true), 1, {0}, false)
  {
    var s := With(local, map[], Closed, Putting(0), 1, {0}, false);
    RunFour(s, PutStep(PutOk), PutStep(PutOk), PutStep(PutOk), MarkStep);
    hide RunFiles;
    var t := With(local, map[Zst := 0, Idx := 0], Closed, Putting(2), 1, {0}, false);
    assert Apply(Apply(s, PutStep(PutOk)), PutStep(PutOk)) == t;
    assert Apply(t, PutStep(PutOk)).remote == WHOLE;
  }

  lemma AfterSweeping(local: map<File, nat>)
    requires local == map[Final(Zst) := 0, Final(Idx) := 0, Final(Meta) := 0]
    ensures RunFiles(With(local[MarkerPartial := 0], WHOLE, Closed, Marking(true), 1, {0}, false), SWEEPING)
      == With(map[Final(Meta) := 0, Marker := 0], WHOLE, Closed, Sweeping(2), 1, {0}, true)
  {
    var s := With(local[MarkerPartial := 0], WHOLE, Closed, Marking(true), 1, {0}, false);
    RunFour(s, MarkStep, StartSweep, SweepStep(true), SweepStep(true));
    hide RunFiles;
    var t := With(local[Marker := 0], WHOLE, Closed, Sweeping(0), 1, {0}, true);
    assert local[MarkerPartial := 0] - {MarkerPartial} == local;
    assert Apply(Apply(s, MarkStep), StartSweep) == t;
    hide WHOLE;
    SweptTwice(t, local);
  }

  lemma SweptTwice(t: RangeState, local: map<File, nat>)
    requires local == map[Final(Zst) := 0, Final(Idx) := 0, Final(Meta) := 0]
    requires t == With(local[Marker := 0], WHOLE, Closed, Sweeping(0), 1, {0}, true)
    ensures Apply(Apply(t, SweepStep(true)), SweepStep(true))
      == With(map[Final(Meta) := 0, Marker := 0], WHOLE, Closed, Sweeping(2), 1, {0}, true)
  {
    hide WHOLE;
    assert local[Marker := 0] - {Final(Zst)} - {Final(Idx)} == map[Final(Meta) := 0, Marker := 0];
  }

  lemma AfterInterruption()
    ensures RunFiles(With(map[Final(Meta) := 0, Marker := 0], WHOLE, Closed, Sweeping(2), 1, {0}, true), INTERRUPTED)
      == With(map[Marker := 0], WHOLE, Closed, Resting, 1, {0}, true)
  {
    var s := With(map[Final(Meta) := 0, Marker := 0], WHOLE, Closed, Sweeping(2), 1, {0}, true);
    RunFour(s, SweepStep(true), Crash, Restart, Restart);
    hide RunFiles, WHOLE;
    assert s.local - {Final(Meta)} == map[Marker := 0];
  }

  const FIRST_LIFE: seq<Action> := OPENING + SEALING + PUTTING + SWEEPING + INTERRUPTED
  const LAST_SWEEP: seq<Action> := [StartSweep, SweepStep(true), SweepStep(true), SweepStep(true)]
  const SECOND_LIFE: seq<Action> := OPENING + SEALING + LAST_SWEEP

  lemma OpenedAndSealed(g: nat, junk: map<File, nat>, remote: map<Ext, nat>, sealed: set<nat>, evicted: bool)
    requires junk.Keys <= {Marker}
    ensures RunFiles(With(junk, remote, Closed, Resting, g, sealed, evicted), OPENING + SEALING)
      == With(
        junk[Final(Zst) := g][Final(Idx) := g][Final(Meta) := g], remote, Closed,
        if Marker in junk then Resting else Putting(0), g + 1, sealed + {g}, evicted)
  {
    hide *;
    AfterOpening(g, junk, remote, sealed, evicted);
    AfterSealing(g, junk, remote, sealed, evicted);
    RunOn(With(junk, remote, Closed, Resting, g, sealed, evicted), OPENING, SEALING);
  }

  lemma SealedFirst(local: map<File, nat>)
    requires local == map[Final(Zst) := 0, Final(Idx) := 0, Final(Meta) := 0]
    ensures RunFiles(START, OPENING + SEALING) == With(local, map[], Closed, Putting(0), 1, {0}, false)
  {
    var none: map<File, nat> := map[];
    assert START == With(none, map[], Closed, Resting, 0, {}, false);
    assert none[Final(Zst) := 0][Final(Idx) := 0][Final(Meta) := 0] == local;
    assert {} + {0} == {0};
    hide *;
    OpenedAndSealed(0, none, map[], {}, false);
  }

  lemma FirstLife()
    ensures RunFiles(START, FIRST_LIFE) == With(map[Marker := 0], WHOLE, Closed, Resting, 1, {0}, true)
  {
    hide RunFiles, With, WHOLE, OPENING, SEALING, PUTTING, SWEEPING, INTERRUPTED, START;
    var local: map<File, nat> := map[Final(Zst) := 0, Final(Idx) := 0, Final(Meta) := 0];
    SealedFirst(local);
    AfterPutting(local);
    AfterSweeping(local);
    AfterInterruption();
    RunOn(START, OPENING + SEALING, PUTTING);
    RunOn(START, OPENING + SEALING + PUTTING, SWEEPING);
    RunOn(START, OPENING + SEALING + PUTTING + SWEEPING, INTERRUPTED);
  }

  /** Reopened over the stale marker, the new chunk counts as uploaded. */
  lemma SecondLife()
    ensures var s := RunFiles(With(map[Marker := 0], WHOLE, Closed, Resting, 1, {0}, true), SECOND_LIFE);
      1 in s.sealed && Final(Zst) !in s.local && s.remote == WHOLE
  {
    var junk: map<File, nat> := map[Marker := 0];
    var s := With(junk, WHOLE, Closed, Resting, 1, {0}, true);
    var whole := junk[Final(Zst) := 1][Final(Idx) := 1][Final(Meta) := 1];
    var t := With(whole, WHOLE, Closed, Resting, 2, {0} + {1}, true);
    SweptAway(t);
    assert 1 in {0} + {1};
    hide RunFiles, With, WHOLE, OPENING, SEALING, LAST_SWEEP;
    OpenedAndSealed(1, junk, WHOLE, {0}, true);
    RunOn(s, OPENING + SEALING, LAST_SWEEP);
  }

  lemma SweptAway(t: RangeState)
    requires t.up && t.uploader.Resting? && Marker in t.local
    ensures var s := RunFiles(t, LAST_SWEEP);
      s.sealed == t.sealed && s.remote == t.remote && Final(Zst) !in s.local
  {
    RunFour(t, StartSweep, SweepStep(true), SweepStep(true), SweepStep(true));
    hide RunFiles;
  }

  /** Without the assumption durability fails: a sweep interrupted before it
      removed the marker, then the range opened and sealed again, and the next
      sweep deletes a chunk that was never uploaded. */
  lemma ReopeningLosesData()
    ensures var s := RunFiles(START, FIRST_LIFE + SECOND_LIFE); 1 in s.sealed && !LocalTrio(s, 1) && !RemoteTrio(s, 1)
    ensures !Durable(RunFiles(START, FIRST_LIFE + SECOND_LIFE))
  {
    assert WHOLE[Zst] == 0;
    hide RunFiles, With, WHOLE;
    RunOn(START, FIRST_LIFE, SECOND_LIFE);
    FirstLife();
    SecondLife();
  }

  // ----- a crash in the middle of sealing -----

  /** A payload without a sidecar: nobody lists, uploads or reopens the range. */
  predicate Stranded(s: RangeState) {
    && Final(Zst) in s.local && Final(Meta) !in s.local && Marker !in s.local
    && s.recorder.Closed? && s.uploader.Resting?
  }

  /** Nothing that can happen ever frees a stranded range or saves its messages. */
  lemma {:induction false} StrandedForever(s: RangeState, acts: seq<Action>)
    requires Stranded(s)
    ensures var end := RunFiles(s, acts);
      && Stranded(end) && end.sealed == s.sealed && end.remote == s.remote
      && end.local[Final(Zst)] == s.local[Final(Zst)]
  {
    if acts != [] { StrandedForever(s, acts[..|acts| - 1]); }
  }

  lemma CrashStrands(s: RangeState)
    requires s.up && !s.recorder.Closed? && Inv(s)
    ensures Stranded(Apply(s, Crash)) <==> s.recorder.Sealing? && s.recorder.done >= 2
    ensures Apply(Apply(Apply(s, Crash), Restart), OpenRange).recorder.Open? <==> !Stranded(Apply(s, Crash))
  {
    assert Unsealed(s);
  }

  /** At any moment of any run in which the range is being recorded, a crash
      strands it exactly when it falls after the payload was published and
      before the sidecar was; otherwise the range can be opened again after a
      restart. */
  lemma CrashStrandsExactly(acts: seq<Action>)
    requires NeverReopens(START, acts) && RunFiles(START, acts).up && !RunFiles(START, acts).recorder.Closed?
    ensures var s := RunFiles(START, acts);
      && (Stranded(Apply(s, Crash)) <==> s.recorder.Sealing? && s.recorder.done >= 2)
      && (Apply(Apply(Apply(s, Crash), Restart), OpenRange).recorder.Open? <==> !Stranded(Apply(s, Crash)))
  {
    hide Inv, RunFiles, NeverReopens, Stranded, Apply;
    StartsWell();
    RunKeepsInv(START, acts);
    CrashStrands(RunFiles(START, acts));
  }

  /** Nothing runs that could touch the range. */
  predicate IsDown(s: RangeState) {
    !s.up && s.recorder.Closed? && s.uploader.Resting?
  }

  predicate HalfWritten(f: File) {
    f.Partial? || f.MarkerPartial?
  }

  /** The same but for half-written files that are gone. */
  ghost predicate OnlyTidied(before: RangeState, after: RangeState) {
    && after.remote == before.remote && after.sealed == before.sealed && after.nextGen == before.nextGen
    && (forall f: File :: f in after.local ==> f in before.local && after.local[f] == before.local[f])
    && (forall f: File :: f in before.local && !HalfWritten(f) ==> f in after.local)
  }

  lemma DownStep(s: RangeState, a: Action)
    requires IsDown(s) && !a.Restart?
    ensures IsDown(Apply(s, a)) && OnlyTidied(s, Apply(s, a))
    ensures a.RecoverStep? && HalfWritten(a.file) ==> a.file !in Apply(s, a).local
  {
  }

  /** From a crash to the restart nothing is recorded, uploaded or evicted;
      recovery only removes half-written files. */
  lemma {:induction false} DownUntilRestart(s: RangeState, acts: seq<Action>)
    requires forall a :: a in acts ==> !a.Restart?
    ensures var down := Apply(s, Crash);
      IsDown(down) && OnlyTidied(s, down) && IsDown(RunFiles(down, acts)) && OnlyTidied(s, RunFiles(down, acts))
  {
    if acts != [] {
      var n := |acts| - 1;
      DownUntilRestart(s, acts[..n]);
      DownStep(RunFiles(Apply(s, Crash), acts[..n]), acts[n]);
      hide Apply;
    }
  }

  // ----- exactly when a range may be opened -----

  lemma RunFirst(s: RangeState, a: Action, rest: seq<Action>)
    ensures RunFiles(s, [a] + rest) == RunFiles(Apply(s, a), rest)
  {
    hide Apply;
    RunOne(s, a);
    RunOn(s, [a], rest);
  }

  ghost predicate NoneOpens(acts: seq<Action>) {
    forall n :: 0 <= n < |acts| ==> !acts[n].OpenRange?
  }

  lemma NoneOpensIsAllowed(s: RangeState, acts: seq<Action>)
    requires NoneOpens(acts)
    ensures NeverReopens(s, acts)
  {
    hide RunFiles;
  }

  /** Generation `g` is in the bucket only, and the range is open again. */
  predicate Reopened(s: RangeState, g: nat, h: nat) {
    && s.up && s.recorder == Open(h) && g != h && g in s.sealed && RemoteTrio(s, g)
    && Holds(s.local, Partial(Zst), h) && Free(s)
    && (s.uploader.Putting? ==> s.uploader.done <= 2)
  }

  function StepsLeft(u: Uploading): nat {
    match u
    case Resting => 0
    case Putting(_) => 1
    case Marking(created) => if created then 1 else 2
    case Sweeping(k) => if k < 3 then 4 - k else 1
  }

  /** The uploader can always be brought to rest without storing or removing
      anything of the range. */
  lemma {:induction false} ComesToRest(s: RangeState, g: nat, h: nat) returns (acts: seq<Action>)
    requires Reopened(s, g, h)
    ensures NoneOpens(acts) && Reopened(RunFiles(s, acts), g, h) && RunFiles(s, acts).uploader.Resting?
    decreases StepsLeft(s.uploader)
  {
    if s.uploader.Resting? {
      acts := [];
    } else {
      var a :=
        if s.uploader.Putting? then PutStep(PutLost)
        else if s.uploader.Marking? then MarkStep
        else SweepStep(false);
      assert Reopened(Apply(s, a), g, h);
      var rest := ComesToRest(Apply(s, a), g, h);
      RunFirst(s, a, rest);
      acts := [a] + rest;
    }
  }

  /** Sealing generation `h` over a range whose generation `g` is in the bucket. */
  predicate Resealing(s: RangeState, g: nat, h: nat, done: nat) {
    && s.up && s.uploader.Resting? && s.recorder == Sealing(h, done) && done <= 4
    && g != h && g in s.sealed && RemoteTrio(s, g)
    && Holds(s.local, if done < 2 then Partial(Zst) else Final(Zst), h)
    && (done >= 1 ==> Holds(s.local, Partial(Meta), h))
  }

  predicate Resealed(s: RangeState, g: nat, h: nat) {
    && s.up && s.uploader.Resting? && s.recorder.Closed?
    && g != h && g in s.sealed && h in s.sealed && RemoteTrio(s, g)
    && Holds(s.local, Final(Zst), h) && Holds(s.local, Final(Meta), h)
  }

  lemma {:induction false} SealsAgain(s: RangeState, g: nat, h: nat, done: nat) returns (acts: seq<Action>)
    requires Resealing(s, g, h, done)
    ensures NoneOpens(acts) && Resealed(RunFiles(s, acts), g, h)
    decreases 4 - done
  {
    if done == 4 {
      assert Resealed(Apply(s, SealStep), g, h);
      RunOne(s, SealStep);
      acts := [SealStep];
    } else {
      assert Resealing(Apply(s, SealStep), g, h, done + 1);
      var rest := SealsAgain(Apply(s, SealStep), g, h, done + 1);
      RunFirst(s, SealStep, rest);
      acts := [SealStep] + rest;
    }
  }

  /** With a stale marker the next sweep deletes the new payload; without one the
      next PUT overwrites the old one. */
  lemma ThenLosesOne(s: RangeState, g: nat, h: nat) returns (acts: seq<Action>)
    requires Resealed(s, g, h)
    ensures NoneOpens(acts) && !Durable(RunFiles(s, acts))
  {
    var a := if Marker in s.local then StartSweep else StartUpload;
    var b := if Marker in s.local then SweepStep(true) else PutStep(PutOk);
    acts := [a] + [b];
    RunFirst(s, a, [b]);
    RunOne(Apply(s, a), b);
    hide RunFiles;
    var end := Apply(Apply(s, a), b);
    if Marker in s.local {
      assert h in end.sealed && !LocalTrio(end, h) && !RemoteTrio(end, h);
    } else {
      assert g in end.sealed && !LocalTrio(end, g) && !RemoteTrio(end, g);
    }
  }

  /** From any state, opening an evicted range can lose a sealed chunk. */
  lemma ReopenedLoses(s: RangeState, g: nat, h: nat) returns (acts: seq<Action>)
    requires Reopened(s, g, h)
    ensures NeverReopens(s, acts) && !Durable(RunFiles(s, acts))
  {
    hide RunFiles, Durable, NeverReopens;
    var rest := ComesToRest(s, g, h);
    var atRest := RunFiles(s, rest);
    assert Resealing(Apply(atRest, SealStep), g, h, 0);
    var sealing := SealsAgain(Apply(atRest, SealStep), g, h, 0);
    RunFirst(atRest, SealStep, sealing);
    hide Apply, Reopened, Resealing, Resealed;
    var last := ThenLosesOne(RunFiles(atRest, [SealStep] + sealing), g, h);
    RunOn(atRest, [SealStep] + sealing, last);
    RunOn(s, rest, [SealStep] + sealing + last);
    acts := rest + ([SealStep] + sealing + last);
    NoneOpensIsAllowed(s, acts);
  }

  lemma OpenedAgain(s: RangeState, g: nat)
    requires SealedAs(s, g) && s.up && s.evicted && Free(s)
    ensures Reopened(Apply(s, OpenRange), g, s.nextGen)
  {
  }

  /** In any state a run without reopening can reach where the recorder could
      open the range: whatever follows is durable exactly if the range has not
      been evicted. */
  lemma ReopeningExactly(prior: seq<Action>)
    requires NeverReopens(START, prior)
    requires RunFiles(START, prior).up && RunFiles(START, prior).recorder.Closed? && Free(RunFiles(START, prior))
    ensures var s := RunFiles(START, prior);
      (forall acts :: NeverReopens(Apply(s, OpenRange), acts) ==> Durable(RunFiles(Apply(s, OpenRange), acts)))
        <==> !s.evicted
  {
    hide RunFiles, NeverReopens, Durable, Apply, Unsealed, SealedAs, Reopened, Free;
    StartsWell();
    RunKeepsInv(START, prior);
    var s := RunFiles(START, prior);
    var next := Apply(s, OpenRange);
    if s.evicted {
      EvictedIsSealed(s);
      var g :| SealedAs(s, g);
      OpenedAgain(s, g);
      var acts := ReopenedLoses(next, g, s.nextGen);
    } else {
      StepKeepsInv(s, OpenRange);
      forall acts | NeverReopens(next, acts) ensures Durable(RunFiles(next, acts)) {
        RunKeepsInv(next, acts);
        InvIsDurable(RunFiles(next, acts));
      }
    }
  }

  lemma EvictedIsSealed(s: RangeState)
    requires Inv(s) && s.evicted
    ensures exists g :: SealedAs(s, g)
  {
  }
}
