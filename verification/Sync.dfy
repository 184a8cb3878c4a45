/** The reader's sync loop: which remote chunks to download, which local ones to
    evict, and that the two agree. */
module Sync {
  import opened Core
  import opened Lifecycle

  datatype ChunkKey = ChunkKey(stream: Stream, startSlot: nat, endSlot: nat)

  // ----- the retention window -----

  predicate IsNewest(keys: set<ChunkKey>, end: nat) {
    (forall k :: k in keys ==> k.endSlot <= end) && (keys == {} ==> end == 0)
      && (keys != {} ==> exists k :: k in keys && k.endSlot == end)
  }

  lemma {:induction false} NewestExists(keys: set<ChunkKey>) returns (end: nat)
    ensures IsNewest(keys, end)
    decreases |keys|
  {
    if keys == {} {
      end := 0;
    } else {
      var k :| k in keys;
      var rest := NewestExists(keys - {k});
      end := if rest < k.endSlot then k.endSlot else rest;
      assert forall j :: j in keys ==> j == k || j in keys - {k};
    }
  }

  /** The highest end slot, 0 if there is none. */
  function NewestEnd(keys: set<ChunkKey>): (end: nat)
    ensures IsNewest(keys, end)
  {
    assert exists end :: IsNewest(keys, end) by {
      var end := NewestExists(keys);
    }
    var end: nat :| IsNewest(keys, end);
    end
  }

  /** Two and a half slots a second, in integers. */
  function RetentionSlots(hours: nat): nat {
    hours * 3600 * 5 / 2
  }

  function Cutoff(keys: set<ChunkKey>, hours: nat): nat {
    var newest, kept := NewestEnd(keys), RetentionSlots(hours);
    if newest < kept then 0 else newest - kept
  }

  function Window(keys: set<ChunkKey>, hours: nat): set<ChunkKey> {
    set k | k in keys && k.endSlot >= Cutoff(keys, hours)
  }

  /** What `diff_for_sync` asks for. */
  function Needed(local: set<ChunkKey>, remote: set<ChunkKey>, hours: nat): set<ChunkKey> {
    set k | k in Window(remote, hours) && k !in local
  }

  /** What a sweep leaves: the local window, and what could not be unlinked. */
  function Swept(local: set<ChunkKey>, hours: nat, stuck: set<ChunkKey>): set<ChunkKey> {
    Window(local, hours) + (local * stuck)
  }

  /** What failed in a cycle, chunk by chunk: downloads, and unlinks of sidecars. */
  datatype Trouble = Trouble(lost: set<ChunkKey>, stuck: set<ChunkKey>)

  const SMOOTH: Trouble := Trouble({}, {})

  function Downloaded(local: set<ChunkKey>, remote: set<ChunkKey>, hours: nat, t: Trouble): set<ChunkKey> {
    local + (Needed(local, remote, hours) - t.lost)
  }

  /** Download what is needed, then sweep. */
  function Cycle(local: set<ChunkKey>, remote: set<ChunkKey>, hours: nat, t: Trouble): set<ChunkKey> {
    Swept(Downloaded(local, remote, hours, t), hours, t.stuck)
  }

  /** A chunk's end reaches back from a slot: 9000 slots make an hour. */
  predicate Reaches(k: ChunkKey, newest: nat, hours: nat) {
    k.endSlot + hours * 9000 >= newest
  }

  /** Of these chunks, and at most the retention behind each of them. */
  ghost predicate Keeps(keys: set<ChunkKey>, hours: nat, k: ChunkKey) {
    k in keys && forall j :: j in keys ==> Reaches(k, j.endSlot, hours)
  }

  // ----- facts about windows -----

  lemma WindowIs(keys: set<ChunkKey>, hours: nat)
    ensures forall k :: k in Window(keys, hours) <==> Keeps(keys, hours, k)
  {
    var newest := NewestEnd(keys);
    assert IsNewest(keys, newest);
    forall k ensures k in Window(keys, hours) <==> Keeps(keys, hours, k) {
      if Keeps(keys, hours, k) {
        var j :| j in keys && j.endSlot == newest;
        assert Reaches(k, j.endSlot, hours);
      }
    }
  }

  lemma NewestIs(keys: set<ChunkKey>, end: nat)
    requires IsNewest(keys, end)
    ensures NewestEnd(keys) == end
  {
    if keys != {} {
      var a :| a in keys && a.endSlot == end;
      var b :| b in keys && b.endSlot == NewestEnd(keys);
    }
  }

  lemma NewestMono(a: set<ChunkKey>, b: set<ChunkKey>)
    requires a <= b
    ensures NewestEnd(a) <= NewestEnd(b)
  {
    if a != {} {
      var k :| k in a && k.endSlot == NewestEnd(a);
      assert k in b;
    }
  }

  /** A window holds the newest chunk, and is its own window. */
  lemma WindowIsStable(keys: set<ChunkKey>, hours: nat)
    ensures NewestEnd(Window(keys, hours)) == NewestEnd(keys)
    ensures Window(Window(keys, hours), hours) == Window(keys, hours)
  {
    var newest := NewestEnd(keys);
    if keys != {} {
      var k :| k in keys && k.endSlot == newest;
      assert k in Window(keys, hours);
    }
    NewestIs(Window(keys, hours), newest);
  }

  /** Evicting by the local window spares the remote window as long as nothing
      local is newer than everything remote. */
  lemma OlderSweepSpares(local: set<ChunkKey>, remote: set<ChunkKey>, hours: nat, k: ChunkKey)
    requires NewestEnd(local) <= NewestEnd(remote)
    requires k in local && k in Window(remote, hours)
    ensures k in Window(local, hours)
  {
  }

  // ----- one cycle -----

  /** A cycle without trouble leaves exactly the remote window, and the next
      one has nothing to download and nothing to evict. */
  lemma CycleConverges(local: set<ChunkKey>, remote: set<ChunkKey>, hours: nat)
    requires local <= remote
    ensures var after := Cycle(local, remote, hours, SMOOTH);
      && after == Window(remote, hours)
      && (forall k :: k in after <==> Keeps(remote, hours, k))
      && Needed(after, remote, hours) == {}
      && Swept(after, hours, {}) == after
      && Cycle(after, remote, hours, SMOOTH) == after
  {
    WindowIs(remote, hours);
    hide Keeps;
    var window := Window(remote, hours);
    var have := Downloaded(local, remote, hours, SMOOTH);
    WindowIsStable(remote, hours);
    assert window <= have <= remote;
    NewestMono(window, have);
    NewestMono(have, remote);
    assert Window(have, hours) == window;
    assert Cycle(local, remote, hours, SMOOTH) == window;
    assert Downloaded(window, remote, hours, SMOOTH) == window;
  }

  /** Whatever downloads and unlinks fail, nothing in the remote window is
      evicted, and nothing comes from anywhere but the remote. */
  lemma CycleNeverChurns(local: set<ChunkKey>, remote: set<ChunkKey>, hours: nat, t: Trouble)
    requires local <= remote
    ensures var have, after := Downloaded(local, remote, hours, t), Cycle(local, remote, hours, t);
      && after <= have <= remote
      && have * Window(remote, hours) <= after
  {
    var have := Downloaded(local, remote, hours, t);
    assert have <= remote;
    NewestMono(have, remote);
    forall k | k in have && k in Window(remote, hours) ensures k in Cycle(local, remote, hours, t) {
      OlderSweepSpares(have, remote, hours, k);
    }
  }

  // ----- the directory, file by file -----

  datatype CacheFile = CacheFile(key: ChunkKey, ext: Ext)

  /** A chunk counts as held as long as its sidecar is there. */
  function LocalChunks(files: set<CacheFile>): set<ChunkKey> {
    set f | f in files && f.ext.Meta? :: f.key
  }

  /** What a scan lists: the chunks with all three files. */
  function Whole(files: set<CacheFile>): set<ChunkKey> {
    set f | f in files && f.ext.Meta? && CacheFile(f.key, Zst) in files && CacheFile(f.key, Idx) in files :: f.key
  }

  /** What failed in a cycle, file by file. */
  datatype FileTrouble = FileTrouble(lost: set<CacheFile>, stuck: set<CacheFile>)
  {
    /** A lost file loses its chunk; a stuck sidecar keeps it. */
    function OnChunks(): Trouble {
      Trouble(set f | f in lost :: f.key, set f | f in stuck && f.ext.Meta? :: f.key)
    }
  }

  const NO_TROUBLE: FileTrouble := FileTrouble({}, {})

  /** A download fetches payload, index and sidecar in this order and stops at
      the first that fails. */
  predicate Arrives(f: CacheFile, lost: set<CacheFile>) {
    && CacheFile(f.key, Zst) !in lost
    && (!f.ext.Zst? ==> CacheFile(f.key, Idx) !in lost)
    && (f.ext.Meta? ==> f !in lost)
  }

  function Trio(k: ChunkKey): set<CacheFile> {
    {CacheFile(k, Zst), CacheFile(k, Idx), CacheFile(k, Meta)}
  }

  function Fetches(needed: set<ChunkKey>, lost: set<CacheFile>): set<CacheFile> {
    set k, f | k in needed && f in Trio(k) && Arrives(f, lost) :: f
  }

  function FilesDownloaded(files: set<CacheFile>, remote: set<ChunkKey>, hours: nat, t: FileTrouble): set<CacheFile> {
    files + Fetches(Needed(LocalChunks(files), remote, hours), t.lost)
  }

  /** Every file of an expired chunk that can be unlinked goes. */
  function FilesSwept(files: set<CacheFile>, hours: nat, stuck: set<CacheFile>): set<CacheFile> {
    set f | f in files && (f.key in Expired(LocalChunks(files), hours) ==> f in stuck)
  }

  function FilesCycle(files: set<CacheFile>, remote: set<ChunkKey>, hours: nat, t: FileTrouble): set<CacheFile> {
    FilesSwept(FilesDownloaded(files, remote, hours, t), hours, t.stuck)
  }

  lemma HasFile(files: set<CacheFile>, k: ChunkKey)
    ensures k in LocalChunks(files) <==> CacheFile(k, Meta) in files
    ensures k in Whole(files) <==> Trio(k) <= files
  {
    if k in LocalChunks(files) {
      var f :| f in files && f.ext.Meta? && f.key == k;
      assert f == CacheFile(k, Meta);
    }
    if k in Whole(files) {
      var f :| f in files && f.ext.Meta? && f.key == k;
      assert f == CacheFile(k, Meta);
    }
  }

  lemma FetchedFile(needed: set<ChunkKey>, lost: set<CacheFile>, f: CacheFile)
    ensures f in Fetches(needed, lost) <==> f.key in needed && Arrives(f, lost)
  {
    assert f in Trio(f.key) by { assert f.ext.Zst? || f.ext.Idx? || f.ext.Meta?; }
  }

  lemma LostChunk(t: FileTrouble, k: ChunkKey)
    ensures k in t.OnChunks().lost <==> exists f :: f in Trio(k) && f in t.lost
    ensures k in t.OnChunks().stuck <==> CacheFile(k, Meta) in t.stuck
  {
    if k in t.OnChunks().lost {
      var f :| f in t.lost && f.key == k;
      assert f.ext.Zst? || f.ext.Idx? || f.ext.Meta?;
      assert f in Trio(k);
    }
    if k in t.OnChunks().stuck {
      var f :| f in t.stuck && f.ext.Meta? && f.key == k;
      assert f == CacheFile(k, Meta);
    }
  }

  lemma DownloadedLocally(files: set<CacheFile>, remote: set<ChunkKey>, hours: nat, t: FileTrouble)
    ensures LocalChunks(FilesDownloaded(files, remote, hours, t))
      == Downloaded(LocalChunks(files), remote, hours, t.OnChunks())
  {
    var needed := Needed(LocalChunks(files), remote, hours);
    forall k ensures k in LocalChunks(FilesDownloaded(files, remote, hours, t))
      <==> k in Downloaded(LocalChunks(files), remote, hours, t.OnChunks())
    {
      HasFile(files, k);
      HasFile(FilesDownloaded(files, remote, hours, t), k);
      FetchedFile(needed, t.lost, CacheFile(k, Meta));
      LostChunk(t, k);
      hide LocalChunks, Needed, Fetches;
    }
  }

  lemma SweptLocally(files: set<CacheFile>, hours: nat, t: FileTrouble)
    ensures LocalChunks(FilesSwept(files, hours, t.stuck)) == Swept(LocalChunks(files), hours, t.OnChunks().stuck)
  {
    forall k ensures k in LocalChunks(FilesSwept(files, hours, t.stuck))
      <==> k in Swept(LocalChunks(files), hours, t.OnChunks().stuck)
    {
      HasFile(files, k);
      HasFile(FilesSwept(files, hours, t.stuck), k);
      LostChunk(t, k);
      hide LocalChunks, Window;
    }
  }

  /** Seen from the sidecars, the files go through the chunk-wise cycle. */
  lemma CycleLocally(files: set<CacheFile>, remote: set<ChunkKey>, hours: nat, t: FileTrouble)
    ensures LocalChunks(FilesCycle(files, remote, hours, t)) == Cycle(LocalChunks(files), remote, hours, t.OnChunks())
  {
    hide *;
    DownloadedLocally(files, remote, hours, t);
    SweptLocally(FilesDownloaded(files, remote, hours, t), hours, t);
    CyclesAre(files, remote, hours, t);
  }

  lemma CyclesAre(files: set<CacheFile>, remote: set<ChunkKey>, hours: nat, t: FileTrouble)
    ensures FilesCycle(files, remote, hours, t) == FilesSwept(FilesDownloaded(files, remote, hours, t), hours, t.stuck)
    ensures Cycle(LocalChunks(files), remote, hours, t.OnChunks())
      == Swept(Downloaded(LocalChunks(files), remote, hours, t.OnChunks()), hours, t.OnChunks().stuck)
  {
  }

  // ----- whole runs -----

  datatype Round = Round(remote: set<ChunkKey>, trouble: FileTrouble)

  function RunRounds(files: set<CacheFile>, rounds: seq<Round>, hours: nat): set<CacheFile> {
    if rounds == [] then files
    else
      var n := |rounds| - 1;
      FilesCycle(RunRounds(files, rounds[..n], hours), rounds[n].remote, hours, rounds[n].trouble)
  }

  /** Nothing is ever removed from the bucket. */
  ghost predicate RemoteGrows(rounds: seq<Round>) {
    forall i, j :: 0 <= i < j < |rounds| ==> rounds[i].remote <= rounds[j].remote
  }

  lemma {:induction false} RunStaysRemote(files: set<CacheFile>, rounds: seq<Round>, hours: nat)
    requires rounds != [] && LocalChunks(files) <= rounds[0].remote && RemoteGrows(rounds)
    ensures LocalChunks(RunRounds(files, rounds, hours)) <= rounds[|rounds| - 1].remote
    ensures LocalChunks(RunRounds(files, rounds[..|rounds| - 1], hours)) <= rounds[|rounds| - 1].remote
  {
    var n := |rounds| - 1;
    if n > 0 {
      RunStaysRemote(files, rounds[..n], hours);
      assert rounds[n - 1].remote <= rounds[n].remote;
    }
    hide FilesCycle, Cycle, Downloaded, Window, LocalChunks;
    var before := RunRounds(files, rounds[..n], hours);
    CycleLocally(before, rounds[n].remote, hours, rounds[n].trouble);
    CycleNeverChurns(LocalChunks(before), rounds[n].remote, hours, rounds[n].trouble.OnChunks());
  }

  /** In every run over a growing bucket, whatever fails: no round evicts a chunk
      of its remote window, and one round without trouble is enough to hold
      exactly that window. */
  lemma RunsNeverChurn(files: set<CacheFile>, rounds: seq<Round>, hours: nat)
    requires rounds != [] && LocalChunks(files) <= rounds[0].remote && RemoteGrows(rounds)
    ensures var n := |rounds| - 1;
      var before, last := RunRounds(files, rounds[..n], hours), rounds[n];
      && Downloaded(LocalChunks(before), last.remote, hours, last.trouble.OnChunks()) * Window(last.remote, hours)
        <= LocalChunks(RunRounds(files, rounds, hours))
      && (last.trouble == NO_TROUBLE ==> LocalChunks(RunRounds(files, rounds, hours)) == Window(last.remote, hours))
  {
    var n := |rounds| - 1;
    RunStaysRemote(files, rounds, hours);
    var before := RunRounds(files, rounds[..n], hours);
    SmoothIs();
    hide FilesCycle, Cycle, Downloaded, Window, LocalChunks;
    CycleLocally(before, rounds[n].remote, hours, rounds[n].trouble);
    CycleNeverChurns(LocalChunks(before), rounds[n].remote, hours, rounds[n].trouble.OnChunks());
    CycleConverges(LocalChunks(before), rounds[n].remote, hours);
  }

  lemma SmoothIs()
    ensures NO_TROUBLE.OnChunks() == SMOOTH
  {
  }

  // ----- sidecars that outlive their payload -----

  /** Every chunk held that the remote window wants is whole. */
  ghost predicate WindowIsWhole(files: set<CacheFile>, remote: set<ChunkKey>, hours: nat) {
    LocalChunks(files) * Window(remote, hours) <= Whole(files)
  }

  /** Windows only move up as the bucket grows. */
  lemma OldWindow(a: set<ChunkKey>, b: set<ChunkKey>, hours: nat, k: ChunkKey)
    requires a <= b && k in a && k in Window(b, hours)
    ensures k in Window(a, hours)
  {
    NewestMono(a, b);
  }

  /** A chunk of the local window keeps all its files. */
  lemma SpareFiles(files: set<CacheFile>, hours: nat, stuck: set<CacheFile>, k: ChunkKey)
    requires k in Whole(files) && k in Window(LocalChunks(files), hours)
    ensures k in Whole(FilesSwept(files, hours, stuck))
  {
    HasFile(files, k);
    HasFile(FilesSwept(files, hours, stuck), k);
    hide Whole, LocalChunks, Window;
  }

  lemma FetchedWhole(files: set<CacheFile>, remote: set<ChunkKey>, hours: nat, t: FileTrouble, k: ChunkKey)
    requires k in LocalChunks(FilesDownloaded(files, remote, hours, t))
    requires k in LocalChunks(files) ==> k in Whole(files)
    ensures k in Whole(FilesDownloaded(files, remote, hours, t))
  {
    var after := FilesDownloaded(files, remote, hours, t);
    HasFile(files, k);
    HasFile(after, k);
    hide Whole, LocalChunks, Needed, Fetches;
    forall f | f in Trio(k) ensures f in after {
      FetchedFile(Needed(LocalChunks(files), remote, hours), t.lost, f);
      FetchedFile(Needed(LocalChunks(files), remote, hours), t.lost, CacheFile(k, Meta));
    }
  }

  lemma CycleKeepsWhole(
      files: set<CacheFile>, before: set<ChunkKey>, remote: set<ChunkKey>, hours: nat, t: FileTrouble)
    requires LocalChunks(files) <= before <= remote && WindowIsWhole(files, before, hours)
    ensures WindowIsWhole(FilesCycle(files, remote, hours, t), remote, hours)
  {
    var have := FilesDownloaded(files, remote, hours, t);
    var after := FilesCycle(files, remote, hours, t);
    DownloadedLocally(files, remote, hours, t);
    SweptLocally(have, hours, t);
    CycleNeverChurns(LocalChunks(files), remote, hours, t.OnChunks());
    NewestMono(LocalChunks(have), remote);
    forall k | k in LocalChunks(after) && k in Window(remote, hours) ensures k in Whole(after) {
      assert k in LocalChunks(have);
      if k in LocalChunks(files) { OldWindow(before, remote, hours, k); }
      hide Whole, LocalChunks, Window, FilesDownloaded, FilesSwept;
      FetchedWhole(files, remote, hours, t, k);
      OlderSweepSpares(LocalChunks(have), remote, hours, k);
      SpareFiles(have, hours, t.stuck, k);
    }
  }

  /** A sidecar that outlives its payload, because only the payload could be
      unlinked, blocks downloading its chunk again but never one the remote
      window wants: in every run over a growing bucket, whatever fails, all that
      is held of the window is served; and after a round without trouble the
      window is served, and nothing else. */
  lemma RunsServeTheWindow(files: set<CacheFile>, rounds: seq<Round>, hours: nat)
    requires rounds != [] && LocalChunks(files) <= rounds[0].remote && RemoteGrows(rounds)
    requires WindowIsWhole(files, rounds[0].remote, hours)
    ensures var after, last := RunRounds(files, rounds, hours), rounds[|rounds| - 1];
      && WindowIsWhole(after, last.remote, hours)
      && (last.trouble == NO_TROUBLE ==>
            && Whole(after) == Window(last.remote, hours)
            && forall k :: k in Whole(after) <==> Keeps(last.remote, hours, k))
  {
    WindowIs(rounds[|rounds| - 1].remote, hours);
    hide Keeps;
    RunsKeepWhole(files, rounds, hours);
    RunsNeverChurn(files, rounds, hours);
    WholeIsLocal(RunRounds(files, rounds, hours));
    hide RunRounds, Window, LocalChunks, Whole;
  }

  lemma WholeIsLocal(files: set<CacheFile>)
    ensures Whole(files) <= LocalChunks(files)
  {
  }

  lemma {:induction false} RunsKeepWhole(files: set<CacheFile>, rounds: seq<Round>, hours: nat)
    requires rounds != [] && LocalChunks(files) <= rounds[0].remote && RemoteGrows(rounds)
    requires WindowIsWhole(files, rounds[0].remote, hours)
    ensures WindowIsWhole(RunRounds(files, rounds, hours), rounds[|rounds| - 1].remote, hours)
  {
    var n := |rounds| - 1;
    var before := RunRounds(files, rounds[..n], hours);
    hide FilesCycle, WindowIsWhole, LocalChunks;
    if n == 0 {
      CycleKeepsWhole(files, rounds[0].remote, rounds[0].remote, hours, rounds[0].trouble);
    } else {
      RunsKeepWhole(files, rounds[..n], hours);
      RunStaysRemote(files, rounds[..n], hours);
      assert rounds[n - 1].remote <= rounds[n].remote;
      CycleKeepsWhole(before, rounds[n - 1].remote, rounds[n].remote, hours, rounds[n].trouble);
    }
  }

  // ----- when local chunks are not all remote -----

  /** After a cycle without trouble there is nothing left to download. */
  predicate Settles(local: set<ChunkKey>, remote: set<ChunkKey>, hours: nat) {
    Needed(Cycle(local, remote, hours, SMOOTH), remote, hours) == {}
  }

  lemma NewestReached(keys: set<ChunkKey>)
    requires keys != {}
    ensures exists k :: k in keys && k.endSlot == NewestEnd(keys)
  {
  }

  /** The newest chunk held after downloading is the newest of both sides. */
  lemma NewestHeld(local: set<ChunkKey>, remote: set<ChunkKey>, hours: nat)
    requires remote != {}
    ensures var l, r := NewestEnd(local), NewestEnd(remote);
      NewestEnd(Downloaded(local, remote, hours, SMOOTH)) == if l < r then r else l
  {
    var have := Downloaded(local, remote, hours, SMOOTH);
    NewestReached(remote);
    var newest :| newest in remote && newest.endSlot == NewestEnd(remote);
    assert newest in Window(remote, hours);
    assert newest in have;
    NewestMono(local, have);
    NewestReached(have);
    var k :| k in have && k.endSlot == NewestEnd(have);
    assert k in local || k in remote;
  }

  /** For the configured retention: a cycle without trouble leaves nothing to
      download exactly if every remote chunk that reaches back to the newest
      remote one also reaches back to the newest local one. */
  lemma SettlesExactly(local: set<ChunkKey>, remote: set<ChunkKey>, hours: nat)
    ensures Settles(local, remote, hours)
      <==> forall k :: k in remote && Reaches(k, NewestEnd(remote), hours) ==> Reaches(k, NewestEnd(local), hours)
  {
    if remote != {} {
      NewestHeld(local, remote, hours);
      var have, after := Downloaded(local, remote, hours, SMOOTH), Cycle(local, remote, hours, SMOOTH);
      hide NewestEnd, RetentionSlots;
      forall k | k in Window(remote, hours) ensures k in after <==> Reaches(k, NewestEnd(local), hours) {
        assert k in have;
      }
    }
  }

  /** Download and eviction agree, whatever the retention, exactly when nothing
      local is newer than everything remote. Otherwise short retentions evict
      and fetch the same chunks in every cycle. */
  lemma SettlesForAllExactly(local: set<ChunkKey>, remote: set<ChunkKey>)
    ensures (forall hours :: Settles(local, remote, hours)) <==> remote == {} || NewestEnd(local) <= NewestEnd(remote)
  {
    hide Settles, NewestEnd, RetentionSlots;
    if remote == {} || NewestEnd(local) <= NewestEnd(remote) {
      forall hours ensures Settles(local, remote, hours) {
        SettlesExactly(local, remote, hours);
      }
    } else {
      UnsettledAtZero(local, remote);
    }
  }

  lemma UnsettledAtZero(local: set<ChunkKey>, remote: set<ChunkKey>)
    requires remote != {} && NewestEnd(local) > NewestEnd(remote)
    ensures !Settles(local, remote, 0)
  {
    var have := Downloaded(local, remote, 0, SMOOTH);
    NewestMono(local, have);
    var k :| k in remote && k.endSlot == NewestEnd(remote);
    assert RetentionSlots(0) == 0;
    assert k in Window(remote, 0);
    assert k !in Cycle(local, remote, 0, SMOOTH);
  }

  // ----- the loop and its sweep, in place -----

  /** The chunks below the cutoff. */
  function Expired(keys: set<ChunkKey>, hours: nat): set<ChunkKey> {
    keys - Window(keys, hours)
  }

  /** What is left while the chunks of `rest` are still to be looked at. */
  function Remaining(
      was: set<CacheFile>, low: set<ChunkKey>, rest: set<ChunkKey>, stuck: set<CacheFile>): set<CacheFile> {
    set f | f in was && (f.key in low && f.key !in rest ==> f in stuck)
  }

  lemma SweepStarts(was: set<CacheFile>, hours: nat, stuck: set<CacheFile>)
    ensures var low := Expired(LocalChunks(was), hours);
      && low - LocalChunks(was) == {} && Remaining(was, low, LocalChunks(was), stuck) == was
      && low - {} == low && Remaining(was, low, {}, stuck) == FilesSwept(was, hours, stuck)
      && forall k :: k in LocalChunks(was) ==> (k in low <==> k.endSlot < Cutoff(LocalChunks(was), hours))
  {
    hide Cutoff, LocalChunks;
  }

  lemma SweepOne(was: set<CacheFile>, low: set<ChunkKey>, rest: set<ChunkKey>, k: ChunkKey, stuck: set<CacheFile>)
    requires k in rest
    ensures |low - (rest - {k})| == if k in low then |low - rest| + 1 else |low - rest|
    ensures Remaining(was, low, rest - {k}, stuck)
      == if k in low then Remaining(was, low, rest, stuck) - (Trio(k) - stuck) else Remaining(was, low, rest, stuck)
  {
    if k in low {
      assert low - (rest - {k}) == (low - rest) + {k};
      assert forall f: CacheFile :: f.key == k ==> f in Trio(k) by {
        forall f: CacheFile | f.key == k ensures f in Trio(k) {
          assert f.ext.Zst? || f.ext.Idx? || f.ext.Meta?;
        }
      }
    } else {
      assert low - (rest - {k}) == low - rest;
    }
  }

  /** Nothing swept and nothing downloaded whole: the scan would find the same. */
  lemma NothingChanged(files: set<CacheFile>, remote: set<ChunkKey>, hours: nat, t: FileTrouble)
    requires var have := FilesDownloaded(files, remote, hours, t);
      |Expired(LocalChunks(have), hours)| == 0 && Needed(LocalChunks(files), remote, hours) <= t.OnChunks().lost
    ensures Whole(FilesCycle(files, remote, hours, t)) == Whole(files)
  {
    var have := FilesDownloaded(files, remote, hours, t);
    var needed := Needed(LocalChunks(files), remote, hours);
    assert FilesCycle(files, remote, hours, t) == have by {
      hide Expired, LocalChunks, Needed;
    }
    forall k ensures k in Whole(have) <==> k in Whole(files) {
      HasFile(files, k);
      HasFile(have, k);
      hide Whole, LocalChunks, Fetches, Needed, Expired;
      if k in Whole(have) {
        FetchedFile(needed, t.lost, CacheFile(k, Meta));
        LostChunk(t, k);
        assert k !in needed by { NotNeeded(files, remote, hours, t, k); }
        forall f | f in Trio(k) ensures f in files {
          FetchedFile(needed, t.lost, f);
        }
      }
    }
  }

  lemma NotNeeded(files: set<CacheFile>, remote: set<ChunkKey>, hours: nat, t: FileTrouble, k: ChunkKey)
    requires Needed(LocalChunks(files), remote, hours) <= t.OnChunks().lost
    requires CacheFile(k, Meta) in FilesDownloaded(files, remote, hours, t)
    ensures k !in Needed(LocalChunks(files), remote, hours)
  {
    HasFile(files, k);
    FetchedFile(Needed(LocalChunks(files), remote, hours), t.lost, CacheFile(k, Meta));
    LostChunk(t, k);
  }

  class Syncer {
    const hours: nat
    var files: set<CacheFile>
    var catalog: set<ChunkKey>

    constructor (hours: nat, found: set<CacheFile>)
      ensures this.hours == hours && files == found && catalog == Whole(found)
    {
      this.hours, files, catalog := hours, found, Whole(found);
    }

    /** Unlink the three files of a chunk; those that cannot be unlinked stay. */
    method EvictChunk(k: ChunkKey, stuck: set<CacheFile>)
      modifies this`files
      ensures files == old(files) - (Trio(k) - stuck)
    {
      if CacheFile(k, Zst) !in stuck { files := files - {CacheFile(k, Zst)}; }
      if CacheFile(k, Idx) !in stuck { files := files - {CacheFile(k, Idx)}; }
      if CacheFile(k, Meta) !in stuck { files := files - {CacheFile(k, Meta)}; }
    }

    /** Evict every chunk below the cutoff of the newest one held. */
    method SweepRetention(stuck: set<CacheFile>) returns (evicted: nat)
      modifies this`files
      ensures files == FilesSwept(old(files), hours, stuck)
      ensures evicted == |Expired(LocalChunks(old(files)), hours)|
    {
      ghost var was := files;
      ghost var low := Expired(LocalChunks(was), hours);
      var rest := LocalChunks(files);
      var cutoff := Cutoff(rest, hours);
      SweepStarts(was, hours, stuck);
      hide FilesSwept, Cutoff, Expired, Remaining, LocalChunks, Trio;
      evicted := 0;
      while rest != {}
        invariant rest <= LocalChunks(was) && evicted == |low - rest|
        invariant files == Remaining(was, low, rest, stuck)
        decreases rest
      {
        var k :| k in rest;
        SweepOne(was, low, rest, k, stuck);
        rest := rest - {k};
        if k.endSlot < cutoff {
          EvictChunk(k, stuck);
          evicted := evicted + 1;
        }
      }
    }

    /** Fetch the three files of a chunk in order, up to the first that fails. */
    method DownloadChunk(k: ChunkKey, lost: set<CacheFile>) returns (ok: bool)
      modifies this`files
      ensures files == old(files) + Fetches({k}, lost)
      ensures ok <==> forall f :: f in Trio(k) ==> f !in lost
    {
      FetchOne(k, lost);
      hide Fetches;
      if CacheFile(k, Zst) in lost { return false; }
      files := files + {CacheFile(k, Zst)};
      if CacheFile(k, Idx) in lost { return false; }
      files := files + {CacheFile(k, Idx)};
      if CacheFile(k, Meta) in lost { return false; }
      files := files + {CacheFile(k, Meta)};
      return true;
    }

    method Download(needed: set<ChunkKey>, t: FileTrouble) returns (count: nat)
      modifies this`files
      ensures files == old(files) + Fetches(needed, t.lost)
      ensures count == 0 <==> needed <= t.OnChunks().lost
    {
      ghost var was := files;
      var rest := needed;
      count := 0;
      while rest != {}
        invariant rest <= needed && files == was + Fetches(needed - rest, t.lost)
        invariant count == 0 <==> needed - rest <= t.OnChunks().lost
        decreases rest
      {
        var k :| k in rest;
        FetchMore(needed - rest, t.lost, k);
        LostChunk(t, k);
        assert needed - (rest - {k}) == (needed - rest) + {k};
        rest := rest - {k};
        hide Fetches, Trio;
        var ok := DownloadChunk(k, t.lost);
        if ok { count := count + 1; }
      }
      assert needed - rest == needed;
    }

    /** One cycle: diff, download, sweep, and republish if anything changed, so
        the served catalog lists what a scan of the disk finds. */
    method RunCycle(remote: set<ChunkKey>, t: FileTrouble)
      requires catalog == Whole(files)
      modifies this
      ensures files == FilesCycle(old(files), remote, hours, t)
      ensures catalog == Whole(files)
    {
      hide Window, NewestEnd, Cutoff, LocalChunks, Whole, Fetches, Expired;
      ghost var was := files;
      var needed := Needed(LocalChunks(files), remote, hours);
      var downloaded := Download(needed, t);
      var swept := SweepRetention(t.stuck);
      if downloaded > 0 || swept > 0 {
        catalog := Whole(files);
      } else {
        NothingChanged(was, remote, hours, t);
      }
    }
  }

  /** How far the download of one chunk gets. */
  lemma FetchOne(k: ChunkKey, lost: set<CacheFile>)
    ensures Fetches({k}, lost)
      == if CacheFile(k, Zst) in lost then {}
         else if CacheFile(k, Idx) in lost then {CacheFile(k, Zst)}
         else if CacheFile(k, Meta) in lost then {CacheFile(k, Zst), CacheFile(k, Idx)}
         else Trio(k)
  {
    forall f: CacheFile ensures f in Fetches({k}, lost) <==> f in Trio(k) && Arrives(f, lost) {
      FetchedFile({k}, lost, f);
      assert f.ext.Zst? || f.ext.Idx? || f.ext.Meta?;
    }
    hide Fetches;
  }

  lemma FetchMore(some: set<ChunkKey>, lost: set<CacheFile>, k: ChunkKey)
    ensures Fetches(some + {k}, lost) == Fetches(some, lost) + Fetches({k}, lost)
  {
  }

  // ----- one download, file by file -----

  datatype Fetch = Get(ext: Ext) | Publish(ext: Ext)

  const FETCHES: seq<Fetch> := [Get(Zst), Publish(Zst), Get(Idx), Publish(Idx), Get(Meta), Publish(Meta)]

  function Fetched(files: set<File>, step: Fetch): set<File> {
    match step
    case Get(ext) => files + {Partial(ext)}
    case Publish(ext) => if Partial(ext) in files then files - {Partial(ext)} + {Final(ext)} else files
  }

  function FetchedAll(files: set<File>, steps: seq<Fetch>): set<File> {
    if steps == [] then files else Fetched(FetchedAll(files, steps[..|steps| - 1]), steps[|steps| - 1])
  }

  /** Interrupted after any number of steps, a download has either published no
      sidecar or all three files, and then nothing half-written is left. */
  lemma DownloadIsAtomic(files: set<File>, n: nat)
    requires Final(Meta) !in files && n <= 6
    ensures var after := FetchedAll(files, FETCHES[..n]);
      && (Final(Meta) in after <==> n == 6)
      && (Final(Meta) in after ==> Final(Zst) in after && Final(Idx) in after)
      && (Final(Meta) in after ==> Partial(Zst) !in after && Partial(Idx) !in after && Partial(Meta) !in after)
  {
    PublishedBy(files, n);
  }

  lemma {:induction false} PublishedBy(files: set<File>, n: nat)
    requires Final(Meta) !in files && n <= 6
    ensures var after := FetchedAll(files, FETCHES[..n]);
      && (n == 1 ==> Partial(Zst) in after) && (n == 3 ==> Partial(Idx) in after) && (n == 5 ==> Partial(Meta) in after)
      && (n >= 2 ==> Final(Zst) in after && Partial(Zst) !in after)
      && (n >= 4 ==> Final(Idx) in after && Partial(Idx) !in after)
      && (Final(Meta) in after <==> n == 6) && (n == 6 ==> Partial(Meta) !in after)
  {
    if n > 0 {
      PublishedBy(files, n - 1);
      assert FETCHES[..n][..n - 1] == FETCHES[..n - 1];
      hide FetchedAll;
      var before := FetchedAll(files, FETCHES[..n - 1]);
      FetchStep(files, n);
    }
  }

  lemma FetchStep(files: set<File>, n: nat)
    requires 0 < n <= 6
    ensures FetchedAll(files, FETCHES[..n]) == Fetched(FetchedAll(files, FETCHES[..n - 1]), FETCHES[n - 1])
  {
    hide Fetched;
    assert FETCHES[..n][..n - 1] == FETCHES[..n - 1];
  }
}
