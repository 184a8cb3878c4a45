/** The bucket in between: each chunk's objects as its uploader leaves them, listed
    and fetched by the reader at moments of its choice; what the cache holds is,
    byte for byte, what was sealed. */
module Objects {
  import opened Core
  import opened Updates
  import opened Cursor
  import opened Plan
  import opened Lifecycle
  import opened Sync
  import opened Pipeline

  // ----- the life of each chunk, and when the reader looks -----

  /** What happens to the files and objects of each chunk. */
  type Lives = ChunkKey -> seq<Action>

  function StateAt(lives: Lives, k: ChunkKey, n: nat): RangeState
    requires n <= |lives(k)|
  {
    RunFiles(START, lives(k)[..n])
  }

  /** One cycle of the reader: how far each chunk's life is when the bucket is
      listed and when each file is fetched, and what fails. */
  datatype Visit = Visit(listedAt: ChunkKey -> nat, readAt: CacheFile -> nat, trouble: FileTrouble)

  /** Files are fetched after the listing; later cycles list later; no evicted
      range is opened again. */
  ghost predicate Possible(lives: Lives, visits: seq<Visit>) {
    && (forall k :: NeverReopens(START, lives(k)))
    && (forall i, f: CacheFile :: 0 <= i < |visits| ==>
          visits[i].listedAt(f.key) <= visits[i].readAt(f) <= |lives(f.key)|)
    && (forall i, k :: 0 <= i < |visits| ==> visits[i].listedAt(k) <= |lives(k)|)
    && (forall i, j, k :: 0 <= i < j < |visits| ==> visits[i].listedAt(k) <= visits[j].listedAt(k))
  }

  /** A listing names the chunks all of whose objects are there. */
  predicate IsComplete(lives: Lives, k: ChunkKey, n: nat) {
    && n <= |lives(k)|
    && var remote := StateAt(lives, k, n).remote; Zst in remote && Idx in remote && Meta in remote
  }

  function Listing(lives: Lives, keys: set<ChunkKey>, v: Visit): set<ChunkKey> {
    set k | k in keys && IsComplete(lives, k, v.listedAt(k))
  }

  function RoundsOf(lives: Lives, keys: set<ChunkKey>, visits: seq<Visit>): seq<Round> {
    if visits == [] then []
    else
      var n := |visits| - 1;
      RoundsOf(lives, keys, visits[..n]) + [Round(Listing(lives, keys, visits[n]), visits[n].trouble)]
  }

  // ----- the cache with the generations its files are of -----

  /** What a fetch at this moment gives. */
  function ObjectAt(lives: Lives, f: CacheFile, n: nat): Option<nat> {
    if n <= |lives(f.key)| && f.ext in StateAt(lives, f.key, n).remote
    then Some(StateAt(lives, f.key, n).remote[f.ext])
    else None
  }

  /** The files fetched in a cycle, over those there were. */
  function Got(files: set<CacheFile>, remote: set<ChunkKey>, hours: nat, t: FileTrouble): set<CacheFile> {
    Fetches(Needed(LocalChunks(files), remote, hours), t.lost)
  }

  function Copies(lives: Lives, keys: set<ChunkKey>, visits: seq<Visit>, hours: nat): map<CacheFile, Option<nat>> {
    if visits == [] then map[]
    else
      var n := |visits| - 1;
      var before, v := Copies(lives, keys, visits[..n], hours), visits[n];
      var remote := Listing(lives, keys, v);
      map f | f in FilesCycle(before.Keys, remote, hours, v.trouble) ::
        if f in Got(before.Keys, remote, hours, v.trouble) then ObjectAt(lives, f, v.readAt(f))
        else if f in before then before[f] else None
  }

  lemma {:induction false} RoundsSplit(lives: Lives, keys: set<ChunkKey>, visits: seq<Visit>)
    ensures var rounds := RoundsOf(lives, keys, visits);
      && |rounds| == |visits|
      && forall i :: 0 <= i < |visits| ==> rounds[i] == Round(Listing(lives, keys, visits[i]), visits[i].trouble)
    ensures visits != [] ==>
      RoundsOf(lives, keys, visits)[..|visits| - 1] == RoundsOf(lives, keys, visits[..|visits| - 1])
  {
    hide Listing;
    if visits != [] { RoundsSplit(lives, keys, visits[..|visits| - 1]); }
  }

  /** The files are those of the cache model. */
  lemma {:induction false} CopiesAreFiles(lives: Lives, keys: set<ChunkKey>, visits: seq<Visit>, hours: nat)
    ensures Copies(lives, keys, visits, hours).Keys == RunRounds({}, RoundsOf(lives, keys, visits), hours)
  {
    if visits == [] {
      assert RoundsOf(lives, keys, visits) == [];
    } else {
      var n := |visits| - 1;
      CopiesAreFiles(lives, keys, visits[..n], hours);
      RoundsSplit(lives, keys, visits);
      hide FilesCycle, Listing, Got, ObjectAt, RoundsOf;
    }
  }

  // ----- one generation, everywhere and forever -----

  lemma AllowedAt(s: RangeState, acts: seq<Action>, n: nat)
    requires NeverReopens(s, acts) && n < |acts|
    ensures Allowed(RunFiles(s, acts[..n]), acts[n])
    ensures RunFiles(s, acts[..n + 1]) == Apply(RunFiles(s, acts[..n]), acts[n])
    ensures NeverReopens(s, acts[..n])
  {
    hide Apply, Allowed;
    assert acts[..n + 1][..n] == acts[..n];
    forall k | 0 <= k < n ensures Allowed(RunFiles(s, acts[..n][..k]), acts[..n][k]) {
      assert acts[..n][..k] == acts[..k];
      assert Allowed(RunFiles(s, acts[..k]), acts[k]);
    }
  }

  /** Once sealed, a range has one generation. */
  lemma {:induction false} SealedOn(acts: seq<Action>, i: nat, j: nat, g: nat)
    requires NeverReopens(START, acts) && i <= j <= |acts| && SealedAs(RunFiles(START, acts[..i]), g)
    ensures SealedAs(RunFiles(START, acts[..j]), g)
  {
    hide SealedAs, Apply, RunFiles, NeverReopens, Allowed, START;
    if i < j {
      SealedOn(acts, i, j - 1, g);
      AllowedAt(START, acts, j - 1);
      SealedStep(RunFiles(START, acts[..j - 1]), g, acts[j - 1]);
    }
  }

  /** Objects are never removed. */
  lemma StepKeepsObjects(s: RangeState, a: Action, ext: Ext)
    requires ext in s.remote
    ensures ext in Apply(s, a).remote
  {
  }

  lemma {:induction false} ObjectsStay(acts: seq<Action>, i: nat, j: nat, ext: Ext)
    requires i <= j <= |acts| && ext in RunFiles(START, acts[..i]).remote
    ensures ext in RunFiles(START, acts[..j]).remote
  {
    hide Apply, START;
    if i < j {
      ObjectsStay(acts, i, j - 1, ext);
      assert acts[..j][..j - 1] == acts[..j - 1];
      StepKeepsObjects(RunFiles(START, acts[..j - 1]), acts[j - 1], ext);
    }
  }

  lemma {:induction false} PrefixNeverReopens(acts: seq<Action>, i: nat)
    requires NeverReopens(START, acts) && i <= |acts|
    ensures NeverReopens(START, acts[..i])
  {
    hide RunFiles, Allowed, START;
    forall k | 0 <= k < i ensures Allowed(RunFiles(START, acts[..i][..k]), acts[..i][k]) {
      assert acts[..i][..k] == acts[..k];
      assert Allowed(RunFiles(START, acts[..k]), acts[k]);
    }
  }

  /** A range with a sidecar in the bucket was sealed. */
  lemma RemoteIsSealed(acts: seq<Action>, i: nat) returns (g: nat)
    requires NeverReopens(START, acts) && i <= |acts| && Meta in RunFiles(START, acts[..i]).remote
    ensures SealedAs(RunFiles(START, acts[..i]), g)
  {
    PrefixNeverReopens(acts, i);
    StartsWell();
    hide RunFiles, NeverReopens, SealedAs, START;
    RunKeepsInv(START, acts[..i]);
    g :| SealedAs(RunFiles(START, acts[..i]), g);
  }

  lemma SealedTrio(s: RangeState, g: nat)
    requires SealedAs(s, g) && Meta in s.remote
    ensures RemoteTrio(s, g) && s.sealed == {g}
  {
  }

  /** The one generation a chunk was ever sealed in. */
  ghost predicate IsGeneration(lives: Lives, k: ChunkKey, g: nat) {
    StateAt(lives, k, |lives(k)|).sealed == {g}
  }

  /** Whatever is fetched of a listed chunk, whenever, is of the generation that
      was sealed. */
  lemma FetchedIsSealed(lives: Lives, f: CacheFile, listed: nat, read: nat) returns (g: nat)
    requires NeverReopens(START, lives(f.key)) && listed <= read <= |lives(f.key)|
    requires IsComplete(lives, f.key, listed)
    ensures IsGeneration(lives, f.key, g) && ObjectAt(lives, f, read) == Some(g)
  {
    var acts := lives(f.key);
    hide RunFiles, NeverReopens, SealedAs, START;
    g := RemoteIsSealed(acts, listed);
    SealedOn(acts, listed, read, g);
    SealedOn(acts, listed, |acts|, g);
    ObjectsStay(acts, listed, read, Meta);
    ObjectsStay(acts, listed, |acts|, Meta);
    SealedTrio(RunFiles(START, acts[..read]), g);
    SealedTrio(RunFiles(START, acts[..|acts|]), g);
    assert f.ext.Zst? || f.ext.Idx? || f.ext.Meta?;
  }

  // ----- what the cache holds -----

  lemma CycleIsOldOrGot(files: set<CacheFile>, remote: set<ChunkKey>, hours: nat, t: FileTrouble, f: CacheFile)
    requires f in FilesCycle(files, remote, hours, t)
    ensures f in files || f in Got(files, remote, hours, t)
    ensures f in Got(files, remote, hours, t) ==> f.key in remote
  {
    FetchedFile(Needed(LocalChunks(files), remote, hours), t.lost, f);
    hide Fetches, LocalChunks, Cutoff;
  }

  lemma FewerVisits(lives: Lives, visits: seq<Visit>)
    requires Possible(lives, visits) && visits != []
    ensures Possible(lives, visits[..|visits| - 1])
  {
    hide NeverReopens;
  }

  lemma VisitAt(lives: Lives, visits: seq<Visit>, i: nat, f: CacheFile)
    requires Possible(lives, visits) && i < |visits|
    ensures NeverReopens(START, lives(f.key))
    ensures visits[i].listedAt(f.key) <= visits[i].readAt(f) <= |lives(f.key)|
  {
    hide NeverReopens;
  }

  lemma CopyIs(lives: Lives, keys: set<ChunkKey>, visits: seq<Visit>, hours: nat, f: CacheFile)
    requires visits != [] && f in Copies(lives, keys, visits, hours)
    ensures var n := |visits| - 1;
      var before, v := Copies(lives, keys, visits[..n], hours), visits[n];
      var remote := Listing(lives, keys, v);
      && f in FilesCycle(before.Keys, remote, hours, v.trouble)
      && Copies(lives, keys, visits, hours)[f]
        == if f in Got(before.Keys, remote, hours, v.trouble) then ObjectAt(lives, f, v.readAt(f))
           else if f in before then before[f] else None
  {
    hide FilesCycle, Got, Listing, ObjectAt;
  }

  /** Every file in the cache is of the generation that was sealed. */
  lemma {:induction false} CopiesAreSealed(
      lives: Lives, keys: set<ChunkKey>, visits: seq<Visit>, hours: nat, f: CacheFile)
    returns (g: nat)
    requires Possible(lives, visits) && f in Copies(lives, keys, visits, hours)
    ensures IsGeneration(lives, f.key, g) && Copies(lives, keys, visits, hours)[f] == Some(g)
  {
    if visits == [] {
      assert false;
    } else {
      var n := |visits| - 1;
      hide Possible, Copies, FilesCycle, Got, ObjectAt, IsGeneration, NeverReopens, START, IsComplete;
      CopyIs(lives, keys, visits, hours, f);
      FewerVisits(lives, visits);
      VisitAt(lives, visits, n, f);
      var before, v := Copies(lives, keys, visits[..n], hours), visits[n];
      CycleIsOldOrGot(before.Keys, Listing(lives, keys, v), hours, v.trouble, f);
      if f in Got(before.Keys, Listing(lives, keys, v), hours, v.trouble) {
        g := FetchedIsSealed(lives, f, v.listedAt(f.key), v.readAt(f));
      } else {
        g := CopiesAreSealed(lives, keys, visits[..n], hours, f);
      }
    }
  }

  lemma OneGeneration(lives: Lives, k: ChunkKey, a: nat, b: nat)
    requires IsGeneration(lives, k, a) && IsGeneration(lives, k, b)
    ensures a == b
  {
    hide StateAt;
    assert a in {b};
  }

  /** The bucket only grows. */
  lemma BucketGrows(lives: Lives, keys: set<ChunkKey>, visits: seq<Visit>)
    requires Possible(lives, visits)
    ensures RemoteGrows(RoundsOf(lives, keys, visits))
  {
    RoundsSplit(lives, keys, visits);
    hide RoundsOf, NeverReopens, StateAt;
    var rounds := RoundsOf(lives, keys, visits);
    forall i, j | 0 <= i < j < |rounds| ensures rounds[i].remote <= rounds[j].remote {
      forall k | k in rounds[i].remote ensures k in rounds[j].remote {
        StaysComplete(lives, k, visits[i].listedAt(k), visits[j].listedAt(k));
      }
    }
  }

  lemma StaysComplete(lives: Lives, k: ChunkKey, i: nat, j: nat)
    requires IsComplete(lives, k, i) && i <= j <= |lives(k)|
    ensures IsComplete(lives, k, j)
  {
    hide RunFiles, START;
    ObjectsStay(lives(k), i, j, Zst);
    ObjectsStay(lives(k), i, j, Idx);
    ObjectsStay(lives(k), i, j, Meta);
  }

  // ----- byte for byte -----

  /** What the files of each generation contain. */
  datatype Contents = Contents(
    zst: (ChunkKey, nat) -> Bytes, idx: (ChunkKey, nat) -> Bytes, meta: (ChunkKey, nat) -> ChunkMeta)
  {
    /** The entry a scan makes of three files, of whatever generations. */
    function EntryFrom(k: ChunkKey, payload: nat, index: nat, sidecar: nat): ChunkEntry {
      ChunkEntry(
        k.stream, k.startSlot, k.endSlot, zst(k, payload), idx(k, index), meta(k, sidecar))
    }
  }

  /** The archive lists each chunk as it was sealed. */
  ghost predicate Archives(o: Contents, lives: Lives, keys: set<ChunkKey>, archive: Catalog) {
    forall k, g :: k in keys && IsGeneration(lives, k, g) ==>
      IsListed(archive, k) && TreeOf(archive, k.stream)[k.startSlot] == o.EntryFrom(k, g, g, g)
  }

  lemma {:induction false} OnlyKnownKeys(
      lives: Lives, keys: set<ChunkKey>, visits: seq<Visit>, hours: nat, f: CacheFile)
    requires f in Copies(lives, keys, visits, hours)
    ensures f.key in keys
  {
    if visits != [] {
      var n := |visits| - 1;
      hide Copies, FilesCycle, Got, ObjectAt, IsComplete;
      CopyIs(lives, keys, visits, hours, f);
      var before, v := Copies(lives, keys, visits[..n], hours), visits[n];
      CycleIsOldOrGot(before.Keys, Listing(lives, keys, v), hours, v.trouble, f);
      if f !in Got(before.Keys, Listing(lives, keys, v), hours, v.trouble) {
        OnlyKnownKeys(lives, keys, visits[..n], hours, f);
      }
    }
  }

  /** From disk to bucket to cache, whatever is lost on the way, interrupted or
      done again: the catalog a scan of the cache finds, entry by entry from the
      bytes that are there, is the part of the archive whose chunks are whole in
      it. */
  lemma ServedAsSealed(
      o: Contents, lives: Lives, keys: set<ChunkKey>, visits: seq<Visit>, hours: nat, archive: Catalog, k: ChunkKey)
    requires Possible(lives, visits) && Archives(o, lives, keys, archive)
    requires k in Whole(RunRounds({}, RoundsOf(lives, keys, visits), hours))
    ensures var copies := Copies(lives, keys, visits, hours);
      var shelf := Shelf(archive, Whole(RunRounds({}, RoundsOf(lives, keys, visits), hours)));
      && (forall f :: f in Trio(k) ==> f in copies && copies[f].Some?)
      && k.startSlot in TreeOf(shelf, k.stream)
      && TreeOf(shelf, k.stream)[k.startSlot]
        == o.EntryFrom(
          k, copies[CacheFile(k, Zst)].value, copies[CacheFile(k, Idx)].value, copies[CacheFile(k, Meta)].value)
  {
    var files := RunRounds({}, RoundsOf(lives, keys, visits), hours);
    HasFile(files, k);
    CopiesAreFiles(lives, keys, visits, hours);
    hide Possible, Copies, RunRounds, RoundsOf, Whole, Shelf, TreeOf, IsGeneration;
    var a := CopiesAreSealed(lives, keys, visits, hours, CacheFile(k, Zst));
    var b := CopiesAreSealed(lives, keys, visits, hours, CacheFile(k, Idx));
    var c := CopiesAreSealed(lives, keys, visits, hours, CacheFile(k, Meta));
    OneGeneration(lives, k, a, b);
    OneGeneration(lives, k, a, c);
    OnlyKnownKeys(lives, keys, visits, hours, CacheFile(k, Zst));
    assert IsListed(archive, k);
    ShelfTreeIs(archive, Whole(files), k.stream);
  }
}
