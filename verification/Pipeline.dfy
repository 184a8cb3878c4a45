/** The whole way of a recorded stream: recorders that go on recording, a bucket,
    the reader's sync loop with whatever fails, and a follower of its catalog. */
module Pipeline {
  import opened Core
  import opened Codecs
  import opened Shuffle
  import opened Replay
  import opened Plan
  import opened Coverage
  import opened Recorder
  import opened Conservation
  import opened Idle
  import opened Archive
  import opened Fidelity
  import opened Faithful
  import opened Growth
  import opened Live
  import opened Follow
  import opened Tailing
  import opened Sync

  // ----- a follower that sees all that is sealed -----

  /** The catalogs are what the recorders have sealed, further at each turn. */
  ghost predicate Watches(f: Follower, cfg: WriterConfig, feed: Feed, extents: nat -> Extent, n: nat)
    requires cfg.Valid()
  {
    && (forall j, k, stream :: 0 <= j <= k <= n ==> extents(j)(stream) <= extents(k)(stream))
    && forall k :: 0 <= k <= n ==> Within(feed, extents(k)) && f.env(k).cat == LiveCatalog(f.c, cfg, feed, extents(k))
  }

  lemma WatchesAt(f: Follower, cfg: WriterConfig, feed: Feed, extents: nat -> Extent, n: nat, k: nat)
    requires cfg.Valid() && Watches(f, cfg, feed, extents, n) && k <= n
    ensures Within(feed, extents(k)) && f.env(k).cat == LiveCatalog(f.c, cfg, feed, extents(k))
    ensures k < n ==> forall stream :: extents(k)(stream) <= extents(k + 1)(stream)
  {
    hide LiveCatalog;
  }

  lemma WatchesUpward(f: Follower, cfg: WriterConfig, feed: Feed, extents: nat -> Extent, n: nat, k: nat)
    requires cfg.Valid() && Orderly(f.c, cfg, feed) && Clocked(feed) && Watches(f, cfg, feed, extents, n) && k < n
    ensures GrowsUpward(f.env(k).cat, f.env(k + 1).cat)
  {
    hide *;
    WatchesAt(f, cfg, feed, extents, n, k);
    WatchesAt(f, cfg, feed, extents, n, k + 1);
    LiveGrows(f.c, cfg, feed, extents(k), extents(k + 1));
  }

  lemma WatchesReads(f: Follower, cfg: WriterConfig, feed: Feed, extents: nat -> Extent, n: nat)
    requires cfg.Valid() && Watches(f, cfg, feed, extents, n)
    ensures Reads(f, cfg, feed, n)
  {
    hide LiveCatalog, CatalogFor, PartOf, Watches;
    forall k | 0 <= k <= n ensures PartOf(f.env(k).cat, CatalogFor(f.c, cfg, feed)) {
      WatchesAt(f, cfg, feed, extents, n, k);
      LiveIsPartial(f.c, cfg, feed, extents(k));
    }
  }

  lemma WatchesKeeps(f: Follower, cfg: WriterConfig, feed: Feed, extents: nat -> Extent, n: nat)
    requires cfg.Valid() && Orderly(f.c, cfg, feed) && Clocked(feed) && Watches(f, cfg, feed, extents, n)
    ensures KeepsChunks(f, n)
  {
    hide Orderly, Clocked, PartOf, GrowsUpward, Watches;
    forall k | 0 <= k < n ensures PartOf(f.env(k).cat, f.env(k + 1).cat) {
      WatchesUpward(f, cfg, feed, extents, n, k);
      UpwardIsPart(f.env(k).cat, f.env(k + 1).cat);
    }
  }

  /** New chunks above all those listed leave no gap. */
  lemma UpwardHasNoGap(f: Follower, cfg: WriterConfig, feed: Feed, k: nat, stream: Stream)
    requires cfg.Valid() && KeepsChunks(f, k) && GrowsUpward(f.env(k).cat, f.env(k + 1).cat)
    ensures NoGapAt(f, cfg, feed, stream, k)
  {
    KeptIsSeen(f, k, stream);
    assert TreeRises(TreeOf(f.env(k).cat, stream), TreeOf(f.env(k + 1).cat, stream));
    hide Offers, TreeOf, SeenBy, KeepsChunks, GrowsUpward;
  }

  lemma WatchesWithoutGaps(f: Follower, cfg: WriterConfig, feed: Feed, extents: nat -> Extent, n: nat, stream: Stream)
    requires cfg.Valid() && Orderly(f.c, cfg, feed) && Clocked(feed) && Watches(f, cfg, feed, extents, n)
    ensures NoGaps(f, cfg, feed, stream, n)
  {
    WatchesKeeps(f, cfg, feed, extents, n);
    hide Orderly, Clocked, Watches, NoGapAt, GrowsUpward, PartOf;
    forall k | 0 <= k < n ensures NoGapAt(f, cfg, feed, stream, k) {
      WatchesUpward(f, cfg, feed, extents, n, k);
      UpwardHasNoGap(f, cfg, feed, k, stream);
    }
  }

  lemma AscendingJoins(a: set<nat>, b: set<nat>)
    requires forall x, y :: x in a && y in b ==> x < y
    ensures Ascending(a + b) == Ascending(a) + Ascending(b)
  {
    hide Ascending;
    var left, right := Ascending(a), Ascending(b);
    forall i, j | 0 <= i < j < |left + right| ensures (left + right)[i] < (left + right)[j] {
      if i < |left| { assert left[i] in left; }
      if j >= |left| { assert right[j - |left|] in right; }
    }
    assert IsAscending(left + right);
    hide IsAscending;
    AscendingUnique(Ascending(a + b), left + right);
  }

  lemma {:induction false} HeldJoins(stream: Stream, content: Content, a: seq<nat>, b: seq<nat>)
    ensures HeldFrom(stream, content, a + b) == HeldFrom(stream, content, a) + HeldFrom(stream, content, b)
  {
    hide MessagesAt;
    if a == [] {
      assert a + b == b;
    } else {
      assert (a + b)[0] == a[0] && (a + b)[1..] == a[1..] + b;
      HeldJoins(stream, content, a[1..], b);
    }
  }

  /** What is sealed first is held first. */
  lemma HeldFirst(part: Catalog, whole: Catalog, content: Content, stream: Stream)
    requires GrowsUpward(part, whole)
    ensures HeldOf(part, content, stream) <= HeldOf(whole, content, stream)
  {
    var small, tree := TreeOf(part, stream), TreeOf(whole, stream);
    assert TreeRises(small, tree);
    var rest := tree.Keys - small.Keys;
    assert small.Keys + rest == tree.Keys;
    AscendingJoins(small.Keys, rest);
    hide HeldFrom, Ascending;
    HeldJoins(stream, content, Ascending(small.Keys), Ascending(rest));
  }

  /** A recorder's chunks so far hold the first part of what it is to keep, and all
      of it once it has stopped. */
  lemma SealedSoFar(c: Codec, cfg: WriterConfig, feed: Feed, extent: Extent, stream: Stream)
    requires c.Lawful() && cfg.Valid() && Orderly(c, cfg, feed) && Clocked(feed) && Within(feed, extent)
    ensures var kept := Told(cfg, feed, stream);
      var held := ArrivedIn(cfg, kept, TreeOf(LiveCatalog(c, cfg, feed, extent), stream).Keys);
      && held <= Arrived(kept)
      && (extent(stream) == |feed(stream)| + 1 ==> held == Arrived(kept))
  {
    hide HeldOf, LiveCatalog, CatalogFor, ContentFor, Orderly, Clocked, Arrived, ArrivedIn, NoStop, GrowsUpward, PartOf;
    hide SlotsRise, TreeOf, AcceptedFrom, StartsOf, Heard, Told;
    OrderlyStream(c, cfg, feed, stream);
    ToldIs(cfg, feed, stream);
    ArrivedIsAccepted(c, cfg, feed, stream);
    HeldInArchive(c, cfg, feed, stream);
    LiveIsPartial(c, cfg, feed, extent);
    LiveComesFirst(c, cfg, feed, extent);
    HeldFirst(LiveCatalog(c, cfg, feed, extent), CatalogFor(c, cfg, feed), ContentFor(cfg, feed), stream);
    HeldIsArrivedIn(c, cfg, feed, LiveCatalog(c, cfg, feed, extent), stream);
    if extent(stream) == |feed(stream)| + 1 {
      StoppedHolds(c, cfg, feed, extent, stream);
    }
  }

  lemma StoppedHolds(c: Codec, cfg: WriterConfig, feed: Feed, extent: Extent, stream: Stream)
    requires cfg.Valid() && Within(feed, extent) && extent(stream) == |feed(stream)| + 1
    ensures HeldOf(LiveCatalog(c, cfg, feed, extent), ContentFor(cfg, feed), stream)
      == HeldOf(CatalogFor(c, cfg, feed), ContentFor(cfg, feed), stream)
  {
    hide LiveCatalog, CatalogFor, HeldFrom, DiskAfter, TreeFor;
    LiveTree(c, cfg, feed, extent, stream);
    LiveTree(c, cfg, feed, AtTheStop(feed), stream);
    StoppedTree(c, cfg, feed, stream);
  }

  /** A reader on the recorder's own directory leaves no gap: after every drained
      turn its follower was sent exactly the matching messages of what is sealed
      by then, which is the first part of what the recorder is to keep, and all of
      it in the end. */
  lemma FollowsInStep(
      f: Follower, cfg: WriterConfig, feed: Feed, extents: nat -> Extent, first: ReplayPlan, deadline: nat, n: nat,
      stream: Stream)
    requires f.c.Lawful() && cfg.Valid() && Orderly(f.c, cfg, feed) && Clocked(feed)
    requires Watches(f, cfg, feed, extents, n)
    requires f.Valid() && Planned(f, first) && DrainsFor(f, Begin(first, deadline), n + 1) && Only(f.sub, stream)
    ensures var starts, kept := TreeOf(f.env(n).cat, stream).Keys, Told(cfg, feed, stream);
      var held := ArrivedIn(cfg, kept, starts);
      && SeenIn(After(f, Begin(first, deadline), n + 1).delivered) == Matching(f.c, cfg, feed, f.sub, stream, starts)
      && held <= Arrived(kept)
      && (extents(n)(stream) == |feed(stream)| + 1 ==> held == Arrived(kept))
      && (Arrived(kept) == Arrived(feed(stream)) <==> NoIdleGap(cfg, feed(stream)))
  {
    hide *;
    WatchesAt(f, cfg, feed, extents, n, n);
    WatchesReads(f, cfg, feed, extents, n);
    WatchesKeeps(f, cfg, feed, extents, n);
    WatchesWithoutGaps(f, cfg, feed, extents, n, stream);
    KeptIsSeen(f, n, stream);
    FollowsLiveRecorder(f, cfg, feed, first, deadline, n, stream);
    SealedSoFar(f.c, cfg, feed, extents(n), stream);
    ToldIs(cfg, feed, stream);
    HeardAll(f.c, cfg, feed, stream);
  }

  // ----- through the bucket and the reader's cache -----

  /** The catalog a scan finds when the chunks with these keys are whole. */
  function Shelf(archive: Catalog, keys: set<ChunkKey>): Catalog {
    Catalog(map stream | stream in archive.streams :: ShelfTree(archive.streams[stream], stream, keys))
  }

  function ShelfTree(tree: Tree, stream: Stream, keys: set<ChunkKey>): Tree {
    map s | s in tree && ChunkKey(stream, s, tree[s].endSlotExclusive) in keys :: tree[s]
  }

  lemma ShelfTreeIs(archive: Catalog, keys: set<ChunkKey>, stream: Stream)
    ensures TreeOf(Shelf(archive, keys), stream) == ShelfTree(TreeOf(archive, stream), stream, keys)
  {
  }

  lemma ShelfIsPart(archive: Catalog, keys: set<ChunkKey>)
    ensures PartOf(Shelf(archive, keys), archive)
  {
    hide Shelf;
    forall stream ensures TreePart(TreeOf(Shelf(archive, keys), stream), TreeOf(archive, stream)) {
      ShelfTreeIs(archive, keys, stream);
    }
  }

  /** The key of a chunk the catalog lists. */
  ghost predicate IsListed(cat: Catalog, k: ChunkKey) {
    k.startSlot in TreeOf(cat, k.stream) && TreeOf(cat, k.stream)[k.startSlot].endSlotExclusive == k.endSlot
  }

  /** Turn `k` looks at the cache after the first `at(k)` rounds of syncing; before
      any, at what a scan found at the start. */
  ghost predicate ReadsCache(
      f: Follower, cfg: WriterConfig, feed: Feed, files: set<CacheFile>, rounds: seq<Round>, hours: nat,
      at: nat -> nat, n: nat)
    requires cfg.Valid()
  {
    && (forall j, k :: 0 <= j <= k <= n ==> at(j) <= at(k) <= |rounds|)
    && forall k :: 0 <= k <= n ==>
         f.env(k).cat == Shelf(CatalogFor(f.c, cfg, feed), Whole(RunRounds(files, rounds[..at(k)], hours)))
  }

  lemma CacheAt(
      f: Follower, cfg: WriterConfig, feed: Feed, files: set<CacheFile>, rounds: seq<Round>, hours: nat,
      at: nat -> nat, n: nat, k: nat)
    requires cfg.Valid() && ReadsCache(f, cfg, feed, files, rounds, hours, at, n) && k <= n
    ensures at(k) <= |rounds| && (k < n ==> at(k) <= at(k + 1))
    ensures f.env(k).cat == Shelf(CatalogFor(f.c, cfg, feed), Whole(RunRounds(files, rounds[..at(k)], hours)))
  {
    hide Shelf, Whole, RunRounds, CatalogFor;
  }

  lemma CacheReads(
      f: Follower, cfg: WriterConfig, feed: Feed, files: set<CacheFile>, rounds: seq<Round>, hours: nat,
      at: nat -> nat, n: nat)
    requires cfg.Valid() && ReadsCache(f, cfg, feed, files, rounds, hours, at, n)
    ensures Reads(f, cfg, feed, n)
  {
    hide Shelf, Whole, RunRounds, CatalogFor, PartOf, ReadsCache;
    forall k | 0 <= k <= n ensures PartOf(f.env(k).cat, CatalogFor(f.c, cfg, feed)) {
      CacheAt(f, cfg, feed, files, rounds, hours, at, n, k);
      ShelfIsPart(CatalogFor(f.c, cfg, feed), Whole(RunRounds(files, rounds[..at(k)], hours)));
    }
  }

  /** While the bucket only ever held sealed chunks, only sealed chunks are
      served, whatever failed. */
  lemma ServedIsSealed(
      c: Codec, cfg: WriterConfig, feed: Feed, extent: Extent, files: set<CacheFile>, rounds: seq<Round>, hours: nat)
    requires cfg.Valid() && Within(feed, extent)
    requires rounds != [] && LocalChunks(files) <= rounds[0].remote && RemoteGrows(rounds)
    requires forall k :: k in rounds[|rounds| - 1].remote ==> IsListed(LiveCatalog(c, cfg, feed, extent), k)
    ensures PartOf(
      Shelf(CatalogFor(c, cfg, feed), Whole(RunRounds(files, rounds, hours))), LiveCatalog(c, cfg, feed, extent))
  {
    var archive, live := CatalogFor(c, cfg, feed), LiveCatalog(c, cfg, feed, extent);
    var keys := Whole(RunRounds(files, rounds, hours));
    hide CatalogFor, LiveCatalog, Whole, RunRounds, Shelf, PartOf, LocalChunks;
    RunStaysRemote(files, rounds, hours);
    WholeIsLocal(RunRounds(files, rounds, hours));
    LiveIsPartial(c, cfg, feed, extent);
    ListedShelf(archive, live, keys);
  }

  lemma ListedShelf(archive: Catalog, part: Catalog, keys: set<ChunkKey>)
    requires PartOf(part, archive) && forall k :: k in keys ==> IsListed(part, k)
    ensures PartOf(Shelf(archive, keys), part)
  {
    hide Shelf, TreeOf;
    forall stream ensures TreePart(TreeOf(Shelf(archive, keys), stream), TreeOf(part, stream)) {
      ShelfTreeIs(archive, keys, stream);
      assert TreePart(TreeOf(part, stream), TreeOf(archive, stream));
      var tree := TreeOf(archive, stream);
      forall s | s in ShelfTree(tree, stream, keys)
        ensures s in TreeOf(part, stream) && TreeOf(part, stream)[s] == tree[s]
      {
        assert IsListed(part, ChunkKey(stream, s, tree[s].endSlotExclusive));
      }
    }
  }

  /** Of every stream, chunks reach the bucket in slot order. */
  ghost predicate BucketRises(rounds: seq<Round>) {
    && RemoteGrows(rounds)
    && forall i, j, a, b |
         0 <= i < j < |rounds| && a in rounds[i].remote && b in rounds[j].remote && b !in rounds[i].remote ::
         a.stream == b.stream ==> a.startSlot < b.startSlot
  }

  ghost predicate NothingFails(rounds: seq<Round>) {
    forall i :: 0 <= i < |rounds| ==> rounds[i].trouble == NO_TROUBLE
  }

  /** All that is held at first is in the bucket, and whole as far as its window
      goes; an empty cache, for one. */
  ghost predicate StartsInSync(files: set<CacheFile>, rounds: seq<Round>, hours: nat) {
    rounds != [] && LocalChunks(files) <= rounds[0].remote && WindowIsWhole(files, rounds[0].remote, hours)
  }

  ghost predicate SmoothSync(files: set<CacheFile>, rounds: seq<Round>, hours: nat) {
    StartsInSync(files, rounds, hours) && BucketRises(rounds) && NothingFails(rounds)
  }

  lemma SmoothIsSound(files: set<CacheFile>, rounds: seq<Round>, hours: nat)
    requires SmoothSync(files, rounds, hours)
    ensures StartsInSync(files, rounds, hours) && BucketRises(rounds) && NothingFails(rounds) && RemoteGrows(rounds)
  {
    hide StartsInSync, NothingFails;
  }

  /** Without failures the cache is the window of the bucket after every round. */
  lemma ServesTheWindow(files: set<CacheFile>, rounds: seq<Round>, hours: nat, m: nat)
    requires 0 < m <= |rounds|
    requires StartsInSync(files, rounds, hours) && RemoteGrows(rounds) && NothingFails(rounds)
    ensures Whole(RunRounds(files, rounds[..m], hours)) == Window(rounds[m - 1].remote, hours)
  {
    hide RunRounds, Whole, Window, LocalChunks, WindowIsWhole;
    RunsServeTheWindow(files, rounds[..m], hours);
  }

  lemma {:induction false} SeenWasRemote(
      f: Follower, cfg: WriterConfig, feed: Feed, files: set<CacheFile>, rounds: seq<Round>, hours: nat,
      at: nat -> nat, n: nat, k: nat, stream: Stream, s: nat)
    requires cfg.Valid() && ReadsCache(f, cfg, feed, files, rounds, hours, at, n) && k <= n
    requires StartsInSync(files, rounds, hours) && RemoteGrows(rounds) && NothingFails(rounds)
    requires Whole(files) == {} || at(0) > 0
    requires s in TreeOf(SeenBy(f, k), stream)
    ensures at(k) > 0 && exists e :: ChunkKey(stream, s, e) in rounds[at(k) - 1].remote
  {
    hide *;
    CacheAt(f, cfg, feed, files, rounds, hours, at, n, k);
    if s in TreeOf(f.env(k).cat, stream) {
      ListedAfterSome(f, cfg, feed, files, rounds, hours, at, n, k, stream, s);
      ServesTheWindow(files, rounds, hours, at(k));
      ListedIsKept(CatalogFor(f.c, cfg, feed), Whole(RunRounds(files, rounds[..at(k)], hours)), stream, s);
      var e :| ChunkKey(stream, s, e) in Whole(RunRounds(files, rounds[..at(k)], hours));
      InWindow(rounds[at(k) - 1].remote, hours, ChunkKey(stream, s, e));
    } else {
      SeenBefore(f, k, stream, s);
      CacheAt(f, cfg, feed, files, rounds, hours, at, n, k - 1);
      SeenWasRemote(f, cfg, feed, files, rounds, hours, at, n, k - 1, stream, s);
      var e :| ChunkKey(stream, s, e) in rounds[at(k - 1) - 1].remote;
      GrownRemote(rounds, at(k - 1) - 1, at(k) - 1, ChunkKey(stream, s, e));
    }
  }

  /** An empty cache lists nothing. */
  lemma ListedAfterSome(
      f: Follower, cfg: WriterConfig, feed: Feed, files: set<CacheFile>, rounds: seq<Round>, hours: nat,
      at: nat -> nat, n: nat, k: nat, stream: Stream, s: nat)
    requires cfg.Valid() && ReadsCache(f, cfg, feed, files, rounds, hours, at, n) && k <= n
    requires Whole(files) == {} || at(0) > 0
    requires s in TreeOf(f.env(k).cat, stream)
    ensures at(k) > 0
  {
    hide *;
    CacheAt(f, cfg, feed, files, rounds, hours, at, n, k);
    OnwardFromStart(f, cfg, feed, files, rounds, hours, at, n, k);
    if at(k) == 0 {
      NoRounds(files, rounds, hours);
      ListedIsKept(CatalogFor(f.c, cfg, feed), Whole(RunRounds(files, rounds[..at(k)], hours)), stream, s);
    }
  }

  lemma NoRounds(files: set<CacheFile>, rounds: seq<Round>, hours: nat)
    ensures RunRounds(files, rounds[..0], hours) == files
  {
  }

  lemma OnwardFromStart(
      f: Follower, cfg: WriterConfig, feed: Feed, files: set<CacheFile>, rounds: seq<Round>, hours: nat,
      at: nat -> nat, n: nat, k: nat)
    requires cfg.Valid() && ReadsCache(f, cfg, feed, files, rounds, hours, at, n) && k <= n
    ensures at(0) <= at(k)
  {
    hide Shelf, Whole, RunRounds, CatalogFor;
  }

  lemma InWindow(remote: set<ChunkKey>, hours: nat, k: ChunkKey)
    ensures k in Window(remote, hours) ==> k in remote
  {
  }

  lemma GrownRemote(rounds: seq<Round>, i: nat, j: nat, k: ChunkKey)
    requires RemoteGrows(rounds) && i <= j < |rounds| && k in rounds[i].remote
    ensures k in rounds[j].remote
  {
  }

  lemma SeenBefore(f: Follower, k: nat, stream: Stream, s: nat)
    requires s in TreeOf(SeenBy(f, k), stream) && s !in TreeOf(f.env(k).cat, stream)
    ensures k > 0 && s in TreeOf(SeenBy(f, k - 1), stream)
  {
    if k > 0 {
      hide Both, TreeOf;
      BothTree(SeenBy(f, k - 1), f.env(k).cat, stream);
    }
  }

  lemma ListedIsKept(archive: Catalog, keys: set<ChunkKey>, stream: Stream, s: nat)
    requires s in TreeOf(Shelf(archive, keys), stream)
    ensures s in TreeOf(archive, stream)
    ensures ChunkKey(stream, s, TreeOf(archive, stream)[s].endSlotExclusive) in keys
    ensures exists e :: ChunkKey(stream, s, e) in keys
  {
    hide Shelf, TreeOf;
    ShelfTreeIs(archive, keys, stream);
  }

  /** A chunk that turn `k + 1` is the first to list was not in the bucket when
      turn `k` looked. */
  lemma NewIsNewRemote(
      f: Follower, cfg: WriterConfig, feed: Feed, files: set<CacheFile>, rounds: seq<Round>, hours: nat,
      at: nat -> nat, n: nat, k: nat, stream: Stream, t: nat)
    returns (e: nat)
    requires cfg.Valid() && ReadsCache(f, cfg, feed, files, rounds, hours, at, n) && k < n
    requires StartsInSync(files, rounds, hours) && RemoteGrows(rounds) && NothingFails(rounds) && at(k) > 0
    requires t in TreeOf(f.env(k + 1).cat, stream) && t !in TreeOf(f.env(k).cat, stream)
    ensures at(k) < at(k + 1)
    ensures ChunkKey(stream, t, e) in rounds[at(k + 1) - 1].remote
    ensures ChunkKey(stream, t, e) !in rounds[at(k) - 1].remote
  {
    hide *;
    var archive := CatalogFor(f.c, cfg, feed);
    CacheAt(f, cfg, feed, files, rounds, hours, at, n, k);
    CacheAt(f, cfg, feed, files, rounds, hours, at, n, k + 1);
    ServesTheWindow(files, rounds, hours, at(k));
    ServesTheWindow(files, rounds, hours, at(k + 1));
    ListedIsKept(archive, Whole(RunRounds(files, rounds[..at(k + 1)], hours)), stream, t);
    e := TreeOf(archive, stream)[t].endSlotExclusive;
    var key, low, high := ChunkKey(stream, t, e), rounds[at(k) - 1].remote, rounds[at(k + 1) - 1].remote;
    InWindow(high, hours, key);
    NotShelved(archive, Window(low, hours), stream, t);
    RemoteOnward(rounds, at(k) - 1, at(k + 1) - 1);
    if key in low { OldWindow(low, high, hours, key); }
  }

  lemma RemoteOnward(rounds: seq<Round>, i: nat, j: nat)
    requires RemoteGrows(rounds) && i <= j < |rounds|
    ensures rounds[i].remote <= rounds[j].remote
  {
  }

  lemma NotShelved(archive: Catalog, keys: set<ChunkKey>, stream: Stream, t: nat)
    requires t in TreeOf(archive, stream) && t !in TreeOf(Shelf(archive, keys), stream)
    ensures ChunkKey(stream, t, TreeOf(archive, stream)[t].endSlotExclusive) !in keys
  {
    hide Shelf, TreeOf;
    ShelfTreeIs(archive, keys, stream);
  }

  lemma RisesBetween(rounds: seq<Round>, i: nat, j: nat, a: ChunkKey, b: ChunkKey)
    requires BucketRises(rounds) && i < j < |rounds| && a.stream == b.stream
    requires a in rounds[i].remote && b in rounds[j].remote && b !in rounds[i].remote
    ensures a.startSlot < b.startSlot
  {
  }

  /** When chunks reach the bucket in slot order and nothing fails, retention may
      sweep what it likes: there is no gap, for a follower that starts after the
      first round or from an empty cache. */
  lemma SmoothSyncHasNoGap(
      f: Follower, cfg: WriterConfig, feed: Feed, files: set<CacheFile>, rounds: seq<Round>, hours: nat,
      at: nat -> nat, n: nat, stream: Stream)
    requires cfg.Valid() && ReadsCache(f, cfg, feed, files, rounds, hours, at, n)
    requires SmoothSync(files, rounds, hours) && (Whole(files) == {} || at(0) > 0)
    ensures NoGaps(f, cfg, feed, stream, n)
  {
    hide *;
    SmoothIsSound(files, rounds, hours);
    forall k | 0 <= k < n ensures NoGapAt(f, cfg, feed, stream, k) {
      forall s, t | NewAfter(f, cfg, feed, stream, k, s, t) ensures s < t {
        GapIs(f, cfg, feed, stream, k, s, t);
        SeenHasCurrent(f, k, stream, t);
        SeenWasRemote(f, cfg, feed, files, rounds, hours, at, n, k, stream, s);
        var e := NewIsNewRemote(f, cfg, feed, files, rounds, hours, at, n, k, stream, t);
        CacheAt(f, cfg, feed, files, rounds, hours, at, n, k);
        CacheAt(f, cfg, feed, files, rounds, hours, at, n, k + 1);
        var d :| ChunkKey(stream, s, d) in rounds[at(k) - 1].remote;
        RisesBetween(rounds, at(k) - 1, at(k + 1) - 1, ChunkKey(stream, s, d), ChunkKey(stream, t, e));
      }
      NoGapIs(f, cfg, feed, stream, k);
    }
    NoGapsIf(f, cfg, feed, stream, n);
  }

  lemma NoGapsIf(f: Follower, cfg: WriterConfig, feed: Feed, stream: Stream, n: nat)
    requires cfg.Valid() && forall k :: 0 <= k < n ==> NoGapAt(f, cfg, feed, stream, k)
    ensures NoGaps(f, cfg, feed, stream, n)
  {
    hide NoGapAt;
  }

  lemma SeenHasCurrent(f: Follower, k: nat, stream: Stream, t: nat)
    ensures t !in TreeOf(SeenBy(f, k), stream) ==> t !in TreeOf(f.env(k).cat, stream)
  {
    if k > 0 {
      hide Both, TreeOf;
      BothTree(SeenBy(f, k - 1), f.env(k).cat, stream);
    }
  }

  /** From the recorder to the subscriber, through a bucket and a cache that
      syncs with it, whatever fails: of one stream recorded in slot order nothing
      is sent twice or out of arrival order; all that was listed and matches is
      sent exactly if no chunk with anything wanted came after a higher one; and
      none does when chunks reach the bucket in slot order and nothing fails. */
  lemma FollowsThroughSync(
      f: Follower, cfg: WriterConfig, feed: Feed, files: set<CacheFile>, rounds: seq<Round>, hours: nat,
      at: nat -> nat, first: ReplayPlan, deadline: nat, n: nat, stream: Stream)
    requires f.c.Lawful() && cfg.Valid() && Orderly(f.c, cfg, feed)
    requires ReadsCache(f, cfg, feed, files, rounds, hours, at, n)
    requires f.Valid() && Planned(f, first) && DrainsFor(f, Begin(first, deadline), n + 1) && Only(f.sub, stream)
    ensures var sent := SeenIn(After(f, Begin(first, deadline), n + 1).delivered);
      var all := Matching(f.c, cfg, feed, f.sub, stream, TreeOf(SeenBy(f, n), stream).Keys);
      && Sub(sent, all)
      && (sent == all <==> NoGaps(f, cfg, feed, stream, n))
      && (SmoothSync(files, rounds, hours) && (Whole(files) == {} || at(0) > 0) ==> sent == all)
  {
    hide *;
    CacheReads(f, cfg, feed, files, rounds, hours, at, n);
    FollowsLiveRecorder(f, cfg, feed, first, deadline, n, stream);
    if SmoothSync(files, rounds, hours) && (Whole(files) == {} || at(0) > 0) {
      SmoothSyncHasNoGap(f, cfg, feed, files, rounds, hours, at, n, stream);
    }
  }
}
