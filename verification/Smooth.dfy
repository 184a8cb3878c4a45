/** The same three chunks when nothing goes wrong: through a bucket they reach in
    slot order, and from the recorder's own directory. */
module Smooth {
  import opened Core
  import opened Replay
  import opened Plan
  import opened Recorder
  import opened Conservation
  import opened Idle
  import opened Archive
  import opened Faithful
  import opened Growth
  import opened Follow
  import opened Live
  import opened Tailing
  import opened Sync
  import opened Pipeline
  import opened Instance
  import opened Witness
  import opened Three

  lemma AllOfThree(starts: set<nat>)
    requires 0 in starts && 16 in starts && 32 in starts
    ensures RECORDER.Valid()
    ensures Matching(TreeCodec(), RECORDER, Fed(THREE), SUBSCRIPTION, Tx, starts)
      == [SeenAs(10), SeenAs(26), SeenAs(42)]
  {
    hide *;
    MatchingOfThree(starts);
    assert [SeenAs(10)] + [SeenAs(26)] + [SeenAs(42)] == [SeenAs(10), SeenAs(26), SeenAs(42)];
  }

  // ----- through the bucket -----

  const EARLY: set<ChunkKey> := {Key(0), Key(1)}

  /** Two chunks are in the bucket at first, then all three; nothing fails. */
  const STEADY: seq<Round> := [Round(EARLY, NO_TROUBLE), Round(REMOTE, NO_TROUBLE)]

  lemma EarlyWindow()
    ensures Window(EARLY, 24) == EARLY
  {
    hide NewestEnd;
    assert Key(1) in EARLY;
    NewestIs(EARLY, 32);
    assert RetentionSlots(24) == 216000;
  }

  lemma SteadyIsSmooth()
    ensures SmoothSync({}, STEADY, 24) && RemoteGrows(STEADY) && RemoteGrows(STEADY[..1])
  {
    NothingLocal(EARLY);
    hide LocalChunks, Window, WindowIsWhole;
    assert EARLY <= REMOTE;
    assert BucketRises(STEADY) by {
      forall a, b | a in EARLY && b in REMOTE && b !in EARLY ensures a.startSlot < b.startSlot {
        assert b == Key(2);
      }
    }
  }

  ghost function SteadyCache(rounds: nat): Catalog
    requires rounds <= 2
  {
    Shelf(Archived(), Whole(RunRounds({}, STEADY[..rounds], 24)))
  }

  lemma SteadyShelves()
    ensures SteadyCache(1) == Shelf(Archived(), EARLY) && SteadyCache(2) == Shelf(Archived(), REMOTE)
  {
    SteadyIsSmooth();
    EarlyWindow();
    WindowIsAll();
    hide Shelf, Whole, RunRounds, Archived, Window, LocalChunks, WindowIsWhole;
    ServesTheWindow({}, STEADY, 24, 1);
    ServesTheWindow({}, STEADY, 24, 2);
  }

  lemma SteadyListed(i: nat)
    requires i < 3
    ensures i < 2 ==> 16 * i in TreeOf(SteadyCache(1), Tx)
    ensures 16 * i in TreeOf(SteadyCache(2), Tx)
  {
    hide *;
    SteadyShelves();
    ThreeAreArchived(i);
    SteadyKeys(i);
    ShelfHas(Archived(), EARLY, Tx, 16 * i);
    ShelfHas(Archived(), REMOTE, Tx, 16 * i);
  }

  lemma SteadyKeys(i: nat)
    requires i < 3
    ensures i < 2 ==> ChunkKey(Tx, 16 * i, 16 * i + 16) in EARLY
    ensures ChunkKey(Tx, 16 * i, 16 * i + 16) in REMOTE
  {
  }

  lemma SteadyHasFirst()
    ensures HasFirst(SteadyCache(1)) && HasFirst(SteadyCache(2))
  {
    hide Shelf, Whole, RunRounds, Archived, PartOf, TreeOf;
    SteadyListed(0);
    ShelfIsPart(Archived(), Whole(RunRounds({}, STEADY[..1], 24)));
    ShelfIsPart(Archived(), Whole(RunRounds({}, STEADY[..2], 24)));
  }

  ghost function Patient(): Follower {
    Reader(SteadyCache(1), SteadyCache(2))
  }

  function AfterEach(n: nat): nat {
    if n == 0 then 1 else 2
  }

  lemma PatientReads()
    ensures RECORDER.Valid() && ReadsCache(Patient(), RECORDER, Fed(THREE), {}, STEADY, 24, AfterEach, 1)
    ensures AfterEach(0) > 0
  {
    ReaderIs(SteadyCache(1), SteadyCache(2));
    hide Shelf, Whole, RunRounds, CatalogFor, TreeCodec, Reader;
  }

  lemma PatientListed()
    ensures var starts := TreeOf(SeenBy(Patient(), 1), Tx).Keys; 0 in starts && 16 in starts && 32 in starts
  {
    ReaderSees(SteadyCache(1), SteadyCache(2));
    SteadyListed(0);
    SteadyListed(1);
    SteadyListed(2);
    hide TreeOf, SteadyCache, Reader, SeenBy;
  }

  lemma PatientIs()
    ensures Patient() == Reader(SteadyCache(1), SteadyCache(2))
  {
    hide Reader, SteadyCache;
  }

  /** Slots 10, 26 and 42, recorded with a tick in between, reach the bucket in
      order and the cache without failures: the follower sends all three. */
  lemma SteadyChunksArrive(deadline: nat) returns (first: ReplayPlan)
    ensures TreeCodec().Lawful() && RECORDER.Valid() && Orderly(TreeCodec(), RECORDER, Fed(THREE))
    ensures SmoothSync({}, STEADY, 24)
    ensures ReadsCache(Patient(), RECORDER, Fed(THREE), {}, STEADY, 24, AfterEach, 1)
    ensures Patient().Valid() && Planned(Patient(), first) && DrainsFor(Patient(), Begin(first, deadline), 2)
    ensures SeenIn(After(Patient(), Begin(first, deadline), 2).delivered) == [SeenAs(10), SeenAs(26), SeenAs(42)]
  {
    hide *;
    ThreeIsOrderly();
    OnlyOneStream();
    SteadyIsSmooth();
    SteadyHasFirst();
    PatientIs();
    PatientReads();
    PatientListed();
    ReaderIs(SteadyCache(1), SteadyCache(2));
    first := ReaderDrains(SteadyCache(1), SteadyCache(2), deadline);
    AllOfThree(TreeOf(SeenBy(Patient(), 1), Tx).Keys);
    FollowsThroughSync(Patient(), RECORDER, Fed(THREE), {}, STEADY, 24, AfterEach, first, deadline, 1, Tx);
  }

  // ----- from the recorder's directory -----

  /** After all events, and after the stop. */
  function Extents(n: nat): Extent {
    if n == 0 then (stream: Stream) => |Fed(THREE)(stream)| else AtTheStop(Fed(THREE))
  }

  lemma ExtentsFit()
    ensures Within(Fed(THREE), Extents(0)) && Within(Fed(THREE), Extents(1)) && RECORDER.Valid()
    ensures Extents(1)(Tx) == |Fed(THREE)(Tx)| + 1 && Extents(1) == AtTheStop(Fed(THREE))
  {
  }

  ghost function SealedBy(n: nat): Catalog
    requires n <= 1
  {
    ExtentsFit();
    LiveCatalog(TreeCodec(), RECORDER, Fed(THREE), Extents(n))
  }

  ghost function Onlooker(): Follower {
    Reader(SealedBy(0), SealedBy(1))
  }

  lemma ExtentsGrow(j: nat, k: nat, stream: Stream)
    requires j <= k <= 1
    ensures Extents(j)(stream) <= Extents(k)(stream)
  {
    hide THREE;
  }

  lemma FedRises()
    ensures RECORDER.Valid() && Clocked(Fed(THREE))
  {
    ThreeRise();
    hide NoIdleGap;
  }

  lemma OnlookerSees(k: nat)
    requires k <= 1
    ensures RECORDER.Valid() && Within(Fed(THREE), Extents(k))
    ensures var f := Onlooker(); f.env(k).cat == LiveCatalog(f.c, RECORDER, Fed(THREE), Extents(k))
  {
    ExtentsFit();
    ReaderIs(SealedBy(0), SealedBy(1));
    hide LiveCatalog, TreeCodec, Reader, Within, THREE;
    assert k == 0 || k == 1;
  }

  lemma OnlookerWatches()
    ensures RECORDER.Valid() && Watches(Onlooker(), RECORDER, Fed(THREE), Extents, 1)
    ensures Clocked(Fed(THREE))
  {
    FedRises();
    forall j: nat, k: nat, stream: Stream | j <= k <= 1 ensures Extents(j)(stream) <= Extents(k)(stream) {
      ExtentsGrow(j, k, stream);
    }
    forall k: nat | k <= 1
      ensures Within(Fed(THREE), Extents(k))
        && Onlooker().env(k).cat == LiveCatalog(Onlooker().c, RECORDER, Fed(THREE), Extents(k))
    {
      OnlookerSees(k);
    }
    hide LiveCatalog, TreeCodec, Reader, Within, THREE, Onlooker, Extents, Clocked, Fed;
  }

  /** The first chunk is sealed before the stop. */
  lemma FirstIsSealed()
    ensures RECORDER.Valid() && 0 in DiskAfter(RECORDER, THREE, |THREE|)
  {
    ThreeRise();
    ThreeOnDisk(0);
    DiskStep(RECORDER, THREE, |THREE|);
    assert THREE[..|THREE|] == THREE;
    RunNear(RECORDER, EMPTY, THREE);
    WatermarkIsHighWater(RECORDER, THREE);
    assert Bucket(RECORDER, 42) == 2;
    hide Run, THREE, NoIdleGap, Rising, HighWater;
  }

  lemma SealedIs()
    ensures RECORDER.Valid() && RECORDER.slotsPerChunk == 16
    ensures Within(Fed(THREE), Extents(0)) && Fed(THREE)(Tx) == THREE && Extents(0)(Tx) == |THREE|
    ensures SealedBy(0) == LiveCatalog(TreeCodec(), RECORDER, Fed(THREE), Extents(0))
    ensures SealedBy(1) == LiveCatalog(TreeCodec(), RECORDER, Fed(THREE), AtTheStop(Fed(THREE)))
    ensures Archived() == CatalogFor(TreeCodec(), RECORDER, Fed(THREE))
  {
    ExtentsFit();
    hide LiveCatalog, CatalogFor, TreeCodec;
  }

  lemma SealedListed(i: nat)
    requires i < 3
    ensures i == 0 ==> 16 * i in TreeOf(SealedBy(0), Tx)
    ensures 16 * i in TreeOf(SealedBy(1), Tx)
  {
    hide *;
    SealedIs();
    FirstIsSealed();
    ThreeAreArchived(i);
    StoppedTree(TreeCodec(), RECORDER, Fed(THREE), Tx);
    LiveTree(TreeCodec(), RECORDER, Fed(THREE), Extents(0), Tx);
    StartOf(TreeCodec(), RECORDER, Tx, DiskAfter(RECORDER, THREE, |THREE|), 0);
    assert 0 * RECORDER.slotsPerChunk == 0;
  }

  lemma SealedHasFirst()
    ensures HasFirst(SealedBy(0)) && HasFirst(SealedBy(1))
  {
    ExtentsFit();
    SealedListed(0);
    hide LiveCatalog, CatalogFor, PartOf, TreeOf, Extents, TreeCodec;
    LiveIsPartial(TreeCodec(), RECORDER, Fed(THREE), Extents(0));
    LiveIsPartial(TreeCodec(), RECORDER, Fed(THREE), Extents(1));
  }

  lemma OnlookerIs()
    ensures Onlooker() == Reader(SealedBy(0), SealedBy(1))
  {
    hide Reader, SealedBy;
  }

  /** A follower on the recorder's directory sends all three, and they are all
      that arrived. */
  lemma SealedChunksArrive(deadline: nat) returns (first: ReplayPlan)
    ensures TreeCodec().Lawful() && RECORDER.Valid()
    ensures Orderly(TreeCodec(), RECORDER, Fed(THREE)) && Clocked(Fed(THREE))
    ensures Watches(Onlooker(), RECORDER, Fed(THREE), Extents, 1)
    ensures Onlooker().Valid() && Planned(Onlooker(), first) && DrainsFor(Onlooker(), Begin(first, deadline), 2)
    ensures SeenIn(After(Onlooker(), Begin(first, deadline), 2).delivered) == [SeenAs(10), SeenAs(26), SeenAs(42)]
  {
    hide *;
    ThreeIsOrderly();
    OnlyOneStream();
    OnlookerIs();
    OnlookerWatches();
    SealedHasFirst();
    SealedListed(0);
    SealedListed(1);
    SealedListed(2);
    ReaderIs(SealedBy(0), SealedBy(1));
    first := ReaderDrains(SealedBy(0), SealedBy(1), deadline);
    FollowsInStep(Onlooker(), RECORDER, Fed(THREE), Extents, first, deadline, 1, Tx);
    AllOfThree(TreeOf(SealedBy(1), Tx).Keys);
  }
}
