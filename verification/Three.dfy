/** Three recorded chunks of one stream, and followers that find some of them at
    their first turn and some at the next. */
module Three {
  import opened Core
  import opened Codecs
  import opened Merge
  import opened Drive
  import opened Replay
  import opened Plan
  import opened Coverage
  import opened Recorder
  import opened Conservation
  import opened Idle
  import opened Chunker
  import opened Archive
  import opened Fidelity
  import opened Faithful
  import opened Growth
  import opened Follow
  import opened Live
  import opened Tailing
  import opened Sync
  import opened Pipeline
  import opened Instance
  import opened Witness

  // ----- three chunks, in slot order, and a tick that seals nothing -----

  const SECOND: nat := 1_000_000_000

  const THREE: seq<Event> :=
    [Arrive(Received(10), 0), TickAt(SECOND), Arrive(Received(26), SECOND), Arrive(Received(42), SECOND)]

  /** The same without the tick. */
  const PLAIN: seq<Event> :=
    [Arrive(Received(10), 0), Arrive(Received(26), SECOND), Arrive(Received(42), SECOND)]

  function Slots(): seq<nat> {
    [10, 26, 42]
  }

  lemma PlainIs(n: nat)
    requires n < 3
    ensures |PLAIN| == 3 && OnlyArrivals(PLAIN) && PLAIN[n].rec == Received(Slots()[n])
    ensures RECORDER.Valid() && RangeStart(RECORDER, PLAIN[n]) == 16 * n && Bucket(RECORDER, Slots()[n]) == n
  {
  }

  lemma ThreeRise()
    ensures Rising(THREE) && RECORDER.Valid() && HighWater(THREE) == 42 && NoIdleGap(RECORDER, THREE)
  {
    assert Rising(THREE);
    RisingHighWater(THREE, 3);
    assert THREE[..4] == THREE;
    forall m: nat, k: nat, n: nat ensures !IdleGap(RECORDER, THREE, m, k, n) {
    }
  }

  /** All three messages are to be kept. */
  lemma ThreeAreHeard()
    ensures RECORDER.Valid() && Heard(RECORDER, THREE) == PLAIN
  {
    ThreeRise();
    forall n | 0 <= n < 4 && THREE[n].Arrive? ensures Due(RECORDER, THREE, n) {
      DueExactly(RECORDER, THREE, n);
    }
    assert !Due(RECORDER, THREE, 1);
    assert THREE == THREE[..4];
    hide Due, SlotsRise, Heard, Received, IdleGap;
    var none: seq<Event> := [];
    HeardUpTo(RECORDER, THREE, 3);
    HeardUpTo(RECORDER, THREE, 2);
    HeardUpTo(RECORDER, THREE, 1);
    HeardUpTo(RECORDER, THREE, 0);
    NothingIsHeard(RECORDER);
    assert THREE[..0] == none;
  }

  lemma HeardUpTo(cfg: WriterConfig, es: seq<Event>, n: nat)
    requires cfg.Valid() && n < |es|
    ensures Heard(cfg, es[..n + 1]) == if Due(cfg, es, n) then Heard(cfg, es[..n]) + [es[n]] else Heard(cfg, es[..n])
  {
    HeardNext(cfg, es[..n + 1]);
    DueBefore(cfg, es, n + 1, n);
    assert es[..n + 1][..n] == es[..n];
    hide Heard, Due;
  }

  lemma NothingIsHeard(cfg: WriterConfig)
    requires cfg.Valid()
    ensures Heard(cfg, []) == []
  {
  }

  lemma {:induction false} ArrivalsAre(es: seq<Event>, i: nat)
    requires es <= PLAIN && RECORDER.Valid()
    ensures ArrivalsOf(RECORDER, es, i) == if i < |es| then [Received(Slots()[i])] else []
  {
    if es != [] {
      var n := |es| - 1;
      PlainIs(n);
      hide Bucket, Received;
      ArrivalsAre(es[..n], i);
      assert es[n] == PLAIN[n];
    }
  }

  lemma ThreeOnDisk(i: nat)
    ensures RECORDER.Valid()
    ensures i in DiskOf(RECORDER, THREE) ==> i < 3 && DiskOf(RECORDER, THREE)[i].recs == [Received(Slots()[i])]
    ensures i < 3 ==> i in DiskOf(RECORDER, THREE)
  {
    ThreeRise();
    ThreeAreHeard();
    PlainIs(2);
    hide DiskOf, AcceptedInto, SlotsRise, Bucket, Received, Heard, HighWater, NoStop, NoIdleGap;
    if i in DiskOf(RECORDER, THREE) { SealedUpTo(RECORDER, THREE, i); }
    DiskHoldsAccepted(RECORDER, THREE, i);
    AcceptedIsHeard(RECORDER, THREE, i);
    ArrivalsAre(PLAIN, i);
    if i < 3 {
      PlainIs(i);
      HeardOnDisk(RECORDER, THREE, i);
    }
  }

  /** They can be recorded. */
  lemma ThreeIsOrderly()
    ensures TreeCodec().Lawful() && RECORDER.Valid() && Orderly(TreeCodec(), RECORDER, Fed(THREE))
  {
    TreeCodecIsLawful();
    ThreeRise();
    hide DiskOf, TreeCodec, FitsFormat, SlotsRise, NoIdleGap;
    forall i | i in DiskOf(RECORDER, THREE)
      ensures FitsFormat(TreeCodec(), RECORDER, Tx, i, DiskOf(RECORDER, THREE)[i].recs)
    {
      ThreeOnDisk(i);
      FitsWell([Received(Slots()[i])], i);
    }
    forall stream: Stream
      ensures NoStop(Fed(THREE)(stream)) && SlotsRise(Fed(THREE)(stream))
        && Recordable(TreeCodec(), RECORDER, stream, Fed(THREE)(stream))
    {
      if stream.Tx? {
        assert Fed(THREE)(stream) == THREE;
      } else {
        NothingRises();
        NoneIsRecordable(TreeCodec(), stream);
      }
    }
  }

  lemma NothingRises()
    ensures NoStop([]) && SlotsRise([])
  {
  }

  ghost function Archived(): Catalog {
    CatalogFor(TreeCodec(), RECORDER, Fed(THREE))
  }

  /** The three chunks, and their keys. */
  lemma ThreeAreArchived(i: nat)
    requires i < 3
    ensures 16 * i in TreeOf(Archived(), Tx) && TreeOf(Archived(), Tx)[16 * i].endSlotExclusive == 16 * i + 16
  {
    hide DiskOf, EntryOf, TreeCodec;
    ThreeOnDisk(i);
    assert Fed(THREE)(Tx) == THREE && RECORDER.slotsPerChunk == 16;
    ChunkOfRange(TreeCodec(), RECORDER, Fed(THREE), Tx, i);
  }

  lemma ChunkOfRange(c: Codec, cfg: WriterConfig, feed: Feed, stream: Stream, i: nat)
    requires cfg.Valid() && i in DiskOf(cfg, feed(stream))
    ensures var tree, s := TreeOf(CatalogFor(c, cfg, feed), stream), i * cfg.slotsPerChunk;
      s in tree && tree[s].endSlotExclusive == s + cfg.slotsPerChunk
  {
    var disk := DiskOf(cfg, feed(stream));
    hide DiskOf, MetaOf, RawOf, Bucket;
    StartOf(c, cfg, stream, disk, i);
    MetaRange(c, cfg, stream, i, disk[i]);
  }

  // ----- a follower of two catalogs of them -----

  /** Its first turn finds one catalog, all others another. */
  ghost function Reader(a: Catalog, b: Catalog): Follower {
    Follower(
      TreeCodec(), SUBSCRIPTION, Unpaced().cfg, 0,
      (n: nat) => TurnEnv(false, if n == 0 then a else b, Unpaced(), 0, 0, false))
  }

  lemma ReaderIs(a: Catalog, b: Catalog)
    ensures Reader(a, b).Valid() && Reader(a, b).c == TreeCodec() && Reader(a, b).sub == SUBSCRIPTION
    ensures forall n :: Reader(a, b).env(n) == TurnEnv(false, if n == 0 then a else b, Unpaced(), 0, 0, false)
  {
    hide TreeCodec;
  }

  /** Part of the three chunks, the first included. */
  ghost predicate HasFirst(cat: Catalog) {
    PartOf(cat, Archived()) && 0 in TreeOf(cat, Tx)
  }

  lemma AnyStartIsAvailable(cat: Catalog, requested: Option<nat>)
    requires 0 in TreeOf(cat, Tx)
    ensures StartSlot(cat, SUBSCRIPTION, requested).Ok?
  {
    assert HasStream(SUBSCRIPTION, Tx);
    assert Ascending(cat.streams[Tx].Keys)[0] == 0 by {
      LeastFirst(cat.streams[Tx].Keys);
    }
    FloorIsLeast(cat, SUBSCRIPTION, Tx);
    hide FirstAvailable, Ascending;
  }

  lemma LeastFirst(keys: set<nat>)
    requires 0 in keys
    ensures Ascending(keys) != [] && Ascending(keys)[0] == 0
  {
    var starts := Ascending(keys);
    hide Ascending;
    assert 0 in starts;
    var i :| 0 <= i < |starts| && starts[i] == 0;
    assert starts[0] <= starts[i];
  }

  lemma PartsAreRecorded(cat: Catalog)
    requires HasFirst(cat)
    ensures RECORDER.Valid() && Recorded(TreeCodec(), cat, ContentFor(RECORDER, Fed(THREE)))
  {
    ThreeIsOrderly();
    hide PartOf, TreeOf, TreeCodec, Orderly, Recorded, CatalogFor, ContentFor;
    OrderlyStream(TreeCodec(), RECORDER, Fed(THREE), Tx);
    StoppedIsRecorded(TreeCodec(), RECORDER, Fed(THREE));
    PartIsRecorded(TreeCodec(), cat, Archived(), ContentFor(RECORDER, Fed(THREE)));
  }

  lemma PlansAnywhere(cat: Catalog, requested: Option<nat>)
    requires HasFirst(cat)
    ensures PlanOf(TreeCodec(), cat, SUBSCRIPTION, requested).Ok?
  {
    PartsAreRecorded(cat);
    hide PartOf, TreeOf, TreeCodec, Recorded, ContentFor, PlanOf, Archived;
    AnyStartIsAvailable(cat, requested);
    PlanIsComplete(TreeCodec(), cat, SUBSCRIPTION, ContentFor(RECORDER, Fed(THREE)), requested);
  }

  lemma ReaderTurnDrains(a: Catalog, b: Catalog, st: FollowState, requested: Option<nat>)
    requires HasFirst(a) && HasFirst(b) && Reader(a, b).Valid()
    requires PlanFor(Reader(a, b), st)
      == PlanOf(TreeCodec(), if st.turn == 0 then a else b, SUBSCRIPTION, requested)
    ensures Drains(Reader(a, b), st)
  {
    ReaderIs(a, b);
    var cat := if st.turn == 0 then a else b;
    PartsAreRecorded(cat);
    PlansAnywhere(cat, requested);
    hide PlanOf, Recorded, PlanLanes, MergeAll, PlanPass, Undisturbed, Deliverable, Reader, PlanFor, HasFirst;
    hide TreeCodec, ContentFor;
    var content := ContentFor(RECORDER, Fed(THREE));
    var plan := PlanOf(TreeCodec(), cat, SUBSCRIPTION, requested).value;
    ReplayDelivers(TreeCodec(), Unpaced(), cat, SUBSCRIPTION, content, requested, st.pacer);
    UnpacedIsUndisturbed(Deliverable(TreeCodec(), cat, SUBSCRIPTION, content, plan.fromSlot), Start(st.pacer));
  }

  /** Nothing disturbs it: both turns drain. */
  lemma ReaderDrains(a: Catalog, b: Catalog, deadline: nat) returns (first: ReplayPlan)
    requires HasFirst(a) && HasFirst(b)
    ensures Reader(a, b).Valid() && Planned(Reader(a, b), first)
    ensures DrainsFor(Reader(a, b), Begin(first, deadline), 2)
  {
    ReaderIs(a, b);
    PlansAnywhere(a, None);
    hide *;
    var f := Reader(a, b);
    first := PlanOf(TreeCodec(), a, SUBSCRIPTION, None).value;
    FirstPlan(a, b, first, deadline);
    ReaderTurnDrains(a, b, Begin(first, deadline), None);
    NoTurns(f, Begin(first, deadline));
    AfterOne(f, Begin(first, deadline), 0);
    DrainsMore(f, Begin(first, deadline), 0);
    RunsOn(f, first, deadline, 1);
    NextPlan(a, b, After(f, Begin(first, deadline), 1));
    ReaderTurnDrains(
      a, b, After(f, Begin(first, deadline), 1),
      ResumeAt(SUBSCRIPTION, After(f, Begin(first, deadline), 1).total.lastSlot));
    DrainsMore(f, Begin(first, deadline), 1);
  }

  lemma FirstPlan(a: Catalog, b: Catalog, first: ReplayPlan, deadline: nat)
    requires PlanOf(TreeCodec(), a, SUBSCRIPTION, None) == Ok(first)
    ensures Reader(a, b).Valid() && Planned(Reader(a, b), first) && Begin(first, deadline).turn == 0
    ensures PlanFor(Reader(a, b), Begin(first, deadline)) == Ok(first)
  {
    ReaderIs(a, b);
    hide PlanOf, Reader, TreeCodec;
  }

  lemma NextPlan(a: Catalog, b: Catalog, st: FollowState)
    requires st.plan.None? && st.turn == 1
    ensures PlanFor(Reader(a, b), st)
      == PlanOf(TreeCodec(), b, SUBSCRIPTION, ResumeAt(SUBSCRIPTION, st.total.lastSlot))
  {
    ReaderIs(a, b);
    hide PlanOf, Reader, TreeCodec;
  }

  /** What the reader has seen listed. */
  lemma ReaderSees(a: Catalog, b: Catalog)
    ensures TreeOf(SeenBy(Reader(a, b), 0), Tx).Keys == TreeOf(a, Tx).Keys
    ensures TreeOf(SeenBy(Reader(a, b), 1), Tx).Keys == TreeOf(a, Tx).Keys + TreeOf(b, Tx).Keys
  {
    ReaderIs(a, b);
    SeenFirst(Reader(a, b));
    SeenNext(Reader(a, b), 1);
    hide Both, TreeOf, Reader, SeenBy;
    BothTree(a, b, Tx);
  }

  // ----- what chunks with these starts hold for it -----

  lemma ArrivedOfThree(starts: set<nat>)
    requires 0 in starts
    ensures RECORDER.Valid()
    ensures ArrivedIn(RECORDER, PLAIN, starts)
      == [Bare(10)] + (if 16 in starts then [Bare(26)] else []) + (if 32 in starts then [Bare(42)] else [])
  {
    PlainIs(0);
    PlainIs(1);
    PlainIs(2);
    hide RangeStart, Bucket, Bare;
    var a, b := PLAIN[..2], PLAIN[..1];
    assert a[..1] == b && b[..0] == [];
    assert ArrivedIn(RECORDER, b[..0], starts) == [];
    assert b[0] == PLAIN[0] && a[1] == PLAIN[1];
    assert ArrivedIn(RECORDER, b, starts) == [] + [Bare(10)];
    assert ArrivedIn(RECORDER, a, starts) == [Bare(10)] + if 16 in starts then [Bare(26)] else [];
  }

  lemma {:induction false} SinceTheStart(seen: seq<Seen>)
    ensures Since(seen, 0) == seen
  {
    if seen != [] { SinceTheStart(seen[1..]); }
  }

  lemma ToldThree()
    ensures RECORDER.Valid() && Told(RECORDER, Fed(THREE), Tx) == PLAIN
  {
    ThreeAreHeard();
    ToldIs(RECORDER, Fed(THREE), Tx);
    hide Told, Heard;
  }

  function SeenAs(slot: nat): Seen {
    (Bare(slot), ["all"])
  }

  lemma PickedSlots(c: Codec, slots: seq<nat>)
    ensures Picked(c, NamedFilters(SUBSCRIPTION, Tx), seq(|slots|, i requires 0 <= i < |slots| => Bare(slots[i])))
      == seq(|slots|, i requires 0 <= i < |slots| => SeenAs(slots[i]))
  {
    hide Picked, NamedFilters, SUBSCRIPTION, Bare;
    PicksAll(c, seq(|slots|, i requires 0 <= i < |slots| => Bare(slots[i])));
  }

  function SlotsListed(starts: set<nat>): seq<nat> {
    [10] + (if 16 in starts then [26] else []) + (if 32 in starts then [42] else [])
  }

  lemma ArrivedSlots(starts: set<nat>)
    requires 0 in starts
    ensures var slots := SlotsListed(starts);
      && RECORDER.Valid()
      && ArrivedIn(RECORDER, PLAIN, starts) == seq(|slots|, i requires 0 <= i < |slots| => Bare(slots[i]))
      && seq(|slots|, i requires 0 <= i < |slots| => SeenAs(slots[i]))
        == [SeenAs(10)] + (if 16 in starts then [SeenAs(26)] else []) + (if 32 in starts then [SeenAs(42)] else [])
  {
    ArrivedOfThree(starts);
    hide ArrivedIn, PLAIN, RECORDER, Bare, SeenAs;
  }

  lemma MatchingOfThree(starts: set<nat>)
    requires 0 in starts
    ensures RECORDER.Valid()
    ensures Matching(TreeCodec(), RECORDER, Fed(THREE), SUBSCRIPTION, Tx, starts)
      == [SeenAs(10)] + (if 16 in starts then [SeenAs(26)] else []) + (if 32 in starts then [SeenAs(42)] else [])
  {
    ToldThree();
    ArrivedSlots(starts);
    PickedSlots(TreeCodec(), SlotsListed(starts));
    assert Base(SUBSCRIPTION) == 0;
    hide Picked, Since, NamedFilters, TreeCodec, ArrivedIn, SUBSCRIPTION, RECORDER, PLAIN, SlotsListed, SeenAs, Bare,
      Told;
    SinceTheStart(Picked(TreeCodec(), NamedFilters(SUBSCRIPTION, Tx), ArrivedIn(RECORDER, PLAIN, starts)));
  }

  lemma OffersThree(i: nat)
    requires i < 3
    ensures RECORDER.Valid() && Offers(TreeCodec(), RECORDER, Fed(THREE), SUBSCRIPTION, Tx, 16 * i)
  {
    PlainIs(i);
    ToldThree();
    NamedAll(TreeCodec(), PLAIN[i].rec.update);
    assert Base(SUBSCRIPTION) == 0;
    hide NamesOf, NamedFilters, TreeCodec, RangeStart, Told;
    OffersIf(TreeCodec(), RECORDER, Fed(THREE), SUBSCRIPTION, Tx, i);
  }

  lemma OnlyOneStream()
    ensures Only(SUBSCRIPTION, Tx) && RECORDER.Valid()
  {
    OnlyTransactions();
  }

  /** What a catalog of some of the chunks offers. */
  lemma PartsOffer(cat: Catalog)
    requires HasFirst(cat)
    ensures RECORDER.Valid()
    ensures SeenIn(Deliverable(TreeCodec(), cat, SUBSCRIPTION, ContentFor(RECORDER, Fed(THREE)), 0))
      == Matching(TreeCodec(), RECORDER, Fed(THREE), SUBSCRIPTION, Tx, TreeOf(cat, Tx).Keys)
  {
    OnlyTransactions();
    assert Only(SUBSCRIPTION, Tx) && Base(SUBSCRIPTION) == 0;
    ThreeIsOrderly();
    hide PartOf, TreeOf, TreeCodec, Orderly, CatalogFor, ContentFor, Deliverable, Matching, Only, SeenIn, SUBSCRIPTION;
    OfferedIsMatching(TreeCodec(), RECORDER, Fed(THREE), cat, SUBSCRIPTION, Tx);
  }

  // ----- their keys -----

  function Key(i: nat): ChunkKey {
    ChunkKey(Tx, 16 * i, 16 * i + 16)
  }

  /** A bucket that holds all three. */
  const REMOTE: set<ChunkKey> := {Key(0), Key(1), Key(2)}

  lemma WindowIsAll()
    ensures Window(REMOTE, 24) == REMOTE
  {
    hide NewestEnd;
    assert Key(2) in REMOTE;
    NewestIs(REMOTE, 48);
    assert RetentionSlots(24) == 216000;
  }

  lemma NothingLocal(remote: set<ChunkKey>)
    ensures LocalChunks({}) == {} && Whole({}) == {} && WindowIsWhole({}, remote, 24)
  {
  }

  lemma ShelfHas(archive: Catalog, keys: set<ChunkKey>, stream: Stream, s: nat)
    requires s in TreeOf(archive, stream)
    ensures s in TreeOf(Shelf(archive, keys), stream)
      <==> ChunkKey(stream, s, TreeOf(archive, stream)[s].endSlotExclusive) in keys
  {
    hide Shelf, TreeOf;
    ShelfTreeIs(archive, keys, stream);
  }
}
