/** A chunk that comes late: its download fails once, and a follower that was
    faster never sends what it holds. */
module Missed {
  import opened Core
  import opened Shuffle
  import opened Merge
  import opened Replay
  import opened Plan
  import opened Coverage
  import opened Recorder
  import opened Archive
  import opened Fidelity
  import opened Faithful
  import opened Growth
  import opened Follow
  import opened Tailing
  import opened Sync
  import opened Pipeline
  import opened Instance
  import opened Witness
  import opened Three

  // ----- two rounds of syncing -----

  /** All three are in the bucket; the payload of the second fails to download,
      once. */
  const ROUNDS: seq<Round> :=
    [Round(REMOTE, FileTrouble({CacheFile(Key(1), Lifecycle.Zst)}, {})), Round(REMOTE, NO_TROUBLE)]

  lemma FirstRound()
    ensures Whole(RunRounds({}, ROUNDS[..1], 24)) == {Key(0), Key(2)}
  {
    var t := ROUNDS[0].trouble;
    var after := RunRounds({}, ROUNDS[..1], 24);
    WindowIsAll();
    NothingLocal(REMOTE);
    OnlyFirstRound();
    RunsServeTheWindow({}, ROUNDS[..1], 24);
    WholeIsLocal(after);
    CycleLocally({}, REMOTE, 24, t);
    LocallyAfterFirst();
    hide Whole, LocalChunks, RunRounds, Cycle, Window, Keeps;
    assert WindowIsWhole(after, REMOTE, 24);
    assert {Key(0), Key(2)} * REMOTE == {Key(0), Key(2)};
  }

  lemma OnlyFirstRound()
    ensures RemoteGrows(ROUNDS[..1]) && RemoteGrows(ROUNDS) && ROUNDS[..1][0] == ROUNDS[0]
    ensures RunRounds({}, ROUNDS[..1], 24) == FilesCycle({}, REMOTE, 24, ROUNDS[0].trouble)
  {
    hide FilesCycle;
    assert RunRounds({}, ROUNDS[..1][..0], 24) == {};
  }

  lemma LocallyAfterFirst()
    ensures Cycle({}, REMOTE, 24, ROUNDS[0].trouble.OnChunks()) == {Key(0), Key(2)}
  {
    var t := ROUNDS[0].trouble.OnChunks();
    assert t.lost == {Key(1)} && t.stuck == {} by {
      LostChunk(ROUNDS[0].trouble, Key(1));
      assert forall k :: k in t.lost ==> k == Key(1);
    }
    WindowIsAll();
    hide Window, RetentionSlots, NewestEnd;
    var have := Downloaded({}, REMOTE, 24, t);
    assert have == {Key(0), Key(2)};
    CycleNeverChurns({}, REMOTE, 24, t);
  }

  lemma SecondRound()
    ensures Whole(RunRounds({}, ROUNDS[..2], 24)) == REMOTE
  {
    WindowIsAll();
    NothingLocal(REMOTE);
    OnlyFirstRound();
    assert ROUNDS[..2] == ROUNDS && ROUNDS[1].trouble == NO_TROUBLE;
    hide RunRounds, Whole, LocalChunks, Window, WindowIsWhole;
    RunsServeTheWindow({}, ROUNDS, 24);
  }

  // ----- a follower of that cache -----

  function At(n: nat): nat {
    if n == 0 then 1 else 2
  }

  ghost function CacheAfter(rounds: nat): Catalog
    requires rounds <= 2
  {
    Shelf(Archived(), Whole(RunRounds({}, ROUNDS[..rounds], 24)))
  }

  /** Its first turn looks after the first round, the others after the second. */
  ghost function Hasty(): Follower {
    Reader(CacheAfter(1), CacheAfter(2))
  }

  lemma HastyReads(n: nat)
    requires n <= 1
    ensures RECORDER.Valid() && ReadsCache(Hasty(), RECORDER, Fed(THREE), {}, ROUNDS, 24, At, n)
  {
    ReaderIs(CacheAfter(1), CacheAfter(2));
    hide Shelf, Whole, RunRounds, CatalogFor, TreeCodec, Reader;
  }

  lemma ShelvesAre()
    ensures CacheAfter(1) == Shelf(Archived(), {Key(0), Key(2)}) && CacheAfter(2) == Shelf(Archived(), REMOTE)
  {
    FirstRound();
    SecondRound();
    hide Shelf, Whole, RunRounds, Archived;
  }

  /** The second chunk is listed at the second turn only. */
  lemma HastySees(i: nat)
    requires i < 3
    ensures 16 * i in TreeOf(CacheAfter(1), Tx) <==> i != 1
    ensures 16 * i in TreeOf(CacheAfter(2), Tx)
  {
    hide *;
    ShelvesAre();
    ThreeAreArchived(i);
    KeysOfThree(i);
    ShelfHas(Archived(), {Key(0), Key(2)}, Tx, 16 * i);
    ShelfHas(Archived(), REMOTE, Tx, 16 * i);
  }

  lemma KeysOfThree(i: nat)
    requires i < 3
    ensures ChunkKey(Tx, 16 * i, 16 * i + 16) in {Key(0), Key(2)} <==> i != 1
    ensures ChunkKey(Tx, 16 * i, 16 * i + 16) in REMOTE
  {
  }

  lemma CachesHaveFirst()
    ensures HasFirst(CacheAfter(1)) && HasFirst(CacheAfter(2))
  {
    hide Shelf, Whole, RunRounds, Archived, PartOf, TreeOf;
    HastySees(0);
    ShelfIsPart(Archived(), Whole(RunRounds({}, ROUNDS[..1], 24)));
    ShelfIsPart(Archived(), Whole(RunRounds({}, ROUNDS[..2], 24)));
  }

  /** What was listed at first and in the end. */
  lemma HastyListed()
    ensures var starts := TreeOf(SeenBy(Hasty(), 0), Tx).Keys; 0 in starts && 16 !in starts && 32 in starts
    ensures var starts := TreeOf(SeenBy(Hasty(), 1), Tx).Keys; 0 in starts && 16 in starts && 32 in starts
    ensures var starts := TreeOf(CacheAfter(2), Tx).Keys; 0 in starts && 16 in starts && 32 in starts
  {
    ReaderSees(CacheAfter(1), CacheAfter(2));
    HastySees(0);
    HastySees(1);
    HastySees(2);
    hide TreeOf, CacheAfter, Reader, SeenBy;
  }

  /** The second turn lists a chunk below one it has sent. */
  lemma HastyHasAGap()
    ensures RECORDER.Valid() && !NoGaps(Hasty(), RECORDER, Fed(THREE), Tx, 1)
  {
    ReaderIs(CacheAfter(1), CacheAfter(2));
    HastyListed();
    HastySees(1);
    OffersThree(1);
    OffersThree(2);
    hide Offers, TreeOf, CacheAfter, Reader, SeenBy;
    assert NewAfter(Hasty(), RECORDER, Fed(THREE), Tx, 0, 32, 16);
    assert !NoGapAt(Hasty(), RECORDER, Fed(THREE), Tx, 0);
  }

  /** After each turn it was sent what is listed, exactly if there is no gap. */
  lemma HastySendsListed(first: ReplayPlan, deadline: nat, n: nat)
    requires Hasty().Valid() && Planned(Hasty(), first) && DrainsFor(Hasty(), Begin(first, deadline), 2) && n <= 1
    ensures RECORDER.Valid()
    ensures var sent := SeenIn(After(Hasty(), Begin(first, deadline), n + 1).delivered);
      var all := Matching(
        TreeCodec(), RECORDER, Fed(THREE), SUBSCRIPTION, Tx, TreeOf(SeenBy(Hasty(), n), Tx).Keys);
      Sub(sent, all) && (sent == all <==> NoGaps(Hasty(), RECORDER, Fed(THREE), Tx, n))
  {
    hide *;
    OnlyOneStream();
    ThreeIsOrderly();
    ReaderIs(CacheAfter(1), CacheAfter(2));
    HastyIs();
    HastyReads(n);
    if n == 0 { DrainsAt(Hasty(), Begin(first, deadline), 2, 1); }
    FollowsThroughSync(Hasty(), RECORDER, Fed(THREE), {}, ROUNDS, 24, At, first, deadline, n, Tx);
  }

  /** After its first turn, and after its second, this much has been sent. */
  lemma HastySends(first: ReplayPlan, deadline: nat)
    requires Hasty().Valid() && Planned(Hasty(), first) && DrainsFor(Hasty(), Begin(first, deadline), 2)
    ensures SeenIn(After(Hasty(), Begin(first, deadline), 1).delivered) == [SeenAs(10), SeenAs(42)]
    ensures var all := [SeenAs(10), SeenAs(26), SeenAs(42)];
      var sent := SeenIn(After(Hasty(), Begin(first, deadline), 2).delivered);
      Sub(sent, all) && sent != all
  {
    hide *;
    OnlyOneStream();
    HastyListed();
    MatchingOfThree(TreeOf(SeenBy(Hasty(), 0), Tx).Keys);
    MatchingOfThree(TreeOf(SeenBy(Hasty(), 1), Tx).Keys);
    HastySendsListed(first, deadline, 0);
    HastySendsListed(first, deadline, 1);
    NoGapsYet(Hasty(), RECORDER, Fed(THREE), Tx);
    HastyHasAGap();
    assert [SeenAs(10)] + [SeenAs(26)] + [SeenAs(42)] == [SeenAs(10), SeenAs(26), SeenAs(42)];
    assert [SeenAs(10)] + [] + [SeenAs(42)] == [SeenAs(10), SeenAs(42)];
  }

  lemma HastyGoesOn(first: ReplayPlan, deadline: nat)
    requires Hasty().Valid() && Planned(Hasty(), first) && DrainsFor(Hasty(), Begin(first, deadline), 2)
    ensures After(Hasty(), Begin(first, deadline), 1).delivered <= After(Hasty(), Begin(first, deadline), 2).delivered
  {
    hide *;
    CachesHaveFirst();
    HastyIs();
    ReaderIs(CacheAfter(1), CacheAfter(2));
    PartsAreRecorded(CacheAfter(2));
    var from := TurnDelivers(Hasty(), ContentFor(RECORDER, Fed(THREE)), first, deadline, 1);
  }

  /** Slots 10, 26 and 42 are recorded in this order, in three chunks; the second
      one's payload fails to download once and is fetched by the next round. A
      follower that looks after each round sends 10 and 42, and never 26, though
      one replay of what it finds in the end would. */
  lemma LateChunkIsMissed(deadline: nat) returns (first: ReplayPlan)
    ensures TreeCodec().Lawful() && RECORDER.Valid() && Orderly(TreeCodec(), RECORDER, Fed(THREE))
    ensures ReadsCache(Hasty(), RECORDER, Fed(THREE), {}, ROUNDS, 24, At, 1)
    ensures Hasty().Valid() && Planned(Hasty(), first) && DrainsFor(Hasty(), Begin(first, deadline), 2)
    ensures SeenIn(After(Hasty(), Begin(first, deadline), 2).delivered) == [SeenAs(10), SeenAs(42)]
    ensures SeenIn(Deliverable(TreeCodec(), CacheAfter(2), SUBSCRIPTION, ContentFor(RECORDER, Fed(THREE)), 0))
      == [SeenAs(10), SeenAs(26), SeenAs(42)]
  {
    hide *;
    ThreeIsOrderly();
    CachesHaveFirst();
    HastyReads(1);
    HastyIs();
    first := ReaderDrains(CacheAfter(1), CacheAfter(2), deadline);
    HastySends(first, deadline);
    HastyGoesOn(first, deadline);
    NothingMore(
      After(Hasty(), Begin(first, deadline), 1).delivered, After(Hasty(), Begin(first, deadline), 2).delivered,
      [SeenAs(10), SeenAs(26), SeenAs(42)]);
    HastyListed();
    MatchingOfThree(TreeOf(CacheAfter(2), Tx).Keys);
    PartsOffer(CacheAfter(2));
    assert [SeenAs(10)] + [SeenAs(26)] + [SeenAs(42)] == [SeenAs(10), SeenAs(26), SeenAs(42)];
  }

  lemma HastyIs()
    ensures Hasty() == Reader(CacheAfter(1), CacheAfter(2))
  {
    hide Reader, CacheAfter;
  }

  lemma NoGapsYet(f: Follower, cfg: WriterConfig, feed: Feed, stream: Stream)
    requires cfg.Valid()
    ensures NoGaps(f, cfg, feed, stream, 0)
  {
  }

  /** Two sent, three to send, not all sent: nothing was added to the two. */
  lemma NothingMore(before: seq<Tagged>, after: seq<Tagged>, all: seq<Seen>)
    requires before <= after && |SeenIn(before)| == 2 && |all| == 3
    requires Sub(SeenIn(after), all) && SeenIn(after) != all
    ensures SeenIn(after) == SeenIn(before)
  {
    hide SeenIn, Sub;
    SubHolds(SeenIn(after), all);
    SeenHas(before, all[0]);
    SeenHas(after, all[0]);
    assert |after| <= 2;
    assert after == before;
  }
}
