/** Small recorded examples from end to end: the hypotheses of the guarantees can
    all be met, and the cases the exact conditions exclude do occur. */
module Witness {
  import opened Core
  import opened Updates
  import opened Codecs
  import opened IndexBuild
  import opened IndexRead
  import opened Filters
  import opened Merge
  import opened Pacing
  import opened Drive
  import opened Replay
  import opened Plan
  import opened Coverage
  import opened Recorder
  import opened Conservation
  import opened Idle
  import opened Chunker
  import opened Archive
  import opened Fidelity
  import opened Faithful
  import opened Growth
  import opened Follow
  import opened Tailing
  import opened Instance

  // ----- lengths of written trees -----

  function Power(k: nat): nat {
    if k == 0 then 1 else 256 * Power(k - 1)
  }

  lemma {:induction false} DigitsSize(n: nat, k: nat)
    requires n < Power(k)
    ensures |Digits(n)| <= 2 * k + 1
  {
    if n > 0 { DigitsSize(n / 256, k - 1); }
  }

  lemma SmallNumber(n: nat)
    requires n < 0x100_0000_0000
    ensures |Write(Num(n))| <= 12
  {
    assert Power(5) == 0x100_0000_0000 by { assert Power(2) == 65536 && Power(3) == 16777216; }
    DigitsSize(n, 5);
  }

  lemma TinyNumber(n: nat)
    requires n < 256
    ensures |Write(Num(n))| <= 4
  {
    assert Power(1) == 256;
    DigitsSize(n, 1);
  }

  lemma PairSize(l: Term, r: Term)
    ensures |Write(Pair(l, r))| == 1 + |Write(l)| + |Write(r)|
  {
  }

  /** Headers without entries are short. */
  lemma {:induction false} DimsSize(ds: seq<DimHeader>)
    requires forall i :: 0 <= i < |ds| ==> ds[i].entries == []
    ensures |Write(OfDims(ds))| <= 15 * |ds| + 4
  {
    TinyNumber(0);
    if ds != [] {
      DimsSize(ds[1..]);
      var name, kind := OfDim(ds[0].name), OfType(ds[0].valueType);
      TinyNumber(name.n);
      TinyNumber(kind.n);
      assert OfEntries(ds[0].entries) == Num(0);
      hide Write;
      PairSize(kind, Num(0));
      PairSize(name, Pair(kind, Num(0)));
      PairSize(Pair(name, Pair(kind, Num(0))), OfDims(ds[1..]));
    }
  }

  ghost predicate NothingFiled(dims: Dims) {
    forall d :: d in dims ==> dims[d] == map[]
  }

  lemma {:induction false} EmptyLayout(c: Codec, dims: Dims, order: seq<Dim>, offset: nat)
    requires c.Lawful() && NothingFiled(dims)
    ensures forall i :: 0 <= i < |order| ==> SerializeDims(c, dims, order, offset).0[i].entries == []
  {
    if order != [] {
      var first := DimLayout(c, dims, order[0], offset);
      NoEntries(c, dims, order[0], offset);
      hide DimLayout;
      EmptyLayout(c, dims, order[1..], offset + |first.1|);
      var rest := SerializeDims(c, dims, order[1..], offset + |first.1|).0;
      forall i | 0 <= i < |order| ensures SerializeDims(c, dims, order, offset).0[i].entries == [] {
        if i > 0 { assert rest[i - 1].entries == []; }
      }
    }
  }

  lemma NoEntries(c: Codec, dims: Dims, dim: Dim, offset: nat)
    requires c.Lawful() && NothingFiled(dims)
    ensures DimLayout(c, dims, dim, offset).0 == []
  {
    var m: map<DimValue, set<nat>> := map[];
    assert m.Keys == {};
    var keys := c.keyOrder({});
    HeadIsMember(keys);
    assert Enumerates(keys, {});
  }

  lemma HeadIsMember<T>(s: seq<T>)
    ensures s == [] || s[0] in s
  {
  }

  // ----- messages that carry nothing to index -----

  /** A transaction update of a slot, without the transaction. */
  function Bare(slot: nat): Update {
    Update(Transaction(slot, None), None, [])
  }

  ghost predicate AllBare(us: seq<Update>) {
    forall i :: 0 <= i < |us| ==> us[i].body.Transaction? && us[i] == Bare(us[i].body.slot) && us[i].body.slot < 256
  }

  lemma {:induction false} NothingIsFiled(us: seq<Update>)
    requires AllBare(us)
    ensures NothingFiled(BuildDims(Tx, us))
  {
    if us != [] {
      var n := |us| - 1;
      NothingIsFiled(us[..n]);
      assert us[n] == Bare(us[n].body.slot);
      assert Facts(Tx, us[n]) == {};
      MarkNothing(BuildDims(Tx, us[..n]), n % U32);
    }
  }

  /** The header of such a chunk is short, however many messages it counts. */
  lemma HeaderIsShort(us: seq<Update>, start: nat, end: nat)
    requires AllBare(us) && start < 256 && end < 256 && |us| <= U32
    ensures IndexFits(TreeCodec(), Tx, us, start, end)
  {
    var c := TreeCodec();
    TreeCodecIsLawful();
    NothingIsFiled(us);
    var dims := BuildDims(Tx, us);
    var header := HeaderOf(c, Tx, dims, start, end, |us|);
    hide BuildDims, SerializeDims, NothingFiled, OfDims, Write;
    EmptyLayout(c, dims, DimOrder(Tx), 0);
    DimsSize(header.dimensions);
    TinyNumber(0);
    TinyNumber(start);
    TinyNumber(end);
    SmallNumber(|us|);
    PairSize(Num(start), Num(end));
    PairSize(Num(0), Pair(Num(start), Num(end)));
    PairSize(Num(|us|), OfDims(header.dimensions));
    PairSize(Pair(Num(0), Pair(Num(start), Num(end))), Pair(Num(|us|), OfDims(header.dimensions)));
    assert c.encodeHeader(header) == Write(OfHeader(header));
  }

  lemma BareIsShort(slot: nat)
    requires slot < 256
    ensures |TreeCodec().encodeMessage(Bare(slot))| < U32
  {
    var u := Bare(slot);
    var body := Pair(Num(0), Pair(Num(slot), Num(0)));
    assert OfUpdate(u) == Pair(body, Pair(Num(0), Num(0)));
    hide Write;
    TinyNumber(0);
    TinyNumber(slot);
    PairSize(Num(slot), Num(0));
    PairSize(Num(0), Pair(Num(slot), Num(0)));
    PairSize(Num(0), Num(0));
    PairSize(body, Pair(Num(0), Num(0)));
    assert TreeCodec().encodeMessage(u) == Write(OfUpdate(u));
  }

  /** With 2^32 messages in a chunk, index and scan do disagree on some filter. */
  lemma TooManyMessages()
    ensures var us := seq(U32, i => Bare(0));
      && TreeCodec().Lawful() && IndexFits(TreeCodec(), Tx, us, 0, 1)
      && ParseIndex(TreeCodec(), IndexBytes(TreeCodec(), Tx, us, 0, 1)).Ok?
      && var idx := ParseIndex(TreeCodec(), IndexBytes(TreeCodec(), Tx, us, 0, 1)).value;
      !(forall f: StreamFilter :: f.StreamOf() == Tx ==> Selected(TreeCodec(), idx, f) == Scanned(TreeCodec(), us, f))
  {
    var us := seq(U32, i => Bare(0));
    TreeCodecIsLawful();
    HeaderIsShort(us, 0, 1);
    hide TreeCodec, IndexFits, ParseIndex, IndexBytes, Selected, Scanned;
    IndexAgreesExactly(TreeCodec(), Tx, us, 0, 1);
  }

  // ----- recording them -----

  const RECORDER: WriterConfig := WriterConfig(16, 8, 2)

  function Received(slot: nat): Rec {
    Rec(Bare(slot), slot, 0)
  }

  const ONE: seq<Event> := [Arrive(Received(10), 0)]

  /** A straggler within tolerance. */
  const TWO: seq<Event> := [Arrive(Received(10), 0)] + [Arrive(Received(5), 0)]

  function Fed(es: seq<Event>): Feed {
    (stream: Stream) => if stream.Tx? then es else []
  }

  const EVERYTHING: TxFilter := TxFilter(None, None, None, [], [], [])

  const SUBSCRIPTION: Subscription := Subscription([("all", EVERYTHING)], [], [], None)

  lemma Buckets()
    ensures Bucket(RECORDER, 10) == 0 && Bucket(RECORDER, 5) == 0
  {
  }

  lemma DiskOfOne()
    ensures DiskOf(RECORDER, ONE) == map[0 := SealedRec([Received(10)], Shutdown)]
  {
    Buckets();
    FirstIngest(RECORDER, Received(10), 0);
    RunSnoc(RECORDER, EMPTY, [], Arrive(Received(10), 0));
    assert [] + ONE == ONE;
    assert Run(RECORDER, EMPTY, ONE) == One(RECORDER, Received(10), 0);
    hide Run, Bucket;
  }

  lemma StragglerJoins()
    ensures Ingest(RECORDER, One(RECORDER, Received(10), 0), Received(5), 0)
      == State(map[0 := OpenRec([Received(10), Received(5)], 0)], map[], {}, Some(10))
  {
    Buckets();
    hide Bucket;
    var st := One(RECORDER, Received(10), 0);
    var stored := Stored(RECORDER, st, Received(5), 0);
    assert [Received(10)] + [Received(5)] == [Received(10), Received(5)];
    assert stored.open == map[0 := OpenRec([Received(10), Received(5)], 0)];
    assert Overdue(RECORDER, stored, 10) == {};
    assert SealAll(stored, {}, Watermark) == stored;
  }

  lemma DiskOfTwo()
    ensures DiskOf(RECORDER, TWO) == map[0 := SealedRec([Received(10), Received(5)], Shutdown)]
  {
    RunOfTwo(RECORDER, Received(10), Received(5));
    StragglerJoins();
    hide Run, Ingest;
  }

  /** Such a chunk fits the file formats. */
  lemma FitsWell(recs: seq<Rec>, i: nat)
    requires i < 15 && |recs| <= 2
    requires forall n :: 0 <= n < |recs| ==> recs[n] == Received(recs[n].slot) && recs[n].slot < 256
    ensures FitsFormat(TreeCodec(), RECORDER, Tx, i, recs)
  {
    hide IndexFits, TreeCodec, UpdatesOf;
    forall n | 0 <= n < |recs|
      ensures |TreeCodec().encodeMessage(recs[n].update)| < U32 && UpdatesOf(recs)[n] == recs[n].update
    {
      BareIsShort(recs[n].slot);
      UpdateAt(recs, n);
    }
    HeaderIsShort(UpdatesOf(recs), i * 16, i * 16 + 16);
  }

  lemma NoneIsRecordable(c: Codec, stream: Stream)
    ensures RECORDER.Valid() && Recordable(c, RECORDER, stream, [])
  {
    DiskIsEmptyExactly(RECORDER, []);
    hide DiskOf;
  }

  /** Both examples can be recorded. */
  lemma BothAreRecordable(stream: Stream)
    ensures TreeCodec().Lawful() && RECORDER.Valid()
    ensures Recordable(TreeCodec(), RECORDER, stream, Fed(ONE)(stream))
    ensures Recordable(TreeCodec(), RECORDER, stream, Fed(TWO)(stream))
  {
    hide DiskOf, TreeCodec, FitsFormat;
    TreeCodecIsLawful();
    if stream.Tx? {
      DiskOfOne();
      DiskOfTwo();
      FitsWell([Received(10)], 0);
      FitsWell([Received(10), Received(5)], 0);
    } else {
      NoneIsRecordable(TreeCodec(), stream);
    }
  }

  // ----- one message, end to end -----

  lemma OneIsOrderly()
    ensures TreeCodec().Lawful() && RECORDER.Valid() && Orderly(TreeCodec(), RECORDER, Fed(ONE))
  {
    forall stream: Stream
      ensures NoStop(Fed(ONE)(stream)) && SlotsRise(Fed(ONE)(stream))
        && Recordable(TreeCodec(), RECORDER, stream, Fed(ONE)(stream))
    {
      BothAreRecordable(stream);
    }
    BothAreRecordable(Tx);
    hide Recordable, TreeCodec;
  }

  lemma NamedAll(c: Codec, u: Update)
    ensures NamesOf(c, NamedFilters(SUBSCRIPTION, Tx), u) == ["all"]
  {
    var named := NamedFilters(SUBSCRIPTION, Tx);
    assert named == [("all", ForTx(EVERYTHING))];
    EmptyFilterMatches(c, Tx, u);
    assert Matches(c, ForTx(EVERYTHING), u);
    hide Matches, NamedFilters;
    var rest: Named := [];
    assert named[1..] == rest;
    assert NamesOf(c, rest, u) == [];
  }

  lemma PicksAll(c: Codec, us: seq<Update>)
    ensures |Picked(c, NamedFilters(SUBSCRIPTION, Tx), us)| == |us|
    ensures forall i :: 0 <= i < |us| ==> Picked(c, NamedFilters(SUBSCRIPTION, Tx), us)[i] == (us[i], ["all"])
  {
    if us != [] {
      PicksAll(c, us[1..]);
      NamedAll(c, us[0]);
      hide NamesOf, NamedFilters;
    }
  }

  /** The shipped pacing thresholds, and a clock that stands still. */
  function FrozenWorld(now: nat): World {
    World(PacingConfig(true, 1, 1, 5_000_000_000, 30_000_000_000), (n: nat) => EnvStep(now, false, SentOk, now),
      (i: Item) => 0)
  }

  lemma {:induction false} FrozenAnchor(now: nat, out: seq<Tagged>, n: nat)
    requires n <= |out|
    ensures var a := AnchorAt(FrozenWorld(now), out, Start(FRESH), n); a.Some? ==> a.value.real_ == now
  {
    if n > 0 { FrozenAnchor(now, out, n - 1); }
  }

  /** However late the clock stands, no message lags behind its own due time. */
  lemma FrozenIsUndisturbed(now: nat, out: seq<Tagged>)
    ensures FrozenWorld(now).cfg.Valid() && Undisturbed(FrozenWorld(now), out, Start(FRESH))
  {
    forall n | 0 <= n < |out| ensures InTime(FrozenWorld(now), out, Start(FRESH), n) {
      FrozenAnchor(now, out, n);
      hide AnchorAt, Scaled;
    }
  }

  lemma ArrivedOne()
    ensures RECORDER.Valid() && Heard(RECORDER, ONE) == ONE && Arrived(ONE) == [Bare(10)] && SawMessage(ONE)
  {
    OneIsPlain();
    PlainIsHeard(RECORDER, ONE);
    hide Heard, Bare, RECORDER;
    var none: seq<Event> := [];
    assert ONE[..0] == none;
    assert ONE[0].Arrive?;
  }

  lemma OneIsPlain()
    ensures RECORDER.Valid() && OnlyArrivals(ONE) && SlotsRise(ONE)
  {
  }

  /** Recorded, indexed, planned and driven, one message is delivered, once,
      with pacing on and whatever the time of day. */
  lemma OneMessageGoesThrough(now: nat)
    ensures TreeCodec().Lawful() && RECORDER.Valid() && Orderly(TreeCodec(), RECORDER, Fed(ONE))
    ensures var plan := PlanOf(TreeCodec(), CatalogFor(TreeCodec(), RECORDER, Fed(ONE)), SUBSCRIPTION, None);
      && plan.Ok? && FrozenWorld(now).cfg.Valid()
      && PlanPass(TreeCodec(), FrozenWorld(now), plan.value, FRESH).exit == Drained
      && SeenIn(PlanPass(TreeCodec(), FrozenWorld(now), plan.value, FRESH).progress.delivered) == [(Bare(10), ["all"])]
  {
    hide *;
    var c, feed, w := TreeCodec(), Fed(ONE), FrozenWorld(now);
    OneIsOrderly();
    ArrivedOne();
    OneIsReplayable();
    OnlyTransactions();
    FeedIsOne();
    PicksOne(c);
    var plan := PlanOf(c, CatalogFor(c, RECORDER, feed), SUBSCRIPTION, None).value;
    FrozenIsUndisturbed(now, Offered(c, RECORDER, feed, SUBSCRIPTION, plan.fromSlot));
    RecordThenReplay(c, RECORDER, feed, w, SUBSCRIPTION, None, FRESH, Tx);
    DrainsIfUndisturbed(w, Offered(c, RECORDER, feed, SUBSCRIPTION, plan.fromSlot), FRESH, PlanPass(c, w, plan, FRESH));
    OneStreamInOrder(c, RECORDER, feed, w, SUBSCRIPTION, FRESH, Tx);
  }

  lemma FeedIsOne()
    ensures Fed(ONE)(Tx) == ONE && HasStream(SUBSCRIPTION, Tx)
  {
  }

  lemma OneIsReplayable()
    ensures RECORDER.Valid() && PlanOf(TreeCodec(), CatalogFor(TreeCodec(), RECORDER, Fed(ONE)), SUBSCRIPTION, None).Ok?
  {
    hide *;
    OneIsOrderly();
    ArrivedOne();
    FeedIsOne();
    ReplayableExactly(TreeCodec(), RECORDER, Fed(ONE), SUBSCRIPTION);
  }

  lemma PicksOne(c: Codec)
    ensures Picked(c, NamedFilters(SUBSCRIPTION, Tx), [Bare(10)]) == [(Bare(10), ["all"])]
  {
    hide *;
    PicksAll(c, [Bare(10)]);
  }

  lemma DrainsIfUndisturbed(w: World, offered: seq<Tagged>, ps: PacerState, end: PassEnd)
    requires w.cfg.Valid() && SendsInOrder(w, offered, ps, end) && Undisturbed(w, offered, Start(ps))
    ensures end.exit == Drained
  {
    hide Undisturbed;
  }

  // ----- a straggler is sent twice -----

  function Unpaced(): World {
    World(PacingConfig(false, 1, 1, 0, 0), (n: nat) => EnvStep(0, false, SentOk, 0), (i: Item) => 0)
  }

  /** A follower of the second example that nothing disturbs. */
  ghost function Watching(): Follower {
    var cat := CatalogFor(TreeCodec(), RECORDER, Fed(TWO));
    Follower(
      TreeCodec(), SUBSCRIPTION, Unpaced().cfg, 0, (n: nat) => TurnEnv(false, cat, Unpaced(), 0, 0, false))
  }

  lemma WatchingIs()
    ensures Watching().Valid() && Watching().c == TreeCodec() && Watching().sub == SUBSCRIPTION
    ensures var cat := CatalogFor(TreeCodec(), RECORDER, Fed(TWO));
      forall n :: Watching().env(n) == TurnEnv(false, cat, Unpaced(), 0, 0, false)
    ensures Fixed(Watching(), 2)
  {
    hide CatalogFor, TreeCodec;
  }

  lemma TwoIsRecorded()
    ensures TreeCodec().Lawful() && RECORDER.Valid()
    ensures Recorded(TreeCodec(), CatalogFor(TreeCodec(), RECORDER, Fed(TWO)), ContentFor(RECORDER, Fed(TWO)))
    ensures PlanOf(TreeCodec(), CatalogFor(TreeCodec(), RECORDER, Fed(TWO)), SUBSCRIPTION, None).Ok?
  {
    var c, feed := TreeCodec(), Fed(TWO);
    forall stream ensures Recordable(c, RECORDER, stream, feed(stream)) {
      BothAreRecordable(stream);
    }
    BothAreRecordable(Tx);
    DiskOfTwo();
    assert feed(Tx) == TWO && HasStream(SUBSCRIPTION, Tx);
    hide *;
    StoppedIsRecorded(c, RECORDER, feed);
    PlannableExactly(c, RECORDER, feed, SUBSCRIPTION);
    assert 0 in DiskOf(RECORDER, feed(Tx));
    assert DiskOf(RECORDER, feed(Tx)) != map[];
  }

  lemma OnlyStart(s: nat)
    ensures RECORDER.Valid()
    ensures Bucket(RECORDER, s) == 0 && Bucket(RECORDER, s) * RECORDER.slotsPerChunk == s ==> s == 0
  {
  }

  lemma OnDisk(i: nat)
    ensures RECORDER.Valid() && (i in DiskOf(RECORDER, TWO) <==> i == 0)
  {
    hide DiskOf;
    DiskOfTwo();
  }

  lemma ChunkAt(s: nat)
    ensures RECORDER.Valid()
    ensures s in TreeOf(CatalogFor(TreeCodec(), RECORDER, Fed(TWO)), Tx) <==> s == 0
  {
    OnDisk(0);
    OnDisk(Bucket(RECORDER, s));
    OnlyStart(s);
    assert Fed(TWO)(Tx) == TWO && RECORDER.slotsPerChunk == 16;
    hide *;
    ListedExactly(TreeCodec(), RECORDER, Fed(TWO), Tx, s, 0);
  }

  /** A start is listed exactly if its range is on disk. */
  lemma ListedExactly(c: Codec, cfg: WriterConfig, feed: Feed, stream: Stream, s: nat, i: nat)
    requires cfg.Valid()
    ensures var tree, disk := TreeOf(CatalogFor(c, cfg, feed), stream), DiskOf(cfg, feed(stream));
      && (s in tree ==> Bucket(cfg, s) in disk && Bucket(cfg, s) * cfg.slotsPerChunk == s)
      && (i in disk ==> i * cfg.slotsPerChunk in tree)
  {
    hide *;
    TreeOfFeed(c, cfg, feed, stream);
  }

  lemma OneChunk()
    ensures RECORDER.Valid()
    ensures TreeOf(CatalogFor(TreeCodec(), RECORDER, Fed(TWO)), Tx).Keys == {0}
  {
    OnlyStart(0);
    hide *;
    forall s: nat ensures s in TreeOf(CatalogFor(TreeCodec(), RECORDER, Fed(TWO)), Tx).Keys <==> s in {0} {
      ChunkAt(s);
    }
  }

  lemma TwoMessages()
    ensures RECORDER.Valid()
    ensures MessagesAt(ContentFor(RECORDER, Fed(TWO)), Tx, 0) == [Bare(10), Bare(5)]
  {
    hide DiskOf, UpdatesOf;
    DiskOfTwo();
    TwoUpdates();
    assert Fed(TWO)(Tx) == TWO;
    assert Bucket(RECORDER, 0) == 0;
  }

  lemma HeldFromOne(stream: Stream, content: Content, us: seq<Update>)
    requires MessagesAt(content, stream, 0) == us
    ensures HeldFrom(stream, content, [0]) == us
  {
    hide MessagesAt;
    var none: seq<nat> := [];
    assert [0][1..] == none;
    assert HeldFrom(stream, content, none) == [];
  }

  lemma TwoAreHeld()
    ensures RECORDER.Valid()
    ensures HeldOf(CatalogFor(TreeCodec(), RECORDER, Fed(TWO)), ContentFor(RECORDER, Fed(TWO)), Tx)
      == [Bare(10), Bare(5)]
  {
    hide CatalogFor, ContentFor, TreeOf, HeldFrom, Ascending, MessagesAt, TreeCodec;
    OneChunk();
    OneStart(TreeOf(CatalogFor(TreeCodec(), RECORDER, Fed(TWO)), Tx).Keys);
    TwoMessages();
    HeldFromOne(Tx, ContentFor(RECORDER, Fed(TWO)), [Bare(10), Bare(5)]);
  }

  lemma OneStart(keys: set<nat>)
    ensures keys == {0} ==> Ascending(keys) == [0]
  {
    AscendingUnique(Ascending({0}), [0]);
  }

  lemma TwoUpdates()
    ensures UpdatesOf([Received(10), Received(5)]) == [Bare(10), Bare(5)]
  {
    UpdateAt([Received(10), Received(5)], 0);
    UpdateAt([Received(10), Received(5)], 1);
    hide UpdatesOf;
  }

  lemma UnpacedIsUndisturbed(out: seq<Tagged>, p: Progress)
    ensures Unpaced().cfg.Valid() && Undisturbed(Unpaced(), out, p)
  {
    hide DueAt;
  }

  lemma SeenOfTwo(a: Tagged, b: Tagged)
    ensures SeenIn([a, b]) == [(a.item.update, a.item.names), (b.item.update, b.item.names)]
    ensures SeenIn([a, b, a]) == SeenIn([a, b]) + [(a.item.update, a.item.names)]
  {
    var none: seq<Tagged> := [];
    assert [a, b, a][1..] == [b, a] && [a, b][1..] == [b] && [b, a][1..] == [a] && [a][1..] == none && [b][1..] == none;
    assert SeenIn([a]) == [(a.item.update, a.item.names)];
    assert SeenIn([b]) == [(b.item.update, b.item.names)];
    assert SeenIn([b, a]) == [(b.item.update, b.item.names), (a.item.update, a.item.names)];
  }

  lemma {:induction false} TwoSeen(out: seq<Tagged>)
    requires SeenIn(out) == [(Bare(10), ["all"]), (Bare(5), ["all"])]
    ensures |out| == 2 && out[0].item.update == Bare(10) && out[1].item.update == Bare(5)
    ensures SeenIn(out + [out[0]]) == [(Bare(10), ["all"]), (Bare(5), ["all"]), (Bare(10), ["all"])]
  {
    SeenHas(out, (Bare(10), ["all"]));
    var a, b := out[0], out[1];
    SeenOfTwo(a, b);
    hide SeenIn;
    assert out == [a, b] && out + [a] == [a, b, a];
    assert SeenIn(out)[0] == (Bare(10), ["all"]) && SeenIn(out)[1] == (Bare(5), ["all"]);
  }

  lemma OnlyTheFirst(out: seq<Tagged>)
    requires |out| == 2 && out[0].item.slot == 10 && out[1].item.slot == 5
    ensures FloorOut(out, 6) == [out[0]] && LastSlotIn(out) == 5
  {
    var a, b := out[0], out[1];
    var none: seq<Tagged> := [];
    assert out == [a, b] && [a, b][1..] == [b] && [b][1..] == none;
    assert FloorOut([b], 6) == [];
  }

  /** Ten then five, recorded within tolerance in one chunk: a follower nobody
      disturbs sends ten, five, and on its next pass ten again. */
  lemma StragglerIsSentTwice(first: ReplayPlan, deadline: nat)
    requires RECORDER.Valid()
    requires PlanOf(TreeCodec(), CatalogFor(TreeCodec(), RECORDER, Fed(TWO)), SUBSCRIPTION, None) == Ok(first)
    ensures Watching().Valid() && DrainsFor(Watching(), Begin(first, deadline), 2)
    ensures SeenIn(After(Watching(), Begin(first, deadline), 2).delivered)
      == [(Bare(10), ["all"]), (Bare(5), ["all"]), (Bare(10), ["all"])]
  {
    hide *;
    var c, cat, content := TreeCodec(), CatalogFor(TreeCodec(), RECORDER, Fed(TWO)), ContentFor(RECORDER, Fed(TWO));
    var d := Deliverable(c, cat, SUBSCRIPTION, content, first.fromSlot);
    TwoIsRecorded();
    WatchingDrains(content, first, deadline);
    DeliversTenAndFive(first);
    TwoSeen(d);
    SecondTurnIs(first, deadline, d);
  }

  lemma TenThenFive(c: Codec, cat: Catalog, content: Content, from: nat, d: seq<Tagged>)
    requires d == Deliverable(c, cat, SUBSCRIPTION, content, from)
    requires SeenIn(d) == [(Bare(10), ["all"]), (Bare(5), ["all"])]
    ensures |d| == 2 && d[0].item.slot == 10 && d[1].item.slot == 5
  {
    hide *;
    TwoSeen(d);
    assert d[0] in d && d[1] in d;
    DeliveredIsStamped(c, cat, SUBSCRIPTION, content, from, d[0]);
    DeliveredIsStamped(c, cat, SUBSCRIPTION, content, from, d[1]);
    SlotsOfBare();
  }

  lemma SecondTurnIs(first: ReplayPlan, deadline: nat, d: seq<Tagged>)
    requires RECORDER.Valid()
    requires PlanOf(TreeCodec(), CatalogFor(TreeCodec(), RECORDER, Fed(TWO)), SUBSCRIPTION, None) == Ok(first)
    requires d == Deliverable(
      TreeCodec(), CatalogFor(TreeCodec(), RECORDER, Fed(TWO)), SUBSCRIPTION, ContentFor(RECORDER, Fed(TWO)),
      first.fromSlot)
    ensures Watching().Valid() && d != []
    ensures After(Watching(), Begin(first, deadline), 2).delivered == d + [d[0]]
  {
    hide *;
    var c, cat, content := TreeCodec(), CatalogFor(TreeCodec(), RECORDER, Fed(TWO)), ContentFor(RECORDER, Fed(TWO));
    TwoIsRecorded();
    WatchingIs();
    WatchingDrains(content, first, deadline);
    DeliversTenAndFive(first);
    FirstTurnIs(content, first, deadline);
    TenThenFive(c, cat, content, first.fromSlot, d);
    OnlyTheFirst(d);
    var from := TurnDelivers(Watching(), content, first, deadline, 1);
    FirstStarts(Watching(), first);
    SameStart(cat, SUBSCRIPTION, d, from, first.fromSlot);
    LastSlotIs(d);
    DeliverableIs(c, cat, SUBSCRIPTION, content, from);
  }

  lemma SlotsOfBare()
    ensures SlotOf(Bare(10)) == 10 && SlotOf(Bare(5)) == 5
  {
  }

  lemma WatchingPlans(first: ReplayPlan)
    requires PlanOf(TreeCodec(), CatalogFor(TreeCodec(), RECORDER, Fed(TWO)), SUBSCRIPTION, None) == Ok(first)
    ensures Planned(Watching(), first)
  {
    hide PlanOf, CatalogFor, TreeCodec;
  }

  lemma WatchingDrains(content: Content, first: ReplayPlan, deadline: nat)
    requires Recorded(TreeCodec(), CatalogFor(TreeCodec(), RECORDER, Fed(TWO)), content)
    requires PlanOf(TreeCodec(), CatalogFor(TreeCodec(), RECORDER, Fed(TWO)), SUBSCRIPTION, None) == Ok(first)
    ensures Watching().Valid() && Planned(Watching(), first)
    ensures DrainsFor(Watching(), Begin(first, deadline), 2)
  {
    hide *;
    var f := Watching();
    WatchingIs();
    WatchingPlans(first);
    forall k | 0 <= k < 2 ensures TurnInTime(f, content, After(f, Begin(first, deadline), k)) {
      TurnsAreInTime(content, After(f, Begin(first, deadline), k));
    }
    FollowerDrainsExactly(f, content, first, deadline, 2);
  }

  lemma TurnsAreInTime(content: Content, st: FollowState)
    ensures Watching().Valid() && TurnInTime(Watching(), content, st)
  {
    WatchingIs();
    hide PlanFor, Undisturbed, Deliverable, Watching;
    var f := Watching();
    if PlanFor(f, st).Ok? {
      UnpacedIsUndisturbed(
        Deliverable(f.c, f.env(0).cat, f.sub, content, PlanFor(f, st).value.fromSlot), Start(st.pacer));
    }
  }

  lemma DeliversTenAndFive(first: ReplayPlan)
    requires PlanOf(TreeCodec(), CatalogFor(TreeCodec(), RECORDER, Fed(TWO)), SUBSCRIPTION, None) == Ok(first)
    ensures var cat, content := CatalogFor(TreeCodec(), RECORDER, Fed(TWO)), ContentFor(RECORDER, Fed(TWO));
      var d := Deliverable(TreeCodec(), cat, SUBSCRIPTION, content, first.fromSlot);
      d == MergeAll(FullLanes(TreeCodec(), cat, SUBSCRIPTION, content)).out
      && SeenIn(d) == [(Bare(10), ["all"]), (Bare(5), ["all"])]
  {
    OnlyTransactions();
    hide *;
    var c, cat, content := TreeCodec(), CatalogFor(TreeCodec(), RECORDER, Fed(TWO)), ContentFor(RECORDER, Fed(TWO));
    TwoIsRecorded();
    TwoAreHeld();
    OpenReplayDeliversAll(c, cat, SUBSCRIPTION, content, Tx);
    OnlyLane(c, cat, SUBSCRIPTION, content, Tx);
    PicksTwo(c);
  }

  lemma OnlyTransactions()
    ensures RECORDER.Valid() && forall other :: HasStream(SUBSCRIPTION, other) ==> other == Tx
  {
  }

  lemma PicksTwo(c: Codec)
    ensures Picked(c, NamedFilters(SUBSCRIPTION, Tx), [Bare(10), Bare(5)]) == [(Bare(10), ["all"]), (Bare(5), ["all"])]
  {
    hide *;
    PicksAll(c, [Bare(10), Bare(5)]);
  }

  lemma FirstTurnIs(content: Content, first: ReplayPlan, deadline: nat)
    requires Recorded(TreeCodec(), CatalogFor(TreeCodec(), RECORDER, Fed(TWO)), content)
    requires PlanOf(TreeCodec(), CatalogFor(TreeCodec(), RECORDER, Fed(TWO)), SUBSCRIPTION, None) == Ok(first)
    ensures Watching().Valid() && Planned(Watching(), first) && DrainsFor(Watching(), Begin(first, deadline), 2)
    ensures After(Watching(), Begin(first, deadline), 1).delivered
      == Deliverable(
        TreeCodec(), CatalogFor(TreeCodec(), RECORDER, Fed(TWO)), SUBSCRIPTION, content, first.fromSlot)
  {
    hide *;
    WatchingIs();
    WatchingDrains(content, first, deadline);
    DrainsAt(Watching(), Begin(first, deadline), 2, 1);
    FirstTurnDelivers(Watching(), content, first, deadline);
  }
}
