/** The catalog of locally held chunks and `plan_replay`: which chunks a
    subscription needs and which of their ordinals. */
module Plan {
  import opened Core
  import opened Codecs
  import opened LruCache
  import opened IndexRead
  import opened Filters
  import opened Cursor
  import opened Replay

  type Tree = map<nat, ChunkEntry>

  /** Per stream, the chunks by start slot. */
  datatype Catalog = Catalog(streams: map<Stream, Tree>)

  function TreeOf(cat: Catalog, stream: Stream): Tree {
    if stream in cat.streams then cat.streams[stream] else map[]
  }

  predicate Overlaps(e: ChunkEntry, start: nat, from: nat, to: nat) {
    start < to && e.endSlotExclusive > from
  }

  function InRange(tree: Tree, starts: seq<nat>, from: nat, to: nat): seq<ChunkEntry>
    requires forall s :: s in starts ==> s in tree
  {
    if starts == [] then []
    else
      var rest := InRange(tree, starts[1..], from, to);
      if Overlaps(tree[starts[0]], starts[0], from, to) then [tree[starts[0]]] + rest else rest
  }

  function ChunksInRange(cat: Catalog, stream: Stream, from: nat, to: nat): seq<ChunkEntry> {
    var tree := TreeOf(cat, stream);
    InRange(tree, Ascending(tree.Keys), from, to)
  }

  // ----- the summary -----

  datatype StreamSummary = StreamSummary(
    stream: Stream, count: nat, minStart: Option<nat>, maxEnd: Option<nat>)

  /** `keys().next()` and `values().last()` of the ordered map. */
  function Summarize(cat: Catalog, stream: Stream): Option<StreamSummary> {
    if stream !in cat.streams then None
    else
      var tree := cat.streams[stream];
      var starts := Ascending(tree.Keys);
      Some(StreamSummary(stream, |tree|,
        if starts == [] then None else Some(starts[0]),
        if starts == [] then None else Some(tree[starts[|starts| - 1]].endSlotExclusive)))
  }

  function LeastOf(a: Option<nat>, b: Option<nat>): Option<nat> {
    if a.None? then b else if b.None? then a else if a.value <= b.value then a else b
  }

  function GreatestOf(a: Option<nat>, b: Option<nat>): Option<nat> {
    if a.None? then b else if b.None? then a else if a.value >= b.value then a else b
  }

  function MaxEnd(cat: Catalog, stream: Stream): Option<nat> {
    var s := Summarize(cat, stream);
    if s.Some? then s.value.maxEnd else None
  }

  function NewestEndSlot(cat: Catalog): Option<nat> {
    GreatestOf(MaxEnd(cat, Tx), GreatestOf(MaxEnd(cat, Acct), MaxEnd(cat, Block)))
  }

  // ----- subscriptions -----

  datatype Subscription = Subscription(
    transactions: seq<(string, TxFilter)>,
    accounts: seq<(string, AcctFilter)>,
    blocksMeta: seq<(string, BlockFilter)>,
    fromSlot: Option<nat>)

  predicate HasStream(sub: Subscription, stream: Stream) {
    match stream
    case Tx => sub.transactions != []
    case Acct => sub.accounts != []
    case Block => sub.blocksMeta != []
  }

  type Named = seq<(string, StreamFilter)>

  /** The subscription's filters for one stream, under their names. */
  function NamedFilters(sub: Subscription, stream: Stream): Named {
    match stream
    case Tx => var l := sub.transactions; seq(|l|, i requires 0 <= i < |l| => (l[i].0, ForTx(l[i].1)))
    case Acct => var l := sub.accounts; seq(|l|, i requires 0 <= i < |l| => (l[i].0, ForAcct(l[i].1)))
    case Block => var l := sub.blocksMeta; seq(|l|, i requires 0 <= i < |l| => (l[i].0, ForBlock(l[i].1)))
  }

  function MinStart(cat: Catalog, sub: Subscription, stream: Stream): Option<nat> {
    if !HasStream(sub, stream) then None
    else
      var s := Summarize(cat, stream);
      if s.Some? then s.value.minStart else None
  }

  /** The oldest slot held for the streams this subscription asked for. */
  function FirstAvailable(cat: Catalog, sub: Subscription): Option<nat> {
    LeastOf(MinStart(cat, sub, Tx), LeastOf(MinStart(cat, sub, Acct), MinStart(cat, sub, Block)))
  }

  // ----- planning one chunk -----

  type IndexCache = Cache<CacheKey, Bytes, ChunkIndex, IndexError>

  ghost predicate IsIndexCache(c: Codec, cache: IndexCache)
    reads cache
  {
    cache.Valid() && forall b :: cache.load(b) == ParseIndex(c, b)
  }

  ghost function BitmapsOf(c: Codec, idx: ChunkIndex, named: Named): seq<(string, set<nat>)>
    requires idx.Valid()
  {
    if named == [] then []
    else [(named[0].0, Selected(c, idx, named[0].1))] + BitmapsOf(c, idx, named[1..])
  }

  function UnionOf(bitmaps: seq<(string, set<nat>)>): set<nat> {
    if bitmaps == [] then {} else UnionOf(bitmaps[..|bitmaps| - 1]) + bitmaps[|bitmaps| - 1].1
  }

  ghost function PlanChunk(c: Codec, named: Named, entry: ChunkEntry, idx: ChunkIndex): ChunkPlan
    requires idx.Valid()
  {
    var bitmaps := BitmapsOf(c, idx, named);
    ChunkPlan(entry.stream, entry, bitmaps, UnionOf(bitmaps))
  }

  /** Plan every entry; an index that cannot be parsed fails the whole plan. */
  ghost function PlanEntries(c: Codec, named: Named, entries: seq<ChunkEntry>): Result<seq<ChunkPlan>, IndexError> {
    if entries == [] then Ok([])
    else
      var parsed := ParseIndex(c, entries[0].idx);
      if parsed.Err? then Err(parsed.error)
      else
        var rest := PlanEntries(c, named, entries[1..]);
        if rest.Err? then rest else Ok([PlanChunk(c, named, entries[0], parsed.value)] + rest.value)
  }

  method Resolve(c: Codec, idx: ChunkIndex, f: StreamFilter) returns (bits: set<nat>)
    requires idx.Valid()
    ensures bits == Selected(c, idx, f)
  {
    hide Selected;
    match f {
      case ForTx(tx) => bits := FilterTx(c, idx, tx);
      case ForAcct(acct) => bits := FilterAcct(c, idx, acct);
      case ForBlock(block) => bits := FilterBlock(c, idx, block);
    }
  }

  method Unite(bitmaps: seq<(string, set<nat>)>) returns (union: set<nat>)
    ensures union == UnionOf(bitmaps)
  {
    union := {};
    for i := 0 to |bitmaps|
      invariant union == UnionOf(bitmaps[..i])
    {
      assert bitmaps[..i + 1][..i] == bitmaps[..i];
      union := union + bitmaps[i].1;
    }
    assert bitmaps[..|bitmaps|] == bitmaps;
  }

  method ResolveNamed(c: Codec, idx: ChunkIndex, named: Named)
    returns (bitmaps: seq<(string, set<nat>)>, union: set<nat>)
    requires idx.Valid()
    ensures bitmaps == BitmapsOf(c, idx, named) && union == UnionOf(bitmaps)
  {
    hide Selected;
    bitmaps := [];
    assert named[0..] == named;
    for i := 0 to |named|
      invariant BitmapsOf(c, idx, named) == bitmaps + BitmapsOf(c, idx, named[i..])
    {
      assert named[i..][0] == named[i] && named[i..][1..] == named[i + 1..];
      var bits := Resolve(c, idx, named[i].1);
      bitmaps := bitmaps + [(named[i].0, bits)];
    }
    assert named[|named|..] == [];
    union := Unite(bitmaps);
  }

  // ----- planning a replay -----

  datatype PlanError =
    | FromSlotTooOld(requested: nat, firstAvailable: nat)
    | NoChunksAvailable
    | BadIndex(error: IndexError)

  ghost function PlanStream(c: Codec, cat: Catalog, sub: Subscription, stream: Stream, from: nat, to: nat)
    : Result<seq<ChunkPlan>, IndexError>
  {
    if !HasStream(sub, stream) then Ok([])
    else PlanEntries(c, NamedFilters(sub, stream), ChunksInRange(cat, stream, from, to))
  }

  /** Where a replay starts: the request if it is still held, else the floor. */
  function StartSlot(cat: Catalog, sub: Subscription, requested: Option<nat>): Result<nat, PlanError> {
    var floor := FirstAvailable(cat, sub);
    if floor.None? then Err(NoChunksAvailable)
    else if requested.None? then Ok(floor.value)
    else if requested.value < floor.value then Err(FromSlotTooOld(requested.value, floor.value))
    else Ok(requested.value)
  }

  function EndSlot(cat: Catalog): nat {
    if NewestEndSlot(cat).Some? then NewestEndSlot(cat).value else 0
  }

  ghost function PlanOf(
      c: Codec, cat: Catalog, sub: Subscription, requested: Option<nat>): Result<ReplayPlan, PlanError> {
    match StartSlot(cat, sub, requested)
    case Err(e) => Err(e)
    case Ok(from) =>
      var to := EndSlot(cat);
      var p0 := PlanStream(c, cat, sub, Tx, from, to);
      var p1 := PlanStream(c, cat, sub, Acct, from, to);
      var p2 := PlanStream(c, cat, sub, Block, from, to);
      if p0.Err? then Err(BadIndex(p0.error))
      else if p1.Err? then Err(BadIndex(p1.error))
      else if p2.Err? then Err(BadIndex(p2.error))
      else Ok(ReplayPlan(from, to, [p0.value, p1.value, p2.value]))
  }

  /** Every entry's index file is the immutable one behind its cache key. */
  ghost predicate IndexBacked(cache: IndexCache, entries: seq<ChunkEntry>) {
    forall i :: 0 <= i < |entries| ==> cache.file(KeyOf(entries[i])) == entries[i].idx
  }

  ghost predicate CatalogBacked(cache: IndexCache, cat: Catalog) {
    forall stream, start :: stream in cat.streams && start in cat.streams[stream] ==>
      cache.file(KeyOf(cat.streams[stream][start])) == cat.streams[stream][start].idx
  }

  lemma {:induction false} InRangeFromTree(tree: Tree, starts: seq<nat>, from: nat, to: nat)
    requires forall s :: s in starts ==> s in tree
    ensures forall e :: e in InRange(tree, starts, from, to) ==> exists s :: s in tree && tree[s] == e
  {
    if starts != [] {
      InRangeFromTree(tree, starts[1..], from, to);
    }
  }

  lemma RangeIsBacked(cache: IndexCache, cat: Catalog, stream: Stream, from: nat, to: nat)
    requires CatalogBacked(cache, cat)
    ensures IndexBacked(cache, ChunksInRange(cat, stream, from, to))
  {
    var tree := TreeOf(cat, stream);
    InRangeFromTree(tree, Ascending(tree.Keys), from, to);
    var entries := ChunksInRange(cat, stream, from, to);
    forall i | 0 <= i < |entries| ensures cache.file(KeyOf(entries[i])) == entries[i].idx {
      assert entries[i] in entries;
      var s :| s in tree && tree[s] == entries[i];
      assert stream in cat.streams;
    }
  }

  method PlanOneStream(c: Codec, named: Named, entries: seq<ChunkEntry>, cache: IndexCache)
    returns (r: Result<seq<ChunkPlan>, IndexError>)
    requires IsIndexCache(c, cache) && IndexBacked(cache, entries)
    modifies cache
    ensures IsIndexCache(c, cache) && r == PlanEntries(c, named, entries)
  {
    hide ParseIndex, Cache.Valid, PlanEntries;
    var plans: seq<ChunkPlan> := [];
    assert entries[0..] == entries;
    PlanEntriesEnds(c, named, entries, []);
    var i := 0;
    while i < |entries|
      invariant 0 <= i <= |entries| && IsIndexCache(c, cache)
      invariant PlanEntries(c, named, entries) == Prepended(plans, PlanEntries(c, named, entries[i..]))
    {
      PlanEntriesHead(c, named, entries, i, plans);
      var idx := cache.GetOrLoad(KeyOf(entries[i]), entries[i].idx);
      if idx.Err? {
        return Err(idx.error);
      }
      var bitmaps, union := ResolveNamed(c, idx.value, named);
      plans := plans + [ChunkPlan(entries[i].stream, entries[i], bitmaps, union)];
      i := i + 1;
    }
    PlanEntriesEnds(c, named, entries, plans);
    return Ok(plans);
  }

  ghost function Prepended(
      plans: seq<ChunkPlan>, r: Result<seq<ChunkPlan>, IndexError>): Result<seq<ChunkPlan>, IndexError> {
    if r.Err? then r else Ok(plans + r.value)
  }

  lemma PlanEntriesHead(c: Codec, named: Named, entries: seq<ChunkEntry>, i: nat, plans: seq<ChunkPlan>)
    requires i < |entries|
    ensures ParseIndex(c, entries[i].idx).Err? ==>
      PlanEntries(c, named, entries[i..]) == Err(ParseIndex(c, entries[i].idx).error)
    ensures ParseIndex(c, entries[i].idx).Ok? ==>
      var idx := ParseIndex(c, entries[i].idx).value;
      idx.Valid() &&
      Prepended(plans, PlanEntries(c, named, entries[i..]))
        == Prepended(plans + [PlanChunk(c, named, entries[i], idx)], PlanEntries(c, named, entries[i + 1..]))
  {
    assert entries[i..][0] == entries[i] && entries[i..][1..] == entries[i + 1..];
    hide ParseIndex, PlanChunk;
    var rest := PlanEntries(c, named, entries[i + 1..]);
    if ParseIndex(c, entries[i].idx).Ok? && rest.Ok? {
      var head := [PlanChunk(c, named, entries[i], ParseIndex(c, entries[i].idx).value)];
      assert plans + (head + rest.value) == (plans + head) + rest.value;
    }
  }

  lemma PlanEntriesEnds(c: Codec, named: Named, entries: seq<ChunkEntry>, plans: seq<ChunkPlan>)
    ensures Prepended([], PlanEntries(c, named, entries)) == PlanEntries(c, named, entries)
    ensures Prepended(plans, PlanEntries(c, named, entries[|entries|..])) == Ok(plans)
  {
    assert entries[|entries|..] == [] && plans + [] == plans;
    hide ParseIndex, PlanChunk;
    var r := PlanEntries(c, named, entries);
    if r.Ok? { assert [] + r.value == r.value; }
  }

  /** One turn of the loop over the streams. */
  method PlanLane(
      c: Codec, cat: Catalog, sub: Subscription, cache: IndexCache, stream: Stream, from: nat, to: nat)
    returns (r: Result<seq<ChunkPlan>, IndexError>)
    requires IsIndexCache(c, cache) && CatalogBacked(cache, cat)
    modifies cache
    ensures IsIndexCache(c, cache) && r == PlanStream(c, cat, sub, stream, from, to)
  {
    hide PlanEntries, IsIndexCache, ChunksInRange;
    if !HasStream(sub, stream) {
      return Ok([]);
    }
    RangeIsBacked(cache, cat, stream, from, to);
    r := PlanOneStream(c, NamedFilters(sub, stream), ChunksInRange(cat, stream, from, to), cache);
  }

  // ----- what a plan answers, on the chunks held -----

  predicate Asks(sub: Subscription, stream: Stream) {
    (stream.Tx? && |sub.transactions| > 0) || (stream.Acct? && |sub.accounts| > 0)
    || (stream.Block? && |sub.blocksMeta| > 0)
  }

  /** A chunk of a stream the subscription asks for starts here. */
  predicate HeldFor(cat: Catalog, sub: Subscription, stream: Stream, s: nat) {
    Asks(sub, stream) && stream in cat.streams && s in cat.streams[stream]
  }

  /** The least start of all of them. */
  ghost predicate IsFloor(cat: Catalog, sub: Subscription, m: nat) {
    (exists stream :: HeldFor(cat, sub, stream, m)) && forall stream, s :: HeldFor(cat, sub, stream, s) ==> m <= s
  }

  /** The chunk of a stream with the greatest start. */
  ghost predicate IsLastChunk(cat: Catalog, stream: Stream, s: nat) {
    stream in cat.streams && s in cat.streams[stream] && forall t :: t in cat.streams[stream] ==> t <= s
  }

  /** The greatest end of the streams' last chunks. */
  ghost predicate IsEnd(cat: Catalog, to: nat) {
    && (exists stream, s :: IsLastChunk(cat, stream, s) && cat.streams[stream][s].endSlotExclusive == to)
    && forall stream, s :: IsLastChunk(cat, stream, s) ==> cat.streams[stream][s].endSlotExclusive <= to
  }

  predicate Overlapping(cat: Catalog, stream: Stream, s: nat, from: nat, to: nat)
    requires stream in cat.streams && s in cat.streams[stream]
  {
    s < to && from < cat.streams[stream][s].endSlotExclusive
  }

  /** These are the starts of the chunks of a stream that reach into the range. */
  ghost predicate ReachIn(cat: Catalog, sub: Subscription, stream: Stream, from: nat, to: nat, starts: seq<nat>) {
    && IsAscending(starts)
    && forall s: nat :: (s in starts <==> HeldFor(cat, sub, stream, s) && Overlapping(cat, stream, s, from, to))
  }

  /** One plan for each of them, in order. */
  predicate IsChunkAt(cat: Catalog, stream: Stream, s: nat, e: ChunkEntry) {
    stream in cat.streams && s in cat.streams[stream] && e == cat.streams[stream][s]
  }

  ghost predicate PlansThem(cat: Catalog, stream: Stream, starts: seq<nat>, plans: seq<ChunkPlan>) {
    |plans| == |starts|
    && forall i :: 0 <= i < |plans| ==> IsChunkAt(cat, stream, starts[i], plans[i].entry)
  }

  ghost predicate ListsRange(
      cat: Catalog, sub: Subscription, stream: Stream, from: nat, to: nat, plans: seq<ChunkPlan>) {
    exists starts :: ReachIn(cat, sub, stream, from, to, starts) && PlansThem(cat, stream, starts, plans)
  }

  /** No chunks, a start below the floor, or the chunks from there to the end. */
  ghost predicate Answers(cat: Catalog, sub: Subscription, requested: Option<nat>, r: Result<ReplayPlan, PlanError>) {
    && (r == Err(NoChunksAvailable) <==> forall stream, s :: !HeldFor(cat, sub, stream, s))
    && (forall q: nat, m: nat ::
          r == Err(FromSlotTooOld(q, m)) <==> requested == Some(q) && IsFloor(cat, sub, m) && q < m)
    && (r.Ok? ==>
          && (if requested.Some? then r.value.fromSlot == requested.value else IsFloor(cat, sub, r.value.fromSlot))
          && IsEnd(cat, r.value.toSlotExclusive)
          && ListsRange(cat, sub, Tx, r.value.fromSlot, r.value.toSlotExclusive, r.value.lanes[0])
          && ListsRange(cat, sub, Acct, r.value.fromSlot, r.value.toSlotExclusive, r.value.lanes[1])
          && ListsRange(cat, sub, Block, r.value.fromSlot, r.value.toSlotExclusive, r.value.lanes[2]))
  }

  lemma FirstAndLast(keys: set<nat>)
    ensures Ascending(keys) == [] <==> keys == {}
    ensures keys != {} ==>
      var starts := Ascending(keys);
      && starts[0] in keys && starts[|starts| - 1] in keys
      && forall s :: s in keys ==> starts[0] <= s <= starts[|starts| - 1]
  {
    var starts := Ascending(keys);
    hide Ascending;
    if keys != {} {
      var s :| s in keys;
      assert s in starts;
    }
    if starts != [] { assert starts[0] in keys && starts[|starts| - 1] in keys; }
    forall s | s in keys ensures starts[0] <= s <= starts[|starts| - 1] {
      assert s in starts;
      var i :| 0 <= i < |starts| && starts[i] == s;
    }
  }

  lemma MinStartOf(cat: Catalog, sub: Subscription, stream: Stream)
    ensures MinStart(cat, sub, stream)
      == if Asks(sub, stream) && stream in cat.streams && cat.streams[stream].Keys != {}
         then Some(Ascending(cat.streams[stream].Keys)[0]) else None
  {
    if stream in cat.streams { FirstAndLast(cat.streams[stream].Keys); }
    hide Ascending;
  }

  /** The summary of a stream is about its first and its last chunk. */
  lemma MinStartIs(cat: Catalog, sub: Subscription, stream: Stream)
    ensures var m := MinStart(cat, sub, stream);
      && (m.None? <==> forall s :: !HeldFor(cat, sub, stream, s))
      && (m.Some? ==> HeldFor(cat, sub, stream, m.value) && forall s :: HeldFor(cat, sub, stream, s) ==> m.value <= s)
  {
    MinStartOf(cat, sub, stream);
    hide MinStart, Asks, Ascending;
    if Asks(sub, stream) && stream in cat.streams && cat.streams[stream].Keys != {} {
      FirstAndLast(cat.streams[stream].Keys);
      assert HeldFor(cat, sub, stream, Ascending(cat.streams[stream].Keys)[0]);
    }
  }

  function LastStartOf(cat: Catalog, stream: Stream): nat
    requires stream in cat.streams && cat.streams[stream].Keys != {}
  {
    FirstAndLast(cat.streams[stream].Keys);
    var starts := Ascending(cat.streams[stream].Keys);
    starts[|starts| - 1]
  }

  lemma MaxEndIs(cat: Catalog, stream: Stream)
    ensures stream in cat.streams && cat.streams[stream].Keys == {} ==> MaxEnd(cat, stream).None?
    ensures stream in cat.streams && cat.streams[stream].Keys != {} ==>
      var last := LastStartOf(cat, stream);
      IsLastChunk(cat, stream, last) && MaxEnd(cat, stream) == Some(cat.streams[stream][last].endSlotExclusive)
  {
    if stream in cat.streams {
      FirstAndLast(cat.streams[stream].Keys);
      MaxEndOf(cat, stream);
    }
    hide Ascending, MaxEnd;
  }

  lemma MaxEndOf(cat: Catalog, stream: Stream)
    requires stream in cat.streams
    ensures var tree := cat.streams[stream];
      var starts := Ascending(tree.Keys);
      MaxEnd(cat, stream) == if starts == [] then None else Some(tree[starts[|starts| - 1]].endSlotExclusive)
  {
    hide Ascending;
  }

  lemma IsLastStart(cat: Catalog, stream: Stream, s: nat)
    requires IsLastChunk(cat, stream, s)
    ensures cat.streams[stream].Keys != {} && s == LastStartOf(cat, stream)
  {
    MaxEndIs(cat, stream);
  }

  lemma FloorOfStream(cat: Catalog, sub: Subscription, stream: Stream, s: nat)
    requires HeldFor(cat, sub, stream, s)
    ensures FirstAvailable(cat, sub).Some? && FirstAvailable(cat, sub).value <= s
  {
    MinStartIs(cat, sub, stream);
    hide MinStart, HeldFor;
    assert stream == Tx || stream == Acct || stream == Block;
  }

  lemma FirstAvailableIs(cat: Catalog, sub: Subscription)
    ensures FirstAvailable(cat, sub).None? <==> forall stream, s :: !HeldFor(cat, sub, stream, s)
    ensures forall m: nat :: (FirstAvailable(cat, sub) == Some(m) <==> IsFloor(cat, sub, m))
  {
    var floor := FirstAvailable(cat, sub);
    MinStartIs(cat, sub, Tx);
    MinStartIs(cat, sub, Acct);
    MinStartIs(cat, sub, Block);
    if floor.Some? {
      assert HeldFor(cat, sub, Tx, floor.value) || HeldFor(cat, sub, Acct, floor.value)
        || HeldFor(cat, sub, Block, floor.value) by {
        hide MinStart, HeldFor;
      }
    }
    hide FirstAvailable, HeldFor, MinStart;
    forall stream, s | HeldFor(cat, sub, stream, s) ensures floor.Some? && floor.value <= s {
      FloorOfStream(cat, sub, stream, s);
    }
  }

  lemma EndOfStream(cat: Catalog, stream: Stream)
    ensures MaxEnd(cat, stream).Some? ==> MaxEnd(cat, stream).value <= EndSlot(cat)
    ensures MaxEnd(cat, stream).Some? ==>
      var end := EndSlot(cat);
      MaxEnd(cat, Tx) == Some(end) || MaxEnd(cat, Acct) == Some(end) || MaxEnd(cat, Block) == Some(end)
  {
    hide MaxEnd;
    assert stream == Tx || stream == Acct || stream == Block;
  }

  lemma EndSlotIs(cat: Catalog, sub: Subscription)
    requires exists stream, s :: HeldFor(cat, sub, stream, s)
    ensures IsEnd(cat, EndSlot(cat))
  {
    var stream, s :| HeldFor(cat, sub, stream, s);
    MaxEndIs(cat, stream);
    EndOfStream(cat, stream);
    var end := EndSlot(cat);
    var top :| top in {Tx, Acct, Block} && MaxEnd(cat, top) == Some(end);
    MaxEndIs(cat, top);
    hide MaxEnd, IsLastChunk, EndSlot, LastStartOf, HeldFor;
    forall stream, s | IsLastChunk(cat, stream, s) ensures LastIs(cat, stream, s) <= end {
      IsLastStart(cat, stream, s);
      MaxEndIs(cat, stream);
      EndOfStream(cat, stream);
    }
    EndIf(cat, top, LastStartOf(cat, top), end);
  }

  function LastIs(cat: Catalog, stream: Stream, s: nat): nat
    requires IsLastChunk(cat, stream, s)
  {
    cat.streams[stream][s].endSlotExclusive
  }

  lemma EndIf(cat: Catalog, top: Stream, last: nat, end: nat)
    requires IsLastChunk(cat, top, last) && cat.streams[top][last].endSlotExclusive == end
    requires forall stream, s :: IsLastChunk(cat, stream, s) ==> LastIs(cat, stream, s) <= end
    ensures IsEnd(cat, end)
  {
    forall stream, s | IsLastChunk(cat, stream, s) ensures cat.streams[stream][s].endSlotExclusive <= end {
      assert LastIs(cat, stream, s) <= end;
    }
  }

  function StartsIn(tree: Tree, starts: seq<nat>, from: nat, to: nat): seq<nat>
    requires forall s :: s in starts ==> s in tree
  {
    if starts == [] then []
    else
      var rest := StartsIn(tree, starts[1..], from, to);
      if starts[0] < to && tree[starts[0]].endSlotExclusive > from then [starts[0]] + rest else rest
  }

  lemma {:induction false} StartsInWhich(tree: Tree, starts: seq<nat>, from: nat, to: nat)
    requires forall s :: s in starts ==> s in tree
    ensures var found := StartsIn(tree, starts, from, to);
      forall s :: s in found <==> s in starts && s < to && from < tree[s].endSlotExclusive
  {
    if starts != [] {
      assert starts == [starts[0]] + starts[1..];
      StartsInWhich(tree, starts[1..], from, to);
    }
  }

  lemma {:induction false} StartsInAscend(tree: Tree, starts: seq<nat>, from: nat, to: nat)
    requires IsAscending(starts) && forall s :: s in starts ==> s in tree
    ensures IsAscending(StartsIn(tree, starts, from, to))
  {
    if starts != [] {
      StartsInAscend(tree, starts[1..], from, to);
      StartsInWhich(tree, starts[1..], from, to);
      var rest := StartsIn(tree, starts[1..], from, to);
      forall i | 0 <= i < |rest| ensures starts[0] < rest[i] {
        assert rest[i] in rest && rest[i] in starts[1..];
      }
      hide StartsIn;
      assert IsAscending([starts[0]] + rest);
      StartsInStep(tree, starts, from, to);
    }
  }

  lemma StartsInStep(tree: Tree, starts: seq<nat>, from: nat, to: nat)
    requires starts != [] && forall s :: s in starts ==> s in tree
    ensures var rest := StartsIn(tree, starts[1..], from, to);
      StartsIn(tree, starts, from, to) == rest || StartsIn(tree, starts, from, to) == [starts[0]] + rest
  {
  }

  /** The entry behind each start found. */
  ghost predicate AreEntries(tree: Tree, found: seq<nat>, entries: seq<ChunkEntry>) {
    |entries| == |found| && forall i :: 0 <= i < |found| ==> found[i] in tree && entries[i] == tree[found[i]]
  }

  lemma EntriesMore(tree: Tree, s: nat, found: seq<nat>, entries: seq<ChunkEntry>)
    requires s in tree && AreEntries(tree, found, entries)
    ensures AreEntries(tree, [s] + found, [tree[s]] + entries)
  {
  }

  lemma {:induction false} StartsInFetch(tree: Tree, starts: seq<nat>, from: nat, to: nat)
    requires forall s :: s in starts ==> s in tree
    ensures AreEntries(tree, StartsIn(tree, starts, from, to), InRange(tree, starts, from, to))
  {
    if starts != [] {
      StartsInFetch(tree, starts[1..], from, to);
      EntriesMore(
        tree, starts[0], StartsIn(tree, starts[1..], from, to), InRange(tree, starts[1..], from, to));
      hide AreEntries;
    }
  }

  lemma StartsInAre(tree: Tree, starts: seq<nat>, from: nat, to: nat)
    requires IsAscending(starts) && forall s :: s in starts ==> s in tree
    ensures var found := StartsIn(tree, starts, from, to);
      && IsAscending(found) && AreEntries(tree, found, InRange(tree, starts, from, to))
      && forall s :: s in found <==> s in starts && s < to && from < tree[s].endSlotExclusive
  {
    StartsInAscend(tree, starts, from, to);
    StartsInWhich(tree, starts, from, to);
    StartsInFetch(tree, starts, from, to);
    hide AreEntries, StartsIn, InRange, IsAscending;
  }

  lemma {:induction false} EntriesPlanned(c: Codec, named: Named, entries: seq<ChunkEntry>)
    requires PlanEntries(c, named, entries).Ok?
    ensures var plans := PlanEntries(c, named, entries).value;
      |plans| == |entries| && forall i :: 0 <= i < |plans| ==> plans[i].entry == entries[i]
  {
    if entries != [] { EntriesPlanned(c, named, entries[1..]); }
  }

  lemma StartsReach(cat: Catalog, sub: Subscription, stream: Stream, from: nat, to: nat)
    requires HasStream(sub, stream)
    ensures ReachIn(
      cat, sub, stream, from, to, StartsIn(TreeOf(cat, stream), Ascending(TreeOf(cat, stream).Keys), from, to))
  {
    var tree := TreeOf(cat, stream);
    StartsInAre(tree, Ascending(tree.Keys), from, to);
    var starts := StartsIn(tree, Ascending(tree.Keys), from, to);
    hide StartsIn, Ascending, InRange, IsAscending, AreEntries;
    forall s: nat ensures s in starts <==> HeldFor(cat, sub, stream, s) && Overlapping(cat, stream, s, from, to) {
      HeldInTree(cat, sub, stream, s, from, to);
    }
  }

  lemma HeldInTree(cat: Catalog, sub: Subscription, stream: Stream, s: nat, from: nat, to: nat)
    requires HasStream(sub, stream)
    ensures var tree := TreeOf(cat, stream);
      var overlaps := s in tree && s < to && from < tree[s].endSlotExclusive;
      HeldFor(cat, sub, stream, s) && Overlapping(cat, stream, s, from, to) <==> overlaps
  {
  }

  lemma EntriesOfRange(cat: Catalog, stream: Stream, from: nat, to: nat)
    ensures var tree := TreeOf(cat, stream);
      var starts, entries := StartsIn(tree, Ascending(tree.Keys), from, to), ChunksInRange(cat, stream, from, to);
      |entries| == |starts| && forall i :: 0 <= i < |starts| ==> IsChunkAt(cat, stream, starts[i], entries[i])
  {
    var tree := TreeOf(cat, stream);
    StartsInAre(tree, Ascending(tree.Keys), from, to);
    hide StartsIn, Ascending, InRange, IsAscending;
    var starts, entries := StartsIn(tree, Ascending(tree.Keys), from, to), ChunksInRange(cat, stream, from, to);
    forall i | 0 <= i < |starts| ensures IsChunkAt(cat, stream, starts[i], entries[i]) {
      assert starts[i] in tree && entries[i] == tree[starts[i]];
    }
  }

  lemma ThemIf(cat: Catalog, stream: Stream, starts: seq<nat>, entries: seq<ChunkEntry>, plans: seq<ChunkPlan>)
    requires |plans| == |entries| == |starts|
    requires forall i :: 0 <= i < |plans| ==> plans[i].entry == entries[i]
    requires forall i :: 0 <= i < |starts| ==> IsChunkAt(cat, stream, starts[i], entries[i])
    ensures PlansThem(cat, stream, starts, plans)
  {
    hide IsChunkAt;
    forall i | 0 <= i < |plans| ensures IsChunkAt(cat, stream, starts[i], plans[i].entry) {
      assert plans[i].entry == entries[i];
    }
  }

  lemma NoneReach(cat: Catalog, sub: Subscription, stream: Stream, from: nat, to: nat)
    requires !HasStream(sub, stream)
    ensures ReachIn(cat, sub, stream, from, to, []) && PlansThem(cat, stream, [], [])
  {
  }

  lemma StreamLists(c: Codec, cat: Catalog, sub: Subscription, stream: Stream, from: nat, to: nat)
    requires PlanStream(c, cat, sub, stream, from, to).Ok?
    ensures ListsRange(cat, sub, stream, from, to, PlanStream(c, cat, sub, stream, from, to).value)
  {
    hide ReachIn, PlanEntries, StartsIn, Ascending, ChunksInRange, TreeOf, NamedFilters, HasStream;
    if HasStream(sub, stream) {
      StartsReach(cat, sub, stream, from, to);
      EntriesOfRange(cat, stream, from, to);
      EntriesPlanned(c, NamedFilters(sub, stream), ChunksInRange(cat, stream, from, to));
      var starts := StartsIn(TreeOf(cat, stream), Ascending(TreeOf(cat, stream).Keys), from, to);
      var plans, entries := PlanStream(c, cat, sub, stream, from, to).value, ChunksInRange(cat, stream, from, to);
      ThemIf(cat, stream, starts, entries, plans);
    } else {
      NoneReach(cat, sub, stream, from, to);
    }
  }

  /** Planning answers a request by what is held: for every catalog,
      subscription and request. */
  lemma PlanAnswers(c: Codec, cat: Catalog, sub: Subscription, requested: Option<nat>)
    ensures Answers(cat, sub, requested, PlanOf(c, cat, sub, requested))
  {
    FirstAvailableIs(cat, sub);
    var r := PlanOf(c, cat, sub, requested);
    hide FirstAvailable, HeldFor, PlanStream, EndSlot, ListsRange, IsFloor, IsEnd;
    if r.Ok? {
      EndSlotIs(cat, sub);
      StreamLists(c, cat, sub, Tx, r.value.fromSlot, r.value.toSlotExclusive);
      StreamLists(c, cat, sub, Acct, r.value.fromSlot, r.value.toSlotExclusive);
      StreamLists(c, cat, sub, Block, r.value.fromSlot, r.value.toSlotExclusive);
    }
  }

  /** `plan_replay`: the floor check, then each subscribed stream in turn. */
  method PlanReplay(c: Codec, cat: Catalog, sub: Subscription, cache: IndexCache, requested: Option<nat>)
    returns (r: Result<ReplayPlan, PlanError>)
    requires IsIndexCache(c, cache) && CatalogBacked(cache, cat)
    modifies cache
    ensures IsIndexCache(c, cache)
    ensures r == PlanOf(c, cat, sub, requested) && Answers(cat, sub, requested, r)
  {
    PlanAnswers(c, cat, sub, requested);
    var start := StartSlot(cat, sub, requested);
    hide PlanEntries, IsIndexCache, ChunksInRange, StartSlot, EndSlot, Answers;
    if start.Err? {
      return Err(start.error);
    }
    var from, to := start.value, EndSlot(cat);
    var lane0 := PlanLane(c, cat, sub, cache, Tx, from, to);
    if lane0.Err? {
      return Err(BadIndex(lane0.error));
    }
    var lane1 := PlanLane(c, cat, sub, cache, Acct, from, to);
    if lane1.Err? {
      return Err(BadIndex(lane1.error));
    }
    var lane2 := PlanLane(c, cat, sub, cache, Block, from, to);
    if lane2.Err? {
      return Err(BadIndex(lane2.error));
    }
    return Ok(ReplayPlan(from, to, [lane0.value, lane1.value, lane2.value]));
  }
}
