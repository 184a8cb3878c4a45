/** What a replay says of a message is the message's own: its slot, its time, and
    without a time a stamp between two receipts of its range. */
module Stamps {
  import opened Core
  import opened Updates
  import opened Codecs
  import opened Merge
  import opened Plan
  import opened Coverage
  import opened Recorder
  import opened Conservation
  import opened Chunker
  import opened Archive
  import opened Fidelity

  lemma {:induction false} WantedIsItem(
      c: Codec, named: Named, meta: ChunkMeta, us: seq<Update>, n: nat, step: Step)
    returns (i: nat)
    requires n <= |us| && step in Wanted(c, named, meta, us, n)
    ensures i < |us| && step == Got(ItemOf(c, named, meta, us, i)) && NamesOf(c, named, us[i]) != []
    decreases |us| - n
  {
    hide NamesOf;
    if n < |us| && (NamesOf(c, named, us[n]) == [] || step != Got(ItemOf(c, named, meta, us, n))) {
      i := WantedIsItem(c, named, meta, us, n + 1, step);
    } else {
      i := n;
    }
  }

  lemma {:induction false} WantedIsAt(
      c: Codec, tree: Tree, stream: Stream, named: Named, content: Content, starts: seq<nat>, step: Step)
    returns (s: nat)
    requires (forall s :: s in starts ==> s in tree) && step in WantedFrom(c, tree, stream, named, content, starts)
    ensures s in tree && step in WantedAt(c, tree, stream, named, content, s)
  {
    hide WantedAt;
    s := starts[0];
    if step !in WantedAt(c, tree, stream, named, content, s) {
      assert forall r :: r in starts[1..] ==> r in starts;
      s := WantedIsAt(c, tree, stream, named, content, starts[1..], step);
    }
  }

  /** An item is the message at a place of its chunk, with the names of the
      filters that want it and its stamp there. */
  ghost predicate IsRead(c: Codec, sub: Subscription, stream: Stream, meta: ChunkMeta, u: Update, i: nat, item: Item) {
    && item.update == u && IsOfSlot(u, item.slot) && item.names == NamesOf(c, NamedFilters(sub, stream), u)
    && KeepsTime(u, item.recvNs) && FallsBack(u, meta, i, item.recvNs)
  }

  /** Transactions, accounts, blocks: the order of the lanes. */
  function StreamAt(lane: nat): Stream {
    if lane == 0 then Tx else if lane == 1 then Acct else Block
  }

  lemma InItsLane(c: Codec, cat: Catalog, sub: Subscription, content: Content, from: nat, t: Tagged)
    requires t in Deliverable(c, cat, sub, content, from)
    ensures var stream := StreamAt(t.lane);
      var tree := TreeOf(cat, stream);
      Got(t.item) in WantedFrom(c, tree, stream, NamedFilters(sub, stream), content, Ascending(tree.Keys))
  {
    var rs := FullLanes(c, cat, sub, content);
    assert t in FloorOut(MergeAll(rs).out, from) by { hide MergeAll, FloorOut, FullLanes; }
    hide *;
    InMerged(MergeAll(rs).out, from, t);
    MergedIsInLane(rs, t);
    LaneAtIs(c, cat, sub, content, t.lane);
    LaneIsWanted(c, cat, sub, content, StreamAt(t.lane), Got(t.item));
  }

  lemma LaneAtIs(c: Codec, cat: Catalog, sub: Subscription, content: Content, lane: nat)
    requires lane < 3
    ensures FullLanes(c, cat, sub, content)[lane] == FullLane(c, cat, sub, content, StreamAt(lane))
  {
    hide FullLane;
  }

  lemma LaneIsWanted(c: Codec, cat: Catalog, sub: Subscription, content: Content, stream: Stream, step: Step)
    requires step in FullLane(c, cat, sub, content, stream)
    ensures var tree := TreeOf(cat, stream);
      step in WantedFrom(c, tree, stream, NamedFilters(sub, stream), content, Ascending(tree.Keys))
  {
    hide WantedFrom, Ascending, NamedFilters, TreeOf;
  }

  /** The chunk and the ordinal a message on offer was read from. */
  lemma OfferedIsRead(
      c: Codec, cat: Catalog, sub: Subscription, content: Content, from: nat, t: Tagged)
    returns (stream: Stream, s: nat, i: nat)
    requires t in Deliverable(c, cat, sub, content, from)
    ensures stream == StreamAt(t.lane) && t.item.names != []
    ensures s in TreeOf(cat, stream)
    ensures var us := MessagesAt(content, stream, s);
      i < |us| && t.item == ItemOf(c, NamedFilters(sub, stream), TreeOf(cat, stream)[s].meta, us, i)
    ensures IsRead(c, sub, stream, TreeOf(cat, stream)[s].meta, MessagesAt(content, stream, s)[i], i, t.item)
  {
    stream := StreamAt(t.lane);
    var tree, named := TreeOf(cat, stream), NamedFilters(sub, stream);
    InItsLane(c, cat, sub, content, from, t);
    hide WantedFrom, WantedAt, Deliverable, FullLanes, Ascending, KeepsTime, FallsBack, ExtractRecvNs, NamesOf,
      NamedFilters, TreeOf, MessagesAt;
    s := WantedIsAt(c, tree, stream, named, content, Ascending(tree.Keys), Got(t.item));
    i := ItemIsAt(c, tree, stream, named, content, s, t.item);
    StampIsRight(MessagesAt(content, stream, s)[i], tree[s].meta, i);
  }

  lemma ItemIsAt(
      c: Codec, tree: Tree, stream: Stream, named: Named, content: Content, s: nat, item: Item)
    returns (i: nat)
    requires s in tree && Got(item) in WantedAt(c, tree, stream, named, content, s)
    ensures var us := MessagesAt(content, stream, s); i < |us| && item == ItemOf(c, named, tree[s].meta, us, i)
    ensures item.names != []
  {
    hide Wanted;
    i := WantedIsItem(c, named, tree[s].meta, MessagesAt(content, stream, s), 0, Got(item));
  }

  lemma {:induction false} InMerged(out: seq<Tagged>, from: nat, t: Tagged)
    requires t in FloorOut(out, from)
    ensures t in out
  {
    if out != [] {
      assert out == [out[0]] + out[1..];
      if t in FloorOut(out[1..], from) { InMerged(out[1..], from, t); }
    }
  }

  /** Received by the stream's recorder within these times. */
  ghost predicate WasReceived(es: seq<Event>, stamp: nat) {
    exists m, k :: 0 <= m < |es| && 0 <= k < |es| && es[m].Arrive? && es[k].Arrive?
      && es[m].rec.wallNs <= stamp <= es[k].rec.wallNs
  }

  ghost predicate Stamped64(es: seq<Event>) {
    forall n :: 0 <= n < |es| && es[n].Arrive? ==> es[n].rec.wallNs < 0x1_0000_0000_0000_0000
  }

  /** The message's own slot and time; without a time, one between two receipts of
      its stream. */
  ghost predicate TellsTheTruth(feed: Feed, item: Item) {
    && IsOfSlot(item.update, item.slot) && KeepsTime(item.update, item.recvNs)
    && ((forall stream :: Stamped64(feed(stream)))
        && (item.update.createdAt.None? || item.update.createdAt.value.seconds < 0)
        ==> item.recvNs.Some? && exists stream :: WasReceived(feed(stream), item.recvNs.value))
  }

  /** The message carries the names of the filters that ask for it, at least one. */
  ghost predicate IsNamed(c: Codec, sub: Subscription, t: Tagged) {
    var item, stream := t.item, StreamAt(t.lane);
    item.names != [] && forall name :: name in item.names <==> AskedBy(c, sub, stream, item.update, name)
  }

  /** Everything a replay of a recorded catalog offers tells the truth. */
  lemma OfferedTellsTheTruth(
      c: Codec, cfg: WriterConfig, feed: Feed, sub: Subscription, from: nat, t: Tagged)
    requires cfg.Valid() && t in Offered(c, cfg, feed, sub, from)
    ensures TellsTheTruth(feed, t.item) && IsNamed(c, sub, t)
  {
    var cat, content := CatalogFor(c, cfg, feed), ContentFor(cfg, feed);
    OfferedIs(c, cfg, feed, sub, from);
    hide Offered, CatalogFor, ContentFor, DiskOf, Deliverable, MessagesAt, NamesOf, NamedFilters;
    var stream, s, i := OfferedIsRead(c, cat, sub, content, from, t);
    var meta, us := TreeOf(cat, stream)[s].meta, MessagesAt(content, stream, s);
    ReadIsNamed(c, sub, meta, us[i], i, t);
    hide FallsBack, AskedBy, IsNamed, ExtractRecvNs, KeepsTime, WasReceived, Stamped64, IsOfSlot;
    if (forall other :: Stamped64(feed(other))) && (us[i].createdAt.None? || us[i].createdAt.value.seconds < 0) {
      ReceivedInRange(c, cfg, feed, stream, s, i);
    }
  }

  lemma ReadIsNamed(c: Codec, sub: Subscription, meta: ChunkMeta, u: Update, i: nat, t: Tagged)
    requires t.item.names != [] && IsRead(c, sub, StreamAt(t.lane), meta, u, i, t.item)
    ensures IsNamed(c, sub, t)
  {
    var stream := StreamAt(t.lane);
    forall name ensures name in t.item.names <==> AskedBy(c, sub, stream, t.item.update, name) {
      NamesAreAsked(c, sub, stream, t.item.update, name);
    }
  }

  /** The sidecar of a listed chunk, and the messages it describes. */
  lemma ListedChunk(c: Codec, cfg: WriterConfig, feed: Feed, stream: Stream, s: nat) returns (b: nat)
    requires cfg.Valid() && s in TreeOf(CatalogFor(c, cfg, feed), stream)
    ensures b in DiskOf(cfg, feed(stream))
    ensures MessagesAt(ContentFor(cfg, feed), stream, s) == UpdatesOf(DiskOf(cfg, feed(stream))[b].recs)
    ensures TreeOf(CatalogFor(c, cfg, feed), stream)[s] == EntryOf(c, cfg, stream, b, DiskOf(cfg, feed(stream))[b])
  {
    hide DiskOf, EntryOf, UpdatesOf;
    b := StartsOnly(c, cfg, stream, DiskOf(cfg, feed(stream)), s);
  }

  lemma ReceivedInRange(c: Codec, cfg: WriterConfig, feed: Feed, stream: Stream, s: nat, i: nat)
    requires cfg.Valid() && s in TreeOf(CatalogFor(c, cfg, feed), stream)
    requires Stamped64(feed(stream))
    requires var us := MessagesAt(ContentFor(cfg, feed), stream, s);
      i < |us| && (us[i].createdAt.None? || us[i].createdAt.value.seconds < 0)
    ensures var us := MessagesAt(ContentFor(cfg, feed), stream, s);
      var meta := TreeOf(CatalogFor(c, cfg, feed), stream)[s].meta;
      var stamp := ExtractRecvNs(us[i], meta, i);
      stamp.Some? && WasReceived(feed(stream), stamp.value)
  {
    hide DiskOf, CatalogFor, ContentFor, MessagesAt, AcceptedInto, Describes, BetweenReceipts, ExtractRecvNs, UpdatesOf;
    var b := ListedChunk(c, cfg, feed, stream, s);
    var sealed := DiskOf(cfg, feed(stream))[b];
    var recs, file, start := sealed.recs, FileOf(c, cfg, stream, b, sealed), b * cfg.slotsPerChunk;
    var us := MessagesAt(ContentFor(cfg, feed), stream, s);
    SidecarDescribes(c, cfg, stream, b, sealed);
    DiskHoldsAccepted(cfg, feed(stream), b);
    hide FileOf;
    forall n | 0 <= n < |recs| ensures ReceivedAs(feed(stream), recs[n]) {
      assert recs[n] in AcceptedInto(cfg, EMPTY, feed(stream), b);
      AcceptedArrived(cfg, feed(stream), b, recs[n]);
    }
    StampIsBetweenReceipts(
      file.meta, stream, start, start + cfg.slotsPerChunk, recs, file.zst, sealed.reason, us[i], i);
    ReceiptsWereReceived(feed(stream), recs, ExtractRecvNs(us[i], file.meta, i).value);
  }

  ghost predicate ReceivedAs(es: seq<Event>, r: Rec) {
    exists n :: 0 <= n < |es| && es[n].Arrive? && es[n].rec == r
  }

  lemma ReceiptsWereReceived(es: seq<Event>, recs: seq<Rec>, stamp: nat)
    requires BetweenReceipts(recs, stamp) && forall n :: 0 <= n < |recs| ==> ReceivedAs(es, recs[n])
    ensures WasReceived(es, stamp)
  {
    var a, b :| 0 <= a < |recs| && 0 <= b < |recs| && recs[a].wallNs <= stamp <= recs[b].wallNs;
    assert ReceivedAs(es, recs[a]) && ReceivedAs(es, recs[b]);
    var m :| 0 <= m < |es| && es[m].Arrive? && es[m].rec == recs[a];
    var k :| 0 <= k < |es| && es[k].Arrive? && es[k].rec == recs[b];
  }
}
