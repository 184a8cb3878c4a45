/** Which chunks one step of a recorder seals, and what their sidecars give as the
    reason. */
module Seals {
  import opened Core
  import opened Updates
  import opened Recorder

  /** How many open ranges lie below this one. */
  function Rank(keys: set<nat>, i: nat): nat {
    |set j | j in keys && j < i|
  }

  /** Among the lowest that have to go before another range can be opened. */
  predicate CrowdedOut(cfg: WriterConfig, keys: set<nat>, i: nat) {
    i in keys && Rank(keys, i) + cfg.maxOpen <= |keys|
  }

  /** The highest slot seen, this one included. */
  function HighOf(st: State, slot: nat): nat {
    if st.watermark.Some? && st.watermark.value > slot then st.watermark.value else slot
  }

  /** The message opens a range of its own. */
  predicate Opens(cfg: WriterConfig, st: State, r: Rec)
    requires cfg.Valid()
  {
    r.slot / cfg.slotsPerChunk !in st.open
  }

  /** Storing a message makes room for the range it opens, and ends the ranges that
      are two or more behind the highest slot. */
  predicate KeepSeals(cfg: WriterConfig, st: State, r: Rec, high: nat, i: nat, reason: SealReason)
    requires cfg.Valid()
  {
    if Opens(cfg, st, r) && CrowdedOut(cfg, st.open.Keys, i) then reason == CapReached
    else
      && reason == Watermark && (i in st.open || (i == r.slot / cfg.slotsPerChunk && !Taken(st, i)))
      && high / cfg.slotsPerChunk >= i + 2
  }

  /** Why a step seals a range: an idle tick and a stop, which give the same reason;
      room for a range that a timely message opens; the highest slot two ranges on. */
  predicate SealsFor(cfg: WriterConfig, st: State, e: Event, i: nat, reason: SealReason)
    requires cfg.Valid()
  {
    match e
    case TickAt(at) => reason == Shutdown && i in st.open && at > st.open[i].lastActivity + 300_000_000_000
    case ShutDown => reason == Shutdown && i in st.open
    case Arrive(r, at) =>
      var high := HighOf(st, r.slot);
      r.slot + cfg.tolerance >= high && KeepSeals(cfg, st, r, high, i, reason)
  }

  ghost predicate NewlySealed(before: State, after: State, i: nat, reason: SealReason) {
    i !in before.disk && i in after.disk && after.disk[i].reason == reason
  }

  // ----- making room -----

  lemma RankWithout(keys: set<nat>, m: nat, i: nat)
    requires m in keys && m < i
    ensures Rank(keys - {m}, i) == Rank(keys, i) - 1
  {
    var below := set j | j in keys && j < i;
    assert (set j | j in keys - {m} && j < i) == below - {m};
  }

  lemma LeastRank(keys: set<nat>, m: nat)
    requires forall j :: j in keys ==> m <= j
    ensures Rank(keys, m) == 0
  {
    assert (set j | j in keys && j < m) == {};
  }

  lemma CrowdedWithout(cfg: WriterConfig, keys: set<nat>, m: nat, i: nat)
    requires m in keys && (forall j :: j in keys ==> m <= j) && i != m
    ensures CrowdedOut(cfg, keys - {m}, i) <==> CrowdedOut(cfg, keys, i)
  {
    if i in keys { RankWithout(keys, m, i); }
    hide Rank;
  }

  /** Exactly the crowded ranges are sealed to make room, and nothing else changes. */
  ghost predicate Cleared(cfg: WriterConfig, st: State, after: State, i: nat) {
    && (i in after.open <==> i in st.open && !CrowdedOut(cfg, st.open.Keys, i))
    && (i in after.open ==> after.open[i] == st.open[i])
    && (if CrowdedOut(cfg, st.open.Keys, i) then i in after.disk && after.disk[i].reason == CapReached
        else (i in after.disk <==> i in st.disk) && (i in st.disk ==> after.disk[i] == st.disk[i]))
    && after.orphans == st.orphans
  }

  lemma {:induction false} CapSealClears(cfg: WriterConfig, st: State, i: nat)
    requires cfg.Valid()
    ensures Cleared(cfg, st, CapSeal(cfg, st), i)
    decreases |st.open|
  {
    var keys := st.open.Keys;
    assert |keys| == |st.open|;
    if |st.open| < cfg.maxOpen || keys == {} {
      hide Rank;
    } else {
      var oldest := MinOf(keys);
      FewerOpen(st.open, oldest);
      var next := Seal(st, oldest, CapReached);
      CapSealClears(cfg, next, i);
      LeastRank(keys, oldest);
      assert next.open.Keys == keys - {oldest};
      if i != oldest { CrowdedWithout(cfg, keys, oldest, i); }
      hide Rank;
    }
  }

  // ----- one step -----

  /** Once a timely message is in: what is open, and what had to go for it. */
  ghost predicate MadeRoom(cfg: WriterConfig, st: State, r: Rec, stored: State, i: nat)
    requires cfg.Valid()
  {
    var own, crowded := Bucket(cfg, r.slot), Opens(cfg, st, r) && CrowdedOut(cfg, st.open.Keys, i);
    && (i in stored.open <==> (i in st.open && !crowded) || (i == own && (i in st.open || !Taken(st, i))))
    && (if crowded then i in stored.disk && stored.disk[i].reason == CapReached
        else (i in stored.disk <==> i in st.disk) && (i in st.disk ==> stored.disk[i] == st.disk[i]))
  }

  lemma StoredMakesRoom(cfg: WriterConfig, st: State, r: Rec, now: nat, i: nat)
    requires cfg.Valid()
    ensures var own := Bucket(cfg, r.slot); MadeRoom(cfg, st, r, Append(Accommodate(cfg, st, own, now), own, r, now), i)
  {
    CapSealClears(cfg, st, i);
    CapSealClears(cfg, st, Bucket(cfg, r.slot));
    hide CapSeal, Rank, Bucket;
    assert Bucket(cfg, r.slot) == r.slot / cfg.slotsPerChunk by { BucketIs(cfg, r.slot); }
  }

  lemma BucketIs(cfg: WriterConfig, slot: nat)
    requires cfg.Valid()
    ensures Bucket(cfg, slot) == slot / cfg.slotsPerChunk
  {
  }

  lemma KeptSeals(cfg: WriterConfig, st: State, r: Rec, watermark: nat, now: nat, i: nat, reason: SealReason)
    requires cfg.Valid() && (forall j :: j in st.open ==> !Taken(st, j))
    ensures NewlySealed(st, Kept(cfg, st, r, watermark, now), i, reason)
      <==> KeepSeals(cfg, st, r, watermark, i, reason)
  {
    StoredMakesRoom(cfg, st, r, now, i);
    BucketIs(cfg, r.slot);
    BucketIs(cfg, watermark);
    hide Bucket, Accommodate, Append, CrowdedOut, Opens;
  }

  lemma MessageSeals(cfg: WriterConfig, st: State, r: Rec, now: nat, i: nat, reason: SealReason)
    requires cfg.Valid() && Near(cfg, st)
    ensures NewlySealed(st, Ingest(cfg, st, r, now), i, reason) <==> SealsFor(cfg, st, Arrive(r, now), i, reason)
  {
    var high := HighOf(st, r.slot);
    var marked := st.(watermark := Some(high));
    assert Raised(st, r.slot) == high;
    KeptSeals(cfg, marked, r, high, now, i, reason);
    BucketIs(cfg, r.slot);
    BucketIs(cfg, high);
    hide Kept, CrowdedOut, Bucket;
  }

  /** A step newly seals a range with a reason exactly when there is that reason. */
  lemma SealsExactly(cfg: WriterConfig, st: State, e: Event, i: nat, reason: SealReason)
    requires cfg.Valid() && Near(cfg, st)
    ensures NewlySealed(st, NextState(cfg, st, e), i, reason) <==> SealsFor(cfg, st, e, i, reason)
  {
    match e
    case Arrive(r, at) => MessageSeals(cfg, st, r, at, i, reason);
    case _ =>
  }
}
