/** The recorder as a state machine over whole runs: open chunks, sealed chunks
    and the watermark, with the message lists of every chunk. */
module Recorder {
  import opened Core
  import opened Arith
  import opened Updates

  datatype WriterConfig = WriterConfig(slotsPerChunk: nat, tolerance: nat, maxOpen: nat) {
    /** A recorder divides by the chunk size and, with no room for any open
        chunk, would look for the oldest of none. */
    predicate Valid() {
      slotsPerChunk > 0 && maxOpen > 0
    }
  }

  /** A received message, its slot, and its wall-clock receipt. */
  datatype Rec = Rec(update: Update, slot: nat, wallNs: nat)

  datatype OpenRec = OpenRec(recs: seq<Rec>, lastActivity: nat)

  datatype SealedRec = SealedRec(recs: seq<Rec>, reason: SealReason)

  /** `orphans` are ranges whose final `.zst` exists without a sidecar. */
  datatype State = State(
    open: map<nat, OpenRec>, disk: map<nat, SealedRec>, orphans: set<nat>, watermark: Option<nat>)

  const SEAL_LOOKAHEAD: nat := 2
  const IDLE_THRESHOLD: nat := 300_000_000_000

  // ----- the operations -----

  function Bucket(cfg: WriterConfig, slot: nat): nat
    requires cfg.Valid()
  {
    slot / cfg.slotsPerChunk
  }

  function Raised(st: State, slot: nat): nat {
    if st.watermark.None? || st.watermark.value < slot then slot else st.watermark.value
  }

  function Seal(st: State, i: nat, reason: SealReason): State
    requires i in st.open
  {
    st.(open := st.open - {i}, disk := st.disk[i := SealedRec(st.open[i].recs, reason)])
  }

  function SealAll(st: State, ids: set<nat>, reason: SealReason): State
    requires ids <= st.open.Keys
  {
    st.(open := st.open - ids, disk := st.disk + map i | i in ids :: SealedRec(st.open[i].recs, reason))
  }

  lemma FewerOpen(open: map<nat, OpenRec>, i: nat)
    requires i in open
    ensures |open - {i}| < |open|
  {
    assert (open - {i}).Keys == open.Keys - {i};
    assert |(open - {i}).Keys| == |open - {i}| && |open.Keys| == |open|;
  }

  /** Make room for one more chunk by sealing the oldest ones. */
  function CapSeal(cfg: WriterConfig, st: State): State
    requires cfg.Valid()
    decreases |st.open|
  {
    if |st.open| < cfg.maxOpen || st.open.Keys == {} then st
    else
      var oldest := MinOf(st.open.Keys);
      FewerOpen(st.open, oldest);
      CapSeal(cfg, Seal(st, oldest, CapReached))
  }

  predicate Taken(st: State, i: nat) {
    i in st.disk || i in st.orphans
  }

  function OpenChunkAt(st: State, i: nat, now: nat): State {
    if i in st.open || Taken(st, i) then st else st.(open := st.open[i := OpenRec([], now)])
  }

  function Append(st: State, i: nat, r: Rec, now: nat): State {
    if i in st.open then st.(open := st.open[i := OpenRec(st.open[i].recs + [r], now)]) else st
  }

  function Overdue(cfg: WriterConfig, st: State, watermark: nat): set<nat>
    requires cfg.Valid()
  {
    set i | i in st.open && Bucket(cfg, watermark) >= i + SEAL_LOOKAHEAD
  }

  function Accommodate(cfg: WriterConfig, st: State, i: nat, now: nat): State
    requires cfg.Valid()
  {
    if i in st.open then st else OpenChunkAt(CapSeal(cfg, st), i, now)
  }

  /** The state after a message within tolerance has been stored. */
  function Kept(cfg: WriterConfig, st: State, r: Rec, watermark: nat, now: nat): State
    requires cfg.Valid()
  {
    var i := Bucket(cfg, r.slot);
    var stored := Append(Accommodate(cfg, st, i, now), i, r, now);
    SealAll(stored, Overdue(cfg, stored, watermark), Watermark)
  }

  function Ingest(cfg: WriterConfig, st: State, r: Rec, now: nat): State
    requires cfg.Valid()
  {
    var wm := Raised(st, r.slot);
    var marked := st.(watermark := Some(wm));
    if r.slot + cfg.tolerance < wm then marked
    else Kept(cfg, marked, r, wm, now)
  }

  function Stale(st: State, now: nat): set<nat> {
    set i | i in st.open && now > st.open[i].lastActivity + IDLE_THRESHOLD
  }

  function Tick(st: State, now: nat): State {
    SealAll(st, Stale(st, now), Shutdown)
  }

  function Stop(st: State): State {
    SealAll(st, st.open.Keys, Shutdown)
  }

  datatype Event = Arrive(rec: Rec, at: nat) | TickAt(at: nat) | ShutDown

  function NextState(cfg: WriterConfig, st: State, e: Event): State
    requires cfg.Valid()
  {
    match e
    case Arrive(r, at) => Ingest(cfg, st, r, at)
    case TickAt(at) => Tick(st, at)
    case ShutDown => Stop(st)
  }

  function Run(cfg: WriterConfig, st: State, es: seq<Event>): State
    requires cfg.Valid()
  {
    if es == [] then st else NextState(cfg, Run(cfg, st, es[..|es| - 1]), es[|es| - 1])
  }

  /** A recorder that has just started over whatever is on disk. */
  predicate Started(st: State) {
    st.open == map[] && st.watermark.None?
  }

  const EMPTY: State := State(map[], map[], {}, None)

  // ----- open chunks stay near the watermark -----

  /** Every open chunk is the watermark's or its predecessor, and its range is
      not on disk. */
  ghost predicate Near(cfg: WriterConfig, st: State)
    requires cfg.Valid()
  {
    && (forall i :: i in st.open ==> st.watermark.Some? && i <= Bucket(cfg, st.watermark.value) <= i + 1)
    && (forall i :: i in st.open ==> !Taken(st, i))
  }

  /** What was sealed stays, unchanged, and nothing open hides it. */
  ghost predicate Grows(a: State, b: State) {
    && a.orphans == b.orphans
    && (forall i :: i in a.disk ==> i in b.disk && b.disk[i] == a.disk[i])
    && (forall i :: i in b.disk ==> i in a.disk || i in a.open)
    && (forall i :: i in b.open ==> i in a.open && b.open[i] == a.open[i])
  }

  lemma SealAllGrows(st: State, ids: set<nat>, reason: SealReason)
    requires ids <= st.open.Keys && forall i :: i in st.open ==> !Taken(st, i)
    ensures Grows(st, SealAll(st, ids, reason))
  {
  }

  lemma {:induction false} CapSealGrows(cfg: WriterConfig, st: State)
    requires cfg.Valid() && forall i :: i in st.open ==> !Taken(st, i)
    ensures Grows(st, CapSeal(cfg, st)) && CapSeal(cfg, st).watermark == st.watermark
    ensures forall i :: i in CapSeal(cfg, st).open ==> !Taken(CapSeal(cfg, st), i)
    decreases |st.open|
  {
    if |st.open| >= cfg.maxOpen && st.open.Keys != {} {
      var oldest := MinOf(st.open.Keys);
      FewerOpen(st.open, oldest);
      CapSealGrows(cfg, Seal(st, oldest, CapReached));
    }
  }

  /** Between raising the watermark and sealing what it left behind. */
  ghost predicate Behind(cfg: WriterConfig, st: State)
    requires cfg.Valid()
  {
    && (forall i :: i in st.open ==> st.watermark.Some? && i <= Bucket(cfg, st.watermark.value))
    && (forall i :: i in st.open ==> !Taken(st, i))
  }

  ghost predicate DiskGrows(a: State, b: State) {
    a.orphans == b.orphans && forall i :: i in a.disk ==> i in b.disk && b.disk[i] == a.disk[i]
  }

  /** The state of `Ingest` before it seals, for a message within tolerance. */
  function Stored(cfg: WriterConfig, st: State, r: Rec, now: nat): State
    requires cfg.Valid()
  {
    var i := Bucket(cfg, r.slot);
    Append(Accommodate(cfg, st.(watermark := Some(Raised(st, r.slot))), i, now), i, r, now)
  }

  lemma MarkKeepsBehind(cfg: WriterConfig, st: State, slot: nat)
    requires cfg.Valid() && Near(cfg, st)
    ensures Behind(cfg, st.(watermark := Some(Raised(st, slot))))
    ensures Bucket(cfg, slot) <= Bucket(cfg, Raised(st, slot))
    ensures st.watermark.Some? ==> Bucket(cfg, st.watermark.value) <= Bucket(cfg, Raised(st, slot))
  {
    DivMono(slot, Raised(st, slot), cfg.slotsPerChunk);
    if st.watermark.Some? { DivMono(st.watermark.value, Raised(st, slot), cfg.slotsPerChunk); }
    hide Bucket, Raised;
    assert forall i :: i in st.open ==> i <= Bucket(cfg, st.watermark.value);
  }

  lemma AccommodateBehind(cfg: WriterConfig, st: State, i: nat, now: nat)
    requires cfg.Valid() && Behind(cfg, st) && st.watermark.Some? && i <= Bucket(cfg, st.watermark.value)
    ensures var after := Accommodate(cfg, st, i, now);
      Behind(cfg, after) && DiskGrows(st, after) && after.watermark == st.watermark
  {
    hide Bucket, CapSeal;
    if i !in st.open {
      CapSealGrows(cfg, st);
      GrowsBehind(cfg, st, CapSeal(cfg, st));
      OpenBehind(cfg, CapSeal(cfg, st), i, now);
    }
  }

  lemma GrowsBehind(cfg: WriterConfig, a: State, b: State)
    requires cfg.Valid() && Behind(cfg, a) && Grows(a, b) && b.watermark == a.watermark
    requires forall i :: i in b.open ==> !Taken(b, i)
    ensures Behind(cfg, b) && DiskGrows(a, b)
  {
    hide Bucket;
  }

  lemma OpenBehind(cfg: WriterConfig, st: State, i: nat, now: nat)
    requires cfg.Valid() && Behind(cfg, st) && st.watermark.Some? && i <= Bucket(cfg, st.watermark.value)
    ensures var after := OpenChunkAt(st, i, now);
      Behind(cfg, after) && after.disk == st.disk && after.orphans == st.orphans && after.watermark == st.watermark
  {
    hide Bucket;
  }

  lemma AppendBehind(cfg: WriterConfig, st: State, i: nat, r: Rec, now: nat)
    requires cfg.Valid() && Behind(cfg, st)
    ensures var after := Append(st, i, r, now);
      Behind(cfg, after) && DiskGrows(st, after) && after.watermark == st.watermark
  {
    hide Bucket;
  }

  lemma StoredBehind(cfg: WriterConfig, st: State, r: Rec, now: nat)
    requires cfg.Valid() && Near(cfg, st)
    ensures Behind(cfg, Stored(cfg, st, r, now)) && DiskGrows(st, Stored(cfg, st, r, now))
    ensures Stored(cfg, st, r, now).watermark == Some(Raised(st, r.slot))
  {
    MarkKeepsBehind(cfg, st, r.slot);
    hide Bucket, Raised, Accommodate, Append, Behind;
    var marked := st.(watermark := Some(Raised(st, r.slot)));
    AccommodateBehind(cfg, marked, Bucket(cfg, r.slot), now);
    AppendBehind(cfg, Accommodate(cfg, marked, Bucket(cfg, r.slot), now), Bucket(cfg, r.slot), r, now);
  }

  lemma OverdueSealedNear(cfg: WriterConfig, st: State, watermark: nat)
    requires cfg.Valid() && Behind(cfg, st) && st.watermark == Some(watermark)
    ensures var after := SealAll(st, Overdue(cfg, st, watermark), Watermark);
      Near(cfg, after) && DiskGrows(st, after)
  {
    hide Bucket;
    SealAllGrows(st, Overdue(cfg, st, watermark), Watermark);
  }

  lemma IngestKeepsNear(cfg: WriterConfig, st: State, r: Rec, now: nat)
    requires cfg.Valid() && Near(cfg, st)
    ensures Near(cfg, Ingest(cfg, st, r, now)) && DiskGrows(st, Ingest(cfg, st, r, now))
  {
    var wm := Raised(st, r.slot);
    if r.slot + cfg.tolerance < wm {
      assert st.watermark == Some(wm);
    } else {
      StoredBehind(cfg, st, r, now);
      OverdueSealedNear(cfg, Stored(cfg, st, r, now), wm);
    }
  }

  lemma SealAllKeepsNear(cfg: WriterConfig, st: State, ids: set<nat>, reason: SealReason)
    requires cfg.Valid() && Near(cfg, st) && ids <= st.open.Keys
    ensures Near(cfg, SealAll(st, ids, reason)) && DiskGrows(st, SealAll(st, ids, reason))
  {
    hide Bucket;
  }

  lemma {:induction false} RunNear(cfg: WriterConfig, st: State, es: seq<Event>)
    requires cfg.Valid() && Started(st)
    ensures Near(cfg, Run(cfg, st, es))
  {
    if es != [] {
      RunNear(cfg, st, es[..|es| - 1]);
      hide Near, NextState;
      StepKeepsNear(cfg, Run(cfg, st, es[..|es| - 1]), es[|es| - 1]);
    }
  }

  /** In every run of a started recorder: only the watermark's chunk and its
      predecessor are open, no open range is on disk, and no chunk on disk is
      ever changed or removed. */
  lemma {:induction false} RunKeepsNear(cfg: WriterConfig, st: State, es: seq<Event>, cut: nat)
    requires cfg.Valid() && Started(st) && cut <= |es|
    ensures Near(cfg, Run(cfg, st, es)) && |Run(cfg, st, es).open| <= 2
    ensures DiskGrows(Run(cfg, st, es[..cut]), Run(cfg, st, es))
  {
    RunNear(cfg, st, es);
    AtMostTwoOpen(cfg, Run(cfg, st, es));
    if cut == |es| {
      assert es[..cut] == es;
    } else {
      var n := |es| - 1;
      RunNear(cfg, st, es[..n]);
      RunKeepsNear(cfg, st, es[..n], cut);
      assert es[..n][..cut] == es[..cut];
      hide NextState, Near;
      StepKeepsNear(cfg, Run(cfg, st, es[..n]), es[n]);
    }
  }

  lemma StepKeepsNear(cfg: WriterConfig, st: State, e: Event)
    requires cfg.Valid() && Near(cfg, st)
    ensures Near(cfg, NextState(cfg, st, e)) && DiskGrows(st, NextState(cfg, st, e))
  {
    hide Near, DiskGrows, Ingest;
    match e
    case Arrive(r, at) => IngestKeepsNear(cfg, st, r, at);
    case TickAt(at) => SealAllKeepsNear(cfg, st, Stale(st, at), Shutdown);
    case ShutDown => SealAllKeepsNear(cfg, st, st.open.Keys, Shutdown);
  }

  /** So at most two chunks are ever open. */
  lemma AtMostTwoOpen(cfg: WriterConfig, st: State)
    requires cfg.Valid() && Near(cfg, st)
    ensures |st.open| <= 2
  {
    if st.watermark.Some? {
      var b := Bucket(cfg, st.watermark.value);
      hide Bucket;
      SubsetCount(st.open.Keys, b);
    } else {
      assert st.open.Keys == {};
    }
    assert |st.open| == |st.open.Keys|;
  }

  lemma SubsetCount(keys: set<nat>, b: nat)
    requires forall i :: i in keys ==> i <= b <= i + 1
    ensures |keys| <= 2
  {
    var rest := keys - {b};
    if b > 0 {
      assert rest <= {b - 1};
      assert rest - {b - 1} == {};
      assert |rest| <= 1;
    } else {
      assert rest == {};
    }
    assert |keys| <= |rest| + 1;
  }
}
