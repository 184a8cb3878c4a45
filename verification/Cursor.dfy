/** The lazy per-stream cursor over chunk plans, and its refinement to a plain
    sequence of decoding steps. */
module Cursor {
  import opened Core
  import opened Updates
  import opened Codecs
  import opened Frames
  import opened LruCache
  import opened Merge

  datatype CacheKey = CacheKey(stream: Stream, startSlot: nat)

  /** A locally held chunk; the file contents stand in for the paths. */
  datatype ChunkEntry = ChunkEntry(
    stream: Stream, startSlot: nat, endSlotExclusive: nat, zst: Bytes, idx: Bytes, meta: ChunkMeta)

  function KeyOf(entry: ChunkEntry): CacheKey {
    CacheKey(entry.stream, entry.startSlot)
  }

  datatype ChunkPlan = ChunkPlan(
    stream: Stream, entry: ChunkEntry, named: seq<(string, set<nat>)>, union: set<nat>)

  type ChunkCache = Cache<CacheKey, Bytes, DecodedChunk, ChunkError>

  /** The cache decodes frames on a miss. */
  ghost predicate IsChunkCache(cache: ChunkCache)
    reads cache
  {
    cache.Valid() && forall b :: cache.load(b) == Decode(b)
  }

  /** Every planned chunk's file is the immutable one behind its cache key. */
  ghost predicate Backed(cache: ChunkCache, plans: seq<ChunkPlan>) {
    forall i :: 0 <= i < |plans| ==> cache.file(KeyOf(plans[i].entry)) == plans[i].entry.zst
  }

  // ----- the sequence a cursor stands for -----

  /** The names whose bitmap contains the ordinal, in subscription order. */
  function NamesAt(named: seq<(string, set<nat>)>, ord: nat): seq<string> {
    if named == [] then []
    else (if ord in named[0].1 then [named[0].0] else []) + NamesAt(named[1..], ord)
  }

  function DecodeMessage(c: Codec, d: DecodedChunk, ord: nat): Option<Update> {
    var payload := d.FrameAt(ord);
    if payload.None? then None else c.decodeMessage(payload.value)
  }

  /** What is read of a message is the message's own: its slot, its time, and
      without a time a stamp from the sidecar of its chunk. */
  ghost predicate IsGenuine(item: Item, plans: seq<ChunkPlan>) {
    && IsOfSlot(item.update, item.slot) && KeepsTime(item.update, item.recvNs)
    && exists p, ord: nat :: p in plans && FallsBack(item.update, p.entry.meta, ord, item.recvNs)
  }

  lemma ReadIsGenuine(u: Update, names: seq<string>, plans: seq<ChunkPlan>, p: ChunkPlan, ord: nat)
    requires p in plans
    ensures var slot := if ExtractSlot(u).Some? then ExtractSlot(u).value else 0;
      IsGenuine(Item(slot, u, names, ExtractRecvNs(u, p.entry.meta, ord)), plans)
  {
    StampIsRight(u, p.entry.meta, ord);
    hide ExtractRecvNs, KeepsTime, FallsBack;
  }

  function StepAt(c: Codec, d: DecodedChunk, plan: ChunkPlan, ord: nat): Step {
    match DecodeMessage(c, d, ord)
    case None => Failed
    case Some(msg) =>
      var slot := if ExtractSlot(msg).Some? then ExtractSlot(msg).value else 0;
      Got(Item(slot, msg, NamesAt(plan.named, ord), ExtractRecvNs(msg, plan.entry.meta, ord)))
  }

  lemma StepAtCases(c: Codec, d: DecodedChunk, plan: ChunkPlan, ord: nat)
    ensures var msg := DecodeMessage(c, d, ord);
      StepAt(c, d, plan, ord) ==
        if msg.None? then Failed
        else Got(Item(
          if ExtractSlot(msg.value).Some? then ExtractSlot(msg.value).value else 0, msg.value,
          NamesAt(plan.named, ord), ExtractRecvNs(msg.value, plan.entry.meta, ord)))
  {
  }

  function StepsAt(c: Codec, d: DecodedChunk, plan: ChunkPlan, ords: seq<nat>): seq<Step> {
    if ords == [] then [] else [StepAt(c, d, plan, ords[0])] + StepsAt(c, d, plan, ords[1..])
  }

  /** One chunk: nothing if no ordinal is wanted, an error if it cannot be
      decoded, else its wanted ordinals in ascending order. */
  function PlanSteps(c: Codec, plan: ChunkPlan): seq<Step> {
    if plan.union == {} then []
    else
      match Decode(plan.entry.zst)
      case Err(_) => [Failed]
      case Ok(d) => StepsAt(c, d, plan, Ascending(plan.union))
  }

  function AllSteps(c: Codec, plans: seq<ChunkPlan>): seq<Step> {
    if plans == [] then [] else PlanSteps(c, plans[0]) + AllSteps(c, plans[1..])
  }

  function WantedKeys(plans: seq<ChunkPlan>): set<CacheKey> {
    set i | 0 <= i < |plans| && plans[i].union != {} :: KeyOf(plans[i].entry)
  }

  lemma AscendingSome(s: set<nat>)
    requires s != {}
    ensures Ascending(s) != []
  {
    var x :| x in s;
    assert x in Ascending(s);
  }

  lemma WantedKey(plans: seq<ChunkPlan>, i: nat)
    requires i < |plans| && plans[i].union != {}
    ensures KeyOf(plans[i].entry) in WantedKeys(plans)
  {
  }

  /** Loading one planned chunk gives its decoding, cached or not. */
  method LoadChunk(cache: ChunkCache, plans: seq<ChunkPlan>, i: nat) returns (r: Result<DecodedChunk, ChunkError>)
    requires IsChunkCache(cache) && Backed(cache, plans) && i < |plans| && plans[i].union != {}
    modifies cache
    ensures IsChunkCache(cache) && r == Decode(plans[i].entry.zst)
    ensures cache.entries.Keys <= old(cache.entries.Keys) + WantedKeys(plans)
    ensures LoadsOnly(old(cache.loads), cache.loads, WantedKeys(plans))
  {
    hide Decode, Cache.Valid;
    WantedKey(plans, i);
    hide WantedKeys;
    r := cache.GetOrLoad(KeyOf(plans[i].entry), plans[i].entry.zst);
  }

  lemma AllStepsHead(c: Codec, plans: seq<ChunkPlan>, i: nat)
    requires i < |plans|
    ensures AllSteps(c, plans[i..]) == PlanSteps(c, plans[i]) + AllSteps(c, plans[i + 1..])
  {
    assert plans[i..][0] == plans[i] && plans[i..][1..] == plans[i + 1..];
  }

  lemma StepsAtHead(c: Codec, d: DecodedChunk, plan: ChunkPlan, ords: seq<nat>, rest: seq<Step>)
    requires ords != []
    ensures StepsAt(c, d, plan, ords) + rest == [StepAt(c, d, plan, ords[0])] + (StepsAt(c, d, plan, ords[1..]) + rest)
  {
    hide StepAt;
  }

  lemma FailedPlan(c: Codec, plan: ChunkPlan)
    ensures plan.union != {} && Decode(plan.entry.zst).Err? ==> PlanSteps(c, plan) == [Failed]
  {
    hide Decode, StepsAt;
  }

  lemma UnwantedPlan(c: Codec, plan: ChunkPlan, rest: seq<Step>)
    requires plan.union == {}
    ensures PlanSteps(c, plan) + rest == rest
  {
  }

  // ----- the cursor -----

  datatype PeekError = DecodeChunkFailed | DecodeMessageFailed

  class StreamCursor {
    const plans: seq<ChunkPlan>
    var planIdx: nat
    var currentDecoded: Option<DecodedChunk>
    var currentOrds: Option<seq<nat>>
    var peeked: Option<Item>

    constructor (plans: seq<ChunkPlan>)
      ensures Valid() && this.plans == plans
      ensures forall c :: Remaining(c) == AllSteps(c, plans)
    {
      this.plans := plans;
      planIdx, currentDecoded, currentOrds, peeked := 0, None, None, None;
      new;
      assert plans[0..] == plans;
    }

    ghost predicate Valid()
      reads this
    {
      && planIdx <= |plans|
      && (currentOrds.Some? ==> currentDecoded.Some? && planIdx > 0)
      && (peeked.Some? ==> IsGenuine(peeked.value, plans))
    }

    /** What this chunk still has to give. */
    ghost function CurrentSteps(c: Codec): seq<Step>
      requires Valid()
      reads this
    {
      if currentOrds.None? then []
      else StepsAt(c, currentDecoded.value, plans[planIdx - 1], currentOrds.value)
    }

    ghost function Unread(c: Codec): seq<Step>
      requires Valid()
      reads this
    {
      CurrentSteps(c) + AllSteps(c, plans[planIdx..])
    }

    /** Everything still to come, the peeked message first. */
    ghost function Remaining(c: Codec): seq<Step>
      requires Valid()
      reads this
    {
      if peeked.Some? then [Got(peeked.value)] + Unread(c) else Unread(c)
    }

    /** Between chunks: nothing peeked, nothing left of the last chunk. */
    ghost predicate Between()
      reads this
    {
      peeked.None? && (currentOrds.None? || currentOrds.value == [])
    }

    lemma BetweenRemaining(c: Codec)
      requires Valid() && Between()
      ensures Remaining(c) == AllSteps(c, plans[planIdx..])
    {
    }

    lemma LoadedRemaining(c: Codec, plan: ChunkPlan, d: DecodedChunk)
      requires Valid() && peeked.None? && planIdx > 0 && plans[planIdx - 1] == plan
      requires currentDecoded == Some(d) && currentOrds == Some(Ascending(plan.union))
      requires Decode(plan.entry.zst) == Ok(d) && plan.union != {}
      ensures currentOrds.value != []
      ensures Remaining(c) == AllSteps(c, plans[planIdx - 1..])
    {
      AllStepsHead(c, plans, planIdx - 1);
      hide AllSteps, StepsAt, Decode;
      AscendingSome(plan.union);
    }

    /** Pass over the chunks no filter wants; they are never decoded. */
    method SkipUnwanted(c: Codec)
      requires Valid() && Between()
      modifies this`planIdx
      ensures Valid() && Between() && Remaining(c) == old(Remaining(c))
      ensures planIdx == |plans| || plans[planIdx].union != {}
    {
      hide AllSteps, StepsAt, PlanSteps, StreamCursor.Remaining, StreamCursor.Unread, StreamCursor.CurrentSteps, Decode;
      hide IsGenuine;
      BetweenRemaining(c);
      ghost var was := Remaining(c);
      while planIdx < |plans| && plans[planIdx].union == {}
        invariant Valid() && Between() && was == AllSteps(c, plans[planIdx..])
        decreases |plans| - planIdx
      {
        AllStepsHead(c, plans, planIdx);
        UnwantedPlan(c, plans[planIdx], AllSteps(c, plans[planIdx + 1..]));
        planIdx := planIdx + 1;
      }
      BetweenRemaining(c);
    }

    /** Load the wanted chunk at the front of the plans. One that cannot be
        decoded is consumed. */
    lemma PlanAhead(c: Codec)
      requires Valid() && Between() && planIdx < |plans| && plans[planIdx].union != {}
      ensures Remaining(c) == AllSteps(c, plans[planIdx..])
      ensures Decode(plans[planIdx].entry.zst).Err? ==> Remaining(c) == [Failed] + AllSteps(c, plans[planIdx + 1..])
    {
      BetweenRemaining(c);
      hide AllSteps, PlanSteps, Decode, StreamCursor.Remaining, IsGenuine;
      AllStepsHead(c, plans, planIdx);
      FailedPlan(c, plans[planIdx]);
    }

    method LoadNext(c: Codec, cache: ChunkCache) returns (ok: bool)
      requires Valid() && IsChunkCache(cache) && Backed(cache, plans) && Between()
      requires planIdx < |plans| && plans[planIdx].union != {}
      modifies this, cache
      ensures Valid() && IsChunkCache(cache) && peeked.None?
      ensures cache.entries.Keys <= old(cache.entries.Keys) + WantedKeys(plans)
      ensures LoadsOnly(old(cache.loads), cache.loads, WantedKeys(plans))
      ensures ok ==> Remaining(c) == old(Remaining(c)) && currentOrds.Some? && currentOrds.value != []
      ensures !ok ==> old(Remaining(c)) == [Failed] + Remaining(c)
    {
      PlanAhead(c);
      hide StepsAt, Decode, AllSteps, PlanSteps, StreamCursor.Remaining, IsChunkCache, Backed, WantedKeys, IsGenuine;
      var plan := plans[planIdx];
      planIdx := planIdx + 1;
      var decoded := LoadChunk(cache, plans, planIdx - 1);
      if decoded.Err? {
        BetweenRemaining(c);
        return false;
      }
      currentDecoded := Some(decoded.value);
      currentOrds := Some(Ascending(plan.union));
      LoadedRemaining(c, plan, decoded.value);
      return true;
    }

    /** The next wanted chunk, if there is one: `Ok(false)` when there is none. */
    method NextPlan(c: Codec, cache: ChunkCache) returns (r: Result<bool, PeekError>)
      requires Valid() && IsChunkCache(cache) && Backed(cache, plans) && Between()
      modifies this, cache
      ensures Valid() && IsChunkCache(cache) && peeked.None?
      ensures cache.entries.Keys <= old(cache.entries.Keys) + WantedKeys(plans)
      ensures LoadsOnly(old(cache.loads), cache.loads, WantedKeys(plans))
      ensures r == Ok(true) ==> Remaining(c) == old(Remaining(c)) && currentOrds.Some? && currentOrds.value != []
      ensures r == Ok(false) ==> old(Remaining(c)) == [] && Remaining(c) == []
      ensures r.Err? ==> old(Remaining(c)) == [Failed] + Remaining(c)
    {
      SkipUnwanted(c);
      hide StreamCursor.Remaining, IsChunkCache, Backed, WantedKeys, AllSteps, IsGenuine;
      if planIdx >= |plans| {
        BetweenRemaining(c);
        NoPlans(c);
        return Ok(false);
      }
      var ok := LoadNext(c, cache);
      return if ok then Ok(true) else Err(DecodeChunkFailed);
    }

    lemma NoPlans(c: Codec)
      ensures AllSteps(c, plans[|plans|..]) == []
    {
    }

    /** The next message, without consuming it; peeking again gives it again. An
        error consumes the step it stands for. */
    method Peek(c: Codec, cache: ChunkCache) returns (r: Result<Option<Item>, PeekError>)
      requires Valid() && IsChunkCache(cache) && Backed(cache, plans)
      modifies this, cache
      ensures Valid() && IsChunkCache(cache)
      ensures cache.entries.Keys <= old(cache.entries.Keys) + WantedKeys(plans)
      ensures LoadsOnly(old(cache.loads), cache.loads, WantedKeys(plans))
      ensures r == Ok(None) <==> old(Remaining(c)) == []
      ensures r.Ok? ==> Remaining(c) == old(Remaining(c)) && peeked == r.value
      ensures r.Ok? && r.value.Some? ==> Remaining(c) != [] && Remaining(c)[0] == Got(r.value.value)
      ensures r.Ok? && r.value.Some? ==> IsGenuine(r.value.value, plans)
      ensures r.Err? ==> old(Remaining(c)) == [Failed] + Remaining(c)
    {
      hide IsGenuine;
      if peeked.Some? {
        return Ok(peeked);
      }
      if currentOrds.None? || |currentOrds.value| == 0 {
        var next := NextPlan(c, cache);
        hide StreamCursor.Remaining, IsChunkCache, Backed, WantedKeys;
        if next.Err? {
          return Err(next.error);
        }
        if !next.value {
          return Ok(None);
        }
      }
      r := PeekCurrent(c);
    }

    lemma CurrentHead(c: Codec)
      requires Valid() && peeked.None? && currentOrds.Some? && currentOrds.value != []
      ensures var d, plan, ords := currentDecoded.value, plans[planIdx - 1], currentOrds.value;
        Remaining(c) == [StepAt(c, d, plan, ords[0])]
          + (StepsAt(c, d, plan, ords[1..]) + AllSteps(c, plans[planIdx..]))
    {
      StepsAtHead(c, currentDecoded.value, plans[planIdx - 1], currentOrds.value, AllSteps(c, plans[planIdx..]));
      hide StepsAt, StepAt, AllSteps;
    }

    lemma LoadedHas(c: Codec)
      requires Valid() && currentOrds.Some?
      ensures var d, plan := currentDecoded.value, plans[planIdx - 1];
        Remaining(c) == (if peeked.Some? then [Got(peeked.value)] else [])
          + (StepsAt(c, d, plan, currentOrds.value) + AllSteps(c, plans[planIdx..]))
    {
      hide StepsAt, AllSteps, IsGenuine;
    }

    /** Decode the next wanted ordinal of the loaded chunk. */
    method PeekCurrent(c: Codec) returns (r: Result<Option<Item>, PeekError>)
      requires Valid() && peeked.None? && currentOrds.Some? && currentOrds.value != []
      modifies this
      ensures Valid()
      ensures r.Ok? ==> r.value.Some? && peeked == r.value && Remaining(c) == old(Remaining(c))
      ensures r.Ok? ==> Remaining(c) != [] && Remaining(c)[0] == Got(r.value.value)
      ensures r.Err? ==> old(Remaining(c)) == [Failed] + Remaining(c)
    {
      var ord := currentOrds.value[0];
      var d, plan := currentDecoded.value, plans[planIdx - 1];
      CurrentHead(c);
      StepAtCases(c, d, plan, ord);
      hide AllSteps, StepsAt, StepAt, ExtractRecvNs, ExtractSlot, NamesAt, DecodeMessage, IsGenuine;
      hide StreamCursor.Remaining;
      currentOrds := Some(currentOrds.value[1..]);
      var msg := DecodeMessage(c, d, ord);
      if msg.None? {
        LoadedHas(c);
        return Err(DecodeMessageFailed);
      }
      var slot := if ExtractSlot(msg.value).Some? then ExtractSlot(msg.value).value else 0;
      ReadIsGenuine(msg.value, NamesAt(plan.named, ord), plans, plan, ord);
      peeked := Some(Item(slot, msg.value, NamesAt(plan.named, ord), ExtractRecvNs(msg.value, plan.entry.meta, ord)));
      LoadedHas(c);
      return Ok(peeked);
    }

    method TakePeeked(c: Codec) returns (r: Option<Item>)
      requires Valid()
      modifies this
      ensures Valid() && r == old(peeked) && peeked.None?
      ensures old(Remaining(c)) == if r.Some? then [Got(r.value)] + Remaining(c) else Remaining(c)
    {
      r := peeked;
      peeked := None;
    }
  }
}
