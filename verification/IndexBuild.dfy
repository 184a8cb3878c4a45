/** The writer's index builder: one bitmap of message ordinals per (dimension,
    value) pair, filled message by message and serialized when a chunk seals. */
module IndexBuild {
  import opened Core
  import opened Updates
  import opened Codecs
  import opened Frames

  type Dims = map<Dim, map<DimValue, set<nat>>>

  function DimOrder(stream: Stream): seq<Dim> {
    match stream
    case Tx => [ProgramId, AccountKey, Signature, VoteFlag, FailedFlag]
    case Acct => [AccountPubkey, OwnerProgram]
    case Block => [SlotDim, ParentSlotDim]
  }

  function DimType(dim: Dim): DimValueType {
    match dim
    case Signature => Signature64
    case VoteFlag | FailedFlag => BoolType
    case SlotDim | ParentSlotDim => U64Type
    case _ => Pubkey32
  }

  function EmptyDims(stream: Stream): Dims {
    map d | d in DimOrder(stream) :: map[]
  }

  // ----- what a message says about itself -----

  /** Static keys first, then loaded writable, then loaded read-only: the list
      that `program_id_index` addresses into. */
  function ResolvedKeys(tx: TxInfo): seq<Bytes> {
    (if tx.message.Some? then tx.message.value.accountKeys else [])
    + (if tx.meta.Some? then tx.meta.value.loadedWritable + tx.meta.value.loadedReadonly else [])
  }

  function KeyFacts(keys: seq<Bytes>): set<(Dim, DimValue)> {
    set k | k in keys && |k| == 32 :: (AccountKey, BytesValue(k))
  }

  function ProgramFacts(keys: seq<Bytes>, indexes: seq<nat>): set<(Dim, DimValue)> {
    set i | i in indexes && i < |keys| && |keys[i]| == 32 :: (ProgramId, BytesValue(keys[i]))
  }

  function FlagFacts(tx: TxInfo): set<(Dim, DimValue)> {
    (if |tx.signature| == 64 then {(Signature, BytesValue(tx.signature))} else {})
    + (if tx.isVote then {(VoteFlag, BoolValue(true))} else {})
    + (if tx.meta.Some? && tx.meta.value.failed then {(FailedFlag, BoolValue(true))} else {})
  }

  function TxFacts(tx: TxInfo): set<(Dim, DimValue)> {
    FlagFacts(tx) + KeyFacts(ResolvedKeys(tx))
    + (if tx.message.Some? then ProgramFacts(ResolvedKeys(tx), tx.message.value.programIdIndexes) else {})
  }

  function AcctFacts(acct: AcctInfo): set<(Dim, DimValue)> {
    (if |acct.pubkey| == 32 then {(AccountPubkey, BytesValue(acct.pubkey))} else {})
    + (if |acct.owner| == 32 then {(OwnerProgram, BytesValue(acct.owner))} else {})
  }

  function BlockFacts(slot: nat, parentSlot: nat): set<(Dim, DimValue)> {
    {(SlotDim, U64Value(slot)), (ParentSlotDim, U64Value(parentSlot))}
  }

  /** The (dimension, value) pairs a message is filed under on a stream. */
  function Facts(stream: Stream, u: Update): set<(Dim, DimValue)> {
    match (u.body, stream)
    case (Transaction(_, Some(tx)), Tx) => TxFacts(tx)
    case (Account(_, Some(acct)), Acct) => AcctFacts(acct)
    case (BlockMeta(slot, parent), Block) => BlockFacts(slot, parent)
    case _ => {}
  }

  /** The key at a place of the list that static keys, loaded writable and loaded
      read-only keys make up, in this order. */
  predicate KeyIsAt(tx: TxInfo, i: nat, key: Bytes) {
    var own := if tx.message.Some? then tx.message.value.accountKeys else [];
    var writable := if tx.meta.Some? then tx.meta.value.loadedWritable else [];
    var readonly := if tx.meta.Some? then tx.meta.value.loadedReadonly else [];
    var a, b := |own|, |own| + |writable|;
    || (i < a && own[i] == key)
    || (a <= i < b && writable[i - a] == key)
    || (b <= i < b + |readonly| && readonly[i - b] == key)
  }

  ghost predicate NamesKey(tx: TxInfo, value: DimValue) {
    value.BytesValue? && |value.bytes| == 32 && exists i: nat :: KeyIsAt(tx, i, value.bytes)
  }

  /** The key some top-level instruction addresses. */
  ghost predicate NamesProgram(tx: TxInfo, value: DimValue) {
    && value.BytesValue? && |value.bytes| == 32 && tx.message.Some?
    && exists i :: i in tx.message.value.programIdIndexes && KeyIsAt(tx, i, value.bytes)
  }

  /** What a message of a stream is about, dimension by dimension. */
  ghost predicate IsAbout(stream: Stream, u: Update, dim: Dim, value: DimValue) {
    match (stream, dim)
    case (Tx, Signature) => u.body.Transaction? && u.body.tx.Some? &&
      |u.body.tx.value.signature| == 64 && value == BytesValue(u.body.tx.value.signature)
    case (Tx, VoteFlag) => u.body.Transaction? && u.body.tx.Some? && u.body.tx.value.isVote && value == BoolValue(true)
    case (Tx, FailedFlag) => u.body.Transaction? && u.body.tx.Some? &&
      u.body.tx.value.meta.Some? && u.body.tx.value.meta.value.failed && value == BoolValue(true)
    case (Tx, AccountKey) => u.body.Transaction? && u.body.tx.Some? && NamesKey(u.body.tx.value, value)
    case (Tx, ProgramId) => u.body.Transaction? && u.body.tx.Some? && NamesProgram(u.body.tx.value, value)
    case (Acct, AccountPubkey) => u.body.Account? && u.body.acct.Some? &&
      |u.body.acct.value.pubkey| == 32 && value == BytesValue(u.body.acct.value.pubkey)
    case (Acct, OwnerProgram) => u.body.Account? && u.body.acct.Some? &&
      |u.body.acct.value.owner| == 32 && value == BytesValue(u.body.acct.value.owner)
    case (Block, SlotDim) => u.body.BlockMeta? && value == U64Value(u.body.slot)
    case (Block, ParentSlotDim) => u.body.BlockMeta? && value == U64Value(u.body.parentSlot)
    case _ => false
  }

  predicate IsTyped(value: DimValue, valueType: DimValueType) {
    match valueType
    case Pubkey32 => value.BytesValue? && |value.bytes| == 32
    case Signature64 => value.BytesValue? && |value.bytes| == 64
    case U64Type => value.U64Value?
    case BoolType => value.BoolValue?
  }

  lemma KeysAreAt(tx: TxInfo, i: nat, key: Bytes)
    ensures KeyIsAt(tx, i, key) <==> i < |ResolvedKeys(tx)| && ResolvedKeys(tx)[i] == key
  {
  }

  lemma TxFactsAre(tx: TxInfo, dim: Dim, value: DimValue)
    ensures (dim, value) in KeyFacts(ResolvedKeys(tx)) <==> dim == AccountKey && NamesKey(tx, value)
    ensures tx.message.Some? ==>
      var facts := ProgramFacts(ResolvedKeys(tx), tx.message.value.programIdIndexes);
      (dim, value) in facts <==> dim == ProgramId && NamesProgram(tx, value)
  {
    var keys := ResolvedKeys(tx);
    if value.BytesValue? {
      forall i: nat ensures KeyIsAt(tx, i, value.bytes) <==> i < |keys| && keys[i] == value.bytes {
        KeysAreAt(tx, i, value.bytes);
      }
      hide ResolvedKeys, KeyIsAt;
    }
  }

  /** A message is filed under exactly what it is about, in a dimension of its
      stream, under a value of the dimension's type. */
  lemma FactsAreAbout(stream: Stream, u: Update, dim: Dim, value: DimValue)
    ensures (dim, value) in Facts(stream, u) <==> IsAbout(stream, u, dim, value)
    ensures IsAbout(stream, u, dim, value) ==> dim in DimOrder(stream) && IsTyped(value, DimType(dim))
  {
    if stream == Tx && u.body.Transaction? && u.body.tx.Some? {
      TxFactsAre(u.body.tx.value, dim, value);
    }
    hide ResolvedKeys, KeyIsAt;
  }

  // ----- filing one message -----

  function Bits(m: map<DimValue, set<nat>>, value: DimValue): set<nat> {
    if value in m then m[value] else {}
  }

  function ValuesIn(facts: set<(Dim, DimValue)>, dim: Dim): set<DimValue> {
    set f | f in facts && f.0 == dim :: f.1
  }

  function MarkDim(m: map<DimValue, set<nat>>, values: set<DimValue>, ord: nat): map<DimValue, set<nat>> {
    map v | v in m.Keys + values :: if v in values then Bits(m, v) + {ord} else Bits(m, v)
  }

  /** Add an ordinal under every pair of `facts`, and nowhere else. */
  function Mark(dims: Dims, facts: set<(Dim, DimValue)>, ord: nat): Dims {
    map d | d in dims :: MarkDim(dims[d], ValuesIn(facts, d), ord)
  }

  lemma MarkNothing(dims: Dims, ord: nat)
    ensures Mark(dims, {}, ord) == dims
  {
    forall d | d in dims ensures MarkDim(dims[d], ValuesIn({}, d), ord) == dims[d] {
      assert ValuesIn({}, d) == {};
    }
  }

  lemma ValuesInUnion(a: set<(Dim, DimValue)>, b: set<(Dim, DimValue)>, dim: Dim)
    ensures ValuesIn(a + b, dim) == ValuesIn(a, dim) + ValuesIn(b, dim)
  {
    forall v | v in ValuesIn(a, dim) + ValuesIn(b, dim) ensures v in ValuesIn(a + b, dim) {
      assert (dim, v) in a + b;
    }
  }

  lemma MarkDimTwice(m: map<DimValue, set<nat>>, a: set<DimValue>, b: set<DimValue>, ord: nat)
    ensures MarkDim(MarkDim(m, a, ord), b, ord) == MarkDim(m, a + b, ord)
  {
    var left, right := MarkDim(MarkDim(m, a, ord), b, ord), MarkDim(m, a + b, ord);
    assert left.Keys == right.Keys;
    forall v | v in left ensures left[v] == right[v] {
    }
  }

  lemma InsertIsMarkAt(m: map<DimValue, set<nat>>, dim: Dim, value: DimValue, ord: nat, d: Dim)
    ensures MarkDim(m, ValuesIn({(dim, value)}, d), ord)
      == if d == dim then m[value := Bits(m, value) + {ord}] else m
  {
    assert ValuesIn({(dim, value)}, d) == if d == dim then {value} else {};
  }

  lemma InsertIsMark(dims: Dims, dim: Dim, value: DimValue, ord: nat)
    ensures Mark(dims, {(dim, value)}, ord)
      == if dim in dims then dims[dim := dims[dim][value := Bits(dims[dim], value) + {ord}]] else dims
  {
    hide MarkDim, ValuesIn, Bits;
    forall d | d in dims
      ensures MarkDim(dims[d], ValuesIn({(dim, value)}, d), ord)
        == if d == dim then dims[d][value := Bits(dims[d], value) + {ord}] else dims[d]
    {
      InsertIsMarkAt(dims[d], dim, value, ord, d);
    }
  }

  lemma KeyFactsStep(keys: seq<Bytes>, i: nat)
    requires i < |keys|
    ensures KeyFacts(keys[..i + 1])
      == if |keys[i]| == 32 then KeyFacts(keys[..i]) + {(AccountKey, BytesValue(keys[i]))} else KeyFacts(keys[..i])
  {
    assert keys[..i + 1] == keys[..i] + [keys[i]];
  }

  lemma ProgramFactsStep(keys: seq<Bytes>, indexes: seq<nat>, i: nat)
    requires i < |indexes|
    ensures ProgramFacts(keys, indexes[..i + 1])
      == if indexes[i] < |keys| && |keys[indexes[i]]| == 32
         then ProgramFacts(keys, indexes[..i]) + {(ProgramId, BytesValue(keys[indexes[i]]))}
         else ProgramFacts(keys, indexes[..i])
  {
    assert indexes[..i + 1] == indexes[..i] + [indexes[i]];
  }

  lemma MarkTwiceAt(m: map<DimValue, set<nat>>, a: set<(Dim, DimValue)>, b: set<(Dim, DimValue)>, d: Dim, ord: nat)
    ensures MarkDim(MarkDim(m, ValuesIn(a, d), ord), ValuesIn(b, d), ord) == MarkDim(m, ValuesIn(a + b, d), ord)
  {
    ValuesInUnion(a, b, d);
    MarkDimTwice(m, ValuesIn(a, d), ValuesIn(b, d), ord);
  }

  /** Filing a message under more pairs adds up. */
  lemma MarkTwice(dims: Dims, a: set<(Dim, DimValue)>, b: set<(Dim, DimValue)>, ord: nat)
    ensures Mark(Mark(dims, a, ord), b, ord) == Mark(dims, a + b, ord)
  {
    hide MarkDim, ValuesIn;
    var left, right := Mark(Mark(dims, a, ord), b, ord), Mark(dims, a + b, ord);
    assert left.Keys == dims.Keys && right.Keys == dims.Keys;
    forall d | d in dims ensures left[d] == right[d] {
      MarkTwiceAt(dims[d], a, b, d, ord);
    }
  }

  /** One bitmap after filing one message. */
  lemma BitsAfterMark(dims: Dims, facts: set<(Dim, DimValue)>, ord: nat, dim: Dim, value: DimValue)
    requires dim in dims
    ensures Bits(Mark(dims, facts, ord)[dim], value)
         == Bits(dims[dim], value) + if (dim, value) in facts then {ord} else {}
  {
    assert value in ValuesIn(facts, dim) <==> (dim, value) in facts;
  }

  // ----- the index of a whole chunk -----

  /** Ordinals are `u32`, so the count wraps. */
  function BuildDims(stream: Stream, us: seq<Update>): Dims {
    if us == [] then EmptyDims(stream)
    else
      var n := |us| - 1;
      Mark(BuildDims(stream, us[..n]), Facts(stream, us[n]), n % U32)
  }

  /** Every filed ordinal fits a `u32`. */
  ghost predicate DimsFit(dims: Dims) {
    forall d, v :: d in dims && v in dims[d] ==> BitmapFits(dims[d][v])
  }

  lemma MarkFits(dims: Dims, facts: set<(Dim, DimValue)>, ord: nat)
    requires DimsFit(dims) && ord < U32
    ensures DimsFit(Mark(dims, facts, ord))
  {
    var next := Mark(dims, facts, ord);
    forall d, v | d in next && v in next[d] ensures BitmapFits(next[d][v]) {
      hide ValuesIn;
      if v in dims[d] { assert BitmapFits(dims[d][v]); }
    }
  }

  /** Ordinals are cast to `u32` before they are filed. */
  lemma {:induction false} BuiltDimsFit(stream: Stream, us: seq<Update>)
    ensures DimsFit(BuildDims(stream, us))
  {
    if us != [] {
      var n := |us| - 1;
      BuiltDimsFit(stream, us[..n]);
      hide Mark, Facts, DimsFit;
      MarkFits(BuildDims(stream, us[..n]), Facts(stream, us[n]), n % U32);
    }
  }

  /** The ordinals a scan of the messages finds under one pair. */
  ghost function Scan(stream: Stream, us: seq<Update>, dim: Dim, value: DimValue): set<nat> {
    set i | 0 <= i < |us| && (dim, value) in Facts(stream, us[i])
  }

  lemma ScanStep(stream: Stream, us: seq<Update>, dim: Dim, value: DimValue)
    requires us != []
    ensures var n := |us| - 1;
      Scan(stream, us, dim, value)
        == Scan(stream, us[..n], dim, value) + if (dim, value) in Facts(stream, us[n]) then {n} else {}
  {
    hide Facts;
    var n := |us| - 1;
    assert forall i :: 0 <= i < n ==> us[..n][i] == us[i];
  }

  lemma {:induction false} BuiltKeys(stream: Stream, us: seq<Update>)
    ensures BuildDims(stream, us).Keys == EmptyDims(stream).Keys
  {
    hide EmptyDims, Facts, MarkDim;
    if us != [] {
      BuiltKeys(stream, us[..|us| - 1]);
    }
  }

  lemma NothingBuilt(stream: Stream, dim: Dim, value: DimValue)
    requires dim in DimOrder(stream)
    ensures dim in EmptyDims(stream)
    ensures Bits(EmptyDims(stream)[dim], value) == Scan(stream, [], dim, value)
  {
    assert Scan(stream, [], dim, value) == {};
  }

  lemma ScanIsAbout(stream: Stream, us: seq<Update>, dim: Dim, value: DimValue)
    ensures forall i :: i in Scan(stream, us, dim, value) <==> 0 <= i < |us| && IsAbout(stream, us[i], dim, value)
  {
    hide Facts, IsAbout;
    forall i | 0 <= i < |us| ensures (dim, value) in Facts(stream, us[i]) <==> IsAbout(stream, us[i], dim, value) {
      FactsAreAbout(stream, us[i], dim, value);
    }
  }

  /** A bitmap of the built index holds exactly the ordinals of the messages that
      are about its pair, for chunks whose ordinals fit a `u32`. */
  lemma {:induction false} BuiltBitsAreScan(stream: Stream, us: seq<Update>, dim: Dim, value: DimValue)
    requires |us| <= U32 && dim in DimOrder(stream)
    ensures dim in BuildDims(stream, us)
    ensures Bits(BuildDims(stream, us)[dim], value) == Scan(stream, us, dim, value)
    ensures var bits := Bits(BuildDims(stream, us)[dim], value);
      forall i :: i in bits <==> 0 <= i < |us| && IsAbout(stream, us[i], dim, value)
  {
    ScanIsAbout(stream, us, dim, value);
    hide Facts, IsAbout, Mark, Bits, Scan, EmptyDims, DimOrder;
    BuiltKeys(stream, us);
    if us == [] {
      NothingBuilt(stream, dim, value);
    } else {
      var n := |us| - 1;
      BuiltKeys(stream, us[..n]);
      BuiltBitsAreScan(stream, us[..n], dim, value);
      BitsAfterMark(BuildDims(stream, us[..n]), Facts(stream, us[n]), n, dim, value);
      ScanStep(stream, us, dim, value);
      assert n % U32 == n;
    }
  }

  // ----- serialization -----

  const IDX_MAGIC: Bytes := [0x53, 0x49, 0x44, 0x58]
  const IDX_VERSION: byte := 1

  /** The entries and the body bytes of one dimension, laid out from `offset`. */
  function SerializeDim(c: Codec, m: map<DimValue, set<nat>>, keys: seq<DimValue>, offset: nat)
    : (r: (seq<DimEntry>, Bytes))
    ensures |r.0| == |keys|
  {
    if keys == [] then ([], []) else
      var blob := c.encodeBitmap(Bits(m, keys[0]));
      var rest := SerializeDim(c, m, keys[1..], offset + |blob|);
      ([DimEntry(keys[0], offset, |blob|)] + rest.0, blob + rest.1)
  }

  function DimLayout(c: Codec, dims: Dims, dim: Dim, offset: nat): (seq<DimEntry>, Bytes) {
    var m := if dim in dims then dims[dim] else map[];
    SerializeDim(c, m, c.keyOrder(m.Keys), offset)
  }

  function SerializeDims(c: Codec, dims: Dims, order: seq<Dim>, offset: nat): (r: (seq<DimHeader>, Bytes))
    ensures |r.0| == |order|
  {
    if order == [] then ([], []) else
      var first := DimLayout(c, dims, order[0], offset);
      var rest := SerializeDims(c, dims, order[1..], offset + |first.1|);
      ([DimHeader(order[0], DimType(order[0]), first.0)] + rest.0, first.1 + rest.1)
  }

  lemma SerializeDimsStep(c: Codec, dims: Dims, order: seq<Dim>, i: nat, headers: seq<DimHeader>, body: Bytes)
    requires i < |order|
    ensures var first := DimLayout(c, dims, order[i], |body|);
      var now := SerializeDims(c, dims, order[i..], |body|);
      var after := SerializeDims(c, dims, order[i + 1..], |body + first.1|);
      && headers + now.0 == headers + [DimHeader(order[i], DimType(order[i]), first.0)] + after.0
      && body + now.1 == body + first.1 + after.1
  {
    hide DimLayout, DimType;
    assert order[i..][0] == order[i] && order[i..][1..] == order[i + 1..];
    var first := DimLayout(c, dims, order[i], |body|);
    assert |body + first.1| == |body| + |first.1|;
  }

  lemma SerializeDimsEnd(c: Codec, dims: Dims, order: seq<Dim>, headers: seq<DimHeader>, body: Bytes)
    ensures headers + SerializeDims(c, dims, order[|order|..], |body|).0 == headers
    ensures body + SerializeDims(c, dims, order[|order|..], |body|).1 == body
  {
    assert order[|order|..] == [];
  }

  function HeaderOf(c: Codec, stream: Stream, dims: Dims, start: nat, end: nat, count: nat): IdxHeader {
    IdxHeader(stream, start, end, count, SerializeDims(c, dims, DimOrder(stream), 0).0)
  }

  function IndexFile(header: Bytes, body: Bytes): Bytes {
    IDX_MAGIC + [IDX_VERSION] + ToLe(|header| % U32) + header + body
  }

  function SerializeIndex(c: Codec, stream: Stream, dims: Dims, start: nat, end: nat, count: nat): Bytes {
    IndexFile(
      c.encodeHeader(HeaderOf(c, stream, dims, start, end, count)),
      SerializeDims(c, dims, DimOrder(stream), 0).1)
  }

  class IndexBuilder {
    const stream: Stream
    const order: seq<Dim>
    var dims: Dims

    ghost predicate Valid()
      reads this
    {
      order == DimOrder(stream) && dims.Keys == set d | d in order
    }

    constructor ForStream(s: Stream)
      ensures Valid() && stream == s && dims == EmptyDims(s)
    {
      stream := s;
      order := DimOrder(s);
      dims := EmptyDims(s);
    }

    method Insert(dim: Dim, value: DimValue, ord: nat)
      modifies this
      ensures dims == Mark(old(dims), {(dim, value)}, ord)
    {
      ghost var was := dims;
      if dim in dims {
        dims := dims[dim := dims[dim][value := Bits(dims[dim], value) + {ord}]];
      }
      InsertIsMark(was, dim, value, ord);
    }

    method ObserveFlags(ord: nat, tx: TxInfo)
      modifies this
      ensures dims == Mark(old(dims), FlagFacts(tx), ord)
    {
      hide Mark;
      ghost var before := dims;
      MarkNothing(dims, ord);
      ghost var facts: set<(Dim, DimValue)> := {};
      if |tx.signature| == 64 {
        ghost var fact := {(Signature, BytesValue(tx.signature))};
        MarkTwice(before, facts, fact, ord);
        facts := facts + fact;
        Insert(Signature, BytesValue(tx.signature), ord);
      }
      if tx.isVote {
        MarkTwice(before, facts, {(VoteFlag, BoolValue(true))}, ord);
        facts := facts + {(VoteFlag, BoolValue(true))};
        Insert(VoteFlag, BoolValue(true), ord);
      }
      if tx.meta.Some? && tx.meta.value.failed {
        MarkTwice(before, facts, {(FailedFlag, BoolValue(true))}, ord);
        facts := facts + {(FailedFlag, BoolValue(true))};
        Insert(FailedFlag, BoolValue(true), ord);
      }
      assert facts == FlagFacts(tx);
    }

    method ObserveKeys(ord: nat, resolved: seq<Bytes>)
      modifies this
      ensures dims == Mark(old(dims), KeyFacts(resolved), ord)
    {
      ghost var before := dims;
      MarkNothing(dims, ord);
      hide Mark;
      assert KeyFacts(resolved[..0]) == {};
      for i := 0 to |resolved|
        invariant dims == Mark(before, KeyFacts(resolved[..i]), ord)
      {
        var key := resolved[i];
        KeyFactsStep(resolved, i);
        if |key| == 32 {
          MarkTwice(before, KeyFacts(resolved[..i]), {(AccountKey, BytesValue(key))}, ord);
          Insert(AccountKey, BytesValue(key), ord);
        }
      }
      assert resolved[..|resolved|] == resolved;
    }

    method ObservePrograms(ord: nat, resolved: seq<Bytes>, indexes: seq<nat>)
      modifies this
      ensures dims == Mark(old(dims), ProgramFacts(resolved, indexes), ord)
    {
      ghost var before := dims;
      MarkNothing(dims, ord);
      hide Mark;
      assert ProgramFacts(resolved, indexes[..0]) == {};
      for i := 0 to |indexes|
        invariant dims == Mark(before, ProgramFacts(resolved, indexes[..i]), ord)
      {
        var ix := indexes[i];
        ProgramFactsStep(resolved, indexes, i);
        if ix < |resolved| {
          var key := resolved[ix];
          if |key| == 32 {
            MarkTwice(before, ProgramFacts(resolved, indexes[..i]), {(ProgramId, BytesValue(key))}, ord);
            Insert(ProgramId, BytesValue(key), ord);
          }
        }
      }
      assert indexes[..|indexes|] == indexes;
    }

    method ObserveTx(ord: nat, tx: TxInfo)
      modifies this
      ensures dims == Mark(old(dims), TxFacts(tx), ord)
    {
      hide Mark, FlagFacts, KeyFacts, ProgramFacts;
      ghost var before := dims;
      ObserveFlags(ord, tx);
      var resolved: seq<Bytes> := [];
      if tx.message.Some? {
        resolved := resolved + tx.message.value.accountKeys;
      }
      if tx.meta.Some? {
        resolved := resolved + (tx.meta.value.loadedWritable + tx.meta.value.loadedReadonly);
      }
      assert resolved == ResolvedKeys(tx);
      MarkTwice(before, FlagFacts(tx), KeyFacts(resolved), ord);
      ObserveKeys(ord, resolved);
      if tx.message.Some? {
        var indexes := tx.message.value.programIdIndexes;
        MarkTwice(before, FlagFacts(tx) + KeyFacts(resolved), ProgramFacts(resolved, indexes), ord);
        ObservePrograms(ord, resolved, indexes);
      } else {
        assert TxFacts(tx) == FlagFacts(tx) + KeyFacts(resolved);
      }
    }

    method ObserveAcct(ord: nat, acct: AcctInfo)
      modifies this
      ensures dims == Mark(old(dims), AcctFacts(acct), ord)
    {
      ghost var before := dims;
      MarkNothing(dims, ord);
      hide Mark;
      ghost var facts: set<(Dim, DimValue)> := {};
      if |acct.pubkey| == 32 {
        ghost var fact := {(AccountPubkey, BytesValue(acct.pubkey))};
        MarkTwice(before, facts, fact, ord);
        facts := facts + fact;
        Insert(AccountPubkey, BytesValue(acct.pubkey), ord);
      }
      if |acct.owner| == 32 {
        ghost var fact := {(OwnerProgram, BytesValue(acct.owner))};
        MarkTwice(before, facts, fact, ord);
        facts := facts + fact;
        Insert(OwnerProgram, BytesValue(acct.owner), ord);
      }
      assert facts == AcctFacts(acct);
    }

    method ObserveBlock(ord: nat, slot: nat, parentSlot: nat)
      modifies this
      ensures dims == Mark(old(dims), BlockFacts(slot, parentSlot), ord)
    {
      hide Mark;
      MarkTwice(dims, {(SlotDim, U64Value(slot))}, {(ParentSlotDim, U64Value(parentSlot))}, ord);
      Insert(SlotDim, U64Value(slot), ord);
      Insert(ParentSlotDim, U64Value(parentSlot), ord);
      assert {(SlotDim, U64Value(slot))} + {(ParentSlotDim, U64Value(parentSlot))} == BlockFacts(slot, parentSlot);
    }

    /** Files a message under exactly the pairs it is about. */
    method Observe(ord: nat, u: Update)
      requires Valid()
      modifies this
      ensures Valid() && dims == Mark(old(dims), Facts(stream, u), ord)
    {
      MarkNothing(dims, ord);
      if u.body.Transaction? && stream.Tx? && u.body.tx.Some? {
        ObserveTx(ord, u.body.tx.value);
      } else if u.body.Account? && stream.Acct? && u.body.acct.Some? {
        ObserveAcct(ord, u.body.acct.value);
      } else if u.body.BlockMeta? && stream.Block? {
        ObserveBlock(ord, u.body.slot, u.body.parentSlot);
      }
    }

    method SerializeOne(c: Codec, dim: Dim, body: Bytes) returns (entries: seq<DimEntry>, body': Bytes)
      requires dim in dims
      ensures entries == DimLayout(c, dims, dim, |body|).0
      ensures body' == body + DimLayout(c, dims, dim, |body|).1
    {
      var m := dims[dim];
      var keys := c.keyOrder(m.Keys);
      entries, body' := [], body;
      ghost var all := SerializeDim(c, m, keys, |body|);
      ghost var rest := all;
      assert keys[0..] == keys;
      for i := 0 to |keys|
        invariant rest == SerializeDim(c, m, keys[i..], |body'|)
        invariant all.0 == entries + rest.0 && body + all.1 == body' + rest.1
      {
        var offset := |body'|;
        var blob := c.encodeBitmap(Bits(m, keys[i]));
        assert keys[i..][0] == keys[i] && keys[i..][1..] == keys[i + 1..];
        ghost var after := SerializeDim(c, m, keys[i + 1..], |body'| + |blob|);
        assert rest == ([DimEntry(keys[i], offset, |blob|)] + after.0, blob + after.1);
        body' := body' + blob;
        entries := entries + [DimEntry(keys[i], offset, |body'| - offset)];
        rest := after;
      }
      assert keys[|keys|..] == [];
    }

    method SerializeAll(c: Codec) returns (dimensions: seq<DimHeader>, body: Bytes)
      requires Valid()
      ensures dimensions == SerializeDims(c, dims, order, 0).0
      ensures body == SerializeDims(c, dims, order, 0).1
    {
      dimensions, body := [], [];
      assert order[0..] == order;
      hide SerializeDims, DimLayout, DimType;
      for i := 0 to |order|
        invariant SerializeDims(c, dims, order, 0).0 == dimensions + SerializeDims(c, dims, order[i..], |body|).0
        invariant SerializeDims(c, dims, order, 0).1 == body + SerializeDims(c, dims, order[i..], |body|).1
      {
        SerializeDimsStep(c, dims, order, i, dimensions, body);
        var entries;
        entries, body := SerializeOne(c, order[i], body);
        dimensions := dimensions + [DimHeader(order[i], DimType(order[i]), entries)];
      }
      SerializeDimsEnd(c, dims, order, dimensions, body);
    }

    method Serialize(c: Codec, start: nat, end: nat, count: nat) returns (buffer: Bytes)
      requires Valid()
      ensures buffer == SerializeIndex(c, stream, dims, start, end, count)
    {
      hide IndexFile, SerializeDims;
      var dimensions, body := SerializeAll(c);
      var header := IdxHeader(stream, start, end, count, dimensions);
      buffer := Assemble(c.encodeHeader(header), body);
    }

    method Assemble(headerBytes: Bytes, body: Bytes) returns (buffer: Bytes)
      ensures buffer == IndexFile(headerBytes, body)
    {
      hide ToLe;
      buffer := IDX_MAGIC;
      buffer := buffer + [IDX_VERSION];
      buffer := buffer + ToLe(|headerBytes| % U32);
      buffer := buffer + headerBytes;
      buffer := buffer + body;
    }
  }
}
