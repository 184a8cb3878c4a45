/** The reader's side of the `.idx` file: validation, the lookup table, lazy
    bitmap access, and the round trip from the writer's serialization. */
module IndexRead {
  import opened Core
  import opened Updates
  import opened Codecs
  import opened Frames
  import opened IndexBuild

  datatype IndexError =
    | TooShort | WrongMagic | WrongVersion | HeaderPastEnd | BadHeader
    | BitmapPastBody | BadBitmap

  type Slot = (nat, nat)

  datatype ChunkIndex = ChunkIndex(
    raw: Bytes, header: IdxHeader, lookup: map<Dim, map<DimValue, Slot>>, bodyStart: nat)
  {
    ghost predicate Valid() {
      bodyStart <= |raw|
    }

    /** The bitmap filed under a pair; `Ok(None)` when the pair is not there. */
    function BitmapFor(c: Codec, dim: Dim, value: DimValue): Result<Option<set<nat>>, IndexError>
      requires Valid()
    {
      if dim !in lookup || value !in lookup[dim] then Ok(None)
      else
        var (offset, length) := lookup[dim][value];
        if bodyStart + offset + length > |raw| then Err(BitmapPastBody)
        else
          var bits := c.decodeBitmap(raw[bodyStart + offset..bodyStart + offset + length]);
          if bits.None? then Err(BadBitmap) else Ok(bits)
    }
  }

  /** The entry table; a later duplicate replaces an earlier one. */
  function EntryTable(entries: seq<DimEntry>): map<DimValue, Slot> {
    if entries == [] then map[] else
      var n := |entries| - 1;
      EntryTable(entries[..n])[entries[n].value := (entries[n].offset, entries[n].length)]
  }

  function DimTable(dims: seq<DimHeader>): map<Dim, map<DimValue, Slot>> {
    if dims == [] then map[] else
      var n := |dims| - 1;
      DimTable(dims[..n])[dims[n].name := EntryTable(dims[n].entries)]
  }

  function ParseIndex(c: Codec, raw: Bytes): (r: Result<ChunkIndex, IndexError>)
    ensures r.Ok? ==> r.value.Valid()
  {
    if |raw| < 9 then Err(TooShort)
    else if raw[..4] != IDX_MAGIC then Err(WrongMagic)
    else if raw[4] != IDX_VERSION then Err(WrongVersion)
    else
      var headerLen := FromLe(raw[5..9]);
      if |raw| < 9 + headerLen then Err(HeaderPastEnd)
      else
        var header := c.decodeHeader(raw[9..9 + headerLen]);
        if header.None? then Err(BadHeader)
        else Ok(ChunkIndex(raw, header.value, DimTable(header.value.dimensions), 9 + headerLen))
  }

  // ----- what is refused, and what is read -----

  predicate HasMagic(raw: Bytes) {
    |raw| >= 9 && raw[0] == 0x53 && raw[1] == 0x49 && raw[2] == 0x44 && raw[3] == 0x58
  }

  /** The length of the header, little-endian behind magic and version. */
  function HeaderLen(raw: Bytes): nat
    requires |raw| >= 9
  {
    raw[5] as nat + raw[6] as nat * 0x100 + raw[7] as nat * 0x1_0000 + raw[8] as nat * 0x100_0000
  }

  predicate HasHeader(raw: Bytes) {
    HasMagic(raw) && raw[4] == 1 && |raw| >= 9 + HeaderLen(raw)
  }

  /** What is wrong with a file, the first thing first. */
  predicate IsRefused(c: Codec, raw: Bytes, error: IndexError) {
    match error
    case TooShort => |raw| < 9
    case WrongMagic => |raw| >= 9 && !HasMagic(raw)
    case WrongVersion => HasMagic(raw) && raw[4] != 1
    case HeaderPastEnd => HasMagic(raw) && raw[4] == 1 && |raw| < 9 + HeaderLen(raw)
    case BadHeader => HasHeader(raw) && c.decodeHeader(raw[9..9 + HeaderLen(raw)]).None?
    case _ => false
  }

  /** The last entry for a value. */
  ghost predicate IsLastEntry(entries: seq<DimEntry>, i: nat, value: DimValue) {
    i < |entries| && entries[i].value == value && forall j :: i < j < |entries| ==> entries[j].value != value
  }

  ghost predicate IsLastDim(dims: seq<DimHeader>, i: nat, dim: Dim) {
    i < |dims| && dims[i].name == dim && forall j :: i < j < |dims| ==> dims[j].name != dim
  }

  /** Where the header says that the bitmap of a pair lies. */
  ghost predicate IsFiled(dims: seq<DimHeader>, dim: Dim, value: DimValue, slot: Slot) {
    exists i: nat, j: nat :: IsLastDim(dims, i, dim) && IsLastEntry(dims[i].entries, j, value)
      && slot == (dims[i].entries[j].offset, dims[i].entries[j].length)
  }

  predicate Finds(lookup: map<Dim, map<DimValue, Slot>>, dim: Dim, value: DimValue, slot: Slot) {
    dim in lookup && value in lookup[dim] && lookup[dim][value] == slot
  }

  /** A file is read for what its header says, or refused for what is wrong. */
  ghost predicate IsParsed(c: Codec, raw: Bytes, r: Result<ChunkIndex, IndexError>) {
    && (r.Err? ==> IsRefused(c, raw, r.error))
    && (r.Ok? ==>
          && HasHeader(raw) && c.decodeHeader(raw[9..9 + HeaderLen(raw)]) == Some(r.value.header)
          && r.value.raw == raw && r.value.bodyStart == 9 + HeaderLen(raw)
          && var dims := r.value.header.dimensions;
             forall d, v, slot :: IsFiled(dims, d, v, slot) <==> Finds(r.value.lookup, d, v, slot))
  }

  lemma {:induction false} EntryTableIsLast(entries: seq<DimEntry>, value: DimValue)
    ensures value in EntryTable(entries) ==> exists i: nat :: IsLastEntry(entries, i, value)
    ensures forall i: nat :: IsLastEntry(entries, i, value) ==>
      value in EntryTable(entries) && EntryTable(entries)[value] == (entries[i].offset, entries[i].length)
  {
    if entries != [] {
      var n := |entries| - 1;
      EntryTableIsLast(entries[..n], value);
      if entries[n].value == value {
        assert IsLastEntry(entries, n, value);
      } else {
        forall i: nat ensures IsLastEntry(entries, i, value) <==> IsLastEntry(entries[..n], i, value) {
        }
      }
    }
  }

  lemma DimTableStep(dims: seq<DimHeader>)
    requires dims != []
    ensures var n := |dims| - 1; DimTable(dims) == DimTable(dims[..n])[dims[n].name := EntryTable(dims[n].entries)]
  {
  }

  lemma LastDimStep(dims: seq<DimHeader>, i: nat, dim: Dim)
    requires dims != []
    ensures var n := |dims| - 1;
      IsLastDim(dims, i, dim) <==> if dims[n].name == dim then i == n else IsLastDim(dims[..n], i, dim)
  {
    var n := |dims| - 1;
    if i < n { assert dims[..n][i] == dims[i]; }
  }

  /** The table has the entries of the last header of each name. */
  lemma {:induction false} DimTableIsLast(dims: seq<DimHeader>, dim: Dim)
    ensures dim in DimTable(dims) ==> exists i: nat :: IsLastDim(dims, i, dim)
    ensures forall i: nat :: IsLastDim(dims, i, dim) ==>
      i < |dims| && dim in DimTable(dims) && DimTable(dims)[dim] == EntryTable(dims[i].entries)
  {
    if dims != [] {
      var n := |dims| - 1;
      DimTableStep(dims);
      DimTableIsLast(dims[..n], dim);
      forall i: nat ensures IsLastDim(dims, i, dim)
        <==> if dims[n].name == dim then i == n else IsLastDim(dims[..n], i, dim)
      {
        LastDimStep(dims, i, dim);
      }
      hide DimTable, EntryTable, IsLastDim;
      if dims[n].name == dim {
        assert IsLastDim(dims, n, dim);
      }
    }
  }

  lemma TableIsFiled(dims: seq<DimHeader>, dim: Dim, value: DimValue, slot: Slot)
    ensures IsFiled(dims, dim, value, slot) <==> Finds(DimTable(dims), dim, value, slot)
  {
    DimTableIsLast(dims, dim);
    hide DimTable, EntryTable;
    if i: nat :| IsLastDim(dims, i, dim) {
      EntryTableIsLast(dims[i].entries, value);
      if j: nat :| IsLastEntry(dims[i].entries, j, value) {
      }
    }
  }

  lemma ParseIsRight(c: Codec, raw: Bytes)
    ensures IsParsed(c, raw, ParseIndex(c, raw))
  {
    if |raw| >= 9 {
      assert raw[..4] == IDX_MAGIC <==> HasMagic(raw);
      assert FromLe(raw[5..9]) == HeaderLen(raw);
    }
    var r := ParseIndex(c, raw);
    hide HeaderLen, FromLe, HasMagic, DimTable, IsFiled;
    if r.Ok? {
      var dims := r.value.header.dimensions;
      forall d, v, slot ensures IsFiled(dims, d, v, slot) <==> Finds(DimTable(dims), d, v, slot) {
        TableIsFiled(dims, d, v, slot);
      }
    }
  }

  method BuildTable(dims: seq<DimHeader>) returns (lookup: map<Dim, map<DimValue, Slot>>)
    ensures lookup == DimTable(dims)
  {
    lookup := map[];
    for i := 0 to |dims|
      invariant lookup == DimTable(dims[..i])
    {
      var entries := dims[i].entries;
      var values: map<DimValue, Slot> := map[];
      for j := 0 to |entries|
        invariant values == EntryTable(entries[..j])
      {
        assert entries[..j + 1][..j] == entries[..j];
        values := values[entries[j].value := (entries[j].offset, entries[j].length)];
      }
      assert entries[..|entries|] == entries;
      assert dims[..i + 1][..i] == dims[..i];
      lookup := lookup[dims[i].name := values];
    }
    assert dims[..|dims|] == dims;
  }

  method ParseChunkIndex(c: Codec, raw: Bytes) returns (r: Result<ChunkIndex, IndexError>)
    ensures r == ParseIndex(c, raw) && IsParsed(c, raw, r)
  {
    ParseIsRight(c, raw);
    hide IsParsed;
    if |raw| < 9 { return Err(TooShort); }
    if raw[..4] != IDX_MAGIC { return Err(WrongMagic); }
    if raw[4] != IDX_VERSION { return Err(WrongVersion); }
    var headerLen := FromLe(raw[5..9]);
    if |raw| < 9 + headerLen { return Err(HeaderPastEnd); }
    var header := c.decodeHeader(raw[9..9 + headerLen]);
    if header.None? { return Err(BadHeader); }
    var lookup := BuildTable(header.value.dimensions);
    return Ok(ChunkIndex(raw, header.value, lookup, 9 + headerLen));
  }

  // ----- the tables find what was laid out -----

  lemma {:induction false} EntryTableFinds(entries: seq<DimEntry>, i: nat)
    requires i < |entries|
    requires forall a, b :: 0 <= a < b < |entries| ==> entries[a].value != entries[b].value
    ensures entries[i].value in EntryTable(entries)
    ensures EntryTable(entries)[entries[i].value] == (entries[i].offset, entries[i].length)
  {
    var n := |entries| - 1;
    if i < n {
      EntryTableFinds(entries[..n], i);
      assert entries[..n][i] == entries[i];
    }
  }

  lemma {:induction false} EntryTableOnly(entries: seq<DimEntry>, value: DimValue)
    requires value in EntryTable(entries)
    ensures exists i :: 0 <= i < |entries| && entries[i].value == value
  {
    var n := |entries| - 1;
    if entries[n].value != value {
      EntryTableOnly(entries[..n], value);
      var i :| 0 <= i < n && entries[..n][i].value == value;
      assert entries[i].value == value;
    }
  }

  lemma {:induction false} DimTableFinds(dims: seq<DimHeader>, i: nat)
    requires i < |dims|
    requires forall a, b :: 0 <= a < b < |dims| ==> dims[a].name != dims[b].name
    ensures dims[i].name in DimTable(dims)
    ensures DimTable(dims)[dims[i].name] == EntryTable(dims[i].entries)
  {
    hide EntryTable;
    var n := |dims| - 1;
    if i < n {
      DimTableFinds(dims[..n], i);
      assert dims[..n][i] == dims[i];
    }
  }

  lemma {:induction false} DimTableOnly(dims: seq<DimHeader>, dim: Dim)
    requires dim in DimTable(dims)
    ensures exists i :: 0 <= i < |dims| && dims[i].name == dim
  {
    var n := |dims| - 1;
    if dims[n].name != dim {
      DimTableOnly(dims[..n], dim);
      var i :| 0 <= i < n && dims[..n][i].name == dim;
      assert dims[i].name == dim;
    }
  }

  // ----- where the writer put each bitmap -----

  /** `part` sits in `whole` at position `at`. */
  ghost predicate SitsAt(whole: Bytes, at: nat, part: Bytes) {
    at + |part| <= |whole| && whole[at..at + |part|] == part
  }

  lemma SitsInside(whole: Bytes, at: nat, part: Bytes, inner: nat, piece: Bytes)
    requires SitsAt(whole, at, part) && SitsAt(part, inner, piece)
    ensures SitsAt(whole, at + inner, piece)
  {
    forall i | 0 <= i < |piece| ensures whole[at + inner..at + inner + |piece|][i] == piece[i] {
      assert piece[i] == part[inner..inner + |piece|][i] == part[inner + i];
      assert part[inner + i] == whole[at..at + |part|][inner + i];
    }
  }

  /** The first value's bitmap comes first; the rest follows it. */
  lemma DimHead(c: Codec, m: map<DimValue, set<nat>>, keys: seq<DimValue>, offset: nat)
    requires keys != []
    ensures var (entries, body) := SerializeDim(c, m, keys, offset);
      var blob := c.encodeBitmap(Bits(m, keys[0]));
      var rest := SerializeDim(c, m, keys[1..], offset + |blob|);
      && entries == [DimEntry(keys[0], offset, |blob|)] + rest.0
      && SitsAt(body, |blob|, rest.1) && SitsAt(body, 0, blob)
  {
    hide Bits;
    var blob := c.encodeBitmap(Bits(m, keys[0]));
    var rest := SerializeDim(c, m, keys[1..], offset + |blob|);
    assert SerializeDim(c, m, keys, offset).1 == blob + rest.1;
  }

  lemma {:induction false} DimSlot(c: Codec, m: map<DimValue, set<nat>>, keys: seq<DimValue>, offset: nat, i: nat)
    requires i < |keys|
    ensures var (entries, body) := SerializeDim(c, m, keys, offset);
      && entries[i].value == keys[i] && offset <= entries[i].offset
      && entries[i].length == |c.encodeBitmap(Bits(m, keys[i]))|
      && SitsAt(body, entries[i].offset - offset, c.encodeBitmap(Bits(m, keys[i])))
  {
    hide Bits, SitsAt, SerializeDim;
    var blob := c.encodeBitmap(Bits(m, keys[0]));
    var (entries, body) := SerializeDim(c, m, keys, offset);
    var rest := SerializeDim(c, m, keys[1..], offset + |blob|);
    DimHead(c, m, keys, offset);
    if i > 0 {
      DimSlot(c, m, keys[1..], offset + |blob|, i - 1);
      assert keys[1..][i - 1] == keys[i];
      SitsInside(body, |blob|, rest.1, rest.0[i - 1].offset - (offset + |blob|), c.encodeBitmap(Bits(m, keys[i])));
    }
  }

  lemma {:induction false} DimValues(c: Codec, m: map<DimValue, set<nat>>, keys: seq<DimValue>, offset: nat)
    ensures forall i :: 0 <= i < |keys| ==> SerializeDim(c, m, keys, offset).0[i].value == keys[i]
  {
    forall i | 0 <= i < |keys| ensures SerializeDim(c, m, keys, offset).0[i].value == keys[i] {
      DimSlot(c, m, keys, offset, i);
    }
  }

  /** The layout of dimension `i` sits whole in the body, at some offset. */
  lemma {:induction false} DimsSlot(c: Codec, dims: Dims, order: seq<Dim>, offset: nat, i: nat) returns (at: nat)
    requires i < |order|
    ensures var (headers, body) := SerializeDims(c, dims, order, offset);
      && offset <= at && headers[i].name == order[i]
      && headers[i].entries == DimLayout(c, dims, order[i], at).0
      && SitsAt(body, at - offset, DimLayout(c, dims, order[i], at).1)
  {
    hide DimLayout, DimType;
    var first := DimLayout(c, dims, order[0], offset);
    var (headers, body) := SerializeDims(c, dims, order, offset);
    var rest := SerializeDims(c, dims, order[1..], offset + |first.1|);
    assert body == first.1 + rest.1;
    if i == 0 {
      at := offset;
    } else {
      at := DimsSlot(c, dims, order[1..], offset + |first.1|, i - 1);
      assert headers[i] == rest.0[i - 1] && order[1..][i - 1] == order[i];
      assert SitsAt(body, |first.1|, rest.1);
      SitsInside(body, |first.1|, rest.1, at - (offset + |first.1|), DimLayout(c, dims, order[i], at).1);
    }
  }

  lemma {:induction false} DimsNames(c: Codec, dims: Dims, order: seq<Dim>, offset: nat)
    ensures forall i :: 0 <= i < |order| ==> SerializeDims(c, dims, order, offset).0[i].name == order[i]
  {
    forall i | 0 <= i < |order| ensures SerializeDims(c, dims, order, offset).0[i].name == order[i] {
      var at := DimsSlot(c, dims, order, offset, i);
    }
  }

  lemma {:induction false} DimsTypes(c: Codec, dims: Dims, order: seq<Dim>, offset: nat, i: nat)
    requires i < |order|
    ensures SerializeDims(c, dims, order, offset).0[i].valueType == DimType(order[i])
  {
    hide DimLayout, DimType;
    if i > 0 {
      DimsTypes(c, dims, order[1..], offset + |DimLayout(c, dims, order[0], offset).1|, i - 1);
    }
  }

  // ----- the round trip -----

  /** The dimensions of a stream, in the order of its files. */
  predicate AreDimsOf(dims: seq<DimHeader>, stream: Stream) {
    match stream
    case Tx =>
      && |dims| == 5 && dims[0].name == ProgramId && dims[1].name == AccountKey && dims[2].name == Signature
      && dims[3].name == VoteFlag && dims[4].name == FailedFlag
    case Acct => |dims| == 2 && dims[0].name == AccountPubkey && dims[1].name == OwnerProgram
    case Block => |dims| == 2 && dims[0].name == SlotDim && dims[1].name == ParentSlotDim
  }

  /** What the header of a file says: whose it is, of which slots, how many messages,
      and in which dimension there are values of which type. */
  ghost predicate IsHeaderFor(header: IdxHeader, stream: Stream, start: nat, end: nat, count: nat) {
    && header.stream == stream && header.startSlot == start && header.endSlot == end && header.messageCount == count
    && AreDimsOf(header.dimensions, stream)
    && forall d, u, value :: d in header.dimensions && IsAbout(stream, u, d.name, value) ==> IsTyped(value, d.valueType)
  }

  lemma HeaderIsRight(c: Codec, stream: Stream, dims: Dims, start: nat, end: nat, count: nat)
    ensures IsHeaderFor(HeaderOf(c, stream, dims, start, end, count), stream, start, end, count)
  {
    var order := DimOrder(stream);
    var headers := SerializeDims(c, dims, order, 0).0;
    DimsNames(c, dims, order, 0);
    forall i | 0 <= i < |order| ensures headers[i].valueType == DimType(order[i]) {
      DimsTypes(c, dims, order, 0, i);
    }
    hide SerializeDims, DimType, IsAbout;
    forall d, u, value | d in headers && IsAbout(stream, u, d.name, value) ensures IsTyped(value, d.valueType) {
      FactsAreAbout(stream, u, d.name, value);
    }
  }

  /** The header length has to fit the four bytes the format gives it. */
  ghost predicate HeaderFits(c: Codec, stream: Stream, dims: Dims, start: nat, end: nat, count: nat) {
    |c.encodeHeader(HeaderOf(c, stream, dims, start, end, count))| < U32
  }

  lemma FileSlices(hb: Bytes, body: Bytes)
    ensures var raw := IndexFile(hb, body);
      && |raw| == 9 + |hb| + |body|
      && raw[..4] == IDX_MAGIC && raw[4] == IDX_VERSION && raw[5..9] == ToLe(|hb| % U32)
      && raw[9..9 + |hb|] == hb && SitsAt(raw, 9 + |hb|, body)
  {
    var len := ToLe(|hb| % U32);
    hide ToLe;
    var raw := IndexFile(hb, body);
    assert raw == (IDX_MAGIC + [IDX_VERSION] + len) + (hb + body);
  }

  lemma FileParses(c: Codec, header: IdxHeader, body: Bytes)
    requires c.Lawful()
    requires |c.encodeHeader(header)| < U32
    ensures var hb := c.encodeHeader(header);
      && ParseIndex(c, IndexFile(hb, body))
        == Ok(ChunkIndex(IndexFile(hb, body), header, DimTable(header.dimensions), 9 + |hb|))
      && SitsAt(IndexFile(hb, body), 9 + |hb|, body)
  {
    var hb := c.encodeHeader(header);
    FileSlices(hb, body);
    LeRoundTrip(|hb|, []);
    assert ToLe(|hb|) + [] == ToLe(|hb|);
    hide ToLe, FromLe, IndexFile, DimTable;
    assert |hb| % U32 == |hb|;
  }

  lemma DimOrderDistinct(stream: Stream)
    ensures Distinct(DimOrder(stream))
  {
  }

  function DimOf(dims: Dims, dim: Dim): map<DimValue, set<nat>> {
    if dim in dims then dims[dim] else map[]
  }

  /** Within one dimension: the slot of a value points at its bitmap. */
  lemma LayoutEntry(c: Codec, dims: Dims, dim: Dim, value: DimValue, at: nat) returns (slot: Slot)
    requires Enumerates(c.keyOrder(DimOf(dims, dim).Keys), DimOf(dims, dim).Keys)
    requires value in DimOf(dims, dim)
    ensures var (entries, body) := DimLayout(c, dims, dim, at);
      var blob := c.encodeBitmap(DimOf(dims, dim)[value]);
      && value in EntryTable(entries) && EntryTable(entries)[value] == slot
      && slot.0 >= at && slot.1 == |blob| && SitsAt(body, slot.0 - at, blob)
  {
    hide EntryTable, SitsAt, SerializeDim;
    var m := DimOf(dims, dim);
    var keys := c.keyOrder(m.Keys);
    var j :| 0 <= j < |keys| && keys[j] == value;
    var entries := SerializeDim(c, m, keys, at).0;
    DimSlot(c, m, keys, at, j);
    DimValues(c, m, keys, at);
    EntryTableFinds(entries, j);
    slot := (entries[j].offset, entries[j].length);
  }

  lemma LayoutNoEntry(c: Codec, dims: Dims, dim: Dim, value: DimValue, at: nat)
    requires Enumerates(c.keyOrder(DimOf(dims, dim).Keys), DimOf(dims, dim).Keys)
    requires value !in DimOf(dims, dim)
    ensures value !in EntryTable(DimLayout(c, dims, dim, at).0)
  {
    hide EntryTable, SerializeDim;
    var m := DimOf(dims, dim);
    var keys := c.keyOrder(m.Keys);
    var entries := SerializeDim(c, m, keys, at).0;
    if value in EntryTable(entries) {
      EntryTableOnly(entries, value);
      var j :| 0 <= j < |entries| && entries[j].value == value;
      DimValues(c, m, keys, at);
    }
  }

  /** The table entry of a filed pair points at its bitmap in the body. */
  lemma TableEntry(c: Codec, stream: Stream, dims: Dims, dim: Dim, value: DimValue) returns (slot: Slot)
    requires Enumerates(c.keyOrder(DimOf(dims, dim).Keys), DimOf(dims, dim).Keys)
    requires dim in DimOrder(stream) && value in DimOf(dims, dim)
    ensures var (headers, body) := SerializeDims(c, dims, DimOrder(stream), 0);
      var blob := c.encodeBitmap(DimOf(dims, dim)[value]);
      && dim in DimTable(headers) && value in DimTable(headers)[dim] && DimTable(headers)[dim][value] == slot
      && slot.1 == |blob| && SitsAt(body, slot.0, blob)
  {
    var order := DimOrder(stream);
    DimOrderDistinct(stream);
    hide DimOrder, SerializeDims, DimLayout, EntryTable, DimTable, SitsAt, Enumerates, DimOf;
    var (headers, body) := SerializeDims(c, dims, order, 0);
    var i :| 0 <= i < |order| && order[i] == dim;
    var at := DimsSlot(c, dims, order, 0, i);
    slot := LayoutEntry(c, dims, dim, value, at);
    DimsNames(c, dims, order, 0);
    DimTableFinds(headers, i);
    SitsInside(body, at, DimLayout(c, dims, dim, at).1, slot.0 - at, c.encodeBitmap(DimOf(dims, dim)[value]));
  }

  /** The table has no entry for a pair that was never filed. */
  lemma NoTableEntry(c: Codec, stream: Stream, dims: Dims, dim: Dim, value: DimValue)
    requires Enumerates(c.keyOrder(DimOf(dims, dim).Keys), DimOf(dims, dim).Keys)
    requires dim !in DimOrder(stream) || value !in DimOf(dims, dim)
    ensures var lookup := DimTable(SerializeDims(c, dims, DimOrder(stream), 0).0);
      dim in lookup ==> value !in lookup[dim]
  {
    var order := DimOrder(stream);
    DimOrderDistinct(stream);
    hide DimOrder, SerializeDims, DimLayout, EntryTable, DimTable, SitsAt, Enumerates, DimOf;
    var headers := SerializeDims(c, dims, order, 0).0;
    if dim in DimTable(headers) {
      DimTableOnly(headers, dim);
      var i :| 0 <= i < |headers| && headers[i].name == dim;
      DimsNames(c, dims, order, 0);
      assert order[i] == dim;
      DimTableFinds(headers, i);
      var at := DimsSlot(c, dims, order, 0, i);
      LayoutNoEntry(c, dims, dim, value, at);
    }
  }

  /** Decoding through the table what was encoded into the body. */
  lemma BitmapAt(c: Codec, idx: ChunkIndex, dim: Dim, value: DimValue, body: Bytes, slot: Slot, bits: set<nat>)
    requires idx.Valid() && SitsAt(idx.raw, idx.bodyStart, body)
    requires dim in idx.lookup && value in idx.lookup[dim] && idx.lookup[dim][value] == slot
    requires slot.1 == |c.encodeBitmap(bits)| && SitsAt(body, slot.0, c.encodeBitmap(bits))
    requires c.decodeBitmap(c.encodeBitmap(bits)) == Some(bits)
    ensures idx.BitmapFor(c, dim, value) == Ok(Some(bits))
  {
    SitsInside(idx.raw, idx.bodyStart, body, slot.0, c.encodeBitmap(bits));
  }

  lemma FiledReadsBack(c: Codec, dims: Dims, dim: Dim, value: DimValue)
    requires c.Lawful() && DimsFit(dims)
    ensures value in DimOf(dims, dim) ==>
      c.decodeBitmap(c.encodeBitmap(DimOf(dims, dim)[value])) == Some(DimOf(dims, dim)[value])
  {
    hide Enumerates;
    if value in DimOf(dims, dim) { assert BitmapFits(dims[dim][value]); }
  }

  /** Parsing what was serialized answers every lookup as the builder would:
      a filed pair gives exactly its bitmap, any other pair gives `None`. */
  lemma IndexRoundTrip(
      c: Codec, stream: Stream, dims: Dims, start: nat, end: nat, count: nat, dim: Dim, value: DimValue)
    requires c.Lawful() && HeaderFits(c, stream, dims, start, end, count) && DimsFit(dims)
    ensures var r := ParseIndex(c, SerializeIndex(c, stream, dims, start, end, count));
      && r.Ok? && r.value.header == HeaderOf(c, stream, dims, start, end, count)
      && IsHeaderFor(r.value.header, stream, start, end, count)
      && r.value.BitmapFor(c, dim, value)
        == Ok(if dim in DimOrder(stream) && value in DimOf(dims, dim) then Some(DimOf(dims, dim)[value]) else None)
  {
    HeaderIsRight(c, stream, dims, start, end, count);
    hide IsHeaderFor;
    var header := HeaderOf(c, stream, dims, start, end, count);
    var body := SerializeDims(c, dims, DimOrder(stream), 0).1;
    var hb := c.encodeHeader(header);
    FileParses(c, header, body);
    assert Enumerates(c.keyOrder(DimOf(dims, dim).Keys), DimOf(dims, dim).Keys);
    FiledReadsBack(c, dims, dim, value);
    hide ParseIndex, IndexFile, SerializeDims, DimTable, DimOrder, SitsAt, Enumerates, DimOf;
    var idx := ParseIndex(c, IndexFile(hb, body)).value;
    if dim in DimOrder(stream) && value in DimOf(dims, dim) {
      var slot := TableEntry(c, stream, dims, dim, value);
      BitmapAt(c, idx, dim, value, body, slot, DimOf(dims, dim)[value]);
    } else {
      NoTableEntry(c, stream, dims, dim, value);
    }
  }
}
