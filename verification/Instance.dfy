/** A concrete codec: everything is written as a self-delimiting tree of numbers.
    It shows that the lawful codecs the theorems quantify over exist. */
module Instance {
  import opened Core
  import opened Updates
  import opened Codecs

  datatype Term = Num(n: nat) | Pair(left: Term, right: Term)

  /** A number in base 256, low digit first, each digit announced. */
  function Digits(n: nat): Bytes {
    if n == 0 then [0] else [1, n % 256] + Digits(n / 256)
  }

  function Write(t: Term): Bytes {
    match t
    case Num(n) => [0] + Digits(n)
    case Pair(l, r) => [1] + (Write(l) + Write(r))
  }

  lemma {:induction false} DigitsArePrefixFree(a: nat, b: nat, x: Bytes, y: Bytes)
    requires Digits(a) + x == Digits(b) + y
    ensures a == b && x == y
  {
    var left, right := Digits(a) + x, Digits(b) + y;
    assert left[0] == Digits(a)[0] && right[0] == Digits(b)[0];
    if a == 0 {
      assert x == left[1..] && y == right[1..];
    } else {
      assert left[1] == a % 256 && right[1] == b % 256;
      assert left[2..] == Digits(a / 256) + x && right[2..] == Digits(b / 256) + y;
      DigitsArePrefixFree(a / 256, b / 256, x, y);
    }
  }

  lemma WriteSplits(t: Term, x: Bytes)
    ensures t.Num? ==> Write(t) + x == [0] + (Digits(t.n) + x)
    ensures t.Pair? ==> Write(t) + x == [1] + (Write(t.left) + (Write(t.right) + x))
  {
    hide Digits;
    match t
    case Num(n) =>
      Regroup([0], Digits(n), x);
    case Pair(l, r) =>
      Regroup([1], Write(l) + Write(r), x);
      Regroup(Write(l), Write(r), x);
  }

  lemma Regroup(a: Bytes, b: Bytes, x: Bytes)
    ensures (a + b) + x == a + (b + x)
  {
  }

  lemma SameTail(tag: byte, other: byte, a: Bytes, b: Bytes)
    requires [tag] + a == [other] + b
    ensures tag == other && a == b
  {
    assert a == ([tag] + a)[1..] && b == ([other] + b)[1..];
    assert ([tag] + a)[0] == tag && ([other] + b)[0] == other;
  }

  lemma {:induction false} WriteIsPrefixFree(a: Term, b: Term, x: Bytes, y: Bytes)
    requires Write(a) + x == Write(b) + y
    ensures a == b && x == y
  {
    hide Write, Digits;
    WriteSplits(a, x);
    WriteSplits(b, y);
    var tagA: byte, tagB: byte := if a.Num? then 0 else 1, if b.Num? then 0 else 1;
    var restA := if a.Num? then Digits(a.n) + x else Write(a.left) + (Write(a.right) + x);
    var restB := if b.Num? then Digits(b.n) + y else Write(b.left) + (Write(b.right) + y);
    SameTail(tagA, tagB, restA, restB);
    if a.Num? {
      DigitsArePrefixFree(a.n, b.n, x, y);
    } else {
      WriteIsPrefixFree(a.left, b.left, Write(a.right) + x, Write(b.right) + y);
      WriteIsPrefixFree(a.right, b.right, x, y);
    }
  }

  lemma WriteIsInjective(a: Term, b: Term)
    requires Write(a) == Write(b)
    ensures a == b
  {
    WriteIsPrefixFree(a, b, [], []);
  }

  // ----- values as trees -----

  function OfBytes(b: Bytes): Term {
    if b == [] then Num(0) else Pair(Num(b[0]), OfBytes(b[1..]))
  }

  lemma {:induction false} BytesInjective(a: Bytes, b: Bytes)
    requires OfBytes(a) == OfBytes(b)
    ensures a == b
  {
    if a != [] {
      BytesInjective(a[1..], b[1..]);
      assert a == [a[0]] + a[1..] && b == [b[0]] + b[1..];
    }
  }

  function OfKeys(ks: seq<Bytes>): Term {
    if ks == [] then Num(0) else Pair(OfBytes(ks[0]), OfKeys(ks[1..]))
  }

  lemma {:induction false} KeysInjective(a: seq<Bytes>, b: seq<Bytes>)
    requires OfKeys(a) == OfKeys(b)
    ensures a == b
  {
    if a != [] {
      BytesInjective(a[0], b[0]);
      KeysInjective(a[1..], b[1..]);
      assert a == [a[0]] + a[1..] && b == [b[0]] + b[1..];
    }
  }

  function OfNats(ns: seq<nat>): Term {
    if ns == [] then Num(0) else Pair(Num(ns[0]), OfNats(ns[1..]))
  }

  lemma {:induction false} NatsInjective(a: seq<nat>, b: seq<nat>)
    requires OfNats(a) == OfNats(b)
    ensures a == b
  {
    if a != [] {
      NatsInjective(a[1..], b[1..]);
      assert a == [a[0]] + a[1..] && b == [b[0]] + b[1..];
    }
  }

  function OfBool(b: bool): Term {
    Num(if b then 1 else 0)
  }

  function OfInt(i: int): Term {
    if i >= 0 then Pair(Num(0), Num(i)) else Pair(Num(1), Num(-i))
  }

  function OfMessage(m: Option<TxMessage>): Term {
    if m.None? then Num(0) else Pair(OfKeys(m.value.accountKeys), OfNats(m.value.programIdIndexes))
  }

  function OfTxMeta(m: Option<TxMeta>): Term {
    if m.None? then Num(0)
    else Pair(OfBool(m.value.failed), Pair(OfKeys(m.value.loadedWritable), OfKeys(m.value.loadedReadonly)))
  }

  function OfTx(tx: Option<TxInfo>): Term {
    if tx.None? then Num(0)
    else
      var t := tx.value;
      Pair(Pair(OfBytes(t.signature), OfBool(t.isVote)), Pair(OfMessage(t.message), OfTxMeta(t.meta)))
  }

  lemma TxInjective(a: Option<TxInfo>, b: Option<TxInfo>)
    requires OfTx(a) == OfTx(b)
    ensures a == b
  {
    hide OfBytes, OfKeys, OfNats;
    if a.Some? {
      BytesInjective(a.value.signature, b.value.signature);
      if a.value.message.Some? {
        KeysInjective(a.value.message.value.accountKeys, b.value.message.value.accountKeys);
        NatsInjective(a.value.message.value.programIdIndexes, b.value.message.value.programIdIndexes);
      }
      if a.value.meta.Some? {
        KeysInjective(a.value.meta.value.loadedWritable, b.value.meta.value.loadedWritable);
        KeysInjective(a.value.meta.value.loadedReadonly, b.value.meta.value.loadedReadonly);
      }
    }
  }

  function OfAcct(acct: Option<AcctInfo>): Term {
    if acct.None? then Num(0) else Pair(OfBytes(acct.value.pubkey), OfBytes(acct.value.owner))
  }

  function OfBody(body: Body): Term {
    match body
    case Transaction(slot, tx) => Pair(Num(0), Pair(Num(slot), OfTx(tx)))
    case Account(slot, acct) => Pair(Num(1), Pair(Num(slot), OfAcct(acct)))
    case BlockMeta(slot, parent) => Pair(Num(2), Pair(Num(slot), Num(parent)))
    case Other => Num(0)
  }

  lemma BodyInjective(a: Body, b: Body)
    requires OfBody(a) == OfBody(b)
    ensures a == b
  {
    hide OfTx, OfBytes;
    if a.Transaction? {
      TxInjective(a.tx, b.tx);
    } else if a.Account? && a.acct.Some? {
      BytesInjective(a.acct.value.pubkey, b.acct.value.pubkey);
      BytesInjective(a.acct.value.owner, b.acct.value.owner);
    }
  }

  function OfTime(t: Option<Timestamp>): Term {
    if t.None? then Num(0) else Pair(OfInt(t.value.seconds), OfInt(t.value.nanos))
  }

  function OfUpdate(u: Update): Term {
    Pair(OfBody(u.body), Pair(OfTime(u.createdAt), OfBytes(u.rest)))
  }

  lemma UpdateInjective(a: Update, b: Update)
    requires OfUpdate(a) == OfUpdate(b)
    ensures a == b
  {
    hide OfBody, OfBytes;
    BodyInjective(a.body, b.body);
    BytesInjective(a.rest, b.rest);
  }

  // ----- index headers and bitmaps -----

  function OfValue(v: DimValue): Term {
    match v
    case BytesValue(b) => Pair(Num(0), OfBytes(b))
    case U64Value(n) => Pair(Num(1), Num(n))
    case BoolValue(f) => Pair(Num(2), OfBool(f))
  }

  function OfEntries(es: seq<DimEntry>): Term {
    if es == [] then Num(0)
    else Pair(Pair(OfValue(es[0].value), Pair(Num(es[0].offset), Num(es[0].length))), OfEntries(es[1..]))
  }

  lemma {:induction false} EntriesInjective(a: seq<DimEntry>, b: seq<DimEntry>)
    requires OfEntries(a) == OfEntries(b)
    ensures a == b
  {
    hide OfBytes;
    if a != [] {
      if a[0].value.BytesValue? { BytesInjective(a[0].value.bytes, b[0].value.bytes); }
      EntriesInjective(a[1..], b[1..]);
      assert a == [a[0]] + a[1..] && b == [b[0]] + b[1..];
    }
  }

  function OfDim(d: Dim): Term {
    Num(match d
      case ProgramId => 0 case AccountKey => 1 case Signature => 2 case VoteFlag => 3 case FailedFlag => 4
      case AccountPubkey => 5 case OwnerProgram => 6 case SlotDim => 7 case ParentSlotDim => 8)
  }

  function OfType(t: DimValueType): Term {
    Num(match t case Pubkey32 => 0 case Signature64 => 1 case U64Type => 2 case BoolType => 3)
  }

  function OfDims(ds: seq<DimHeader>): Term {
    if ds == [] then Num(0)
    else Pair(Pair(OfDim(ds[0].name), Pair(OfType(ds[0].valueType), OfEntries(ds[0].entries))), OfDims(ds[1..]))
  }

  lemma {:induction false} DimsInjective(a: seq<DimHeader>, b: seq<DimHeader>)
    requires OfDims(a) == OfDims(b)
    ensures a == b
  {
    hide OfEntries;
    if a != [] {
      EntriesInjective(a[0].entries, b[0].entries);
      DimsInjective(a[1..], b[1..]);
      assert a == [a[0]] + a[1..] && b == [b[0]] + b[1..];
    }
  }

  function OfStream(s: Stream): Term {
    Num(match s case Tx => 0 case Acct => 1 case Block => 2)
  }

  function OfHeader(h: IdxHeader): Term {
    Pair(
      Pair(OfStream(h.stream), Pair(Num(h.startSlot), Num(h.endSlot))),
      Pair(Num(h.messageCount), OfDims(h.dimensions)))
  }

  lemma HeaderInjective(a: IdxHeader, b: IdxHeader)
    requires OfHeader(a) == OfHeader(b)
    ensures a == b
  {
    hide OfDims;
    DimsInjective(a.dimensions, b.dimensions);
  }

  lemma BitsInjective(a: set<nat>, b: set<nat>)
    requires OfNats(Ascending(a)) == OfNats(Ascending(b))
    ensures a == b
  {
    NatsInjective(Ascending(a), Ascending(b));
    hide Ascending, OfNats;
    assert forall x :: x in a <==> x in Ascending(a);
    assert forall x :: x in b <==> x in Ascending(b);
  }

  // ----- the codec -----

  ghost function ReadMessage(b: Bytes): Option<Update> {
    if u: Update :| Write(OfUpdate(u)) == b then Some(u) else None
  }

  ghost function ReadBits(b: Bytes): Option<set<nat>> {
    if s: set<nat> :| Write(OfNats(Ascending(s))) == b then Some(s) else None
  }

  ghost function ReadHeader(b: Bytes): Option<IdxHeader> {
    if h: IdxHeader :| Write(OfHeader(h)) == b then Some(h) else None
  }

  ghost function AnyOrder(s: set<DimValue>): (r: seq<DimValue>)
    ensures Enumerates(r, s)
    decreases |s|
  {
    if s == {} then []
    else
      var x :| x in s;
      [x] + AnyOrder(s - {x})
  }

  ghost function TreeCodec(): Codec {
    Codec(
      u => Write(OfUpdate(u)), b => ReadMessage(b),
      s => Write(OfNats(Ascending(s))), b => ReadBits(b),
      h => Write(OfHeader(h)), b => ReadHeader(b),
      s => AnyOrder(s), s => None)
  }

  /** Lawful codecs exist. */
  lemma TreeCodecIsLawful()
    ensures TreeCodec().Lawful()
  {
    var c := TreeCodec();
    hide Write, OfUpdate, OfHeader, OfNats, Ascending;
    forall u: Update ensures c.decodeMessage(c.encodeMessage(u)) == Some(u) {
      var v := ReadMessage(Write(OfUpdate(u))).value;
      WriteIsInjective(OfUpdate(u), OfUpdate(v));
      UpdateInjective(u, v);
    }
    forall s: set<nat> ensures c.decodeBitmap(c.encodeBitmap(s)) == Some(s) {
      var v := ReadBits(Write(OfNats(Ascending(s)))).value;
      WriteIsInjective(OfNats(Ascending(s)), OfNats(Ascending(v)));
      BitsInjective(s, v);
    }
    forall h: IdxHeader ensures c.decodeHeader(c.encodeHeader(h)) == Some(h) {
      var v := ReadHeader(Write(OfHeader(h))).value;
      WriteIsInjective(OfHeader(h), OfHeader(v));
      HeaderInjective(h, v);
    }
  }
}
