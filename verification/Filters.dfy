/** Resolving a subscription filter to a set of message ordinals through the
    index, and the proof that the answer is the one a scan would give. */
module Filters {
  import opened Core
  import opened Updates
  import opened Codecs
  import opened IndexBuild
  import opened IndexRead

  datatype TxFilter = TxFilter(
    vote: Option<bool>,
    failed: Option<bool>,
    signature: Option<string>,
    accountInclude: seq<string>,
    accountExclude: seq<string>,
    accountRequired: seq<string>)

  datatype AcctFilter = AcctFilter(account: seq<string>, owner: seq<string>)

  datatype BlockFilter = BlockFilter

  /** A filter for one of the three streams. */
  datatype StreamFilter = ForTx(tx: TxFilter) | ForAcct(acct: AcctFilter) | ForBlock(block: BlockFilter) {
    function StreamOf(): Stream {
      match this
      case ForTx(_) => Tx
      case ForAcct(_) => Acct
      case ForBlock(_) => Block
    }
  }

  function DecodeLength(c: Codec, s: string, length: nat): Option<Bytes> {
    var decoded := c.base58(s);
    if decoded.Some? && |decoded.value| == length then decoded else None
  }

  function DecodePubkey(c: Codec, s: string): Option<Bytes> {
    DecodeLength(c, s, 32)
  }

  function DecodeSignature(c: Codec, s: string): Option<Bytes> {
    DecodeLength(c, s, 64)
  }

  predicate IsOrdinal(i: nat, count: nat) {
    i < count % U32
  }

  /** All ordinals of a chunk; the count is cast to `u32`. */
  function MatchAll(count: nat): set<nat> {
    set i | 0 <= i < count % U32 && IsOrdinal(i, count)
  }

  /** Lookup errors and missing pairs both read as the empty bitmap. */
  function BitsFor(c: Codec, idx: ChunkIndex, dim: Dim, value: DimValue): set<nat>
    requires idx.Valid()
  {
    match idx.BitmapFor(c, dim, value)
    case Ok(Some(bits)) => bits
    case _ => {}
  }

  /** The decodable keys of a list; the others are ignored. */
  function ValidKeys(c: Codec, keys: seq<string>): set<Bytes> {
    set s | s in keys && DecodePubkey(c, s).Some? :: DecodePubkey(c, s).value
  }

  // ----- what the filters mean over an index -----

  /** OR over the decodable keys; a list with none of them constrains nothing. */
  ghost predicate AnyKey(c: Codec, idx: ChunkIndex, dim: Dim, keys: seq<string>, i: nat)
    requires idx.Valid()
  {
    ValidKeys(c, keys) == {} || exists k :: k in ValidKeys(c, keys) && i in BitsFor(c, idx, dim, BytesValue(k))
  }

  ghost predicate FlagHolds(c: Codec, idx: ChunkIndex, dim: Dim, wanted: Option<bool>, i: nat)
    requires idx.Valid()
  {
    wanted.None? || (i in BitsFor(c, idx, dim, BoolValue(true)) <==> wanted.value)
  }

  ghost predicate SignatureHolds(c: Codec, idx: ChunkIndex, signature: Option<string>, i: nat)
    requires idx.Valid()
  {
    signature.None? ||
    var decoded := DecodeSignature(c, signature.value);
    decoded.Some? && i in BitsFor(c, idx, Signature, BytesValue(decoded.value))
  }

  /** AND over all keys; an undecodable one can never match. */
  ghost predicate AllKeys(c: Codec, idx: ChunkIndex, keys: seq<string>, i: nat)
    requires idx.Valid()
  {
    forall s :: s in keys ==>
      DecodePubkey(c, s).Some? && i in BitsFor(c, idx, AccountKey, BytesValue(DecodePubkey(c, s).value))
  }

  ghost predicate NoKey(c: Codec, idx: ChunkIndex, keys: seq<string>, i: nat)
    requires idx.Valid()
  {
    forall s :: s in keys ==>
      DecodePubkey(c, s).Some? ==> i !in BitsFor(c, idx, AccountKey, BytesValue(DecodePubkey(c, s).value))
  }

  ghost predicate TxHolds(c: Codec, idx: ChunkIndex, f: TxFilter, i: nat)
    requires idx.Valid()
  {
    && i in MatchAll(idx.header.messageCount)
    && FlagHolds(c, idx, VoteFlag, f.vote, i)
    && FlagHolds(c, idx, FailedFlag, f.failed, i)
    && SignatureHolds(c, idx, f.signature, i)
    && AnyKey(c, idx, AccountKey, f.accountInclude, i)
    && AllKeys(c, idx, f.accountRequired, i)
    && NoKey(c, idx, f.accountExclude, i)
  }

  ghost predicate AcctHolds(c: Codec, idx: ChunkIndex, f: AcctFilter, i: nat)
    requires idx.Valid()
  {
    && i in MatchAll(idx.header.messageCount)
    && AnyKey(c, idx, AccountPubkey, f.account, i)
    && AnyKey(c, idx, OwnerProgram, f.owner, i)
  }

  /** The ordinals a filter selects, read off the index. */
  ghost function Selected(c: Codec, idx: ChunkIndex, f: StreamFilter): set<nat>
    requires idx.Valid()
  {
    var all := MatchAll(idx.header.messageCount);
    match f
    case ForTx(tx) => set i | i in all && TxHolds(c, idx, tx, i)
    case ForAcct(acct) => set i | i in all && AcctHolds(c, idx, acct, i)
    case ForBlock(_) => all
  }

  // ----- the bitmap algorithms -----

  method RestrictFlag(c: Codec, idx: ChunkIndex, dim: Dim, wanted: Option<bool>, result: set<nat>)
    returns (r: set<nat>)
    requires idx.Valid() && result <= MatchAll(idx.header.messageCount)
    ensures forall i :: i in r <==> i in result && FlagHolds(c, idx, dim, wanted, i)
  {
    r := result;
    if wanted.Some? {
      var bits := BitsFor(c, idx, dim, BoolValue(true));
      if wanted.value {
        r := r * bits;
      } else {
        var complement := MatchAll(idx.header.messageCount) - bits;
        r := r * complement;
      }
    }
  }

  /** The union loop over one OR-list. */
  method RestrictAny(c: Codec, idx: ChunkIndex, dim: Dim, keys: seq<string>, result: set<nat>)
    returns (r: set<nat>)
    requires idx.Valid()
    ensures forall i :: i in r <==> i in result && AnyKey(c, idx, dim, keys, i)
  {
    r := result;
    if keys != [] {
      var union: set<nat> := {};
      var anyValid := false;
      for n := 0 to |keys|
        invariant anyValid <==> ValidKeys(c, keys[..n]) != {}
        invariant forall i :: i in union <==>
          exists k :: k in ValidKeys(c, keys[..n]) && i in BitsFor(c, idx, dim, BytesValue(k))
      {
        ValidKeysStep(c, keys, n);
        hide BitsFor, ValidKeys;
        var decoded := DecodePubkey(c, keys[n]);
        if decoded.Some? {
          anyValid := true;
          union := union + BitsFor(c, idx, dim, BytesValue(decoded.value));
        }
      }
      assert keys[..|keys|] == keys;
      if anyValid {
        r := r * union;
      }
    }
  }

  lemma ValidKeysStep(c: Codec, keys: seq<string>, n: nat)
    requires n < |keys|
    ensures var decoded := DecodePubkey(c, keys[n]);
      ValidKeys(c, keys[..n + 1])
        == if decoded.Some? then ValidKeys(c, keys[..n]) + {decoded.value} else ValidKeys(c, keys[..n])
  {
    assert keys[..n + 1] == keys[..n] + [keys[n]];
  }

  /** Ordinals in every listed key's bitmap; `None` when a key cannot be decoded. */
  method RestrictAll(c: Codec, idx: ChunkIndex, keys: seq<string>, result: set<nat>)
    returns (r: Option<set<nat>>)
    requires idx.Valid()
    ensures forall i :: r.Some? && i in r.value <==> i in result && AllKeys(c, idx, keys, i)
    ensures r.None? ==> forall i :: !AllKeys(c, idx, keys, i)
  {
    var kept := result;
    for n := 0 to |keys|
      invariant forall i :: i in kept <==> i in result && AllKeys(c, idx, keys[..n], i)
    {
      assert keys[..n + 1] == keys[..n] + [keys[n]];
      assert keys[n] in keys;
      var decoded := DecodePubkey(c, keys[n]);
      if decoded.None? {
        return None;
      }
      kept := kept * BitsFor(c, idx, AccountKey, BytesValue(decoded.value));
    }
    assert keys[..|keys|] == keys;
    return Some(kept);
  }

  method Exclude(c: Codec, idx: ChunkIndex, keys: seq<string>, result: set<nat>) returns (r: set<nat>)
    requires idx.Valid()
    ensures forall i :: i in r <==> i in result && NoKey(c, idx, keys, i)
  {
    r := result;
    for n := 0 to |keys|
      invariant forall i :: i in r <==> i in result && NoKey(c, idx, keys[..n], i)
    {
      assert keys[..n + 1] == keys[..n] + [keys[n]];
      var decoded := DecodePubkey(c, keys[n]);
      if decoded.Some? {
        r := r - BitsFor(c, idx, AccountKey, BytesValue(decoded.value));
      }
    }
    assert keys[..|keys|] == keys;
  }

  method FilterTx(c: Codec, idx: ChunkIndex, f: TxFilter) returns (r: set<nat>)
    requires idx.Valid()
    ensures r == Selected(c, idx, ForTx(f))
  {
    hide BitsFor, FlagHolds, AnyKey, AllKeys, NoKey;
    r := MatchAll(idx.header.messageCount);
    r := RestrictFlag(c, idx, VoteFlag, f.vote, r);
    r := RestrictFlag(c, idx, FailedFlag, f.failed, r);
    if f.signature.Some? {
      var decoded := DecodeSignature(c, f.signature.value);
      if decoded.None? {
        return {};
      }
      r := r * BitsFor(c, idx, Signature, BytesValue(decoded.value));
    }
    r := RestrictAny(c, idx, AccountKey, f.accountInclude, r);
    var required := RestrictAll(c, idx, f.accountRequired, r);
    if required.None? {
      return {};
    }
    r := Exclude(c, idx, f.accountExclude, required.value);
  }

  method FilterAcct(c: Codec, idx: ChunkIndex, f: AcctFilter) returns (r: set<nat>)
    requires idx.Valid()
    ensures r == Selected(c, idx, ForAcct(f))
  {
    r := MatchAll(idx.header.messageCount);
    r := RestrictAny(c, idx, AccountPubkey, f.account, r);
    r := RestrictAny(c, idx, OwnerProgram, f.owner, r);
  }

  method FilterBlock(c: Codec, idx: ChunkIndex, f: BlockFilter) returns (r: set<nat>)
    requires idx.Valid()
    ensures r == Selected(c, idx, ForBlock(f))
  {
    r := MatchAll(idx.header.messageCount);
  }

  // ----- what the filters mean over a message -----

  function TxOf(u: Update): Option<TxInfo> {
    if u.body.Transaction? then u.body.tx else None
  }

  predicate IsVote(u: Update) {
    TxOf(u).Some? && TxOf(u).value.isVote
  }

  predicate IsFailed(u: Update) {
    TxOf(u).Some? && TxOf(u).value.meta.Some? && TxOf(u).value.meta.value.failed
  }

  predicate HasSignature(u: Update, signature: Bytes) {
    TxOf(u).Some? && TxOf(u).value.signature == signature
  }

  /** A static or loaded account key of the transaction. */
  predicate Mentions(u: Update, key: Bytes) {
    TxOf(u).Some? && key in ResolvedKeys(TxOf(u).value)
  }

  ghost predicate MatchesTx(c: Codec, f: TxFilter, u: Update) {
    && (f.vote.Some? ==> (IsVote(u) <==> f.vote.value))
    && (f.failed.Some? ==> (IsFailed(u) <==> f.failed.value))
    && (f.signature.Some? ==>
          DecodeSignature(c, f.signature.value).Some? &&
          HasSignature(u, DecodeSignature(c, f.signature.value).value))
    && (ValidKeys(c, f.accountInclude) != {} ==> exists k :: k in ValidKeys(c, f.accountInclude) && Mentions(u, k))
    && (forall s :: s in f.accountRequired ==>
          DecodePubkey(c, s).Some? && Mentions(u, DecodePubkey(c, s).value))
    && (forall k :: k in ValidKeys(c, f.accountExclude) ==> !Mentions(u, k))
  }

  function AcctOf(u: Update): Option<AcctInfo> {
    if u.body.Account? then u.body.acct else None
  }

  ghost predicate MatchesAcct(c: Codec, f: AcctFilter, u: Update) {
    && (ValidKeys(c, f.account) != {} ==> AcctOf(u).Some? && AcctOf(u).value.pubkey in ValidKeys(c, f.account))
    && (ValidKeys(c, f.owner) != {} ==> AcctOf(u).Some? && AcctOf(u).value.owner in ValidKeys(c, f.owner))
  }

  ghost predicate Matches(c: Codec, f: StreamFilter, u: Update) {
    match f
    case ForTx(tx) => MatchesTx(c, tx, u)
    case ForAcct(acct) => MatchesAcct(c, acct, u)
    case ForBlock(_) => true
  }

  /** The ordinals a scan of the messages selects. */
  ghost function Scanned(c: Codec, us: seq<Update>, f: StreamFilter): set<nat> {
    set i | 0 <= i < |us| && Matches(c, f, us[i])
  }

  // ----- index against scan -----

  /** The file a chunk's messages are indexed into. */
  function IndexBytes(c: Codec, stream: Stream, us: seq<Update>, start: nat, end: nat): Bytes {
    SerializeIndex(c, stream, BuildDims(stream, us), start, end, |us|)
  }

  ghost predicate IndexFits(c: Codec, stream: Stream, us: seq<Update>, start: nat, end: nat) {
    HeaderFits(c, stream, BuildDims(stream, us), start, end, |us|)
  }

  /** Every bitmap read back is the scan of the messages. */
  lemma ReadBitsAreScan(
      c: Codec, stream: Stream, us: seq<Update>, start: nat, end: nat, dim: Dim, value: DimValue)
    requires c.Lawful() && IndexFits(c, stream, us, start, end) && |us| <= U32
    requires dim in DimOrder(stream)
    ensures var r := ParseIndex(c, IndexBytes(c, stream, us, start, end));
      && r.Ok? && r.value.header.messageCount == |us|
      && BitsFor(c, r.value, dim, value) == Scan(stream, us, dim, value)
  {
    var dims := BuildDims(stream, us);
    BuiltDimsFit(stream, us);
    IndexRoundTrip(c, stream, dims, start, end, |us|, dim, value);
    BuiltBitsAreScan(stream, us, dim, value);
  }

  lemma VoteFact(u: Update)
    ensures (VoteFlag, BoolValue(true)) in Facts(Tx, u) <==> IsVote(u)
  {
  }

  lemma FailedFact(u: Update)
    ensures (FailedFlag, BoolValue(true)) in Facts(Tx, u) <==> IsFailed(u)
  {
  }

  lemma SignatureFact(u: Update, signature: Bytes)
    requires |signature| == 64
    ensures (Signature, BytesValue(signature)) in Facts(Tx, u) <==> HasSignature(u, signature)
  {
  }

  lemma KeyFact(u: Update, key: Bytes)
    requires |key| == 32
    ensures (AccountKey, BytesValue(key)) in Facts(Tx, u) <==> Mentions(u, key)
  {
  }

  lemma AcctFact(u: Update, key: Bytes)
    requires |key| == 32
    ensures (AccountPubkey, BytesValue(key)) in Facts(Acct, u) <==> AcctOf(u).Some? && AcctOf(u).value.pubkey == key
    ensures (OwnerProgram, BytesValue(key)) in Facts(Acct, u) <==> AcctOf(u).Some? && AcctOf(u).value.owner == key
  {
  }

  /** `idx` is what the reader parses from the writer's index of `us`. */
  ghost predicate IndexOf(c: Codec, idx: ChunkIndex, stream: Stream, us: seq<Update>) {
    && idx.Valid() && idx.header.messageCount == |us|
    && forall dim, value :: dim in DimOrder(stream) ==>
         BitsFor(c, idx, dim, value) == Scan(stream, us, dim, value)
  }

  lemma ParsedIndexOf(c: Codec, stream: Stream, us: seq<Update>, start: nat, end: nat)
    requires c.Lawful() && IndexFits(c, stream, us, start, end) && |us| <= U32
    ensures var r := ParseIndex(c, IndexBytes(c, stream, us, start, end));
      r.Ok? && IndexOf(c, r.value, stream, us)
  {
    hide BitsFor, Scan, ParseIndex, IndexBytes, IndexFits;
    ReadBitsAreScan(c, stream, us, start, end, DimOrder(stream)[0], BoolValue(true));
    forall dim, value | dim in DimOrder(stream)
      ensures BitsFor(c, ParseIndex(c, IndexBytes(c, stream, us, start, end)).value, dim, value)
        == Scan(stream, us, dim, value)
    {
      ReadBitsAreScan(c, stream, us, start, end, dim, value);
    }
  }

  lemma TxBits(c: Codec, idx: ChunkIndex, us: seq<Update>, i: nat)
    requires IndexOf(c, idx, Tx, us) && i < |us|
    ensures i in BitsFor(c, idx, VoteFlag, BoolValue(true)) <==> IsVote(us[i])
    ensures i in BitsFor(c, idx, FailedFlag, BoolValue(true)) <==> IsFailed(us[i])
    ensures forall s :: |s| == 64 ==> (i in BitsFor(c, idx, Signature, BytesValue(s)) <==> HasSignature(us[i], s))
    ensures forall k :: |k| == 32 ==> (i in BitsFor(c, idx, AccountKey, BytesValue(k)) <==> Mentions(us[i], k))
  {
    hide BitsFor, Facts;
    VoteFact(us[i]);
    FailedFact(us[i]);
    forall s: Bytes | |s| == 64 ensures i in BitsFor(c, idx, Signature, BytesValue(s)) <==> HasSignature(us[i], s) {
      SignatureFact(us[i], s);
    }
    forall k: Bytes | |k| == 32 ensures i in BitsFor(c, idx, AccountKey, BytesValue(k)) <==> Mentions(us[i], k) {
      KeyFact(us[i], k);
    }
  }

  lemma KeyListsAgree(c: Codec, idx: ChunkIndex, us: seq<Update>, i: nat, keys: seq<string>)
    requires IndexOf(c, idx, Tx, us) && i < |us|
    ensures AnyKey(c, idx, AccountKey, keys, i) <==>
      (ValidKeys(c, keys) != {} ==> exists k :: k in ValidKeys(c, keys) && Mentions(us[i], k))
    ensures AllKeys(c, idx, keys, i) <==>
      (forall s :: s in keys ==> DecodePubkey(c, s).Some? && Mentions(us[i], DecodePubkey(c, s).value))
    ensures NoKey(c, idx, keys, i) <==> (forall k :: k in ValidKeys(c, keys) ==> !Mentions(us[i], k))
  {
    TxBits(c, idx, us, i);
    hide BitsFor, Scan, Mentions;
  }

  lemma FlagsAgree(c: Codec, idx: ChunkIndex, us: seq<Update>, i: nat, f: TxFilter)
    requires IndexOf(c, idx, Tx, us) && i < |us|
    ensures FlagHolds(c, idx, VoteFlag, f.vote, i) <==> (f.vote.Some? ==> (IsVote(us[i]) <==> f.vote.value))
    ensures FlagHolds(c, idx, FailedFlag, f.failed, i) <==> (f.failed.Some? ==> (IsFailed(us[i]) <==> f.failed.value))
    ensures SignatureHolds(c, idx, f.signature, i) <==>
      (f.signature.Some? ==>
        DecodeSignature(c, f.signature.value).Some? &&
        HasSignature(us[i], DecodeSignature(c, f.signature.value).value))
  {
    TxBits(c, idx, us, i);
    hide BitsFor, Scan, IsVote, IsFailed, HasSignature;
  }

  lemma IsSelectable(c: Codec, idx: ChunkIndex, stream: Stream, us: seq<Update>, i: nat)
    requires IndexOf(c, idx, stream, us) && i < |us| < U32
    ensures idx.Valid() && i in MatchAll(idx.header.messageCount)
  {
    hide BitsFor, Scan;
    assert IsOrdinal(i, |us|);
  }

  lemma TxAgrees(c: Codec, idx: ChunkIndex, us: seq<Update>, f: TxFilter, i: nat)
    requires IndexOf(c, idx, Tx, us) && i < |us| < U32
    ensures TxHolds(c, idx, f, i) <==> MatchesTx(c, f, us[i])
  {
    FlagsAgree(c, idx, us, i, f);
    KeyListsAgree(c, idx, us, i, f.accountInclude);
    KeyListsAgree(c, idx, us, i, f.accountRequired);
    KeyListsAgree(c, idx, us, i, f.accountExclude);
    IsSelectable(c, idx, Tx, us, i);
    hide IndexOf, FlagHolds, SignatureHolds, AnyKey, AllKeys, NoKey, ValidKeys, DecodePubkey, DecodeSignature,
      Mentions, IsVote, IsFailed, HasSignature, MatchAll;
  }

  lemma AcctAgrees(c: Codec, idx: ChunkIndex, us: seq<Update>, f: AcctFilter, i: nat)
    requires IndexOf(c, idx, Acct, us) && i < |us| < U32
    ensures AcctHolds(c, idx, f, i) <==> MatchesAcct(c, f, us[i])
  {
    hide BitsFor, Facts;
    forall k: Bytes | |k| == 32
      ensures i in BitsFor(c, idx, AccountPubkey, BytesValue(k))
        <==> AcctOf(us[i]).Some? && AcctOf(us[i]).value.pubkey == k
      ensures i in BitsFor(c, idx, OwnerProgram, BytesValue(k))
        <==> AcctOf(us[i]).Some? && AcctOf(us[i]).value.owner == k
    {
      AcctFact(us[i], k);
    }
  }

  // ----- what a filter asks for, without the index -----

  /** Some string of the list is the base58 form of 32 bytes. */
  ghost predicate NamesSomeKey(c: Codec, keys: seq<string>) {
    exists s :: s in keys && c.base58(s).Some? && |c.base58(s).value| == 32
  }

  /** Some string of the list is the base58 form of 32 bytes the message is about. */
  ghost predicate Touches(c: Codec, stream: Stream, u: Update, dim: Dim, keys: seq<string>) {
    exists s :: s in keys && c.base58(s).Some? && |c.base58(s).value| == 32
      && IsAbout(stream, u, dim, BytesValue(c.base58(s).value))
  }

  /** Flags as wanted, the signature if one is wanted, some of the included accounts
      unless none of them is a key, all required ones, no excluded one. */
  ghost predicate IsAskedTx(c: Codec, f: TxFilter, u: Update) {
    && (f.vote.Some? ==> (IsAbout(Tx, u, VoteFlag, BoolValue(true)) <==> f.vote.value))
    && (f.failed.Some? ==> (IsAbout(Tx, u, FailedFlag, BoolValue(true)) <==> f.failed.value))
    && (f.signature.Some? ==>
          var g := c.base58(f.signature.value);
          g.Some? && |g.value| == 64 && IsAbout(Tx, u, Signature, BytesValue(g.value)))
    && (NamesSomeKey(c, f.accountInclude) ==> Touches(c, Tx, u, AccountKey, f.accountInclude))
    && (forall s :: s in f.accountRequired ==> Touches(c, Tx, u, AccountKey, [s]))
    && !Touches(c, Tx, u, AccountKey, f.accountExclude)
  }

  /** Some of the accounts and some of the owners, unless none of them is a key. */
  ghost predicate IsAskedAcct(c: Codec, f: AcctFilter, u: Update) {
    && (NamesSomeKey(c, f.account) ==> Touches(c, Acct, u, AccountPubkey, f.account))
    && (NamesSomeKey(c, f.owner) ==> Touches(c, Acct, u, OwnerProgram, f.owner))
  }

  ghost predicate IsAsked(c: Codec, f: StreamFilter, u: Update) {
    match f
    case ForTx(tx) => IsAskedTx(c, tx, u)
    case ForAcct(acct) => IsAskedAcct(c, acct, u)
    case ForBlock(_) => true
  }

  lemma KeysAreNamed(c: Codec, keys: seq<string>)
    ensures forall k :: k in ValidKeys(c, keys) <==> exists s :: s in keys && c.base58(s) == Some(k) && |k| == 32
    ensures ValidKeys(c, keys) != {} <==> NamesSomeKey(c, keys)
  {
    forall k ensures k in ValidKeys(c, keys) <==> exists s :: s in keys && c.base58(s) == Some(k) && |k| == 32 {
      if s :| s in keys && c.base58(s) == Some(k) && |k| == 32 {
        assert DecodePubkey(c, s) == Some(k);
      }
    }
    if NamesSomeKey(c, keys) {
      var s :| s in keys && c.base58(s).Some? && |c.base58(s).value| == 32;
      assert c.base58(s).value in ValidKeys(c, keys);
    }
  }

  lemma MentionsIsAbout(u: Update, key: Bytes)
    requires |key| == 32
    ensures Mentions(u, key) <==> IsAbout(Tx, u, AccountKey, BytesValue(key))
  {
    KeyFact(u, key);
    FactsAreAbout(Tx, u, AccountKey, BytesValue(key));
    hide Facts, IsAbout, Mentions;
  }

  lemma KeysTouch(c: Codec, u: Update, keys: seq<string>)
    ensures (exists k :: k in ValidKeys(c, keys) && Mentions(u, k)) <==> Touches(c, Tx, u, AccountKey, keys)
  {
    KeysAreNamed(c, keys);
    forall k: Bytes | |k| == 32 ensures Mentions(u, k) <==> IsAbout(Tx, u, AccountKey, BytesValue(k)) {
      MentionsIsAbout(u, k);
    }
    hide ValidKeys, Mentions, IsAbout;
    if Touches(c, Tx, u, AccountKey, keys) {
      var s :| s in keys && c.base58(s).Some? && |c.base58(s).value| == 32
        && IsAbout(Tx, u, AccountKey, BytesValue(c.base58(s).value));
      assert c.base58(s).value in ValidKeys(c, keys);
    }
  }

  lemma RequiredTouches(c: Codec, u: Update, s: string)
    ensures DecodePubkey(c, s).Some? && Mentions(u, DecodePubkey(c, s).value) <==> Touches(c, Tx, u, AccountKey, [s])
  {
    if DecodePubkey(c, s).Some? { MentionsIsAbout(u, DecodePubkey(c, s).value); }
    hide Mentions, IsAbout;
  }

  lemma OwnersTouch(c: Codec, u: Update, keys: seq<string>)
    ensures AcctOf(u).Some? && AcctOf(u).value.pubkey in ValidKeys(c, keys)
      <==> Touches(c, Acct, u, AccountPubkey, keys)
    ensures AcctOf(u).Some? && AcctOf(u).value.owner in ValidKeys(c, keys) <==> Touches(c, Acct, u, OwnerProgram, keys)
  {
    KeysAreNamed(c, keys);
    hide ValidKeys;
  }

  lemma FlagsAreAbout(c: Codec, u: Update, signature: Bytes)
    ensures IsVote(u) <==> IsAbout(Tx, u, VoteFlag, BoolValue(true))
    ensures IsFailed(u) <==> IsAbout(Tx, u, FailedFlag, BoolValue(true))
    ensures |signature| == 64 ==> (HasSignature(u, signature) <==> IsAbout(Tx, u, Signature, BytesValue(signature)))
  {
  }

  lemma TxMatchIsAsked(c: Codec, f: TxFilter, u: Update)
    ensures MatchesTx(c, f, u) <==> IsAskedTx(c, f, u)
  {
    var signature := if f.signature.Some? then c.base58(f.signature.value) else None;
    FlagsAreAbout(c, u, if signature.Some? then signature.value else []);
    KeysAreNamed(c, f.accountInclude);
    KeysTouch(c, u, f.accountInclude);
    KeysTouch(c, u, f.accountExclude);
    forall s ensures DecodePubkey(c, s).Some? && Mentions(u, DecodePubkey(c, s).value)
      <==> Touches(c, Tx, u, AccountKey, [s])
    {
      RequiredTouches(c, u, s);
    }
    hide ValidKeys, NamesSomeKey, Touches, IsAbout, Mentions, DecodePubkey, IsVote, IsFailed, HasSignature;
  }

  /** A message matches a filter exactly when it is what the filter asks for. */
  lemma MatchIsAsked(c: Codec, f: StreamFilter, u: Update)
    ensures Matches(c, f, u) <==> IsAsked(c, f, u)
  {
    hide MatchesTx, IsAskedTx, Touches, NamesSomeKey, ValidKeys;
    match f
    case ForTx(tx) => TxMatchIsAsked(c, tx, u);
    case ForAcct(acct) =>
      KeysAreNamed(c, acct.account);
      KeysAreNamed(c, acct.owner);
      OwnersTouch(c, u, acct.account);
      OwnersTouch(c, u, acct.owner);
    case ForBlock(_) =>
  }

  /** The fast answer through the index is the naive scan, for every filter: the
      messages it asks for. */
  lemma SelectedIsScanned(c: Codec, idx: ChunkIndex, us: seq<Update>, f: StreamFilter)
    requires IndexOf(c, idx, f.StreamOf(), us) && |us| < U32
    ensures Selected(c, idx, f) == Scanned(c, us, f)
    ensures forall i :: i in Selected(c, idx, f) <==> 0 <= i < |us| && IsAsked(c, f, us[i])
  {
    hide TxHolds, AcctHolds, MatchesTx, MatchesAcct, IsAsked;
    forall i | 0 <= i < |us| ensures Matches(c, f, us[i]) <==> IsAsked(c, f, us[i]) {
      MatchIsAsked(c, f, us[i]);
    }
    forall i | 0 <= i < |us| ensures i in Selected(c, idx, f) <==> i in Scanned(c, us, f) {
      assert IsOrdinal(i, |us|);
      match f
      case ForTx(tx) => TxAgrees(c, idx, us, tx, i);
      case ForAcct(acct) => AcctAgrees(c, idx, us, acct, i);
      case ForBlock(_) =>
    }
  }

  /** Over written chunks the two answers agree for every filter exactly when
      the message count fits the `u32` the ordinals are cast to. */
  lemma IndexAgreesExactly(c: Codec, stream: Stream, us: seq<Update>, start: nat, end: nat)
    requires c.Lawful() && IndexFits(c, stream, us, start, end)
    ensures ParseIndex(c, IndexBytes(c, stream, us, start, end)).Ok?
    ensures var idx := ParseIndex(c, IndexBytes(c, stream, us, start, end)).value;
      (forall f: StreamFilter :: f.StreamOf() == stream ==> Selected(c, idx, f) == Scanned(c, us, f)) <==> |us| < U32
  {
    hide ParseIndex, IndexBytes, BitsFor, TxHolds, AcctHolds;
    HeaderReadBack(c, stream, us, start, end);
    var idx := ParseIndex(c, IndexBytes(c, stream, us, start, end)).value;
    if |us| < U32 {
      ParsedIndexOf(c, stream, us, start, end);
      forall f: StreamFilter | f.StreamOf() == stream ensures Selected(c, idx, f) == Scanned(c, us, f) {
        SelectedIsScanned(c, idx, us, f);
      }
    } else {
      var f := EmptyFilter(stream);
      EmptyFilterMatches(c, stream, us[|us| - 1]);
      assert |us| - 1 in Scanned(c, us, f);
      assert |us| - 1 !in MatchAll(|us|);
    }
  }

  lemma HeaderReadBack(c: Codec, stream: Stream, us: seq<Update>, start: nat, end: nat)
    requires c.Lawful() && IndexFits(c, stream, us, start, end)
    ensures var r := ParseIndex(c, IndexBytes(c, stream, us, start, end));
      r.Ok? && r.value.header.messageCount == |us|
  {
    BuiltDimsFit(stream, us);
    IndexRoundTrip(c, stream, BuildDims(stream, us), start, end, |us|, DimOrder(stream)[0], BoolValue(true));
  }

  function EmptyFilter(stream: Stream): StreamFilter {
    match stream
    case Tx => ForTx(TxFilter(None, None, None, [], [], []))
    case Acct => ForAcct(AcctFilter([], []))
    case Block => ForBlock(BlockFilter)
  }

  lemma EmptyFilterMatches(c: Codec, stream: Stream, u: Update)
    ensures Matches(c, EmptyFilter(stream), u)
  {
    assert ValidKeys(c, []) == {};
  }

  // ----- an index that lacks a dimension -----

  /** `idx` is what the reader parses of an index of `us`, except that it has no
      table for one dimension. */
  ghost predicate IndexLacks(c: Codec, idx: ChunkIndex, stream: Stream, us: seq<Update>, lost: Dim) {
    && idx.Valid() && idx.header.messageCount == |us| && lost !in idx.lookup
    && forall dim, value :: dim in DimOrder(stream) && dim != lost ==>
         BitsFor(c, idx, dim, value) == Scan(stream, us, dim, value)
  }

  /** No message is filed under the dimension. */
  ghost predicate NothingUnder(stream: Stream, us: seq<Update>, dim: Dim) {
    forall value :: Scan(stream, us, dim, value) == {}
  }

  /** A missing dimension reads as empty; the reader never falls back to scanning.
      That is right if no message would be filed under it. */
  lemma MissingDimensionReadsAsEmpty(c: Codec, idx: ChunkIndex, us: seq<Update>, lost: Dim, f: StreamFilter)
    requires IndexLacks(c, idx, f.StreamOf(), us, lost) && |us| < U32
    ensures forall value :: BitsFor(c, idx, lost, value) == {}
    ensures NothingUnder(f.StreamOf(), us, lost) ==> Selected(c, idx, f) == Scanned(c, us, f)
  {
    hide Scan, Selected, Scanned;
    forall value ensures BitsFor(c, idx, lost, value) == {} {
    }
    if NothingUnder(f.StreamOf(), us, lost) {
      SelectedIsScanned(c, idx, us, f);
    }
  }

  /** A missing flag reads as "no message has it". */
  lemma MissingFlagReadsAsUnset(c: Codec, idx: ChunkIndex, f: TxFilter)
    requires idx.Valid()
    ensures VoteFlag !in idx.lookup && f.vote == Some(true) ==> Selected(c, idx, ForTx(f)) == {}
    ensures VoteFlag !in idx.lookup && f.vote == Some(false) ==>
      Selected(c, idx, ForTx(f)) == Selected(c, idx, ForTx(f.(vote := None)))
    ensures FailedFlag !in idx.lookup && f.failed == Some(true) ==> Selected(c, idx, ForTx(f)) == {}
    ensures FailedFlag !in idx.lookup && f.failed == Some(false) ==>
      Selected(c, idx, ForTx(f)) == Selected(c, idx, ForTx(f.(failed := None)))
  {
    hide SignatureHolds, AnyKey, AllKeys, NoKey;
    assert VoteFlag !in idx.lookup ==> BitsFor(c, idx, VoteFlag, BoolValue(true)) == {};
    assert FailedFlag !in idx.lookup ==> BitsFor(c, idx, FailedFlag, BoolValue(true)) == {};
  }

  function FlagFilter(flag: Dim): TxFilter {
    if flag.VoteFlag? then TxFilter(Some(true), None, None, [], [], [])
    else TxFilter(None, Some(true), None, [], [], [])
  }

  lemma FlagOf(flag: Dim, u: Update, value: DimValue)
    requires flag.VoteFlag? || flag.FailedFlag?
    ensures (flag, value) in Facts(Tx, u)
      <==> value == BoolValue(true) && if flag.VoteFlag? then IsVote(u) else IsFailed(u)
  {
    VoteFact(u);
    FailedFact(u);
  }

  lemma FlagFilterMatches(c: Codec, flag: Dim, u: Update)
    requires flag.VoteFlag? || flag.FailedFlag?
    ensures Matches(c, ForTx(FlagFilter(flag)), u) <==> if flag.VoteFlag? then IsVote(u) else IsFailed(u)
  {
    assert ValidKeys(c, []) == {};
  }

  lemma FlagFilterSelectsNothing(c: Codec, idx: ChunkIndex, flag: Dim)
    requires idx.Valid() && flag !in idx.lookup && (flag.VoteFlag? || flag.FailedFlag?)
    ensures Selected(c, idx, ForTx(FlagFilter(flag))) == {}
  {
    hide SignatureHolds, AnyKey, AllKeys, NoKey;
    assert BitsFor(c, idx, flag, BoolValue(true)) == {};
  }

  /** For a missing flag dimension that is exact: the index agrees with a scan
      for every filter if and only if no message has the flag. */
  lemma MissingFlagAgreesExactly(c: Codec, idx: ChunkIndex, us: seq<Update>, flag: Dim)
    requires IndexLacks(c, idx, Tx, us, flag) && |us| < U32 && (flag.VoteFlag? || flag.FailedFlag?)
    ensures (forall f: TxFilter :: Selected(c, idx, ForTx(f)) == Scanned(c, us, ForTx(f)))
      <==> forall i :: 0 <= i < |us| ==> !(if flag.VoteFlag? then IsVote(us[i]) else IsFailed(us[i]))
  {
    hide Selected, Matches, IsVote, IsFailed, Facts;
    if forall i :: 0 <= i < |us| ==> !(if flag.VoteFlag? then IsVote(us[i]) else IsFailed(us[i])) {
      forall value ensures Scan(Tx, us, flag, value) == {} {
        forall i | 0 <= i < |us| ensures (flag, value) !in Facts(Tx, us[i]) {
          FlagOf(flag, us[i], value);
        }
      }
      forall f: TxFilter ensures Selected(c, idx, ForTx(f)) == Scanned(c, us, ForTx(f)) {
        MissingDimensionReadsAsEmpty(c, idx, us, flag, ForTx(f));
      }
    } else {
      var i :| 0 <= i < |us| && if flag.VoteFlag? then IsVote(us[i]) else IsFailed(us[i]);
      FlagFilterSelectsNothing(c, idx, flag);
      FlagFilterMatches(c, flag, us[i]);
      assert IsOrdinal(i, |us|);
      assert i in Scanned(c, us, ForTx(FlagFilter(flag)));
    }
  }
}
