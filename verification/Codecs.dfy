/** The foreign encodings the pipeline goes through, as an arbitrary codec, and
    any enumeration order of an ordered map. Every theorem holds for every lawful
    codec. Bitmaps hold `u32` ordinals, as roaring bitmaps do; numbers in messages
    and headers are unbounded here, so protobuf and MessagePack are lawful on the
    values that fit their 64-bit fields. */
module Codecs {
  import opened Core
  import opened Updates

  datatype DimValue = BytesValue(bytes: Bytes) | U64Value(number: nat) | BoolValue(flag: bool)

  datatype DimValueType = Pubkey32 | Signature64 | U64Type | BoolType

  datatype DimEntry = DimEntry(value: DimValue, offset: nat, length: nat)

  datatype DimHeader = DimHeader(name: Dim, valueType: DimValueType, entries: seq<DimEntry>)

  datatype IdxHeader = IdxHeader(
    stream: Stream, startSlot: nat, endSlot: nat, messageCount: nat, dimensions: seq<DimHeader>)

  datatype Codec = Codec(
    encodeMessage: Update -> Bytes,
    decodeMessage: Bytes -> Option<Update>,
    encodeBitmap: set<nat> -> Bytes,
    decodeBitmap: Bytes -> Option<set<nat>>,
    encodeHeader: IdxHeader -> Bytes,
    decodeHeader: Bytes -> Option<IdxHeader>,
    keyOrder: set<DimValue> -> seq<DimValue>,
    base58: string -> Option<Bytes>)
  {
    ghost predicate Lawful() {
      && (forall u :: decodeMessage(encodeMessage(u)) == Some(u))
      && (forall b :: BitmapFits(b) ==> decodeBitmap(encodeBitmap(b)) == Some(b))
      && (forall h :: decodeHeader(encodeHeader(h)) == Some(h))
      && (forall s :: Enumerates(keyOrder(s), s))
    }
  }

  /** Every ordinal fits a `u32`. */
  ghost predicate BitmapFits(bits: set<nat>) {
    forall x :: x in bits ==> x < U32
  }

  ghost predicate Distinct<T>(s: seq<T>) {
    forall i, j :: 0 <= i < j < |s| ==> s[i] != s[j]
  }

  /** Every element of the set, each exactly once. */
  ghost predicate Enumerates<T(!new)>(s: seq<T>, elements: set<T>) {
    Distinct(s) && forall x :: x in s <==> x in elements
  }
}
