/** The multisig envelope and the multisig address preimage of `multisig.go`,
    with a parser as their specification. */
module MultisigCodec {
  import opened Wrappers
  import opened Uleb128

  const ED25519_FLAG: byte := 0x00
  const MULTISIG_FLAG: byte := 0x03
  const WEIGHT: bytes := [1]
  const KEY_SIZE: nat := 32
  const SIGNATURE_SIZE: nat := 64

  // ----- What the bytes look like -----

  function U16(v: uint16): bytes {
    [v % 256, v / 256]
  }

  /** The scheme flag, the item, and a fixed tail. */
  function Record(item: bytes, tail: bytes): bytes {
    [ED25519_FLAG] + (item + tail)
  }

  function Records(items: seq<bytes>, tail: bytes): bytes {
    if items == [] then [] else Record(items[0], tail) + Records(items[1..], tail)
  }

  function KeyBlock(keys: seq<bytes>, threshold: uint16): bytes {
    Encode(|keys|) + (Records(keys, WEIGHT) + U16(threshold))
  }

  datatype Multisig = Multisig(signatures: seq<bytes>, bitmap: uint16, keys: seq<bytes>, threshold: uint16)
  {
    predicate WellSized() {
      && (forall s | s in signatures :: |s| == SIGNATURE_SIZE)
      && (forall k | k in keys :: |k| == KEY_SIZE)
    }
  }

  function Envelope(m: Multisig): bytes {
    [MULTISIG_FLAG]
    + (Encode(|m.signatures|) + (Records(m.signatures, []) + (U16(m.bitmap) + KeyBlock(m.keys, m.threshold))))
  }

  function AddressPreimage(keys: seq<bytes>, threshold: uint16): bytes {
    [MULTISIG_FLAG] + KeyBlock(keys, threshold)
  }

  // ----- The same, byte by byte -----

  predicate RecordAt(b: bytes, at: nat, item: bytes, tail: bytes) {
    && at + 1 + |item| + |tail| <= |b|
    && b[at] == 0 && b[at + 1..at + 1 + |item|] == item && b[at + 1 + |item|..at + 1 + |item| + |tail|] == tail
  }

  lemma FirstRecord(item: bytes, tail: bytes, rest: bytes)
    ensures RecordAt(Record(item, tail) + rest, 0, item, tail)
  {
    var b := Record(item, tail) + rest;
    assert b[1..1 + |item|] == item;
    assert b[1 + |item|..1 + |item| + |tail|] == tail;
  }

  lemma RecordMoves(first: bytes, rest: bytes, at: nat, item: bytes, tail: bytes)
    requires RecordAt(rest, at, item, tail)
    ensures RecordAt(first + rest, |first| + at, item, tail)
  {
    var (b, from, to) := (first + rest, at + 1, at + 1 + |item|);
    assert b[|first| + from..|first| + to] == rest[from..to];
    assert b[|first| + to..|first| + to + |tail|] == rest[to..to + |tail|];
  }

  lemma RecordStays(b: bytes, more: bytes, at: nat, item: bytes, tail: bytes)
    requires RecordAt(b, at, item, tail)
    ensures RecordAt(b + more, at, item, tail)
  {
    var (from, to) := (at + 1, at + 1 + |item|);
    assert (b + more)[from..to] == b[from..to];
    assert (b + more)[to..to + |tail|] == b[to..to + |tail|];
  }

  /** Where the `i`-th of records of this width starts. */
  function Start(i: nat, width: nat): nat {
    if i == 0 then 0 else width + Start(i - 1, width)
  }

  lemma {:induction false} RecordsLength(items: seq<bytes>, tail: bytes, width: nat)
    requires forall i | 0 <= i < |items| :: 1 + |items[i]| + |tail| == width
    ensures |Records(items, tail)| == Start(|items|, width)
  {
    if items == [] {
    } else {
      RecordsLength(items[1..], tail, width);
      assert |Record(items[0], tail)| == width;
    }
  }

  lemma {:induction false} RecordsLayout(items: seq<bytes>, tail: bytes, width: nat, i: nat)
    requires i < |items| && forall k | 0 <= k < |items| :: 1 + |items[k]| + |tail| == width
    ensures RecordAt(Records(items, tail), Start(i, width), items[i], tail)
  {
    var (first, rest) := (Record(items[0], tail), Records(items[1..], tail));
    assert Records(items, tail) == first + rest && |first| == width;
    assert i > 0 ==> Start(i, width) == width + Start(i - 1, width);
    assert Start(0, width) == 0;
    hide RecordAt, Record, Records, Start;
    if i == 0 {
      FirstRecord(items[0], tail, rest);
    } else {
      RecordsLayout(items[1..], tail, width, i - 1);
      RecordMoves(first, rest, Start(i - 1, width), items[i], tail);
    }
  }

  lemma {:induction false} Starts(i: nat)
    ensures Start(i, 34) == 34 * i && Start(i, 65) == 65 * i
  {
    if i == 0 {
    } else {
      Starts(i - 1);
    }
  }

  /** Count, records of flag, key and weight one, and the threshold, low byte first. */
  predicate IsKeyBlock(b: bytes, keys: seq<bytes>, threshold: uint16) {
    var c := |Encode(|keys|)|;
    && |b| == c + 34 * |keys| + 2 && b[..c] == Encode(|keys|)
    && (forall i | 0 <= i < |keys| :: RecordAt(b, c + 34 * i, keys[i], [1]))
    && b[c + 34 * |keys|] == threshold % 256 && b[c + 34 * |keys| + 1] == threshold / 256
  }

  /** Some records between what comes before and what comes after them. */
  lemma RecordsWithin(before: bytes, items: seq<bytes>, tail: bytes, width: nat, after: bytes, i: nat)
    requires i < |items| && forall k | 0 <= k < |items| :: 1 + |items[k]| + |tail| == width
    ensures RecordAt(before + (Records(items, tail) + after), |before| + Start(i, width), items[i], tail)
  {
    RecordsLayout(items, tail, width, i);
    hide RecordAt, Records;
    RecordStays(Records(items, tail), after, Start(i, width), items[i], tail);
    RecordMoves(before, Records(items, tail) + after, Start(i, width), items[i], tail);
  }

  lemma KeyBlockLayout(keys: seq<bytes>, threshold: uint16)
    requires forall i | 0 <= i < |keys| :: |keys[i]| == 32
    ensures IsKeyBlock(KeyBlock(keys, threshold), keys, threshold)
  {
    var (count, records, b) := (Encode(|keys|), Records(keys, WEIGHT), KeyBlock(keys, threshold));
    RecordsLength(keys, WEIGHT, 34);
    Starts(|keys|);
    hide RecordAt, Records, Encode, Start;
    forall i | 0 <= i < |keys| ensures RecordAt(b, |count| + 34 * i, keys[i], [1]) {
      RecordsWithin(count, keys, WEIGHT, 34, U16(threshold), i);
      Starts(i);
    }
    assert b[|count| + |records|..] == U16(threshold);
  }

  /** Flag 3, count, records of flag and signature, the bitmap, low byte first, and the key
      block. */
  predicate IsEnvelope(e: bytes, m: Multisig) {
    var c := 1 + |Encode(|m.signatures|)|;
    var d := c + 65 * |m.signatures|;
    && |e| > d + 2 && e[0] == 3 && e[1..c] == Encode(|m.signatures|)
    && (forall i | 0 <= i < |m.signatures| :: RecordAt(e, c + 65 * i, m.signatures[i], []))
    && e[d] == m.bitmap % 256 && e[d + 1] == m.bitmap / 256
    && IsKeyBlock(e[d + 2..], m.keys, m.threshold)
  }

  /** Every envelope of 64-byte signatures and 32-byte keys looks like that. */
  lemma EnvelopeLayout(m: Multisig)
    requires forall i | 0 <= i < |m.signatures| :: |m.signatures[i]| == 64
    requires forall i | 0 <= i < |m.keys| :: |m.keys[i]| == 32
    ensures IsEnvelope(Envelope(m), m)
  {
    KeyBlockLayout(m.keys, m.threshold);
    BlockIsNotEmpty(m.keys, m.threshold);
    SignatureRecords(m.signatures, U16(m.bitmap) + KeyBlock(m.keys, m.threshold));
    EnvelopeParts(m);
    hide *;
    PartsFit(Envelope(m), m, Records(m.signatures, []), KeyBlock(m.keys, m.threshold));
  }

  lemma PartsFit(e: bytes, m: Multisig, records: bytes, block: bytes)
    requires e == ([3] + Encode(|m.signatures|)) + (records + (U16(m.bitmap) + block))
    requires |records| == 65 * |m.signatures| && block != [] && IsKeyBlock(block, m.keys, m.threshold)
    requires forall i | 0 <= i < |m.signatures| ::
      RecordAt(e, 1 + |Encode(|m.signatures|)| + 65 * i, m.signatures[i], [])
    ensures IsEnvelope(e, m)
  {
    hide RecordAt, IsKeyBlock, Encode;
    FiveParts(3, Encode(|m.signatures|), records, U16(m.bitmap), block);
  }

  lemma EnvelopeParts(m: Multisig)
    ensures Envelope(m) == ([3] + Encode(|m.signatures|))
      + (Records(m.signatures, []) + (U16(m.bitmap) + KeyBlock(m.keys, m.threshold)))
  {
    hide Records, Encode, KeyBlock, U16;
  }

  lemma SignatureRecords(signatures: seq<bytes>, after: bytes)
    requires forall i | 0 <= i < |signatures| :: |signatures[i]| == 64
    ensures |Records(signatures, [])| == 65 * |signatures|
    ensures var head := [3] + Encode(|signatures|);
      forall i | 0 <= i < |signatures| ::
        RecordAt(head + (Records(signatures, []) + after), 1 + |Encode(|signatures|)| + 65 * i, signatures[i], [])
  {
    var (count, records) := (Encode(|signatures|), Records(signatures, []));
    RecordsLength(signatures, [], 65);
    Starts(|signatures|);
    hide *;
    forall i | 0 <= i < |signatures|
      ensures RecordAt(([3] + count) + (records + after), 1 + |count| + 65 * i, signatures[i], [])
    {
      RecordsWithin([3] + count, signatures, [], 65, after, i);
      Starts(i);
    }
  }

  lemma FiveParts(flag: byte, a: bytes, b: bytes, c: bytes, d: bytes)
    requires |c| == 2
    ensures var (all, n) := (([flag] + a) + (b + (c + d)), 1 + |a| + |b|);
      && |all| == n + 2 + |d| && all[0] == flag && all[1..1 + |a|] == a
      && all[n] == c[0] && all[n + 1] == c[1] && all[n + 2..] == d
  {
    assert ([flag] + a)[1..] == a;
  }

  lemma BlockIsNotEmpty(keys: seq<bytes>, threshold: uint16)
    ensures KeyBlock(keys, threshold) != []
  {
  }

  /** What is hashed for an address: 3 and the key block. */
  lemma AddressLayout(keys: seq<bytes>, threshold: uint16)
    requires forall i | 0 <= i < |keys| :: |keys[i]| == 32
    ensures var b := AddressPreimage(keys, threshold);
      b != [] && b[0] == 3 && IsKeyBlock(b[1..], keys, threshold)
  {
    KeyBlockLayout(keys, threshold);
  }

  // ----- The parser -----

  function ParseU16(b: bytes): Option<(uint16, bytes)> {
    if |b| < 2 then None else Some(((b[1] as int) * 256 + b[0] as int, b[2..]))
  }

  function ParseRecord(size: nat, tail: bytes, b: bytes): Option<(bytes, bytes)> {
    var end := 1 + size + |tail|;
    if |b| < end || b[0] != ED25519_FLAG || b[1 + size..end] != tail then None
    else Some((b[1..1 + size], b[end..]))
  }

  function ParseRecords(n: nat, size: nat, tail: bytes, b: bytes): Option<(seq<bytes>, bytes)> {
    if n == 0 then Some(([], b)) else
    match ParseRecord(size, tail, b)
    case None => None
    case Some((item, b')) =>
      match ParseRecords(n - 1, size, tail, b')
      case None => None
      case Some((items, rest)) => Some(([item] + items, rest))
  }

  function ParseKeyBlock(b: bytes): Option<(seq<bytes>, uint16)> {
    match Decode(b)
    case None => None
    case Some((n, b1)) =>
      match ParseRecords(n, KEY_SIZE, WEIGHT, b1)
      case None => None
      case Some((keys, b2)) =>
        match ParseU16(b2)
        case None => None
        case Some((threshold, rest)) => if rest == [] then Some((keys, threshold)) else None
  }

  /** Reads a whole envelope, and refuses trailing bytes. */
  function ParseEnvelope(b: bytes): Option<Multisig> {
    if b == [] || b[0] != MULTISIG_FLAG then None else
    match Decode(b[1..])
    case None => None
    case Some((n, b1)) =>
      match ParseRecords(n, SIGNATURE_SIZE, [], b1)
      case None => None
      case Some((signatures, b2)) =>
        match ParseU16(b2)
        case None => None
        case Some((bitmap, b3)) =>
          match ParseKeyBlock(b3)
          case None => None
          case Some((keys, threshold)) => Some(Multisig(signatures, bitmap, keys, threshold))
  }

  // ----- Round trips -----

  lemma U16RoundTrip(v: uint16, rest: bytes)
    ensures ParseU16(U16(v) + rest) == Some((v, rest))
  {
    assert (U16(v) + rest)[2..] == rest;
  }

  lemma RecordRoundTrip(item: bytes, tail: bytes, rest: bytes)
    ensures ParseRecord(|item|, tail, Record(item, tail) + rest) == Some((item, rest))
  {
    var b := Record(item, tail) + rest;
    var end := 1 + |item| + |tail|;
    assert b[1..1 + |item|] == item;
    assert b[1 + |item|..end] == tail;
    assert b[end..] == rest;
  }

  lemma RecordsCons(item: bytes, items: seq<bytes>, tail: bytes, rest: bytes)
    ensures Records([item] + items, tail) + rest == Record(item, tail) + (Records(items, tail) + rest)
  {
    assert ([item] + items)[1..] == items;
  }

  lemma ParseRecordsUnfold(
      n: nat, size: nat, tail: bytes, b: bytes, item: bytes, b': bytes, items: seq<bytes>, rest: bytes)
    requires ParseRecord(size, tail, b) == Some((item, b'))
    requires ParseRecords(n, size, tail, b') == Some((items, rest))
    ensures ParseRecords(n + 1, size, tail, b) == Some(([item] + items, rest))
  {
  }

  lemma RecordsRoundTripStep(item: bytes, items: seq<bytes>, tail: bytes, rest: bytes)
    requires ParseRecords(|items|, |item|, tail, Records(items, tail) + rest) == Some((items, rest))
    ensures ParseRecords(1 + |items|, |item|, tail, Records([item] + items, tail) + rest)
      == Some(([item] + items, rest))
  {
    var b' := Records(items, tail) + rest;
    RecordRoundTrip(item, tail, b');
    ParseRecordsUnfold(|items|, |item|, tail, Record(item, tail) + b', item, b', items, rest);
    RecordsCons(item, items, tail, rest);
  }

  lemma {:induction false} RecordsRoundTrip(items: seq<bytes>, size: nat, tail: bytes, rest: bytes)
    requires forall i | 0 <= i < |items| :: |items[i]| == size
    ensures ParseRecords(|items|, size, tail, Records(items, tail) + rest) == Some((items, rest))
  {
    if items == [] {
      assert Records(items, tail) + rest == rest;
    } else {
      RecordsRoundTrip(items[1..], size, tail, rest);
      RecordsRoundTripStep(items[0], items[1..], tail, rest);
      assert [items[0]] + items[1..] == items;
    }
  }

  lemma KeyBlockRoundTrip(keys: seq<bytes>, threshold: uint16)
    requires forall k | k in keys :: |k| == KEY_SIZE
    ensures ParseKeyBlock(KeyBlock(keys, threshold)) == Some((keys, threshold))
  {
    Uleb128.RoundTrip(|keys|, Records(keys, WEIGHT) + U16(threshold));
    RecordsRoundTrip(keys, KEY_SIZE, WEIGHT, U16(threshold));
    U16RoundTrip(threshold, []);
    assert U16(threshold) + [] == U16(threshold);
  }

  /** The envelope is uniquely decodable: the parser recovers all four parts. */
  lemma EnvelopeRoundTrip(m: Multisig)
    requires m.WellSized()
    ensures ParseEnvelope(Envelope(m)) == Some(m)
  {
    var afterBitmap := KeyBlock(m.keys, m.threshold);
    var afterRecords := U16(m.bitmap) + afterBitmap;
    var afterCount := Records(m.signatures, []) + afterRecords;
    assert Envelope(m)[1..] == Encode(|m.signatures|) + afterCount;
    Uleb128.RoundTrip(|m.signatures|, afterCount);
    RecordsRoundTrip(m.signatures, SIGNATURE_SIZE, [], afterRecords);
    U16RoundTrip(m.bitmap, afterBitmap);
    KeyBlockRoundTrip(m.keys, m.threshold);
  }

  lemma EnvelopeInjective(m: Multisig, n: Multisig)
    requires m.WellSized() && n.WellSized()
    requires Envelope(m) == Envelope(n)
    ensures m == n
  {
    EnvelopeRoundTrip(m);
    EnvelopeRoundTrip(n);
  }

  lemma AddressPreimageInjective(keys: seq<bytes>, threshold: uint16, keys': seq<bytes>, threshold': uint16)
    requires forall k | k in keys + keys' :: |k| == KEY_SIZE
    requires AddressPreimage(keys, threshold) == AddressPreimage(keys', threshold')
    ensures keys == keys' && threshold == threshold'
  {
    assert forall k | k in keys :: k in keys + keys';
    assert forall k | k in keys' :: k in keys + keys';
    KeyBlockRoundTrip(keys, threshold);
    KeyBlockRoundTrip(keys', threshold');
    assert KeyBlock(keys, threshold) == AddressPreimage(keys, threshold)[1..] == KeyBlock(keys', threshold');
  }

  // ----- Nothing but an envelope is accepted -----

  lemma U16Only(b: bytes)
    ensures ParseU16(b).Some? ==> b == U16(ParseU16(b).value.0) + ParseU16(b).value.1
  {
    if |b| >= 2 {
      assert b == [b[0], b[1]] + b[2..];
    }
  }

  lemma ParseRecordOnlyRecords(size: nat, tail: bytes, b: bytes)
    ensures var r := ParseRecord(size, tail, b);
      r.Some? ==> |r.value.0| == size && b == Record(r.value.0, tail) + r.value.1
  {
    if ParseRecord(size, tail, b).Some? {
      var end := 1 + size + |tail|;
      assert b == [b[0]] + (b[1..1 + size] + b[1 + size..end]) + b[end..];
    }
  }

  lemma {:induction false} ParseRecordsOnlyRecords(n: nat, size: nat, tail: bytes, b: bytes)
    ensures var r := ParseRecords(n, size, tail, b);
      r.Some? ==>
        && |r.value.0| == n
        && (forall i | 0 <= i < n :: |r.value.0[i]| == size)
        && b == Records(r.value.0, tail) + r.value.1
  {
    if n == 0 || ParseRecords(n, size, tail, b).None? {
    } else {
      var (item, b') := ParseRecord(size, tail, b).value;
      var (items, rest) := ParseRecords(n - 1, size, tail, b').value;
      ParseRecordsOnlyRecords(n - 1, size, tail, b');
      ParseRecordOnlyRecords(size, tail, b);
      RecordsCons(item, items, tail, rest);
    }
  }

  lemma ParseKeyBlockOnlyKeyBlocks(b: bytes)
    ensures var r := ParseKeyBlock(b);
      r.Some? ==> b == KeyBlock(r.value.0, r.value.1) && forall k | k in r.value.0 :: |k| == KEY_SIZE
  {
    if ParseKeyBlock(b).Some? {
      var (n, b1) := Decode(b).value;
      DecodeOnlyEncodings(b);
      ParseRecordsOnlyRecords(n, KEY_SIZE, WEIGHT, b1);
      var (keys, b2) := ParseRecords(n, KEY_SIZE, WEIGHT, b1).value;
      U16Only(b2);
      assert b2 == U16(ParseU16(b2).value.0) + [] == U16(ParseU16(b2).value.0);
    }
  }

  lemma ParseOnlyEnvelopes(b: bytes)
    ensures ParseEnvelope(b).Some? ==> ParseEnvelope(b).value.WellSized() && b == Envelope(ParseEnvelope(b).value)
  {
    if ParseEnvelope(b).Some? {
      var (n, b1) := Decode(b[1..]).value;
      DecodeOnlyEncodings(b[1..]);
      ParseRecordsOnlyRecords(n, SIGNATURE_SIZE, [], b1);
      var (signatures, b2) := ParseRecords(n, SIGNATURE_SIZE, [], b1).value;
      var (bitmap, b3) := ParseU16(b2).value;
      U16Only(b2);
      ParseKeyBlockOnlyKeyBlocks(b3);
      var (keys, threshold) := ParseKeyBlock(b3).value;
      assert b1 == Records(signatures, []) + (U16(bitmap) + KeyBlock(keys, threshold));
      assert b == [MULTISIG_FLAG] + b[1..];
    }
  }

  /** The parser accepts exactly the envelopes of well-sized multisignatures. */
  lemma ParsesExactlyEnvelopes(b: bytes)
    ensures ParseEnvelope(b).Some? <==> exists m: Multisig :: m.WellSized() && b == Envelope(m)
  {
    ParseOnlyEnvelopes(b);
    forall m: Multisig | m.WellSized() && b == Envelope(m) ensures ParseEnvelope(b).Some? {
      EnvelopeRoundTrip(m);
    }
  }

  // ----- The loops that write the bytes -----

  lemma {:induction false} RecordsSnoc(items: seq<bytes>, n: nat, tail: bytes)
    requires n < |items|
    ensures Records(items[..n + 1], tail) == Records(items[..n], tail) + Record(items[n], tail)
  {
    var upTo := items[..n + 1];
    if n == 0 {
      assert upTo == [items[0]] && upTo[1..] == [] && items[..0] == [];
      assert Records(upTo[1..], tail) == [];
    } else {
      RecordsSnoc(items[1..], n - 1, tail);
      assert upTo[1..] == items[1..][..n];
      assert items[..n][1..] == items[1..][..n - 1];
    }
  }

  method AppendKeyBlock(payload: bytes, publicKeys: seq<bytes>, threshold: uint16) returns (out: bytes)
    requires |publicKeys| < 0x1_0000_0000_0000_0000
    ensures out == payload + KeyBlock(publicKeys, threshold)
  {
    out := AppendUleb128(payload, |publicKeys|);
    ghost var start := out;
    for i := 0 to |publicKeys|
      invariant out == start + Records(publicKeys[..i], WEIGHT)
    {
      RecordsSnoc(publicKeys, i, WEIGHT);
      out := out + [ED25519_FLAG];
      out := out + publicKeys[i];
      out := out + [1];
    }
    assert publicKeys[..|publicKeys|] == publicKeys;
    out := out + [threshold % 256, threshold / 256];
  }

  /** `CombineMultisigSignature` up to its base64 step. */
  method CombineMultisigSignature(
      publicKeys: seq<bytes>, signatures: seq<bytes>, threshold: uint16, bitmap: uint16)
    returns (envelope: bytes)
    requires |publicKeys| < 0x1_0000_0000_0000_0000 && |signatures| < 0x1_0000_0000_0000_0000
    ensures envelope == Envelope(Multisig(signatures, bitmap, publicKeys, threshold))
  {
    var payload: bytes := [];
    payload := AppendUleb128(payload, |signatures|);
    ghost var start := payload;
    for i := 0 to |signatures|
      invariant payload == start + Records(signatures[..i], [])
    {
      RecordsSnoc(signatures, i, []);
      payload := payload + [ED25519_FLAG];
      payload := payload + signatures[i];
    }
    assert signatures[..|signatures|] == signatures;
    payload := payload + [bitmap % 256, bitmap / 256];
    payload := AppendKeyBlock(payload, publicKeys, threshold);
    envelope := [MULTISIG_FLAG] + payload;
  }

  // ----- Addresses in hex -----

  const HEX_CHARS: string := "0123456789abcdef"

  function Hex(b: bytes): string {
    seq(2 * |b|, i requires 0 <= i < 2 * |b| =>
      if i % 2 == 0 then HEX_CHARS[b[i / 2] / 16] else HEX_CHARS[b[i / 2] % 16])
  }

  predicate IsHexDigit(c: char, d: nat) {
    d < 16 && c as int == if d < 10 then '0' as int + d else 'a' as int + d - 10
  }

  lemma HexDigits(d: nat)
    requires d < 16
    ensures IsHexDigit(HEX_CHARS[d], d)
  {
  }

  lemma HexDigitsOf(b: bytes, i: nat)
    requires i < |b|
    ensures IsHexDigit(Hex(b)[2 * i], b[i] / 16) && IsHexDigit(Hex(b)[2 * i + 1], b[i] % 16)
  {
    HexDigits(b[i] / 16);
    HexDigits(b[i] % 16);
  }

  lemma HexCharsDiffer(d: nat, e: nat)
    requires d < 16 && e < 16 && HEX_CHARS[d] == HEX_CHARS[e]
    ensures d == e
  {
  }

  lemma HexInjective(a: bytes, b: bytes)
    requires Hex(a) == Hex(b)
    ensures a == b
  {
    assert |Hex(a)| == 2 * |a| && |Hex(b)| == 2 * |b|;
    forall k | 0 <= k < |a| ensures a[k] == b[k] {
      assert Hex(a)[2 * k] == Hex(b)[2 * k] && Hex(a)[2 * k + 1] == Hex(b)[2 * k + 1];
      HexCharsDiffer(a[k] / 16, b[k] / 16);
      HexCharsDiffer(a[k] % 16, b[k] % 16);
    }
  }

  /** `hexEncode`, which fills a buffer two characters a byte. */
  method HexEncode(b: bytes) returns (s: string)
    ensures s == Hex(b)
    ensures |s| == 2 * |b|
    ensures forall i | 0 <= i < |b| :: IsHexDigit(s[2 * i], b[i] / 16) && IsHexDigit(s[2 * i + 1], b[i] % 16)
  {
    var dst := new char[2 * |b|];
    for i := 0 to |b|
      invariant forall k | 0 <= k < 2 * i :: dst[k] == Hex(b)[k]
    {
      dst[2 * i] := HEX_CHARS[b[i] / 16];
      dst[2 * i + 1] := HEX_CHARS[b[i] % 16];
    }
    s := dst[..];
    assert s == Hex(b);
    forall i | 0 <= i < |b| ensures IsHexDigit(s[2 * i], b[i] / 16) && IsHexDigit(s[2 * i + 1], b[i] % 16) {
      HexDigitsOf(b, i);
    }
  }

  method BuildMultisigAddress(publicKeys: seq<bytes>, threshold: uint16, blake2b256: bytes -> bytes)
    returns (address: string)
    requires |publicKeys| < 0x1_0000_0000_0000_0000
    ensures address == "0x" + Hex(blake2b256(AddressPreimage(publicKeys, threshold)))
  {
    var payload: bytes := [MULTISIG_FLAG];
    payload := AppendKeyBlock(payload, publicKeys, threshold);
    var digits := HexEncode(blake2b256(payload));
    address := "0x" + digits;
  }

  /** Under a hash without collisions, two signer sets share an address only if
      they have the same keys in the same order and the same threshold. */
  lemma AddressDeterminesSigners(
      blake2b256: bytes -> bytes,
      keys: seq<bytes>, threshold: uint16, keys': seq<bytes>, threshold': uint16)
    requires forall x, y | blake2b256(x) == blake2b256(y) :: x == y
    requires forall k | k in keys + keys' :: |k| == KEY_SIZE
    requires "0x" + Hex(blake2b256(AddressPreimage(keys, threshold)))
          == "0x" + Hex(blake2b256(AddressPreimage(keys', threshold')))
    ensures keys == keys' && threshold == threshold'
  {
    var a := Hex(blake2b256(AddressPreimage(keys, threshold)));
    var a' := Hex(blake2b256(AddressPreimage(keys', threshold')));
    assert a == ("0x" + a)[2..] == ("0x" + a')[2..] == a';
    HexInjective(blake2b256(AddressPreimage(keys, threshold)), blake2b256(AddressPreimage(keys', threshold')));
    AddressPreimageInjective(keys, threshold, keys', threshold');
  }
}
