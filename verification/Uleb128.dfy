/** Machine integers and the unsigned LEB128 form of section 7.6 of the DWARF
    Version 5 standard, as `appendULEB128` writes it. */
module Uleb128 {
  import opened Wrappers

  type byte = x: int | 0 <= x < 0x100
  type bytes = seq<byte>
  type uint16 = x: int | 0 <= x < 0x1_0000
  type uint64 = x: int | 0 <= x < 0x1_0000_0000_0000_0000

  /** The canonical form of a number: seven bits a byte, lowest first, the top
      bit set on every byte but the last. */
  function Encode(v: nat): bytes {
    if v < 128 then [v] else [v % 128 + 128] + Encode(v / 128)
  }

  /** Reads one number off the front. Truncated and non-minimal forms are refused. */
  function Decode(b: bytes): Option<(nat, bytes)> {
    if b == [] then None
    else if b[0] < 128 then Some((b[0], b[1..]))
    else
      match Decode(b[1..])
      case None => None
      case Some((high, rest)) => if high == 0 then None else Some((b[0] - 128 + 128 * high, rest))
  }

  lemma {:induction false} RoundTrip(v: nat, rest: bytes)
    ensures Decode(Encode(v) + rest) == Some((v, rest))
  {
    var b := Encode(v) + rest;
    if v < 128 {
      assert b[1..] == rest;
    } else {
      RoundTrip(v / 128, rest);
      assert b[1..] == Encode(v / 128) + rest;
    }
  }

  /** Nothing but an encoding is accepted. */
  lemma {:induction false} DecodeOnlyEncodings(b: bytes)
    ensures Decode(b).Some? ==> b == Encode(Decode(b).value.0) + Decode(b).value.1
  {
    if Decode(b).None? || b[0] < 128 {
    } else {
      DecodeOnlyEncodings(b[1..]);
      var (high, rest) := Decode(b[1..]).value;
      var v := b[0] - 128 + 128 * high;
      assert v / 128 == high && v % 128 == b[0] - 128;
      assert b == [b[0]] + b[1..];
    }
  }

  /** No encoding is a proper prefix of another one. */
  lemma PrefixFree(v: nat, w: nat, x: bytes, y: bytes)
    requires Encode(v) + x == Encode(w) + y
    ensures v == w && x == y
  {
    RoundTrip(v, x);
    RoundTrip(w, y);
  }

  /** Any LEB128 form, padded or not: continuation bytes closed by a last byte. */
  predicate IsForm(b: bytes) {
    b != [] && if |b| == 1 then b[0] < 128 else b[0] >= 128 && IsForm(b[1..])
  }

  /** The number that a form stands for. */
  function Denotes(b: bytes): nat
    requires IsForm(b)
  {
    if |b| == 1 then b[0] else b[0] - 128 + 128 * Denotes(b[1..])
  }

  /** The canonical form is a form of its number, and no form of it is shorter. */
  lemma {:induction false} EncodeIsForm(v: nat)
    ensures IsForm(Encode(v)) && Denotes(Encode(v)) == v
  {
    if v < 128 {
    } else {
      EncodeIsForm(v / 128);
      assert Encode(v)[1..] == Encode(v / 128);
    }
  }

  lemma {:induction false} EncodeIsShortest(b: bytes)
    requires IsForm(b)
    ensures |Encode(Denotes(b))| <= |b|
  {
    if |b| == 1 {
    } else {
      EncodeIsShortest(b[1..]);
      var high := Denotes(b[1..]);
      var v := Denotes(b);
      assert v / 128 == high;
    }
  }

  function Pow128(k: nat): nat {
    if k == 0 then 1 else 128 * Pow128(k - 1)
  }

  lemma {:induction false} EncodeLength(v: nat, k: nat)
    requires k > 0 && v < Pow128(k)
    ensures 1 <= |Encode(v)| <= k
  {
    if v < 128 {
    } else {
      EncodeLength(v / 128, k - 1);
    }
  }

  /** `appendULEB128`: `b & 0x7f` is `% 128`, `v >>= 7` is `/ 128`, and `b |= 0x80`
      is `+ 128` on a byte below 128. */
  method AppendUleb128(buf: bytes, value: uint64) returns (out: bytes)
    ensures out == buf + Encode(value)
    ensures 1 <= |out| - |buf| <= 10
  {
    out := buf;
    var v := value;
    while true
      invariant 0 <= v
      invariant out + Encode(v) == buf + Encode(value)
      decreases v
    {
      ghost var v0, out0 := v, out;
      var b := v % 128;
      v := v / 128;
      if v != 0 {
        b := b + 128;
      }
      out := out + [b];
      if v == 0 {
        assert Encode(v0) == [b];
        break;
      }
      assert out + Encode(v) == out0 + Encode(v0);
    }
    assert Pow128(10) >= 0x1_0000_0000_0000_0000 by {
      assert Pow128(5) == 34359738368;
      assert Pow128(10) == 128 * (128 * (128 * (128 * (128 * Pow128(5)))));
    }
    EncodeLength(value, 10);
  }
}
