/**
 * The identity generator: a version-4 UUID rendered as 32 lowercase hexadecimal
 * characters (lib/db.js, `_generateId`). The random bytes are a parameter; what
 * is modelled is the encoding of the parsed UUID's 16 bytes.
 */
module Ids {

  type Byte = b: int | 0 <= b < 256

  /**
   * The 16 bytes of a version-4 UUID: the high nibble of byte 6 is the version (4)
   * and the two high bits of byte 8 are the variant (binary 10), as section 4.4 of
   * RFC 4122 lays out.
   */
  type Uuid = u: seq<Byte> | |u| == 16 && u[6] / 16 == 4 && u[8] / 64 == 2
    witness seq(16, i => if i == 6 then 64 else if i == 8 then 128 else 0)

  const HexDigits: string := "0123456789abcdef"

  predicate IsLowerHex(s: string)
  {
    forall i :: 0 <= i < |s| ==> s[i] in HexDigits
  }

  /** Buffer.toString('hex'): two lowercase digits per byte, high nibble first. */
  function Hex(bytes: seq<Byte>): (h: string)
    ensures |h| == 2 * |bytes|
    ensures IsLowerHex(h)
  {
    if bytes == [] then ""
    else [HexDigits[bytes[0] / 16], HexDigits[bytes[0] % 16]] + Hex(bytes[1..])
  }

  /** Byte `i` is rendered at positions `2i` (high nibble) and `2i + 1` (low nibble). */
  lemma {:induction false} HexAt(bytes: seq<Byte>, i: nat)
    requires i < |bytes|
    ensures Hex(bytes)[2 * i] == HexDigits[bytes[i] / 16]
    ensures Hex(bytes)[2 * i + 1] == HexDigits[bytes[i] % 16]
  {
    var rest := bytes[1..];
    var t := Hex(rest);
    var h := Hex(bytes);
    assert h == [HexDigits[bytes[0] / 16], HexDigits[bytes[0] % 16]] + t;
    if i > 0 {
      HexAt(rest, i - 1);
      assert rest[i - 1] == bytes[i];
      var j := 2 * (i - 1);
      assert h[2..] == t;
      assert h[j + 2] == t[j] && h[j + 3] == t[j + 1];
    }
  }

  function GenerateId(u: Uuid): (id: string)
    ensures |id| == 32 && IsLowerHex(id)
    ensures id[12] == '4'
    ensures id[16] in "89ab"
  {
    HexAt(u, 6);
    HexAt(u, 8);
    Hex(u)
  }

  /** Two digits of the alphabet are equal only when their values are. */
  lemma HexDigitsDistinct(a: nat, b: nat)
    requires a < 16 && b < 16 && HexDigits[a] == HexDigits[b]
    ensures a == b
  {
  }

  /** Distinct UUIDs render as distinct identifiers: the encoding loses nothing. */
  lemma {:induction false} HexInjective(a: seq<Byte>, b: seq<Byte>)
    requires |a| == |b| && Hex(a) == Hex(b)
    ensures a == b
  {
    if a != [] {
      var ha, hb := Hex(a), Hex(b);
      assert ha[0] == hb[0] && ha[1] == hb[1];
      HexDigitsDistinct(a[0] / 16, b[0] / 16);
      HexDigitsDistinct(a[0] % 16, b[0] % 16);
      assert a[0] == b[0];
      assert Hex(a[1..]) == ha[2..] == hb[2..] == Hex(b[1..]);
      HexInjective(a[1..], b[1..]);
      assert a == [a[0]] + a[1..];
      assert b == [b[0]] + b[1..];
    }
  }

  lemma GenerateIdInjective(u: Uuid, v: Uuid)
    requires GenerateId(u) == GenerateId(v)
    ensures u == v
  {
    HexInjective(u, v);
  }
}
