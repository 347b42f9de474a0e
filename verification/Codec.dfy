/** The two byte codecs of app.py: a Base64 variant that takes its bits from the
    low end and does not pad, and a masking loop that feeds back into its key.
    (RFC 4648, section 4, takes bits from the high end and pads.) */
module Codec {
  import opened Wrappers

  type byte = x: int | 0 <= x < 256

  // ------------------------------------------------------------- the alphabet

  const UPPER := "ABCDEFGHIJKLMNOPQRSTUVWXYZ"
  const LOWER := "abcdefghijklmnopqrstuvwxyz"
  const DIGITS := "0123456789"
  const SIGNS := "+/="

  /** The table, of 65 symbols. */
  const TABLE := UPPER + LOWER + DIGITS + SIGNS

  /** The first 64 symbols of the table. */
  function Symbol(v: nat): char
    requires v < 64
  {
    if v < 26 then 'A' + v as char
    else if v < 52 then 'a' + (v - 26) as char
    else if v < 62 then '0' + (v - 52) as char
    else if v == 62 then '+'
    else '/'
  }

  function Value(c: char): Option<nat>
  {
    if 'A' <= c <= 'Z' then Some(c as nat - 'A' as nat)
    else if 'a' <= c <= 'z' then Some(c as nat - 'a' as nat + 26)
    else if '0' <= c <= '9' then Some(c as nat - '0' as nat + 52)
    else if c == '+' then Some(62)
    else if c == '/' then Some(63)
    else None
  }

  lemma Upper(v: nat)
    requires v < 26
    ensures |UPPER| == 26 && UPPER[v] == Symbol(v)
  {
  }

  lemma Lower(v: nat)
    requires 26 <= v < 52
    ensures |LOWER| == 26 && LOWER[v - 26] == Symbol(v)
  {
  }

  lemma Digits(v: nat)
    requires 52 <= v < 62
    ensures |DIGITS| == 10 && DIGITS[v - 52] == Symbol(v)
  {
  }

  /** The symbols used are the first 64 of the table; the last is never used. */
  lemma TableSymbols(v: nat)
    requires v < 64
    ensures |TABLE| == 65 && TABLE[v] == Symbol(v) && TABLE[64] != Symbol(v)
  {
    if v < 26 { Upper(v); } else if v < 52 { Lower(v); } else if v < 62 { Digits(v); }
  }

  lemma SymbolValue(v: nat)
    requires v < 64
    ensures Value(Symbol(v)) == Some(v) && Symbol(v) != '='
  {
  }

  // ----------------------------------------------------------------- encoding

  /** `int.from_bytes(bs, 'little')` */
  function Little(bs: seq<byte>): nat
  {
    if bs == [] then 0 else bs[0] + 256 * Little(bs[1..])
  }

  /** The symbols of the lowest `n` six-bit groups: `(x >> 6 * i) & 0x3f`. */
  function Groups(x: nat, n: nat): (s: string)
    ensures |s| == n
  {
    if n == 0 then "" else [Symbol(x % 64)] + Groups(x / 64, n - 1)
  }

  function Encode(bs: seq<byte>): string
    decreases |bs|
  {
    if |bs| >= 3 then Groups(Little(bs[..3]), 4) + Encode(bs[3..])
    else if bs == [] then ""
    else Groups(Little(bs), |bs| + 1)
  }

  /** `VariantBase64Encode` */
  method EncodeBytes(bs: seq<byte>) returns (result: string)
    ensures result == Encode(bs)
  {
    result := "";
    var blocks := |bs| / 3;
    for i := 0 to blocks
      invariant result + Encode(bs[3 * i..]) == Encode(bs)
    {
      var codingInt := Little(bs[3 * i..3 * i + 3]);
      assert bs[3 * i..][..3] == bs[3 * i..3 * i + 3] && bs[3 * i..][3..] == bs[3 * (i + 1)..];
      var block := FourSymbols(codingInt);
      result := result + block;
    }
    var left := bs[3 * blocks..];
    if |left| == 0 {
      return;
    } else if |left| == 1 {
      var codingInt := Little(left);
      var block := [Symbol(codingInt % 64), Symbol(codingInt / 64 % 64)];
      TwoGroups(codingInt);
      result := result + block;
    } else {
      var codingInt := Little(left);
      var block := [Symbol(codingInt % 64), Symbol(codingInt / 64 % 64), Symbol(codingInt / 4096 % 64)];
      ThreeGroups(codingInt);
      result := result + block;
    }
  }

  method FourSymbols(x: nat) returns (s: string)
    ensures s == Groups(x, 4)
  {
    s := [Symbol(x % 64), Symbol(x / 64 % 64), Symbol(x / 4096 % 64), Symbol(x / 262144 % 64)];
    GroupsStep(x, 3);
    ThreeGroups(x / 64);
    assert x / 64 / 64 == x / 4096 && x / 64 / 4096 == x / 262144;
  }

  lemma GroupsStep(x: nat, n: nat)
    ensures Groups(x, n + 1) == [Symbol(x % 64)] + Groups(x / 64, n)
  {
  }

  lemma TwoGroups(x: nat)
    ensures Groups(x, 2) == [Symbol(x % 64), Symbol(x / 64 % 64)]
  {
    GroupsStep(x, 1);
    GroupsStep(x / 64, 0);
  }

  lemma ThreeGroups(x: nat)
    ensures Groups(x, 3) == [Symbol(x % 64), Symbol(x / 64 % 64), Symbol(x / 4096 % 64)]
  {
    GroupsStep(x, 2);
    TwoGroups(x / 64);
    assert x / 64 / 64 == x / 4096;
  }

  // ----------------------------------------------------------------- decoding

  /** The number whose six-bit groups the symbols spell. */
  function Ungroup(s: string): Option<nat>
  {
    if s == "" then Some(0)
    else
      match (Value(s[0]), Ungroup(s[1..]))
      case (Some(v), Some(x)) => Some(v + 64 * x)
      case _ => None
  }

  /** The lowest `n` bytes of a number. */
  function Bytes(x: nat, n: nat): (bs: seq<byte>)
    ensures |bs| == n
  {
    if n == 0 then [] else [x % 256] + Bytes(x / 256, n - 1)
  }

  /** A decoder: four symbols spell three bytes, and two or three at the end one or two. */
  function Decode(s: string): Option<seq<byte>>
    decreases |s|
  {
    if |s| >= 4 then
      match (Ungroup(s[..4]), Decode(s[4..]))
      case (Some(x), Some(rest)) => Some(Bytes(x, 3) + rest)
      case _ => None
    else if s == "" then Some([])
    else if |s| == 1 then None
    else
      match Ungroup(s)
      case Some(x) => Some(Bytes(x, |s| - 1))
      case None => None
  }

  lemma {:induction false} BytesLittle(bs: seq<byte>)
    ensures Bytes(Little(bs), |bs|) == bs
  {
    if bs != [] {
      BytesLittle(bs[1..]);
      var x := Little(bs[1..]);
      assert (bs[0] + 256 * x) % 256 == bs[0] && (bs[0] + 256 * x) / 256 == x;
    }
  }

  function Pow64(n: nat): nat
  {
    if n == 0 then 1 else 64 * Pow64(n - 1)
  }

  lemma {:induction false} UngroupGroups(x: nat, n: nat)
    requires x < Pow64(n)
    ensures Ungroup(Groups(x, n)) == Some(x)
  {
    if n > 0 {
      UngroupGroups(x / 64, n - 1);
      SymbolValue(x % 64);
      assert Groups(x, n)[1..] == Groups(x / 64, n - 1);
    }
  }

  lemma LittleBound(bs: seq<byte>)
    requires |bs| <= 3
    ensures Little(bs) < Pow64(|bs| + 1)
  {
    assert Pow64(1) == 64 && Pow64(2) == 4096 && Pow64(3) == 262144 && Pow64(4) == 16777216;
    if bs != [] {
      LittleShort(bs);
    }
  }

  lemma {:induction false} LittleShort(bs: seq<byte>)
    requires |bs| <= 3
    ensures |bs| == 0 ==> Little(bs) == 0
    ensures |bs| == 1 ==> Little(bs) < 256
    ensures |bs| == 2 ==> Little(bs) < 65536
    ensures |bs| == 3 ==> Little(bs) < 16777216
  {
    if bs != [] { LittleShort(bs[1..]); }
  }

  /** Decoding inverts encoding, for every byte string. */
  lemma {:induction false} DecodeEncode(bs: seq<byte>)
    ensures Decode(Encode(bs)) == Some(bs)
    decreases |bs|
  {
    if |bs| >= 3 {
      DecodeEncode(bs[3..]);
      LittleBound(bs[..3]);
      UngroupGroups(Little(bs[..3]), 4);
      BytesLittle(bs[..3]);
      assert Encode(bs)[..4] == Groups(Little(bs[..3]), 4) && Encode(bs)[4..] == Encode(bs[3..]);
      assert bs == bs[..3] + bs[3..];
    } else if bs != [] {
      LittleBound(bs);
      UngroupGroups(Little(bs), |bs| + 1);
      BytesLittle(bs);
    }
  }

  predicate Symbols(s: string)
  {
    forall c <- s :: Value(c).Some?
  }

  lemma {:induction false} GroupsSymbols(x: nat, n: nat)
    ensures Symbols(Groups(x, n))
  {
    if n > 0 {
      GroupsSymbols(x / 64, n - 1);
      SymbolValue(x % 64);
    }
  }

  /** The encoding takes four symbols for three bytes, rounded up, all of them
      among the first 64 of the table: there is no padding. */
  lemma {:induction false} EncodeShape(bs: seq<byte>)
    ensures |Encode(bs)| == (4 * |bs| + 2) / 3
    ensures Symbols(Encode(bs)) && '=' !in Encode(bs)
    decreases |bs|
  {
    if |bs| >= 3 {
      EncodeShape(bs[3..]);
      GroupsSymbols(Little(bs[..3]), 4);
    } else if bs != [] {
      GroupsSymbols(Little(bs), |bs| + 1);
    }
    assert Value('=').None?;
  }

  // ------------------------------------------------------------------ masking

  /** The key's lowest sixteen bits, all the loop looks at. */
  function High(key: bv16): bv8
  {
    (key >> 8) as bv8
  }

  function NextKey(out: bv8, key: bv16): bv16
  {
    ((out as bv16) & key) | 0x482D
  }

  lemma NextKeyHigh(out: bv8, key: bv16)
    ensures High(NextKey(out, key)) == 0x48
  {
  }

  /** The closed form: the key's high byte once, then always 0x48. */
  function Mask(key: bv16, i: nat): bv8
  {
    if i == 0 then High(key) else 0x48
  }

  function Masked(key: bv16, bs: seq<bv8>): (r: seq<bv8>)
    ensures |r| == |bs|
    ensures forall i :: 0 <= i < |bs| ==> r[i] == bs[i] ^ Mask(key, i)
  {
    seq(|bs|, i requires 0 <= i < |bs| => bs[i] ^ Mask(key, i))
  }

  /** `EncryptBytes`: the loop, with its feedback, has the closed form. */
  method MaskBytes(key: bv16, bs: seq<bv8>) returns (result: seq<bv8>)
    ensures result == Masked(key, bs)
  {
    result := [];
    var k := key;
    for i := 0 to |bs|
      invariant |result| == i && High(k) == Mask(key, i)
      invariant forall j :: 0 <= j < i ==> result[j] == bs[j] ^ Mask(key, j)
    {
      var out := bs[i] ^ High(k);
      result := result + [out];
      NextKeyHigh(out, k);
      k := NextKey(out, k);
    }
  }

  lemma XorTwice(a: bv8, m: bv8)
    ensures (a ^ m) ^ m == a
  {
  }

  /** At a fixed key masking undoes itself, so it loses nothing. */
  lemma MaskedTwice(key: bv16, bs: seq<bv8>)
    ensures Masked(key, Masked(key, bs)) == bs
  {
    forall i | 0 <= i < |bs| ensures Masked(key, Masked(key, bs))[i] == bs[i] {
      XorTwice(bs[i], Mask(key, i));
    }
  }

  function AsBytes(bs: seq<bv8>): (r: seq<byte>)
    ensures |r| == |bs|
    ensures forall i :: 0 <= i < |bs| ==> r[i] == bs[i] as int
  {
    seq(|bs|, i requires 0 <= i < |bs| => bs[i] as int)
  }

  lemma AsBytesInjective(a: seq<bv8>, b: seq<bv8>)
    requires AsBytes(a) == AsBytes(b)
    ensures a == b
  {
    forall i | 0 <= i < |a| ensures a[i] == b[i] {
      assert AsBytes(a)[i] == AsBytes(b)[i];
      assert (a[i] as int) as bv8 == a[i] && (b[i] as int) as bv8 == b[i];
    }
  }

  /** Masked and then encoded, different texts stay different. */
  lemma MaskedEncodedInjective(key: bv16, a: seq<bv8>, b: seq<bv8>)
    requires Encode(AsBytes(Masked(key, a))) == Encode(AsBytes(Masked(key, b)))
    ensures a == b
  {
    DecodeEncode(AsBytes(Masked(key, a)));
    DecodeEncode(AsBytes(Masked(key, b)));
    AsBytesInjective(Masked(key, a), Masked(key, b));
    MaskedTwice(key, a);
    MaskedTwice(key, b);
  }
}
