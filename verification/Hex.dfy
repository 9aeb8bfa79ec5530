/** Hexadecimal text: MixAll::hex, MixAll::hexToBinary and MixAll::hexCharValue. */
module Hex {
  import opened Base

  newtype byte = x: int | 0 <= x < 256

  const DICT: string := "0123456789ABCDEF"

  /** The value of a hexadecimal digit in either case. */
  function CharValue(c: char): (v: Option<nat>)
    ensures v.Some? ==> v.value < 16
  {
    if '0' <= c <= '9' then Some((c - '0') as nat)
    else if 'a' <= c <= 'f' then Some((c - 'a') as nat + 10)
    else if 'A' <= c <= 'F' then Some((c - 'A') as nat + 10)
    else None
  }

  function Upper(c: char): char {
    if 'a' <= c <= 'f' then c - 'a' + 'A' else c
  }

  function UpperAll(s: string): (r: string)
    ensures |r| == |s| && forall i :: 0 <= i < |s| ==> r[i] == Upper(s[i])
  {
    seq(|s|, i requires 0 <= i < |s| => Upper(s[i]))
  }

  function High(b: byte): char {
    DICT[b as nat / 16]
  }

  function Low(b: byte): char {
    DICT[b as nat % 16]
  }

  function Pair(high: char, low: char): byte
    requires CharValue(high).Some? && CharValue(low).Some?
  {
    (16 * CharValue(high).value + CharValue(low).value) as byte
  }

  /** Digits are read in either case, and nothing else is. */
  lemma CharValueIff(c: char, v: nat)
    ensures CharValue(c) == Some(v) <==> v < 16 && (c == "0123456789ABCDEF"[v] || c == "0123456789abcdef"[v])
  {
    if CharValue(c) == Some(v) && 'a' <= c <= 'f' {
      assert "0123456789abcdef"[v] == c;
    }
  }

  lemma DigitValue(v: nat)
    requires v < 16
    ensures CharValue(DICT[v]) == Some(v)
  {}

  lemma ByteRoundTrip(b: byte)
    ensures CharValue(High(b)).Some? && CharValue(Low(b)).Some? && Pair(High(b), Low(b)) == b
  {
    DigitValue(b as nat / 16);
    DigitValue(b as nat % 16);
  }

  lemma ValueDigit(c: char)
    requires CharValue(c).Some?
    ensures DICT[CharValue(c).value] == Upper(c)
  {}

  lemma Digits(h: nat, l: nat)
    requires h < 16 && l < 16
    ensures (16 * h + l) / 16 == h && (16 * h + l) % 16 == l
  {}

  lemma PairRoundTrip(high: char, low: char)
    requires CharValue(high).Some? && CharValue(low).Some?
    ensures High(Pair(high, low)) == Upper(high) && Low(Pair(high, low)) == Upper(low)
  {
    ValueDigit(high);
    ValueDigit(low);
    var h, l := CharValue(high).value, CharValue(low).value;
    Digits(h, l);
    var b := Pair(high, low) as nat;
    assert b / 16 == h && b % 16 == l;
  }

  function Encode(b: seq<byte>): (s: string)
    ensures |s| == 2 * |b|
  {
    if b == [] then "" else Encode(b[..|b| - 1]) + [High(b[|b| - 1]), Low(b[|b| - 1])]
  }

  predicate ValidHex(s: string) {
    |s| % 2 == 0 && forall i :: 0 <= i < |s| ==> CharValue(s[i]).Some?
  }

  function Decode(s: string): (b: seq<byte>)
    requires ValidHex(s)
    ensures |b| == |s| / 2
  {
    if s == "" then [] else Decode(s[..|s| - 2]) + [Pair(s[|s| - 2], s[|s| - 1])]
  }

  lemma EncodeAppend(b: seq<byte>, x: byte)
    ensures Encode(b + [x]) == Encode(b) + [High(x), Low(x)]
  {
    assert (b + [x])[..|b|] == b;
  }

  /** Two digits for each byte, the high half first. */
  lemma {:induction false} EncodeAt(b: seq<byte>, i: nat)
    requires i < |b|
    ensures Encode(b)[2 * i] == "0123456789ABCDEF"[b[i] as nat / 16]
    ensures Encode(b)[2 * i + 1] == "0123456789ABCDEF"[b[i] as nat % 16]
  {
    if i < |b| - 1 {
      EncodeAt(b[..|b| - 1], i);
    }
  }

  lemma DecodeAppend(s: string, high: char, low: char)
    requires ValidHex(s) && CharValue(high).Some? && CharValue(low).Some?
    ensures ValidHex(s + [high, low]) && Decode(s + [high, low]) == Decode(s) + [Pair(high, low)]
  {
    var t := s + [high, low];
    assert t[..|t| - 2] == s;
  }

  /** hexToBinary undoes hex. */
  lemma {:induction false} DecodeEncode(b: seq<byte>)
    ensures ValidHex(Encode(b)) && Decode(Encode(b)) == b
  {
    if b != [] {
      var front, last := b[..|b| - 1], b[|b| - 1];
      assert b == front + [last];
      DecodeEncode(front);
      ByteRoundTrip(last);
      var h, l := High(last), Low(last);
      DecodeAppend(Encode(front), h, l);
      assert Encode(b) == Encode(front) + [h, l];
    }
  }

  /** hex undoes hexToBinary, up to the case of the digits. */
  lemma {:induction false} EncodeDecode(s: string)
    requires ValidHex(s)
    ensures Encode(Decode(s)) == UpperAll(s)
  {
    if s != "" {
      var front, high, low := s[..|s| - 2], s[|s| - 2], s[|s| - 1];
      assert UpperAll(s) == UpperAll(front) + [Upper(high), Upper(low)];
      EncodeDecode(front);
      PairRoundTrip(high, low);
      EncodeAppend(Decode(front), Pair(high, low));
    }
  }

  lemma EncodeInjective(a: seq<byte>, b: seq<byte>)
    requires Encode(a) == Encode(b)
    ensures a == b
  {
    DecodeEncode(a);
    DecodeEncode(b);
  }

  /** The digits before the first pair with a bad digit. */
  function ValidPrefix(s: string): (p: string)
    requires |s| % 2 == 0
    ensures ValidHex(p) && p <= s
    ensures p == s <==> ValidHex(s)
    ensures p != s ==> CharValue(s[|p|]).None? || CharValue(s[|p| + 1]).None?
  {
    ValidPrefixFrom(s, 0)
  }

  function ValidPrefixFrom(s: string, i: nat): (p: string)
    requires i % 2 == 0 && |s| % 2 == 0 && i <= |s| && ValidHex(s[..i])
    ensures ValidHex(p) && p <= s && i <= |p|
    ensures p != s ==> CharValue(s[|p|]).None? || CharValue(s[|p| + 1]).None?
    decreases |s| - i
  {
    if i < |s| && CharValue(s[i]).Some? && CharValue(s[i + 1]).Some? then ValidPrefixFrom(s, i + 2) else s[..i]
  }

  lemma DecodeStep(s: string, i: nat)
    requires i % 2 == 0 && |s| % 2 == 0 && i < |s| && ValidHex(s[..i])
    requires CharValue(s[i]).Some? && CharValue(s[i + 1]).Some?
    ensures ValidHex(s[..i + 2]) && ValidPrefixFrom(s, i) == ValidPrefixFrom(s, i + 2)
    ensures Decode(s[..i + 2]) == Decode(s[..i]) + [Pair(s[i], s[i + 1])]
  {
    assert s[..i + 2] == s[..i] + [s[i], s[i + 1]];
    DecodeAppend(s[..i], s[i], s[i + 1]);
  }

  method ToHex(data: seq<byte>) returns (s: string)
    ensures s == Encode(data)
  {
    s := "";
    for i := 0 to |data|
      invariant s == Encode(data[..i])
    {
      assert data[..i + 1] == data[..i] + [data[i]];
      EncodeAppend(data[..i], data[i]);
      s := s + [High(data[i])];
      s := s + [Low(data[i])];
    }
    assert data[..|data|] == data;
  }

  lemma PrefixStops(s: string, i: nat)
    requires i % 2 == 0 && |s| % 2 == 0 && i <= |s| && ValidHex(s[..i])
    requires i < |s| ==> CharValue(s[i]).None? || CharValue(s[i + 1]).None?
    ensures ValidPrefixFrom(s, i) == s[..i]
  {}

  /** Position `i` has been reached, and these are the bytes before it. */
  ghost predicate ReadUpTo(s: string, i: nat, decoded: seq<byte>)
    requires i % 2 == 0 && |s| % 2 == 0 && i <= |s|
  {
    ValidHex(s[..i]) && ValidPrefix(s) == ValidPrefixFrom(s, i) && decoded == Decode(s[..i])
  }

  /** The loop over the pairs of digits. */
  method DecodePairs(hex: string, bin: seq<byte>) returns (ok: bool, r: seq<byte>)
    requires |hex| % 2 == 0
    ensures ok <==> ValidPrefix(hex) == hex
    ensures r == bin + Decode(ValidPrefix(hex))
  {
    r := bin;
    ghost var decoded: seq<byte> := [];
    var i := 0;
    while i < |hex|
      invariant 0 <= i <= |hex| && i % 2 == 0
      invariant ReadUpTo(hex, i, decoded) && r == bin + decoded
    {
      if CharValue(hex[i]).None? || CharValue(hex[i + 1]).None? {
        PrefixStops(hex, i);
        return false, r;
      }
      DecodeStep(hex, i);
      var b := Pair(hex[i], hex[i + 1]);
      decoded := decoded + [b];
      r := r + [b];
      i := i + 2;
    }
    PrefixStops(hex, i);
    ok := true;
  }

  /** Every byte before the first bad pair is appended to `bin`, even when the text is then rejected. */
  method FromHex(hex: string, bin: seq<byte>) returns (ok: bool, r: seq<byte>)
    ensures ok <==> ValidHex(hex)
    ensures r == if |hex| % 2 != 0 then bin else bin + Decode(ValidPrefix(hex))
  {
    if |hex| % 2 != 0 {
      return false, bin;
    }
    ok, r := DecodePairs(hex, bin);
  }
}
