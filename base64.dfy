/**
 * The base 64 encoding of section 4 of RFC 4648 (alphabet `A-Z a-z 0-9 + /`,
 * `=` padding), as the runtime's `btoa` applies it to a string whose
 * characters are all in the Latin-1 range, and the decoder that inverts it.
 */
module Base64 {
  import opened Wrappers

  type Byte = b: int | 0 <= b < 256
  type Sextet = i: int | 0 <= i < 64

  /** Table 1 of RFC 4648: the character for a 6-bit value. */
  function Symbol(i: Sextet): char
  {
    if i < 26 then ('A' as int + i) as char
    else if i < 52 then ('a' as int + (i - 26)) as char
    else if i < 62 then ('0' as int + (i - 52)) as char
    else if i == 62 then '+'
    else '/'
  }

  /** The 6-bit value of an alphabet character; `None` outside the alphabet (including `=`). */
  function SymbolValue(c: char): Option<Sextet>
  {
    if 'A' <= c <= 'Z' then Some(c as int - 'A' as int)
    else if 'a' <= c <= 'z' then Some(c as int - 'a' as int + 26)
    else if '0' <= c <= '9' then Some(c as int - '0' as int + 52)
    else if c == '+' then Some(62)
    else if c == '/' then Some(63)
    else None
  }

  lemma SymbolValueOfSymbol(i: Sextet)
    ensures SymbolValue(Symbol(i)) == Some(i)
  {
  }

  /** Encoding: each group of three bytes becomes four symbols; a final group of one or two bytes is padded with `=`. */
  function Encode(bs: seq<Byte>): (r: string)
    ensures |r| == 4 * ((|bs| + 2) / 3)
    decreases |bs|
  {
    if |bs| == 0 then []
    else if |bs| == 1 then
      [Symbol(bs[0] / 4), Symbol((bs[0] % 4) * 16), '=', '=']
    else if |bs| == 2 then
      [Symbol(bs[0] / 4), Symbol((bs[0] % 4) * 16 + bs[1] / 16), Symbol((bs[1] % 16) * 4), '=']
    else
      [Symbol(bs[0] / 4), Symbol((bs[0] % 4) * 16 + bs[1] / 16),
       Symbol((bs[1] % 16) * 4 + bs[2] / 64), Symbol(bs[2] % 64)] + Encode(bs[3..])
  }

  /** Reassembles bytes from the values of one four-symbol group. */
  function Byte0(c0: Sextet, c1: Sextet): Byte { c0 * 4 + c1 / 16 }
  function Byte1(c1: Sextet, c2: Sextet): Byte { (c1 % 16) * 16 + c2 / 4 }
  function Byte2(c2: Sextet, c3: Sextet): Byte { (c2 % 4) * 64 + c3 }

  /** Decoding of padded base 64; `None` for a length that is not a multiple of four or a character outside the alphabet. */
  function Decode(s: string): Option<seq<Byte>>
    decreases |s|
  {
    if |s| == 0 then Some([])
    else if |s| < 4 then None
    else
      var v0, v1, v2, v3 := SymbolValue(s[0]), SymbolValue(s[1]), SymbolValue(s[2]), SymbolValue(s[3]);
      if v0.None? || v1.None? then None
      else if |s| == 4 && s[2] == '=' && s[3] == '=' then
        Some([Byte0(v0.value, v1.value)])
      else if v2.None? then None
      else if |s| == 4 && s[3] == '=' then
        Some([Byte0(v0.value, v1.value), Byte1(v1.value, v2.value)])
      else if v3.None? then None
      else
        var rest := Decode(s[4..]);
        if rest.None? then None
        else Some([Byte0(v0.value, v1.value), Byte1(v1.value, v2.value), Byte2(v2.value, v3.value)] + rest.value)
  }

  lemma GroupRoundTrip(b0: Byte, b1: Byte, b2: Byte)
    ensures Byte0(b0 / 4, (b0 % 4) * 16 + b1 / 16) == b0
    ensures Byte1((b0 % 4) * 16 + b1 / 16, (b1 % 16) * 4 + b2 / 64) == b1
    ensures Byte2((b1 % 16) * 4 + b2 / 64, b2 % 64) == b2
  {
  }

  /** A full group of four symbols decodes to three bytes, followed by whatever the rest decodes to. */
  lemma DecodeFullGroup(c0: Sextet, c1: Sextet, c2: Sextet, c3: Sextet, t: string)
    ensures var s := [Symbol(c0), Symbol(c1), Symbol(c2), Symbol(c3)] + t;
            Decode(s) == if Decode(t).None? then None
                         else Some([Byte0(c0, c1), Byte1(c1, c2), Byte2(c2, c3)] + Decode(t).value)
  {
    var s := [Symbol(c0), Symbol(c1), Symbol(c2), Symbol(c3)] + t;
    SymbolValueOfSymbol(c0);
    SymbolValueOfSymbol(c1);
    SymbolValueOfSymbol(c2);
    SymbolValueOfSymbol(c3);
    assert s[4..] == t;
  }

  lemma DecodeEncodeOne(b0: Byte)
    ensures Decode(Encode([b0])) == Some([b0])
  {
    GroupRoundTrip(b0, 0, 0);
    SymbolValueOfSymbol(b0 / 4);
    SymbolValueOfSymbol((b0 % 4) * 16);
  }

  lemma DecodeEncodeTwo(b0: Byte, b1: Byte)
    ensures Decode(Encode([b0, b1])) == Some([b0, b1])
  {
    var c0, c1, c2 := b0 / 4, (b0 % 4) * 16 + b1 / 16, (b1 % 16) * 4;
    GroupRoundTrip(b0, b1, 0);
    SymbolValueOfSymbol(c0);
    SymbolValueOfSymbol(c1);
    SymbolValueOfSymbol(c2);
    assert Encode([b0, b1]) == [Symbol(c0), Symbol(c1), Symbol(c2), '='];
  }

  /** Decoding an encoding gives back the bytes. */
  lemma {:induction false} DecodeEncode(bs: seq<Byte>)
    ensures Decode(Encode(bs)) == Some(bs)
    decreases |bs|
  {
    if |bs| == 1 {
      DecodeEncodeOne(bs[0]);
      assert bs == [bs[0]];
    } else if |bs| == 2 {
      DecodeEncodeTwo(bs[0], bs[1]);
      assert bs == [bs[0], bs[1]];
    } else if |bs| >= 3 {
      var c0, c1, c2, c3 := bs[0] / 4, (bs[0] % 4) * 16 + bs[1] / 16, (bs[1] % 16) * 4 + bs[2] / 64, bs[2] % 64;
      GroupRoundTrip(bs[0], bs[1], bs[2]);
      DecodeEncode(bs[3..]);
      DecodeFullGroup(c0, c1, c2, c3, Encode(bs[3..]));
      assert bs == [bs[0], bs[1], bs[2]] + bs[3..];
    }
  }

  /** `btoa` accepts only strings of Latin-1 characters (code units up to 0xFF). */
  predicate IsLatin1(s: string)
    ensures IsLatin1(s) <==> forall c :: c in s ==> c as int <= 0xFF
  {
    assert forall i :: 0 <= i < |s| ==> s[i] in s;
    forall i :: 0 <= i < |s| ==> s[i] as int < 256
  }

  function CharCodes(s: string): (bs: seq<Byte>)
    requires IsLatin1(s)
    ensures |bs| == |s| && forall i :: 0 <= i < |s| ==> bs[i] == s[i] as int
  {
    seq(|s|, i requires 0 <= i < |s| => s[i] as int)
  }

  function Latin1String(bs: seq<Byte>): (s: string)
    ensures |s| == |bs| && forall i :: 0 <= i < |bs| ==> s[i] as int == bs[i]
  {
    seq(|bs|, i requires 0 <= i < |bs| => bs[i] as char)
  }

  /** `btoa(s)`: `None` where the runtime throws (a character above 0xFF). */
  function Btoa(s: string): (r: Option<string>)
    ensures r.Some? <==> IsLatin1(s)
    ensures r.Some? ==> r.value == Encode(CharCodes(s))
  {
    if IsLatin1(s) then Some(Encode(CharCodes(s))) else None
  }

  /** `atob`: the inverse of `btoa`. */
  function Atob(s: string): Option<string>
  {
    match Decode(s)
    case Some(bs) => Some(Latin1String(bs))
    case None => None
  }

  /** `atob(btoa(s)) == s` for every string `btoa` accepts. */
  lemma AtobBtoa(s: string)
    requires IsLatin1(s)
    ensures Atob(Btoa(s).value) == Some(s)
  {
    DecodeEncode(CharCodes(s));
    assert Latin1String(CharCodes(s)) == s;
  }
}
