/** The text forms tokens are made of: decimal (strconv), hex (encoding/hex), raw base64url
    (section 5 of RFC 4648 without padding, as encoding/base64 reads it) and splitting at a
    separator. A char stands for one byte of a Go string. Reading a form undoes writing it, and no
    form contains the separator it is put between; that is why the pieces of a token, and of the
    input its MAC is made over, can be told apart again in Token, whatever a socket id or a
    channel's name looks like. */
module Text {
  import opened Options

  type Byte = b: int | 0 <= b < 256

  // ----- separators --------------------------------------------------------------------------------

  predicate Free(s: string, c: char) { forall i :: 0 <= i < |s| ==> s[i] != c }

  /** Cutting at the first separator is unambiguous. */
  lemma CutUnique(a: string, x: string, b: string, y: string, c: char)
    requires Free(a, c) && Free(b, c) && a + [c] + x == b + [c] + y
    ensures a == b && x == y
  {
    var s := a + [c] + x;
    assert s == b + [c] + y;
    assert s[|a|] == c && s[|b|] == c;
    assert forall k :: 0 <= k < |a| ==> s[k] == a[k];
    assert forall k :: 0 <= k < |b| ==> s[k] == b[k];
    assert |a| == |b|;
    assert a == s[..|a|] && b == s[..|b|];
    assert x == s[|a| + 1..] && y == s[|b| + 1..];
  }

  /** strings.Cut: what is before and after the first c. */
  function Cut(s: string, c: char): (r: Option<(string, string)>)
    ensures r.Some? ==> Free(r.value.0, c) && s == r.value.0 + [c] + r.value.1
    ensures r.None? ==> Free(s, c)
  {
    if s == "" then None
    else if s[0] == c then
      assert s == "" + [c] + s[1..];
      Some(("", s[1..]))
    else match Cut(s[1..], c)
      case None => None
      case Some((a, b)) =>
        assert s == [s[0]] + s[1..];
        Some(([s[0]] + a, b))
  }

  lemma CutAt(a: string, x: string, c: char)
    requires Free(a, c)
    ensures Cut(a + [c] + x, c) == Some((a, x))
  {
    var s := a + [c] + x;
    assert s[|a|] == c;
    var r := Cut(s, c);
    CutUnique(a, x, r.value.0, r.value.1, c);
  }

  // ----- decimal -------------------------------------------------------------------------------------

  function Digit(d: nat): char
    requires d < 10
  {
    "0123456789"[d]
  }

  predicate IsDigit(c: char) { '0' <= c <= '9' }

  predicate Digits(s: string) { forall i :: 0 <= i < |s| ==> IsDigit(s[i]) }

  function DecNat(n: nat): (s: string)
    ensures s != "" && Digits(s)
  {
    if n < 10 then [Digit(n)] else DecNat(n / 10) + [Digit(n % 10)]
  }

  /** strconv.FormatInt(n, 10). */
  function Dec(n: int): string { if n < 0 then "-" + DecNat(-n) else DecNat(n) }

  function Value(s: string): (n: nat)
    requires Digits(s)
  {
    if s == "" then 0 else Value(s[..|s| - 1]) * 10 + (s[|s| - 1] - '0') as int
  }

  lemma {:induction false} ValueOfDec(n: nat)
    ensures Value(DecNat(n)) == n
  {
    if n >= 10 {
      ValueOfDec(n / 10);
      assert DecNat(n)[..|DecNat(n)| - 1] == DecNat(n / 10);
    }
  }

  const MIN64 := -0x8000_0000_0000_0000
  const MAX64 := 0x7fff_ffff_ffff_ffff

  predicate IsInt64(n: int) { MIN64 <= n <= MAX64 }

  function Signed(negative: bool, n: nat): int { if negative then 0 - n else n }

  /** strconv.ParseInt(s, 10, 64): an optional sign, at least one digit, and in range. */
  function ParseInt(s: string): Option<int> {
    var body := if s != "" && (s[0] == '-' || s[0] == '+') then s[1..] else s;
    if body == "" || !Digits(body) then None
    else
      var n := Signed(s[0] == '-', Value(body));
      if IsInt64(n) then Some(n) else None
  }

  lemma ParseDigits(s: string)
    requires s != "" && Digits(s) && IsInt64(Value(s))
    ensures ParseInt(s) == Some(Value(s))
  {
    assert IsDigit(s[0]);
  }

  lemma ParseMinus(s: string)
    requires s != "" && Digits(s) && IsInt64(0 - Value(s))
    ensures ParseInt("-" + s) == Some(0 - Value(s))
  {
    assert ("-" + s)[0] == '-' && ("-" + s)[1..] == s;
  }

  lemma ParseDec(n: int)
    requires IsInt64(n)
    ensures ParseInt(Dec(n)) == Some(n)
  {
    ValueOfDec(if n < 0 then -n else n);
    if n < 0 { ParseMinus(DecNat(-n)); } else { ParseDigits(DecNat(n)); }
  }

  /** And nothing but an optional sign and at least one digit, in the range of 64 bits, parses. */
  lemma ParsesOnlyDecimal(s: string, n: int)
    requires ParseInt(s) == Some(n)
    ensures -9223372036854775808 <= n <= 9223372036854775807
    ensures var signed := s != "" && s[0] in {'-', '+'};
      var body := if signed then s[1..] else s;
      && body != "" && (forall i :: 0 <= i < |body| ==> '0' <= body[i] <= '9')
      && n == if signed && s[0] == '-' then 0 - Value(body) else Value(body)
  {
  }

  lemma DecInjective(m: int, n: int)
    requires Dec(m) == Dec(n)
    ensures m == n
  {
    ValueOfDec(if m < 0 then -m else m);
    ValueOfDec(if n < 0 then -n else n);
    assert IsDigit(DecNat(if m < 0 then -m else m)[0]) && IsDigit(DecNat(if n < 0 then -n else n)[0]);
    if m < 0 && n < 0 { assert DecNat(-m) == Dec(m)[1..] && DecNat(-n) == Dec(n)[1..]; }
  }

  lemma DecFree(n: int, c: char)
    requires !IsDigit(c) && c != '-'
    ensures Free(Dec(n), c)
  {
    var d := DecNat(if n < 0 then -n else n);
    forall i | 0 <= i < |d| ensures d[i] != c { assert IsDigit(d[i]); }
  }

  // ----- hex ---------------------------------------------------------------------------------------------

  predicate IsHex(c: char) { '0' <= c <= '9' || 'a' <= c <= 'f' }

  function HexDigit(d: nat): (c: char)
    requires d < 16
    ensures IsHex(c)
  {
    "0123456789abcdef"[d]
  }

  /** hex.EncodeToString. */
  function Hex(bs: seq<Byte>): (s: string)
    ensures |s| == 2 * |bs| && forall i :: 0 <= i < |s| ==> IsHex(s[i])
  {
    if bs == [] then "" else [HexDigit(bs[0] / 16), HexDigit(bs[0] % 16)] + Hex(bs[1..])
  }

  function HexValue(c: char): (d: nat)
    requires IsHex(c)
    ensures d < 16
  {
    if c <= '9' then (c - '0') as int else (c - 'a') as int + 10
  }

  lemma HexDigitValue(d: nat)
    requires d < 16
    ensures HexValue(HexDigit(d)) == d
  {
  }

  /** Distinct random bytes give distinct text. */
  lemma {:induction false} HexInjective(a: seq<Byte>, b: seq<Byte>)
    requires Hex(a) == Hex(b)
    ensures a == b
  {
    if a != [] {
      assert |Hex(a)| == |Hex(b)|;
      assert Hex(a)[0] == Hex(b)[0] && Hex(a)[1] == Hex(b)[1];
      HexDigitValue(a[0] / 16);
      HexDigitValue(b[0] / 16);
      HexDigitValue(a[0] % 16);
      HexDigitValue(b[0] % 16);
      assert Hex(a[1..]) == Hex(a)[2..] && Hex(b[1..]) == Hex(b)[2..];
      HexInjective(a[1..], b[1..]);
      assert a == [a[0]] + a[1..] && b == [b[0]] + b[1..];
    }
  }

  // ----- base64url without padding -------------------------------------------------------------------------

  type Sextet = v: int | 0 <= v < 64

  function B64Char(v: Sextet): char
  {
    if v < 26 then 'A' + v as char
    else if v < 52 then 'a' + (v - 26) as char
    else if v < 62 then '0' + (v - 52) as char
    else if v == 62 then '-' else '_'
  }

  function B64Value(c: char): Option<Sextet> {
    if 'A' <= c <= 'Z' then Some((c - 'A') as int)
    else if 'a' <= c <= 'z' then Some((c - 'a') as int + 26)
    else if '0' <= c <= '9' then Some((c - '0') as int + 52)
    else if c == '-' then Some(62)
    else if c == '_' then Some(63)
    else None
  }

  lemma B64CharValue(v: Sextet)
    ensures B64Value(B64Char(v)) == Some(v) && B64Char(v) !in {'\r', '\n'}
  {
  }

  function Sextet0(a: Byte): Sextet { a / 4 }
  function Sextet1(a: Byte, b: Byte): Sextet { a % 4 * 16 + b / 16 }
  function Sextet2(b: Byte, c: Byte): Sextet { b % 16 * 4 + c / 64 }
  function Sextet3(c: Byte): Sextet { c % 64 }

  /** Three bytes become four sextets; one or two left over become two or three. */
  function Sextets(bs: seq<Byte>): seq<Sextet> {
    if |bs| == 0 then []
    else if |bs| == 1 then [Sextet0(bs[0]), Sextet1(bs[0], 0)]
    else if |bs| == 2 then [Sextet0(bs[0]), Sextet1(bs[0], bs[1]), Sextet2(bs[1], 0)]
    else [Sextet0(bs[0]), Sextet1(bs[0], bs[1]), Sextet2(bs[1], bs[2]), Sextet3(bs[2])] + Sextets(bs[3..])
  }

  function Octet0(u: Sextet, v: Sextet): Byte { u * 4 + v / 16 }
  function Octet1(u: Sextet, v: Sextet): Byte { u % 16 * 16 + v / 4 }
  function Octet2(u: Sextet, v: Sextet): Byte { u % 4 * 64 + v }

  /** A lone sextet left over is an error; bits left over are dropped unread. */
  function Octets(vs: seq<Sextet>): Option<seq<Byte>> {
    if |vs| == 0 then Some([])
    else if |vs| == 1 then None
    else if |vs| == 2 then Some([Octet0(vs[0], vs[1])])
    else if |vs| == 3 then Some([Octet0(vs[0], vs[1]), Octet1(vs[1], vs[2])])
    else match Octets(vs[4..])
      case None => None
      case Some(rest) => Some([Octet0(vs[0], vs[1]), Octet1(vs[1], vs[2]), Octet2(vs[2], vs[3])] + rest)
  }

  lemma GroupRoundTrip(a: Byte, b: Byte, c: Byte)
    ensures Octet0(Sextet0(a), Sextet1(a, b)) == a
    ensures Octet1(Sextet1(a, b), Sextet2(b, c)) == b
    ensures Octet2(Sextet2(b, c), Sextet3(c)) == c
  {
  }

  lemma OctetsOfTwo(u: Sextet, v: Sextet)
    ensures Octets([u, v]) == Some([Octet0(u, v)])
  {
  }

  lemma OneByte(a: Byte)
    ensures Octets([Sextet0(a), Sextet1(a, 0)]) == Some([a])
  {
    OctetsOfTwo(Sextet0(a), Sextet1(a, 0));
    GroupRoundTrip(a, 0, 0);
  }

  lemma TwoBytes(a: Byte, b: Byte)
    ensures Octets([Sextet0(a), Sextet1(a, b), Sextet2(b, 0)]) == Some([a, b])
  {
    GroupRoundTrip(a, b, 0);
  }

  lemma ThreeBytes(a: Byte, b: Byte, c: Byte, vs: seq<Sextet>, rest: seq<Byte>)
    requires Octets(vs) == Some(rest)
    ensures Octets([Sextet0(a), Sextet1(a, b), Sextet2(b, c), Sextet3(c)] + vs) == Some([a, b, c] + rest)
  {
    var all := [Sextet0(a), Sextet1(a, b), Sextet2(b, c), Sextet3(c)] + vs;
    assert all[4..] == vs;
    GroupRoundTrip(a, b, c);
  }

  lemma {:induction false} OctetsOfSextets(bs: seq<Byte>)
    ensures Octets(Sextets(bs)) == Some(bs)
  {
    if |bs| == 0 {
    } else if |bs| == 1 {
      OneByte(bs[0]);
      assert bs == [bs[0]];
    } else if |bs| == 2 {
      TwoBytes(bs[0], bs[1]);
      assert bs == [bs[0], bs[1]];
    } else {
      OctetsOfSextets(bs[3..]);
      ThreeBytes(bs[0], bs[1], bs[2], Sextets(bs[3..]), bs[3..]);
      assert bs == [bs[0], bs[1], bs[2]] + bs[3..];
    }
  }

  function Chars(vs: seq<Sextet>): string { if vs == [] then "" else [B64Char(vs[0])] + Chars(vs[1..]) }

  /** The decoder skips line breaks anywhere and rejects any other foreign character. */
  function Values(s: string): Option<seq<Sextet>> {
    if s == "" then Some([])
    else if s[0] == '\r' || s[0] == '\n' then Values(s[1..])
    else match (B64Value(s[0]), Values(s[1..]))
      case (Some(v), Some(rest)) => Some([v] + rest)
      case _ => None
  }

  lemma ValuesCons(c: char, v: Sextet, s: string, vs: seq<Sextet>)
    requires B64Value(c) == Some(v) && c !in {'\r', '\n'} && Values(s) == Some(vs)
    ensures Values([c] + s) == Some([v] + vs)
  {
    assert ([c] + s)[1..] == s;
  }

  lemma {:induction false} ValuesOfChars(vs: seq<Sextet>)
    ensures Values(Chars(vs)) == Some(vs)
  {
    if vs != [] {
      ValuesOfChars(vs[1..]);
      B64CharValue(vs[0]);
      ValuesCons(B64Char(vs[0]), vs[0], Chars(vs[1..]), vs[1..]);
      assert vs == [vs[0]] + vs[1..];
    }
  }

  /** base64.RawURLEncoding. */
  function B64Encode(bs: seq<Byte>): string { Chars(Sextets(bs)) }

  function B64Decode(s: string): Option<seq<Byte>> {
    match Values(s) case None => None case Some(vs) => Octets(vs)
  }

  lemma B64RoundTrip(bs: seq<Byte>)
    ensures B64Decode(B64Encode(bs)) == Some(bs)
  {
    OctetsOfSextets(bs);
    ValuesOfChars(Sextets(bs));
  }

  /** And what decodes is text of the alphabet, but for line breaks, of a length that can be. */
  lemma {:induction false} DecodesOnlyText(s: string)
    ensures Values(s).Some? <==> forall i :: 0 <= i < |s| ==> s[i] in {'\r', '\n'} || B64Value(s[i]).Some?
    ensures B64Decode(s).Some? ==> Values(s).Some? && |Values(s).value| % 4 != 1
  {
    if s != "" {
      DecodesOnlyText(s[1..]);
      assert forall i :: 1 <= i < |s| ==> s[i] == s[1..][i - 1];
    }
    if Values(s).Some? { OctetsLength(Values(s).value); }
  }

  lemma {:induction false} OctetsLength(vs: seq<Sextet>)
    ensures Octets(vs).Some? <==> |vs| % 4 != 1
  {
    if |vs| >= 4 { OctetsLength(vs[4..]); }
  }
}
