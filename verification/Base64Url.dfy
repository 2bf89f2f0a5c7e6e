/** Unpadded base64url, as the token code uses it (app/core/security.py:40-46; section 5 of RFC 4648,
    Appendix C of RFC 7515). The decoder is Python's lenient one: characters outside the alphabet are
    skipped and decoding stops at a complete run of padding. */
module Base64Url {
  import opened Common

  type byte = x: int | 0 <= x < 256
  type sextet = x: int | 0 <= x < 64

  function CharOf(v: sextet): char {
    if v < 26 then ('A' as int + v) as char
    else if v < 52 then ('a' as int + (v - 26)) as char
    else if v < 62 then ('0' as int + (v - 52)) as char
    else if v == 62 then '-' else '_'
  }

  /** urlsafe_b64decode maps '-' and '_' onto '+' and '/', so both spellings decode. */
  function ValueOf(c: char): Option<sextet> {
    if 'A' <= c <= 'Z' then Some(c as int - 'A' as int)
    else if 'a' <= c <= 'z' then Some(c as int - 'a' as int + 26)
    else if '0' <= c <= '9' then Some(c as int - '0' as int + 52)
    else if c == '-' || c == '+' then Some(62)
    else if c == '_' || c == '/' then Some(63)
    else None
  }

  predicate InAlphabet(c: char) {
    'A' <= c <= 'Z' || 'a' <= c <= 'z' || '0' <= c <= '9' || c == '-' || c == '_'
  }

  lemma CharRoundTrip(v: sextet)
    ensures InAlphabet(CharOf(v)) && ValueOf(CharOf(v)) == Some(v)
  {
  }

  function Group(a: byte, b: byte, c: byte): string {
    [CharOf(a / 4), CharOf((a % 4) * 16 + b / 16), CharOf((b % 16) * 4 + c / 64), CharOf(c % 64)]
  }

  /** base64.urlsafe_b64encode: three bytes to four characters, '=' filling the last group. */
  function PaddedEncode(d: seq<byte>): string {
    if d == [] then ""
    else if |d| == 1 then [CharOf(d[0] / 4), CharOf((d[0] % 4) * 16)] + "=="
    else if |d| == 2 then [CharOf(d[0] / 4), CharOf((d[0] % 4) * 16 + d[1] / 16), CharOf((d[1] % 16) * 4)] + "="
    else Group(d[0], d[1], d[2]) + PaddedEncode(d[3..])
  }

  /** rstrip(b"=") */
  function StripPadding(s: string): string {
    if s != "" && s[|s| - 1] == '=' then StripPadding(s[..|s| - 1]) else s
  }

  function Encode(d: seq<byte>): string {
    StripPadding(PaddedEncode(d))
  }

  /** -len(data) % 4 */
  function MissingPadding(s: string): nat {
    (4 - |s| % 4) % 4
  }

  function Equals(n: nat): string {
    seq(n, _ => '=')
  }

  /** binascii.a2b_base64 from the middle of a group: `quad` characters of it are read, `left` holds
      their undelivered bits, `pads` counts the '=' just seen. None is its "Incorrect padding" error. */
  function Decoded(s: string, quad: nat, left: int, pads: nat): Option<seq<byte>>
    requires quad < 4 && 0 <= left < (if quad == 0 then 1 else if quad == 1 then 64 else if quad == 2 then 16 else 4)
    decreases |s|
  {
    if s == "" then
      if quad == 0 then Some([]) else None
    else if s[0] == '=' then
      if quad >= 2 && quad + pads + 1 >= 4 then Some([])
      else Decoded(s[1..], quad, left, if quad >= 2 then pads + 1 else pads)
    else
      match ValueOf(s[0])
      case None => Decoded(s[1..], quad, left, pads)
      case Some(v) =>
        if quad == 0 then Decoded(s[1..], 1, v, 0)
        else if quad == 1 then Emit(left * 4 + v / 16, Decoded(s[1..], 2, v % 16, 0))
        else if quad == 2 then Emit(left * 16 + v / 4, Decoded(s[1..], 3, v % 4, 0))
        else Emit(left * 64 + v, Decoded(s[1..], 0, 0, 0))
  }

  function Emit(b: byte, rest: Option<seq<byte>>): Option<seq<byte>> {
    match rest case None => None case Some(bs) => Some([b] + bs)
  }

  predicate IsAscii(s: string) {
    forall i :: 0 <= i < |s| ==> s[i] as int < 128
  }

  /** `_b64url_decode`: None stands for every exception it can raise. */
  function Decode(s: string): Option<seq<byte>> {
    var padded := s + Equals(MissingPadding(s));
    if IsAscii(padded) then Decoded(padded, 0, 0, 0) else None
  }

  // ---------------------------------------------------------------- the encoder's output

  function PadsOf(n: nat): nat {
    (3 - n % 3) % 3
  }

  /** Whole groups of four, all alphabet but for this many '=' at the end. */
  predicate Padded(p: string, pads: nat) {
    && |p| % 4 == 0 && pads <= |p|
    && (forall i :: 0 <= i < |p| - pads ==> InAlphabet(p[i]))
    && (forall i :: |p| - pads <= i < |p| ==> p[i] == '=')
  }

  lemma GroupStaysPadded(a: char, b: char, c: char, d: char, p: string, pads: nat)
    requires Padded(p, pads) && InAlphabet(a) && InAlphabet(b) && InAlphabet(c) && InAlphabet(d)
    ensures Padded([a, b, c, d] + p, pads)
  {
    var q := [a, b, c, d] + p;
    assert forall i :: 4 <= i < |q| ==> q[i] == p[i - 4];
  }

  lemma TwoThenPads(a: char, b: char)
    requires InAlphabet(a) && InAlphabet(b)
    ensures Padded([a, b] + "==", 2)
  {
  }

  lemma ThreeThenPad(a: char, b: char, c: char)
    requires InAlphabet(a) && InAlphabet(b) && InAlphabet(c)
    ensures Padded([a, b, c] + "=", 1)
  {
  }

  lemma OneByteShape(d: seq<byte>)
    requires |d| == 1
    ensures Padded(PaddedEncode(d), 2)
  {
    var v0, v1: sextet := d[0] / 4, (d[0] % 4) * 16;
    CharRoundTrip(v0);
    CharRoundTrip(v1);
    TwoThenPads(CharOf(v0), CharOf(v1));
  }

  lemma TwoByteShape(d: seq<byte>)
    requires |d| == 2
    ensures Padded(PaddedEncode(d), 1)
  {
    var v0, v1, v2: sextet := d[0] / 4, (d[0] % 4) * 16 + d[1] / 16, (d[1] % 16) * 4;
    CharRoundTrip(v0);
    CharRoundTrip(v1);
    CharRoundTrip(v2);
    ThreeThenPad(CharOf(v0), CharOf(v1), CharOf(v2));
  }

  lemma GroupShape(d: seq<byte>, pads: nat)
    requires |d| >= 3 && Padded(PaddedEncode(d[3..]), pads)
    ensures Padded(PaddedEncode(d), pads)
  {
    var v0, v1: sextet := d[0] / 4, (d[0] % 4) * 16 + d[1] / 16;
    var v2, v3: sextet := (d[1] % 16) * 4 + d[2] / 64, d[2] % 64;
    CharRoundTrip(v0);
    CharRoundTrip(v1);
    CharRoundTrip(v2);
    CharRoundTrip(v3);
    GroupStaysPadded(CharOf(v0), CharOf(v1), CharOf(v2), CharOf(v3), PaddedEncode(d[3..]), pads);
  }

  lemma {:induction false} PaddedShape(d: seq<byte>)
    ensures Padded(PaddedEncode(d), PadsOf(|d|))
    decreases |d|
  {
    if |d| >= 3 {
      PaddedShape(d[3..]);
      assert PadsOf(|d[3..]|) == PadsOf(|d|);
      GroupShape(d, PadsOf(|d|));
    } else if |d| == 2 {
      TwoByteShape(d);
    } else if |d| == 1 {
      OneByteShape(d);
    }
  }

  lemma {:induction false} StripShape(s: string, n: nat)
    requires n <= |s| && (forall i :: n <= i < |s| ==> s[i] == '=') && (n > 0 ==> s[n - 1] != '=')
    ensures StripPadding(s) == s[..n]
    decreases |s|
  {
    if n < |s| {
      StripShape(s[..|s| - 1], n);
      assert s[..|s| - 1][..n] == s[..n];
    }
  }

  lemma EncodeIsBody(d: seq<byte>)
    ensures PadsOf(|d|) <= |PaddedEncode(d)|
    ensures Encode(d) == PaddedEncode(d)[..|PaddedEncode(d)| - PadsOf(|d|)]
    ensures forall i :: 0 <= i < |Encode(d)| ==> InAlphabet(Encode(d)[i])
    ensures PaddedEncode(d) == Encode(d) + Equals(PadsOf(|d|))
  {
    PaddedShape(d);
    BodyAndPads(PaddedEncode(d), PadsOf(|d|));
  }

  lemma BodyAndPads(p: string, pads: nat)
    requires Padded(p, pads)
    ensures StripPadding(p) == p[..|p| - pads]
    ensures p == p[..|p| - pads] + Equals(pads)
  {
    var n := |p| - pads;
    if n > 0 {
      assert InAlphabet(p[n - 1]);
    }
    StripShape(p, n);
    TailIsPads(p, pads);
  }

  lemma TailIsPads(p: string, pads: nat)
    requires pads <= |p| && forall i :: |p| - pads <= i < |p| ==> p[i] == '='
    ensures p == p[..|p| - pads] + Equals(pads)
  {
    var n := |p| - pads;
    assert p == p[..n] + p[n..];
    assert forall i :: 0 <= i < pads ==> p[n..][i] == p[n + i];
    assert p[n..] == Equals(pads);
  }

  /** The text is pure alphabet, never one character over a whole group, and the '=' that
      `-len % 4` puts back are exactly the ones that were stripped. */
  lemma EncodeShape(d: seq<byte>)
    ensures forall i :: 0 <= i < |Encode(d)| ==> InAlphabet(Encode(d)[i])
    ensures |Encode(d)| % 4 != 1
    ensures Encode(d) + Equals(MissingPadding(Encode(d))) == PaddedEncode(d)
  {
    EncodeIsBody(d);
    PaddedShape(d);
    Remainder(|PaddedEncode(d)|, PadsOf(|d|));
  }

  lemma Remainder(length: nat, pads: nat)
    requires length % 4 == 0 && pads <= 2 && pads <= length
    ensures (length - pads) % 4 != 1 && (4 - (length - pads) % 4) % 4 == pads
  {
  }

  // ---------------------------------------------------------------- round trip

  /** How the decoder takes one character of the alphabet. */
  lemma TakesChar(v: sextet, rest: string, quad: nat, left: int)
    requires quad < 4 && 0 <= left < (if quad == 0 then 1 else if quad == 1 then 64 else if quad == 2 then 16 else 4)
    ensures Decoded([CharOf(v)] + rest, quad, left, 0) ==
      if quad == 0 then Decoded(rest, 1, v, 0)
      else if quad == 1 then Emit(left * 4 + v / 16, Decoded(rest, 2, v % 16, 0))
      else if quad == 2 then Emit(left * 16 + v / 4, Decoded(rest, 3, v % 4, 0))
      else Emit(left * 64 + v, Decoded(rest, 0, 0, 0))
  {
    CharRoundTrip(v);
    assert ([CharOf(v)] + rest)[1..] == rest;
  }

  lemma TakesTwo(v0: sextet, v1: sextet, rest: string)
    ensures Decoded([CharOf(v0), CharOf(v1)] + rest, 0, 0, 0) == Emit(v0 * 4 + v1 / 16, Decoded(rest, 2, v1 % 16, 0))
  {
    assert [CharOf(v0), CharOf(v1)] + rest == [CharOf(v0)] + ([CharOf(v1)] + rest);
    TakesChar(v0, [CharOf(v1)] + rest, 0, 0);
    TakesChar(v1, rest, 1, v0);
  }

  lemma DecodesGroup(v0: sextet, v1: sextet, v2: sextet, v3: sextet, rest: string)
    ensures Decoded([CharOf(v0), CharOf(v1), CharOf(v2), CharOf(v3)] + rest, 0, 0, 0)
         == Emit(v0 * 4 + v1 / 16, Emit((v1 % 16) * 16 + v2 / 4, Emit((v2 % 4) * 64 + v3, Decoded(rest, 0, 0, 0))))
  {
    var last := [CharOf(v3)] + rest;
    FourAsTwoOneOne(CharOf(v0), CharOf(v1), CharOf(v2), CharOf(v3), rest);
    TakesTwo(v0, v1, [CharOf(v2)] + last);
    TakesChar(v2, last, 2, v1 % 16);
    TakesChar(v3, rest, 3, v2 % 4);
  }

  lemma FourAsTwoOneOne(a: char, b: char, c: char, d: char, rest: string)
    ensures [a, b, c, d] + rest == [a, b] + ([c] + ([d] + rest))
  {
  }

  lemma DecodesThree(b: seq<byte>)
    requires |b| == 3
    ensures var v0, v1, v2, v3 := b[0] / 4, (b[0] % 4) * 16 + b[1] / 16, (b[1] % 16) * 4 + b[2] / 64, b[2] % 64;
      v0 * 4 + v1 / 16 == b[0] && (v1 % 16) * 16 + v2 / 4 == b[1] && (v2 % 4) * 64 + v3 == b[2]
  {
  }

  lemma TailBits(a: byte, b: byte)
    ensures (a / 4) * 4 + ((a % 4) * 16) / 16 == a
    ensures var v1 := (a % 4) * 16 + b / 16;
      (a / 4) * 4 + v1 / 16 == a && v1 % 16 == b / 16 && (b / 16) * 16 + ((b % 16) * 4) / 4 == b
  {
  }

  lemma DecodesOne(a: byte)
    ensures Decoded(PaddedEncode([a]), 0, 0, 0) == Some([a])
  {
    TailBits(a, 0);
    TakesTwo(a / 4, (a % 4) * 16, "==");
    assert "=="[1..] == "=" && [a] + [] == [a];
  }

  lemma DecodesTwo(a: byte, b: byte)
    ensures Decoded(PaddedEncode([a, b]), 0, 0, 0) == Some([a, b])
  {
    TailBits(a, b);
    var v0, v1, v2 := a / 4, (a % 4) * 16 + b / 16, (b % 16) * 4;
    var rest := [CharOf(v2)] + "=";
    assert PaddedEncode([a, b]) == [CharOf(v0), CharOf(v1)] + rest;
    TakesTwo(v0, v1, rest);
    TakesChar(v2, "=", 2, b / 16);
    assert Decoded("=", 3, v2 % 4, 0) == Some([]);
    assert [b] + [] == [b] && [a] + [b] == [a, b];
  }

  lemma {:induction false} PaddedRoundTrip(d: seq<byte>)
    ensures Decoded(PaddedEncode(d), 0, 0, 0) == Some(d)
    decreases |d|
  {
    if |d| >= 3 {
      PaddedRoundTrip(d[3..]);
      DecodesThree(d[..3]);
      DecodesGroup(d[0] / 4, (d[0] % 4) * 16 + d[1] / 16, (d[1] % 16) * 4 + d[2] / 64, d[2] % 64, PaddedEncode(d[3..]));
      assert d == [d[0]] + ([d[1]] + ([d[2]] + d[3..]));
    } else if |d| == 2 {
      DecodesTwo(d[0], d[1]);
      assert d == [d[0], d[1]];
    } else if |d| == 1 {
      DecodesOne(d[0]);
      assert d == [d[0]];
    }
  }

  /** decode(encode(d)) == d, for every byte sequence. */
  lemma RoundTrip(d: seq<byte>)
    ensures Decode(Encode(d)) == Some(d)
  {
    EncodeShape(d);
    PaddedShape(d);
    PaddedRoundTrip(d);
    var p := PaddedEncode(d);
    forall i | 0 <= i < |p| ensures p[i] as int < 128 {
      assert InAlphabet(p[i]) || p[i] == '=';
    }
  }

  // ---------------------------------------------------------------- which unpadded texts decode

  lemma ValueRoundTrip(c: char)
    requires InAlphabet(c)
    ensures ValueOf(c).Some? && CharOf(ValueOf(c).value) == c
  {
  }

  lemma OneCharNeverDecodes(v: sextet)
    ensures Decoded([CharOf(v)] + "===", 0, 0, 0).None?
  {
    TakesChar(v, "===", 0, 0);
    assert "==="[1..] == "==" && "=="[1..] == "=" && "="[1..] == "";
  }

  lemma TwoCharsDecode(v0: sextet, v1: sextet)
    ensures Decoded([CharOf(v0), CharOf(v1)] + "==", 0, 0, 0).Some?
  {
    TakesTwo(v0, v1, "==");
    assert "=="[1..] == "=";
  }

  lemma ThreeCharsDecode(v0: sextet, v1: sextet, v2: sextet)
    ensures Decoded([CharOf(v0), CharOf(v1)] + ([CharOf(v2)] + "="), 0, 0, 0).Some?
  {
    TakesTwo(v0, v1, [CharOf(v2)] + "=");
    TakesChar(v2, "=", 2, v1 % 16);
    assert Decoded("=", 3, v2 % 4, 0) == Some([]);
  }

  lemma OneCharText(s: string)
    requires |s| == 1 && InAlphabet(s[0])
    ensures Decoded(s + Equals(3), 0, 0, 0).None?
  {
    ValueRoundTrip(s[0]);
    OneCharNeverDecodes(ValueOf(s[0]).value);
    assert s + Equals(3) == [s[0]] + "===";
  }

  lemma TwoCharText(s: string)
    requires |s| == 2 && InAlphabet(s[0]) && InAlphabet(s[1])
    ensures Decoded(s + Equals(2), 0, 0, 0).Some?
  {
    ValueRoundTrip(s[0]);
    ValueRoundTrip(s[1]);
    TwoCharsDecode(ValueOf(s[0]).value, ValueOf(s[1]).value);
    assert s + Equals(2) == [s[0], s[1]] + "==";
  }

  lemma ThreeCharText(s: string)
    requires |s| == 3 && InAlphabet(s[0]) && InAlphabet(s[1]) && InAlphabet(s[2])
    ensures Decoded(s + Equals(1), 0, 0, 0).Some?
  {
    ValueRoundTrip(s[0]);
    ValueRoundTrip(s[1]);
    ValueRoundTrip(s[2]);
    ThreeCharsDecode(ValueOf(s[0]).value, ValueOf(s[1]).value, ValueOf(s[2]).value);
    assert s + Equals(1) == [s[0], s[1]] + ([s[2]] + "=");
  }

  lemma NoText(s: string)
    requires s == ""
    ensures Decoded(s + Equals(MissingPadding(s)), 0, 0, 0).Some?
  {
    assert s + Equals(0) == "";
  }

  lemma ShortTexts(s: string)
    requires |s| < 4 && forall i :: 0 <= i < |s| ==> InAlphabet(s[i])
    ensures Decoded(s + Equals(MissingPadding(s)), 0, 0, 0).Some? <==> |s| != 1
  {
    if |s| == 1 {
      assert MissingPadding(s) == 3;
      OneCharText(s);
    } else if |s| == 2 {
      assert MissingPadding(s) == 2;
      TwoCharText(s);
    } else if |s| == 3 {
      assert MissingPadding(s) == 1;
      ThreeCharText(s);
    } else {
      NoText(s);
    }
  }

  lemma {:induction false} PaddedTextsDecode(s: string)
    requires forall i :: 0 <= i < |s| ==> InAlphabet(s[i])
    ensures Decoded(s + Equals(MissingPadding(s)), 0, 0, 0).Some? <==> |s| % 4 != 1
    decreases |s|
  {
    if |s| < 4 {
      ShortTexts(s);
    } else {
      var rest := s[4..];
      PaddedTextsDecode(rest);
      assert MissingPadding(rest) == MissingPadding(s);
      forall i | 0 <= i < 4 ensures ValueOf(s[i]).Some? && CharOf(ValueOf(s[i]).value) == s[i] {
        ValueRoundTrip(s[i]);
      }
      var v0, v1, v2, v3 := ValueOf(s[0]).value, ValueOf(s[1]).value, ValueOf(s[2]).value, ValueOf(s[3]).value;
      DecodesGroup(v0, v1, v2, v3, rest + Equals(MissingPadding(s)));
      assert s + Equals(MissingPadding(s))
          == [CharOf(v0), CharOf(v1), CharOf(v2), CharOf(v3)] + (rest + Equals(MissingPadding(s)));
    }
  }

  /** Text over the alphabet decodes exactly when its length is not 1 modulo 4. */
  lemma AlphabetTextsDecodeExactly(s: string)
    requires forall i :: 0 <= i < |s| ==> InAlphabet(s[i])
    ensures Decode(s).Some? <==> |s| % 4 != 1
  {
    PaddedTextsDecode(s);
    var padded := s + Equals(MissingPadding(s));
    forall i | 0 <= i < |padded| ensures padded[i] as int < 128 {
      assert i < |s| ==> InAlphabet(s[i]);
    }
  }

  // ---------------------------------------------------------------- the code of the standard

  const UPPER: string := "ABCDEFGHIJKLMNOPQRSTUVWXYZ"
  const LOWER: string := "abcdefghijklmnopqrstuvwxyz"
  const DIGITS: string := "0123456789"

  /** Table 2 of section 5 of RFC 4648. */
  const ALPHABET: string := UPPER + LOWER + DIGITS + "-_"

  lemma Letters(v: sextet)
    requires v < 26
    ensures CharOf(v) == UPPER[v] && CharOf(v + 26) == LOWER[v]
  {
    assert UPPER[v] == ('A' as int + v) as char;
    assert LOWER[v] == ('a' as int + v) as char;
  }

  lemma CharsAreTheTable(v: sextet)
    ensures |ALPHABET| == 64 && CharOf(v) == ALPHABET[v]
  {
    if v < 26 {
      Letters(v);
    } else if v < 52 {
      Letters(v - 26);
    } else if v < 62 {
      assert DIGITS[v - 52] == ('0' as int + (v - 52)) as char;
    }
  }

  /** Both spellings of 62 and 63 are read, and nothing else outside the table. */
  lemma ValuesAreTheTable(c: char)
    ensures ValueOf(c).Some? <==> c in ALPHABET || c == '+' || c == '/'
    ensures ValueOf('+') == Some(62) && ValueOf('/') == Some(63)
    ensures c in ALPHABET ==> ALPHABET[ValueOf(c).value] == c
  {
    if c in ALPHABET {
      var i :| 0 <= i < |ALPHABET| && ALPHABET[i] == c;
      CharsAreTheTable(i);
      CharRoundTrip(i);
    }
    if InAlphabet(c) {
      ValueRoundTrip(c);
      CharsAreTheTable(ValueOf(c).value);
    }
  }

  /** The 24-bit number that three bytes make, the first one highest. */
  function Number(a: int, b: int, c: int): int {
    a * 65536 + b * 256 + c
  }

  /** The i-th of its four 6-bit groups, from the highest. */
  function Digit(bits: int, i: int): sextet {
    (if i == 0 then bits / 262144 else if i == 1 then bits / 4096 else if i == 2 then bits / 64 else bits) % 64
  }

  predicate Spells(text: string, bits: int) {
    |ALPHABET| == 64 && forall i :: 0 <= i < |text| ==> text[i] == ALPHABET[Digit(bits, i)]
  }

  lemma Digits(a: byte, b: byte, c: byte)
    ensures Digit(Number(a, b, c), 0) == a / 4 && Digit(Number(a, b, c), 1) == (a % 4) * 16 + b / 16
    ensures Digit(Number(a, b, c), 2) == (b % 16) * 4 + c / 64 && Digit(Number(a, b, c), 3) == c % 64
  {
    DigitsOfParts(a / 4, (a % 4) * 16 + b / 16, (b % 16) * 4 + c / 64, c % 64);
    assert a == a / 4 * 4 + a % 4 && b == b / 16 * 16 + b % 16 && c == c / 64 * 64 + c % 64;
  }

  lemma DigitsOfParts(v0: sextet, v1: sextet, v2: sextet, v3: sextet)
    ensures var n := v0 * 262144 + v1 * 4096 + v2 * 64 + v3;
      Digit(n, 0) == v0 && Digit(n, 1) == v1 && Digit(n, 2) == v2 && Digit(n, 3) == v3
  {
    var n2 := v0 * 64 + v1;
    var n3 := n2 * 64 + v2;
    var n := n3 * 64 + v3;
    assert n / 64 == n3 && n / 4096 == n2 && n / 262144 == v0;
  }

  lemma DigitsAreSpelled(a: byte, b: byte, c: byte, text: string)
    requires |text| <= 4 && var n := Number(a, b, c); forall i :: 0 <= i < |text| ==> text[i] == CharOf(Digit(n, i))
    ensures Spells(text, Number(a, b, c))
  {
    CharsAreTheTable(0);
    forall i | 0 <= i < |text| ensures text[i] == ALPHABET[Digit(Number(a, b, c), i)] {
      CharsAreTheTable(Digit(Number(a, b, c), i));
    }
  }

  /** Three bytes are one 24-bit number and its four groups; one or two bytes at the end give the first two or
      three groups, the missing bytes read as zero. */
  lemma EncodeSpellsTheBytes(d: seq<byte>)
    ensures |d| == 0 ==> Encode(d) == ""
    ensures |d| == 1 ==> |Encode(d)| == 2 && Spells(Encode(d), Number(d[0], 0, 0))
    ensures |d| == 2 ==> |Encode(d)| == 3 && Spells(Encode(d), Number(d[0], d[1], 0))
    ensures |d| >= 3 ==> |Encode(d)| >= 4 && Spells(Encode(d)[..4], Number(d[0], d[1], d[2]))
    ensures |d| >= 3 ==> Encode(d)[4..] == Encode(d[3..])
  {
    EncodeIsBody(d);
    if |d| == 1 {
      OneByteIsSpelled(d);
    } else if |d| == 2 {
      TwoBytesAreSpelled(d);
    } else if |d| >= 3 {
      ThreeBytesAreSpelled(d);
    }
  }

  lemma OneByteIsSpelled(d: seq<byte>)
    requires |d| == 1
    ensures |PaddedEncode(d)| == 4 && Spells(PaddedEncode(d)[..2], Number(d[0], 0, 0))
  {
    Digits(d[0], 0, 0);
    DigitsAreSpelled(d[0], 0, 0, PaddedEncode(d)[..2]);
  }

  lemma TwoBytesAreSpelled(d: seq<byte>)
    requires |d| == 2
    ensures |PaddedEncode(d)| == 4 && Spells(PaddedEncode(d)[..3], Number(d[0], d[1], 0))
  {
    Digits(d[0], d[1], 0);
    DigitsAreSpelled(d[0], d[1], 0, PaddedEncode(d)[..3]);
  }

  lemma ThreeBytesAreSpelled(d: seq<byte>)
    requires |d| >= 3
    ensures |Encode(d)| >= 4 && Spells(Encode(d)[..4], Number(d[0], d[1], d[2]))
    ensures Encode(d)[4..] == Encode(d[3..])
  {
    StripLeavesTheGroup(d);
    GroupThenRest(d);
  }

  lemma StripLeavesTheGroup(d: seq<byte>)
    requires |d| >= 3
    ensures |Encode(d)| >= 4 && |PaddedEncode(d)| >= 4 && Encode(d)[..4] == PaddedEncode(d)[..4]
    ensures Encode(d)[4..] == Encode(d[3..])
  {
    EncodeIsBody(d);
    EncodeIsBody(d[3..]);
    SamePads(|d|);
    CutBehindTheGroup(Group(d[0], d[1], d[2]), PaddedEncode(d[3..]), PadsOf(|d|));
  }

  lemma SamePads(n: nat)
    requires n >= 3
    ensures PadsOf(n - 3) == PadsOf(n)
  {
  }

  lemma CutBehindTheGroup(group: string, rest: string, pads: nat)
    requires |group| == 4 && pads <= |rest|
    ensures var all := group + rest; var cut := all[..|all| - pads];
      cut[..4] == all[..4] && cut[4..] == rest[..|rest| - pads]
  {
  }

  lemma GroupThenRest(d: seq<byte>)
    requires |d| >= 3
    ensures |PaddedEncode(d)| >= 4 && Spells(PaddedEncode(d)[..4], Number(d[0], d[1], d[2]))
    ensures PaddedEncode(d)[4..] == PaddedEncode(d[3..])
  {
    FirstGroup(d[0], d[1], d[2], PaddedEncode(d[3..]));
  }

  lemma FirstGroup(a: byte, b: byte, c: byte, rest: string)
    ensures |Group(a, b, c)| == 4 && Spells((Group(a, b, c) + rest)[..4], Number(a, b, c))
    ensures (Group(a, b, c) + rest)[4..] == rest
  {
    Digits(a, b, c);
    assert (Group(a, b, c) + rest)[..4] == Group(a, b, c);
    DigitsAreSpelled(a, b, c, Group(a, b, c));
  }
}
