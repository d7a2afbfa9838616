/** The fragment of `JSON.stringify` the catalogue store needs: integers,
    booleans and strings, with the facts that say the text can be read back:
    each rendering determines the value it renders and where it ends. */
module Json {

  /** Proof step: a common prefix can be dropped. */
  lemma AppendCancel(p: string, x: string, y: string)
    requires p + x == p + y
    ensures x == y
  {
    assert x == (p + x)[|p|..];
    assert y == (p + y)[|p|..];
  }

  /** Proof step: two splits of one text at the same place agree. */
  lemma AppendSplit(a: string, b: string, x: string, y: string)
    requires a + x == b + y && |a| == |b|
    ensures a == b && x == y
  {
    assert a == (a + x)[..|a|] && b == (b + y)[..|b|];
    assert x == (a + x)[|a|..] && y == (b + y)[|b|..];
  }

  predicate Digit(c: char)
  {
    '0' as int <= c as int <= '9' as int
  }

  function DigitChar(d: nat): (c: char)
    requires d < 10
    ensures Digit(c) && c as int - '0' as int == d
  {
    ('0' as int + d) as char
  }

  /** A lower-case hexadecimal digit. */
  function HexChar(d: nat): (c: char)
    requires d < 16
    ensures d < 10 ==> Digit(c) && c as int - '0' as int == d
    ensures d >= 10 ==> 'a' <= c <= 'f' && c as int - 'a' as int + 10 == d
  {
    if d < 10 then ('0' as int + d) as char else ('a' as int + d - 10) as char
  }

  /** The value of a string of decimal digits. */
  function ParseNat(s: string): nat
    requires forall i :: 0 <= i < |s| ==> Digit(s[i])
  {
    if s == [] then 0
    else
      assert Digit(s[|s| - 1]);
      ParseNat(s[..|s| - 1]) * 10 + (s[|s| - 1] as int - '0' as int)
  }

  /** Decimal digits of `n`, most significant first, with no leading zero;
      reading them back gives `n`. */
  function NatToString(n: nat): (s: string)
    ensures 1 <= |s|
    ensures forall i :: 0 <= i < |s| ==> Digit(s[i])
    ensures |s| > 1 ==> s[0] != '0'
    ensures ParseNat(s) == n
  {
    if n < 10 then [DigitChar(n)]
    else
      var s := NatToString(n / 10) + [DigitChar(n % 10)];
      assert s[..|s| - 1] == NatToString(n / 10);
      s
  }

  /** The value of an optional minus sign followed by decimal digits. */
  function ParseInt(s: string): int
    requires s != [] && (s[0] == '-' || Digit(s[0]))
    requires forall i :: 1 <= i < |s| ==> Digit(s[i])
  {
    if s[0] == '-' then 0 - ParseNat(s[1..]) else ParseNat(s)
  }

  /** How `JSON.stringify` renders an integral number: a minus sign exactly
      for a negative number, then digits; reading the text back gives `i`. */
  function Number(i: int): (s: string)
    ensures 1 <= |s|
    ensures (s[0] == '-') <==> i < 0
    ensures s[0] == '-' || Digit(s[0])
    ensures forall j :: 1 <= j < |s| ==> Digit(s[j])
    ensures ParseInt(s) == i
  {
    if i < 0 then
      var s := "-" + NatToString(-i);
      assert s[1..] == NatToString(-i);
      s
    else NatToString(i)
  }

  /** The length of the run of digits `t` starts with. */
  function DigitPrefix(t: string): nat
  {
    if t == [] || !Digit(t[0]) then 0 else 1 + DigitPrefix(t[1..])
  }

  /** Digits followed by a non-digit, or by nothing: the run is exactly the digits. */
  lemma {:induction false} DigitPrefixOf(s: string, t: string)
    requires forall i :: 0 <= i < |s| ==> Digit(s[i])
    requires t == [] || !Digit(t[0])
    ensures DigitPrefix(s + t) == |s|
  {
    if s == [] {
      assert s + t == t;
    } else {
      DigitPrefixOf(s[1..], t);
      assert (s + t)[0] == s[0] && (s + t)[1..] == s[1..] + t;
    }
  }

  /** A rendered number followed by a non-digit (a comma or a closing brace
      where it is used) is read back unambiguously: the number and what
      follows it are both determined by the text. */
  lemma {:induction false} NumberDelimits(i: int, j: int, t1: string, t2: string)
    requires t1 == [] || !Digit(t1[0])
    requires t2 == [] || !Digit(t2[0])
    requires Number(i) + t1 == Number(j) + t2
    ensures i == j && t1 == t2
  {
    var a, b := Number(i), Number(j);
    assert (a + t1)[0] == a[0] && (b + t2)[0] == b[0];
    var m: nat := if i < 0 then -i else i;
    var n: nat := if j < 0 then -j else j;
    var da, db := NatToString(m), NatToString(n);
    var sign := if i < 0 then "-" else "";
    NumberParts(i, t1);
    NumberParts(j, t2);
    AppendSplit(sign, sign, da + t1, db + t2);
    DigitPrefixOf(da, t1);
    DigitPrefixOf(db, t2);
    AppendSplit(da, db, t1, t2);
  }

  /** A rendered number is its sign and then the digits of its magnitude. */
  lemma NumberParts(i: int, t: string)
    ensures Number(i) + t == (if i < 0 then "-" else "") + (NatToString(if i < 0 then -i else i) + t)
  {
  }

  function Boolean(b: bool): string
  {
    if b then "true" else "false"
  }

  /** A character `JSON.stringify` copies as it is. */
  predicate Plain(c: char)
  {
    c != '"' && c != '\\' && c as int >= 0x20
  }

  /** `JSON.stringify` of one character inside a string literal: the quote,
      the backslash and the control characters are escaped, the short forms
      where JSON has one and `\u00xx` with lower-case hex otherwise. An
      escaped character never starts with a double quote. */
  function EscapeChar(c: char): (s: string)
    ensures 1 <= |s| && s[0] != '"'
    ensures |s| == 1 <==> Plain(c)
    ensures |s| == 1 ==> s == [c]
    ensures |s| > 1 ==> s[0] == '\\'
  {
    if c == '"' then "\\\""
    else if c == '\\' then "\\\\"
    else if c as int == 0x08 then "\\b"
    else if c as int == 0x0C then "\\f"
    else if c == '\n' then "\\n"
    else if c == '\r' then "\\r"
    else if c == '\t' then "\\t"
    else if c as int < 0x20 then "\\u00" + [HexChar(c as int / 16), HexChar(c as int % 16)]
    else [c]
  }

  /** The value of a lower-case hexadecimal digit. */
  function HexValue(c: char): int
  {
    if Digit(c) then c as int - '0' as int else c as int - 'a' as int + 10
  }

  /** The character an escape sequence `e` stands for. */
  function UnescapeChar(e: string): char
    requires e != []
  {
    if |e| < 2 then e[0]
    else if e[1] == 'b' then 8 as char
    else if e[1] == 'f' then 12 as char
    else if e[1] == 'n' then '\n'
    else if e[1] == 'r' then '\r'
    else if e[1] == 't' then '\t'
    else if e[1] == 'u' && |e| == 6 && 0 <= HexValue(e[4]) * 16 + HexValue(e[5]) < 0x20 then
      (HexValue(e[4]) * 16 + HexValue(e[5])) as char
    else e[1]
  }

  /** Unescaping undoes escaping, so distinct characters escape to distinct texts. */
  lemma EscapeCharRoundTrip(c: char)
    ensures UnescapeChar(EscapeChar(c)) == c
  {
    if Plain(c) {
    } else if c as int < 0x20 && c as int != 0x08 && c as int != 0x0C && c != '\n' && c != '\r' && c != '\t' {
      var e := EscapeChar(c);
      assert e[4] == HexChar(c as int / 16) && e[5] == HexChar(c as int % 16);
      assert HexValue(e[4]) * 16 + HexValue(e[5]) == c as int;
    }
  }

  /** The length of the escape sequence at the head of `t`: one plain
      character, a backslash with `u` and four hex digits, or a backslash
      and one more character. */
  function EscapeLength(t: string): nat
    requires t != []
  {
    if t[0] != '\\' then 1 else if |t| > 1 && t[1] == 'u' then 6 else 2
  }

  lemma EscapeLengthOf(c: char, t: string)
    ensures EscapeLength(EscapeChar(c) + t) == |EscapeChar(c)|
  {
    var e := EscapeChar(c);
    assert (e + t)[0] == e[0];
    if |e| > 1 {
      assert (e + t)[1] == e[1];
    }
  }

  /** An escaped character followed by anything is read back unambiguously. */
  lemma {:induction false} EscapeCharDelimits(a: char, b: char, x: string, y: string)
    requires EscapeChar(a) + x == EscapeChar(b) + y
    ensures a == b && x == y
  {
    var ea, eb := EscapeChar(a), EscapeChar(b);
    EscapeLengthOf(a, x);
    EscapeLengthOf(b, y);
    assert ea == (ea + x)[..|ea|] == (eb + y)[..|eb|] == eb;
    assert x == (ea + x)[|ea|..] == (eb + y)[|eb|..] == y;
    EscapeCharRoundTrip(a);
    EscapeCharRoundTrip(b);
  }

  function EscapeAll(s: string): string
  {
    if s == [] then [] else EscapeChar(s[0]) + EscapeAll(s[1..])
  }

  /** Text made of plain characters is copied unchanged. */
  lemma {:induction false} EscapeAllPlain(s: string)
    requires forall i :: 0 <= i < |s| ==> Plain(s[i])
    ensures EscapeAll(s) == s
  {
    if s != [] {
      EscapeAllPlain(s[1..]);
      assert s == [s[0]] + s[1..];
    }
  }

  /** Reads escaped text up to the first unescaped double quote (or the end):
      the characters it stands for, and the rest of the text from that quote. */
  function ReadEscaped(t: string): (string, string)
    decreases |t|
  {
    if t == [] || t[0] == '"' then ([], t)
    else
      var n := if EscapeLength(t) <= |t| then EscapeLength(t) else |t|;
      var rest := ReadEscaped(t[n..]);
      ([UnescapeChar(t[..n])] + rest.0, rest.1)
  }

  /** Reading back one escaped character gives that character and moves
      past exactly its escape sequence. */
  lemma ReadEscapedStep(c: char, r: string)
    ensures ReadEscaped(EscapeChar(c) + r) == ([c] + ReadEscaped(r).0, ReadEscaped(r).1)
  {
    var e := EscapeChar(c);
    var text := e + r;
    assert text[0] == e[0];
    EscapeLengthOf(c, r);
    assert text[..|e|] == e && text[|e|..] == r;
    EscapeCharRoundTrip(c);
  }

  /** Reading back escaped text followed by a double quote gives the original
      text and stops at that quote. */
  lemma {:induction false} ReadEscapedOf(s: string, t: string)
    requires t != [] && t[0] == '"'
    ensures ReadEscaped(EscapeAll(s) + t) == (s, t)
  {
    if s == [] {
      assert EscapeAll(s) + t == t;
    } else {
      var r := EscapeAll(s[1..]) + t;
      assert EscapeAll(s) + t == EscapeChar(s[0]) + r;
      ReadEscapedStep(s[0], r);
      ReadEscapedOf(s[1..], t);
      assert s == [s[0]] + s[1..];
    }
  }

  /** The escaped text ends at the first unescaped double quote: an escaped
      string followed by a double quote is read back unambiguously. */
  lemma EscapeAllDelimits(s1: string, s2: string, t1: string, t2: string)
    requires t1 != [] && t1[0] == '"' && t2 != [] && t2[0] == '"'
    requires EscapeAll(s1) + t1 == EscapeAll(s2) + t2
    ensures s1 == s2 && t1 == t2
  {
    ReadEscapedOf(s1, t1);
    ReadEscapedOf(s2, t2);
  }

  /** `JSON.stringify` of a string: the escaped text between double quotes. */
  function Quote(s: string): (q: string)
    ensures 2 <= |q| && q[0] == '"' && q[|q| - 1] == '"'
  {
    "\"" + EscapeAll(s) + "\""
  }

  /** A quoted string followed by anything is read back unambiguously: the
      string and what follows its closing quote are both determined. */
  lemma {:induction false} QuoteDelimits(s1: string, s2: string, t1: string, t2: string)
    requires Quote(s1) + t1 == Quote(s2) + t2
    ensures s1 == s2 && t1 == t2
  {
    var q1, q2 := "\"" + t1, "\"" + t2;
    QuoteParts(s1, t1);
    QuoteParts(s2, t2);
    AppendCancel("\"", EscapeAll(s1) + q1, EscapeAll(s2) + q2);
    assert q1[0] == '"' && q2[0] == '"';
    EscapeAllDelimits(s1, s2, q1, q2);
    AppendCancel("\"", t1, t2);
  }

  lemma QuoteParts(s: string, t: string)
    ensures Quote(s) + t == "\"" + (EscapeAll(s) + ("\"" + t))
  {
  }

  /** The elements of `parts` separated by commas. */
  function JoinCommas(parts: seq<string>): string
  {
    if parts == [] then ""
    else if |parts| == 1 then parts[0]
    else parts[0] + "," + JoinCommas(parts[1..])
  }

  lemma JoinCommasCons(m: string, rest: seq<string>)
    ensures JoinCommas([m] + rest) == if rest == [] then m else m + "," + JoinCommas(rest)
  {
    assert ([m] + rest)[0] == m && ([m] + rest)[1..] == rest;
  }
}
