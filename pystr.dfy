/**
 * The parts of Python's `str` behaviour that the modelled code relies on:
 * whitespace, `in` on strings, `lower`/`upper`, `replace`, `split()`/`join`,
 * and the string forms accepted by `int()` and `float()`.
 */
module PyStr {
  import opened Wrappers

  /** `c.isspace()` for the characters Python counts as whitespace. */
  predicate IsSpace(c: char) {
    c == ' ' || c == '\t' || c == '\n' || c == '\r' || c == '\U{B}' || c == '\U{C}'
    || ('\U{1C}' <= c <= '\U{1F}') || c == '\U{85}' || c == '\U{A0}' || c == '\U{1680}'
    || ('\U{2000}' <= c <= '\U{200A}') || c == '\U{2028}' || c == '\U{2029}'
    || c == '\U{202F}' || c == '\U{205F}' || c == '\U{3000}'
  }

  predicate NoSpace(s: string) {
    forall i :: 0 <= i < |s| ==> !IsSpace(s[i])
  }

  /** `needle in hay` for two strings. */
  predicate Contains(hay: string, needle: string)
    decreases |hay|
  {
    |needle| <= |hay| && (hay[..|needle|] == needle || (hay != [] && Contains(hay[1..], needle)))
  }

  /** `needle` occurs in `hay` starting at offset `i`. */
  predicate OccursAt(hay: string, needle: string, i: int) {
    0 <= i <= |hay| - |needle| && hay[i..i + |needle|] == needle
  }

  /** `Contains` finds exactly the occurrences of `needle` at some offset of `hay`. */
  lemma {:induction false} ContainsIff(hay: string, needle: string)
    ensures Contains(hay, needle) <==> exists i :: OccursAt(hay, needle, i)
  {
    if |needle| <= |hay| && hay[..|needle|] != needle && hay != [] {
      ContainsIff(hay[1..], needle);
      if exists i :: OccursAt(hay, needle, i) {
        var i :| OccursAt(hay, needle, i);
        assert i > 0;
        assert hay[1..][i - 1..i - 1 + |needle|] == needle;
        assert OccursAt(hay[1..], needle, i - 1);
      }
      if Contains(hay[1..], needle) {
        var j :| OccursAt(hay[1..], needle, j);
        assert hay[j + 1..j + 1 + |needle|] == needle;
        assert OccursAt(hay, needle, j + 1);
      }
    } else if |needle| <= |hay| && hay[..|needle|] == needle {
      assert OccursAt(hay, needle, 0);
    }
  }

  function LowerChar(c: char): char {
    if 'A' <= c <= 'Z' then (c as int + 32) as char else c
  }

  function UpperChar(c: char): char {
    if 'a' <= c <= 'z' then (c as int - 32) as char else c
  }

  /** `s.lower()` on the ASCII letters. */
  function Lower(s: string): string {
    seq(|s|, i requires 0 <= i < |s| => LowerChar(s[i]))
  }

  /** `s.upper()` on the ASCII letters. */
  function Upper(s: string): string {
    seq(|s|, i requires 0 <= i < |s| => UpperChar(s[i]))
  }

  /** `s.replace(a, b)` for one-character `a` and `b`. */
  function ReplaceChar(s: string, a: char, b: char): string {
    seq(|s|, i requires 0 <= i < |s| => if s[i] == a then b else s[i])
  }

  function TrimLeft(s: string): string {
    if s != [] && IsSpace(s[0]) then TrimLeft(s[1..]) else s
  }

  function TrimRight(s: string): string {
    if s != [] && IsSpace(s[|s| - 1]) then TrimRight(s[..|s| - 1]) else s
  }

  /** `s.strip()`. */
  function Strip(s: string): string {
    TrimRight(TrimLeft(s))
  }

  /** The longest prefix of `s` without whitespace. */
  function Word(s: string): (w: string)
    ensures |w| <= |s| && w == s[..|w|] && NoSpace(w)
    ensures s != [] && !IsSpace(s[0]) ==> w != []
    ensures |w| < |s| ==> IsSpace(s[|w|])
  {
    if s == [] || IsSpace(s[0]) then [] else [s[0]] + Word(s[1..])
  }

  /** `s.split()`: the maximal runs of non-whitespace characters, in order. */
  function Split(s: string): seq<string>
    decreases |s|
  {
    if s == [] then []
    else if IsSpace(s[0]) then Split(s[1..])
    else var w := Word(s); [w] + Split(s[|w|..])
  }

  /** `sep.join(parts)`. */
  function Join(sep: string, parts: seq<string>): string {
    if parts == [] then ""
    else if |parts| == 1 then parts[0]
    else parts[0] + sep + Join(sep, parts[1..])
  }

  lemma WordOfWordThenSpace(w: string, rest: string)
    requires NoSpace(w)
    requires rest == [] || IsSpace(rest[0])
    ensures Word(w + rest) == w
  {
    if w != [] {
      assert (w + rest)[1..] == w[1..] + rest;
      WordOfWordThenSpace(w[1..], rest);
    } else {
      assert w + rest == rest;
    }
  }

  /** `split()` undoes `" ".join` for non-empty words without whitespace. */
  lemma {:induction false} SplitJoin(words: seq<string>)
    requires forall i :: 0 <= i < |words| ==> words[i] != [] && NoSpace(words[i])
    ensures Split(Join(" ", words)) == words
  {
    if |words| == 1 {
      WordOfWordThenSpace(words[0], "");
      assert words[0] + "" == words[0];
      assert words[0][|words[0]|..] == [];
    } else if |words| > 1 {
      var w, rest := words[0], Join(" ", words[1..]);
      var s := w + " " + rest;
      assert s == w + (" " + rest);
      WordOfWordThenSpace(w, " " + rest);
      assert s[|w|..] == " " + rest;
      assert (" " + rest)[1..] == rest;
      SplitJoin(words[1..]);
    }
  }

  predicate IsDigit(c: char) {
    '0' <= c <= '9'
  }

  predicate AllDigits(s: string) {
    forall i :: 0 <= i < |s| ==> IsDigit(s[i])
  }

  function DigitValue(c: char): nat
    requires IsDigit(c)
  {
    c as int - '0' as int
  }

  function DigitChar(d: nat): char
    requires d < 10
  {
    ('0' as int + d) as char
  }

  /** The value of a decimal digit string, most significant digit first. */
  function DigitsValue(s: string): nat
    requires AllDigits(s)
  {
    if s == [] then 0 else DigitsValue(s[..|s| - 1]) * 10 + DigitValue(s[|s| - 1])
  }

  /** `int(s)` on a string: surrounding whitespace, an optional sign, then decimal digits. */
  function ParseInt(s: string): Option<int> {
    var t := Strip(s);
    if t != [] && (t[0] == '+' || t[0] == '-') then
      var d := t[1..];
      var v: int := if d != [] && AllDigits(d) then DigitsValue(d) else 0;
      if d != [] && AllDigits(d) then Some(if t[0] == '-' then -v else v)
      else None
    else if t != [] && AllDigits(t) then Some(DigitsValue(t))
    else None
  }

  function Pow10(n: nat): (p: nat)
    ensures p > 0
  {
    if n == 0 then 1 else 10 * Pow10(n - 1)
  }

  /** The index of the first `c` in `s`, or `|s|` when there is none. */
  function IndexOf(s: string, c: char): (k: nat)
    ensures k <= |s| && (k < |s| ==> s[k] == c)
    ensures forall i :: 0 <= i < k ==> s[i] != c
  {
    if s == [] then 0 else if s[0] == c then 0 else 1 + IndexOf(s[1..], c)
  }

  /** An unsigned decimal: digits, optionally a point and more digits, at least one digit in all. */
  function UnsignedDecimal(b: string): Option<real> {
    var k := IndexOf(b, '.');
    var ip := b[..k];
    var fp := if k < |b| then b[k + 1..] else "";
    if AllDigits(ip) && AllDigits(fp) && |ip| + |fp| > 0 then
      Some(DigitsValue(ip) as real + DigitsValue(fp) as real / Pow10(|fp|) as real)
    else None
  }

  /** `float(s)` on a string written in plain decimal notation. */
  function ParseFloat(s: string): Option<real> {
    var t := Strip(s);
    if t != [] && (t[0] == '+' || t[0] == '-') then
      match UnsignedDecimal(t[1..])
      case Some(v) => Some(if t[0] == '-' then -v else v)
      case None => None
    else UnsignedDecimal(t)
  }

  lemma IndexOfAbsent(s: string, c: char)
    requires forall i :: 0 <= i < |s| ==> s[i] != c
    ensures IndexOf(s, c) == |s|
  {
  }

  /** `float(s)` accepts every string `int(s)` accepts, with the same value. */
  lemma ParseFloatExtendsParseInt(s: string, n: int)
    requires ParseInt(s) == Some(n)
    ensures ParseFloat(s) == Some(n as real)
  {
    var t := Strip(s);
    var b := if t[0] == '+' || t[0] == '-' then t[1..] else t;
    assert AllDigits(b);
    IndexOfAbsent(b, '.');
    assert b[..|b|] == b;
  }

  function NatToString(n: nat): (s: string)
    ensures s != [] && AllDigits(s)
  {
    if n < 10 then [DigitChar(n)] else NatToString(n / 10) + [DigitChar(n % 10)]
  }

  /** `str(n)` for an integer. */
  function IntToString(n: int): string {
    if n < 0 then "-" + NatToString(-n) else NatToString(n)
  }

  lemma {:induction false} NatToStringValue(n: nat)
    ensures DigitsValue(NatToString(n)) == n
  {
    var s := NatToString(n);
    if n >= 10 {
      NatToStringValue(n / 10);
      assert s[..|s| - 1] == NatToString(n / 10);
    }
  }

  lemma StripNoOp(s: string)
    requires s != [] && !IsSpace(s[0]) && !IsSpace(s[|s| - 1])
    ensures Strip(s) == s
  {
  }

  /** `int(str(n)) == n`. */
  lemma ParseIntRoundTrip(n: int)
    ensures ParseInt(IntToString(n)) == Some(n)
  {
    var s := IntToString(n);
    var d := NatToString(if n < 0 then -n else n);
    assert !IsSpace(d[|d| - 1]) && IsDigit(d[0]);
    StripNoOp(s);
    NatToStringValue(if n < 0 then -n else n);
    if n < 0 {
      assert s[1..] == d;
    }
  }
}
