/**
 * The few PHP string and array primitives the modelled code relies on, written out
 * with the semantics PHP gives them.  PHP strings are byte strings; here they are
 * sequences of characters.
 */
module Php {

  /** PHP truthiness of a string used as a condition: "" and "0" are false. */
  predicate Truthy(s: string) {
    s != "" && s != "0"
  }

  /** A character of the PCRE class `\w` (no locale, no UTF mode): [A-Za-z0-9_]. */
  predicate IsWordChar(c: char) {
    ('a' <= c <= 'z') || ('A' <= c <= 'Z') || ('0' <= c <= '9') || c == '_'
  }

  /** `implode($sep, $parts)`: the parts with `sep` between consecutive ones. */
  function Implode(sep: string, parts: seq<string>): string {
    if |parts| == 0 then ""
    else if |parts| == 1 then parts[0]
    else parts[0] + sep + Implode(sep, parts[1..])
  }

  /** `explode($sep, $s)` for a one-character separator: the pieces between the separators. */
  function Explode(sep: char, s: string): (parts: seq<string>)
    ensures |parts| >= 1
    ensures forall i :: 0 <= i < |parts| ==> sep !in parts[i]
  {
    if s == [] then [[]]
    else
      var rest := Explode(sep, s[1..]);
      if s[0] == sep then [[]] + rest
      else [[s[0]] + rest[0]] + rest[1..]
  }

  /** `explode($sep, $s, 2)`: the text before the first separator and, if there is one, everything after it. */
  function ExplodeLimit2(sep: char, s: string): (parts: seq<string>)
    ensures 1 <= |parts| <= 2
    ensures sep !in parts[0]
    ensures |parts| == 1 <==> sep !in s
    ensures Implode([sep], parts) == s
  {
    if s == [] then [[]]
    else if s[0] == sep then [[], s[1..]]
    else
      var rest := ExplodeLimit2(sep, s[1..]);
      [[s[0]] + rest[0]] + rest[1..]
  }

  /** Joining the pieces of `explode` with the separator gives back the string. */
  lemma {:induction false} ImplodeExplode(sep: char, s: string)
    ensures Implode([sep], Explode(sep, s)) == s
  {
    if s != [] {
      ImplodeExplode(sep, s[1..]);
      var rest := Explode(sep, s[1..]);
      if s[0] != sep && |rest| > 1 {
        assert Implode([sep], rest) == rest[0] + [sep] + Implode([sep], rest[1..]);
        assert ([[s[0]] + rest[0]] + rest[1..])[1..] == rest[1..];
      }
    }
  }

  /** A string without the separator is one piece. */
  lemma {:induction false} ExplodeNoSeparator(sep: char, a: string)
    requires sep !in a
    ensures Explode(sep, a) == [a]
  {
    if a != [] {
      assert sep !in a[1..];
      ExplodeNoSeparator(sep, a[1..]);
      assert [a[0]] + a[1..] == a;
    }
  }

  /** A separator-free prefix followed by the separator is the first piece. */
  lemma {:induction false} ExplodeCons(sep: char, a: string, rest: string)
    requires sep !in a
    ensures Explode(sep, a + [sep] + rest) == [a] + Explode(sep, rest)
  {
    var s := a + [sep] + rest;
    if a == [] {
      assert s[1..] == rest;
    } else {
      assert s[1..] == a[1..] + [sep] + rest;
      assert sep !in a[1..];
      ExplodeCons(sep, a[1..], rest);
      assert [a[0]] + a[1..] == a;
    }
  }

  /** `explode` undoes `implode` when no part contains the separator. */
  lemma {:induction false} ExplodeImplode(sep: char, parts: seq<string>)
    requires |parts| >= 1
    requires forall i :: 0 <= i < |parts| ==> sep !in parts[i]
    ensures Explode(sep, Implode([sep], parts)) == parts
  {
    if |parts| == 1 {
      ExplodeNoSeparator(sep, parts[0]);
    } else {
      ExplodeImplode(sep, parts[1..]);
      ExplodeCons(sep, parts[0], Implode([sep], parts[1..]));
      assert [parts[0]] + parts[1..] == parts;
    }
  }

  /** With limit 2, a separator-free head and the separator split into exactly that head and the rest. */
  lemma {:induction false} ExplodeLimit2Split(sep: char, a: string, b: string)
    requires sep !in a
    ensures ExplodeLimit2(sep, a + [sep] + b) == [a, b]
  {
    var s := a + [sep] + b;
    if a == [] {
      assert s[1..] == b;
    } else {
      assert s[1..] == a[1..] + [sep] + b;
      assert sep !in a[1..];
      ExplodeLimit2Split(sep, a[1..], b);
      assert [a[0]] + a[1..] == a;
    }
  }

  /** A PHP array key: strings holding a canonical decimal integer become integer keys. */
  datatype ArrayKey = IntKey(i: int) | StringKey(s: string)

  const PHP_INT_MAX: int := 0x7FFF_FFFF_FFFF_FFFF
  const PHP_INT_MIN: int := -0x8000_0000_0000_0000

  predicate IsDigit(c: char) {
    '0' <= c <= '9'
  }

  predicate AllDigits(s: string) {
    forall i :: 0 <= i < |s| ==> IsDigit(s[i])
  }

  function DigitsValue(s: string): nat
    requires AllDigits(s)
  {
    if s == [] then 0
    else DigitsValue(s[..|s| - 1]) * 10 + (s[|s| - 1] as int - '0' as int)
  }

  /** "0", or digits without a leading zero, optionally after a minus sign. */
  predicate CanonicalDecimal(s: string) {
    s == "0"
    || (|s| >= 1 && '1' <= s[0] <= '9' && AllDigits(s[1..]))
    || (|s| >= 2 && s[0] == '-' && '1' <= s[1] <= '9' && AllDigits(s[2..]))
  }

  function DecimalValue(s: string): int
    requires CanonicalDecimal(s)
  {
    if s[0] == '-' then -(DigitsValue(s[1..]) as int) else DigitsValue(s)
  }

  /** The key PHP stores when a string is used as an array key. */
  function NormalizeKey(s: string): (k: ArrayKey)
    ensures k.StringKey? ==> k.s == s
    ensures !CanonicalDecimal(s) ==> k == StringKey(s)
  {
    if CanonicalDecimal(s) && PHP_INT_MIN <= DecimalValue(s) <= PHP_INT_MAX
    then IntKey(DecimalValue(s))
    else StringKey(s)
  }

  /** ASCII lower-casing, as PHP's case-insensitive comparisons do. */
  function ToLowerAscii(s: string): (r: string)
    ensures |r| == |s|
  {
    if s == [] then []
    else
      var c := s[0];
      [if 'A' <= c <= 'Z' then (c as int + 32) as char else c] + ToLowerAscii(s[1..])
  }

  /** The characters `filter_var` trims before validating. */
  predicate IsFilterSpace(c: char) {
    c == ' ' || c == '\t' || c == '\r' || c == '\n' || c == '\0' || c == 11 as char
  }

  function TrimStart(s: string): string {
    if s != [] && IsFilterSpace(s[0]) then TrimStart(s[1..]) else s
  }

  function TrimEnd(s: string): string {
    if s != [] && IsFilterSpace(s[|s| - 1]) then TrimEnd(s[..|s| - 1]) else s
  }

  /**
   * `filter_var($v, FILTER_VALIDATE_BOOLEAN)` without FILTER_NULL_ON_FAILURE: true for
   * "1", "true", "on" and "yes" (any case, surrounding blanks ignored), false for everything else.
   */
  function FilterBoolean(v: string): bool {
    ToLowerAscii(TrimEnd(TrimStart(v))) in {"1", "true", "on", "yes"}
  }

  /** Decimal text of a natural number, as PHP's string conversion writes it. */
  function NatToString(n: nat): (s: string)
    ensures |s| >= 1
    ensures AllDigits(s)
  {
    var d := ['0' + (n % 10) as char];
    if n < 10 then d else NatToString(n / 10) + d
  }
}
