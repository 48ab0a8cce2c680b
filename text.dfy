/** Small string utilities the assistant relies on: optional values, the
    restricted lowercase used for keyword tests, substring search, decimal
    rendering of integers (Python's `str(int)` and f-string `{n}`) and its
    inverse (Python's `int(digits)`), `" ".join`, and `str * int`. */
module Text {

  datatype Option<+T> = None | Some(value: T)

  /** Python's `str.lower()` restricted to ASCII letters and the German
      umlauts; every other character is left as it is. */
  function LowerChar(c: char): char
  {
    if 'A' <= c <= 'Z' then (c as int + 32) as char
    else if c == 'Ä' then 'ä'
    else if c == 'Ö' then 'ö'
    else if c == 'Ü' then 'ü'
    else c
  }

  function Lower(s: string): (r: string)
    ensures |r| == |s|
    ensures forall i :: 0 <= i < |s| ==> r[i] == LowerChar(s[i])
  {
    if s == [] then [] else [LowerChar(s[0])] + Lower(s[1..])
  }

  predicate StartsWith(s: string, prefix: string)
  {
    |prefix| <= |s| && s[..|prefix|] == prefix
  }

  /** Python's `sub in s`. */
  predicate Contains(s: string, sub: string)
    decreases |s|
  {
    StartsWith(s, sub) || (|s| > 0 && Contains(s[1..], sub))
  }

  /** `sub` occurs in `s` starting at position `i`. */
  predicate OccursAt(s: string, sub: string, i: int)
  {
    0 <= i <= |s| - |sub| && s[i..i + |sub|] == sub
  }

  /** `Contains` holds exactly when `sub` occurs at some position of `s`. */
  lemma {:induction false} ContainsOccurs(s: string, sub: string)
    ensures Contains(s, sub) <==> exists i :: OccursAt(s, sub, i)
    decreases |s|
  {
    if StartsWith(s, sub) {
      assert OccursAt(s, sub, 0);
    } else if |s| > 0 {
      ContainsOccurs(s[1..], sub);
      if Contains(s[1..], sub) {
        var i :| OccursAt(s[1..], sub, i);
        assert s[i + 1..i + 1 + |sub|] == s[1..][i..i + |sub|];
        assert OccursAt(s, sub, i + 1);
      }
      if exists i :: OccursAt(s, sub, i) {
        var i :| OccursAt(s, sub, i);
        assert i != 0;
        assert s[1..][i - 1..i - 1 + |sub|] == s[i..i + |sub|];
        assert OccursAt(s[1..], sub, i - 1);
      }
    }
  }

  /** A word with a character that `s` lacks does not occur in `s`. */
  lemma NotContainsMissingChar(s: string, sub: string, c: char)
    requires c in sub && c !in s
    ensures !Contains(s, sub)
  {
    ContainsOccurs(s, sub);
  }

  /** A word does not occur in `s` when each place that starts with its
      first character differs from it at offset `k`. */
  lemma NotContainsMismatch(s: string, sub: string, k: nat)
    requires 0 < k < |sub|
    requires forall i :: 0 <= i <= |s| - |sub| && s[i] == sub[0] ==> s[i + k] != sub[k]
    ensures !Contains(s, sub)
  {
    ContainsOccurs(s, sub);
  }

  /** Python's `any(word in s for word in words)`. */
  predicate ContainsAny(s: string, words: seq<string>)
  {
    |words| > 0 && (Contains(s, words[0]) || ContainsAny(s, words[1..]))
  }

  lemma {:induction false} ContainsAnyWitness(s: string, words: seq<string>)
    ensures ContainsAny(s, words) <==> exists i :: 0 <= i < |words| && Contains(s, words[i])
  {
    if |words| > 0 {
      ContainsAnyWitness(s, words[1..]);
      if exists i :: 0 <= i < |words| && Contains(s, words[i]) {
        var i :| 0 <= i < |words| && Contains(s, words[i]);
        if i > 0 {
          assert words[1..][i - 1] == words[i];
        }
      }
      if ContainsAny(s, words[1..]) {
        var i :| 0 <= i < |words[1..]| && Contains(s, words[1..][i]);
        assert words[i + 1] == words[1..][i];
      }
    }
  }

  predicate IsDigit(c: char)
  {
    '0' <= c <= '9'
  }

  predicate AllDigits(s: string)
  {
    forall i :: 0 <= i < |s| ==> IsDigit(s[i])
  }

  function DigitChar(d: nat): (c: char)
    requires d < 10
    ensures IsDigit(c) && c as int - '0' as int == d
  {
    ('0' as int + d) as char
  }

  /** Decimal rendering of a natural number, without leading zeros. */
  function NatToString(n: nat): (r: string)
    ensures |r| > 0 && AllDigits(r)
    ensures (r[0] == '0') == (n == 0)
  {
    if n < 10 then [DigitChar(n)] else NatToString(n / 10) + [DigitChar(n % 10)]
  }

  /** Python's `int(ds)` for a string of decimal digits (leading zeros allowed). */
  function DigitsValue(ds: string): nat
    requires AllDigits(ds)
  {
    if ds == [] then 0
    else DigitsValue(ds[..|ds| - 1]) * 10 + (ds[|ds| - 1] as int - '0' as int)
  }

  lemma {:induction false} NatToStringRoundTrip(n: nat)
    ensures DigitsValue(NatToString(n)) == n
  {
    if n >= 10 {
      var r := NatToString(n);
      assert r[..|r| - 1] == NatToString(n / 10);
      NatToStringRoundTrip(n / 10);
    }
  }

  lemma NatToStringInjective(a: nat, b: nat)
    requires NatToString(a) == NatToString(b)
    ensures a == b
  {
    NatToStringRoundTrip(a);
    NatToStringRoundTrip(b);
  }

  /** Python's `str(n)` for an `int`. */
  function IntToString(n: int): (r: string)
    ensures |r| > 0
    ensures (r[0] == '-') == (n < 0)
  {
    if n < 0 then "-" + NatToString(-n) else NatToString(n)
  }

  /** A one-character rendering belongs to exactly one single-digit number. */
  lemma IntToStringSingleDigit(n: int, d: nat)
    requires d < 10
    ensures IntToString(n) == [DigitChar(d)] <==> n == d
  {
    if IntToString(n) == [DigitChar(d)] {
      assert n >= 0;
      assert NatToString(n) == NatToString(d);
      NatToStringInjective(n, d);
    }
  }

  /** Python's `sep.join(parts)`. */
  function Join(sep: string, parts: seq<string>): (r: string)
    ensures parts == [] ==> r == ""
    ensures |parts| == 1 ==> r == parts[0]
  {
    if parts == [] then ""
    else if |parts| == 1 then parts[0]
    else parts[0] + sep + Join(sep, parts[1..])
  }

  /** Python's `s * n` (and `n * s`) for a string and an int. */
  function Repeat(s: string, n: int): (r: string)
    ensures |r| == if n <= 0 then 0 else n * |s|
    decreases if n <= 0 then 0 else n
  {
    if n <= 0 then "" else s + Repeat(s, n - 1)
  }

  /** Python's `f"{x:.2f}"` for a value that is an exact multiple of 0.01
      (Python rounds to the nearest cent; on such values that is exact). */
  function FormatCents(x: real): string
  {
    var cents := (x * 100.0).Floor;
    var sign := if cents < 0 then "-" else "";
    var m := if cents < 0 then -cents else cents;
    sign + NatToString(m / 100) + "." + [DigitChar(m % 100 / 10), DigitChar(m % 10)]
  }
}
