/**
 * The string operations of the .NET base library that the modelled code relies on:
 * Trim, IsNullOrWhiteSpace, ordinal case-insensitive Contains, Split on one character,
 * and the ToString forms of integers and booleans.
 */
module Text {

  /**
   * `char.IsWhiteSpace`, the test Trim and IsNullOrWhiteSpace use: the Latin-1 controls
   * and spaces, the Unicode space separators, and the line and paragraph separators.
   */
  predicate IsWhiteSpace(c: char)
  {
    c == ' ' || c == '\t' || c == '\n' || c == '\r' || c == '\U{000B}' || c == '\U{000C}'
    || c == '\U{0085}' || c == '\U{00A0}' || c == '\U{1680}' || '\U{2000}' <= c <= '\U{200A}'
    || c == '\U{2028}' || c == '\U{2029}' || c == '\U{202F}' || c == '\U{205F}' || c == '\U{3000}'
  }

  predicate AllWhiteSpace(s: string)
  {
    forall i | 0 <= i < |s| :: IsWhiteSpace(s[i])
  }

  /** string.IsNullOrWhiteSpace for a non-null string. */
  predicate IsEmptyOrWhiteSpace(s: string)
  {
    AllWhiteSpace(s)
  }

  function TrimStart(s: string): (r: string)
    ensures |r| <= |s| && r == s[|s| - |r|..]
    ensures r == [] || !IsWhiteSpace(r[0])
    ensures AllWhiteSpace(s[..|s| - |r|])
  {
    if s != [] && IsWhiteSpace(s[0]) then TrimStart(s[1..]) else s
  }

  function TrimEnd(s: string): (r: string)
    ensures |r| <= |s| && r == s[..|r|]
    ensures r == [] || !IsWhiteSpace(r[|r| - 1])
    ensures AllWhiteSpace(s[|r|..])
  {
    if s != [] && IsWhiteSpace(s[|s| - 1]) then TrimEnd(s[..|s| - 1]) else s
  }

  /** string.Trim(): leading and trailing white space removed. */
  function Trim(s: string): string
  {
    TrimEnd(TrimStart(s))
  }

  /** A string trims to "" exactly when it is empty or white space only. */
  lemma TrimEmptyIff(s: string)
    ensures Trim(s) == "" <==> AllWhiteSpace(s)
  {
    var t := TrimStart(s);
    if Trim(s) == "" {
      assert AllWhiteSpace(t[0..]);
      assert t == [];
      assert s[..|s|] == s;
    }
  }

  /** Ordinal upper-casing of one character (ASCII letters; see README, Left out). */
  function Upper(c: char): char
  {
    if 'a' <= c <= 'z' then (c as int - 32) as char else c
  }

  function UpperAll(s: string): (r: string)
    ensures |r| == |s|
    ensures forall i | 0 <= i < |s| :: r[i] == Upper(s[i])
  {
    seq(|s|, i requires 0 <= i < |s| => Upper(s[i]))
  }

  /** s.Contains(part, StringComparison.OrdinalIgnoreCase). */
  predicate ContainsIgnoreCase(s: string, part: string)
  {
    exists i | 0 <= i <= |s| :: MatchesAt(s, part, i)
  }

  /** `part` occurs in `s` at position `i`, ignoring the case of letters. */
  predicate MatchesAt(s: string, part: string, i: int)
  {
    0 <= i && i + |part| <= |s| && UpperAll(s[i..i + |part|]) == UpperAll(part)
  }

  /** Every string contains the empty string. */
  lemma ContainsEmpty(s: string)
    ensures ContainsIgnoreCase(s, "")
  {
    assert MatchesAt(s, "", 0);
  }

  /** A string contains itself, whatever the case of its letters. */
  lemma ContainsItself(s: string)
    ensures ContainsIgnoreCase(s, s)
  {
    assert s[0..|s|] == s;
    assert MatchesAt(s, s, 0);
  }

  function DigitChar(d: nat): char
    requires d < 10
  {
    "0123456789"[d]
  }

  /** The decimal digits of a natural number, as int.ToString() prints them. */
  function NatToString(n: nat): (r: string)
    ensures |r| >= 1
    ensures forall i | 0 <= i < |r| :: '0' <= r[i] <= '9'
  {
    if n < 10 then [DigitChar(n)] else NatToString(n / 10) + [DigitChar(n % 10)]
  }

  /** int.ToString() / long.ToString() in the invariant culture. */
  function IntToString(i: int): (r: string)
    ensures forall k | 0 <= k < |r| :: r[k] == '-' || '0' <= r[k] <= '9'
  {
    if i < 0 then "-" + NatToString(-i) else NatToString(i)
  }

  /** The inverse of NatToString. */
  function ParseNat(s: string): nat
  {
    if s == [] then 0 else ParseNat(s[..|s| - 1]) * 10 + (s[|s| - 1] as int - '0' as int) % 10
  }

  lemma {:induction false} ParseNatToString(n: nat)
    ensures ParseNat(NatToString(n)) == n
  {
    var s := NatToString(n);
    if n >= 10 {
      ParseNatToString(n / 10);
      assert s[..|s| - 1] == NatToString(n / 10);
    }
  }

  /** The printed form starts with a minus sign exactly for negative numbers. */
  lemma {:induction false} IntToStringSign(i: int)
    ensures |IntToString(i)| >= 1
    ensures IntToString(i)[0] == '-' <==> i < 0
  {
    if i >= 0 {
      assert '0' <= NatToString(i)[0] <= '9';
    }
  }

  /** Distinct integers print differently, so labels built from ids never collide. */
  lemma {:induction false} IntToStringInjective(a: int, b: int)
    requires IntToString(a) == IntToString(b)
    ensures a == b
  {
    IntToStringSign(a);
    IntToStringSign(b);
    if a < 0 {
      NatInjective(-a, -b, IntToString(a)[1..]);
    } else {
      NatInjective(a, b, IntToString(a));
    }
  }

  lemma NatInjective(m: nat, n: nat, s: string)
    requires s == NatToString(m) == NatToString(n)
    ensures m == n
  {
    ParseNatToString(m);
    ParseNatToString(n);
  }

  /** bool.ToString(). */
  function BoolToString(b: bool): string
  {
    if b then "True" else "False"
  }

  /** string.Split(separator): the fields between separators, empty ones included. */
  function Split(s: string, separator: char): (r: seq<string>)
    ensures |r| >= 1
    ensures forall k | 0 <= k < |r| :: separator !in r[k]
  {
    if s == [] then [""]
    else
      var rest := Split(s[1..], separator);
      if s[0] == separator then [""] + rest else [[s[0]] + rest[0]] + rest[1..]
  }

  /** string.Join(separator, fields). */
  function Join(fields: seq<string>, separator: char): string
    requires |fields| >= 1
  {
    if |fields| == 1 then fields[0] else fields[0] + [separator] + Join(fields[1..], separator)
  }

  /** Split loses nothing: joining the fields back gives the original string. */
  lemma {:induction false} JoinSplit(s: string, separator: char)
    ensures Join(Split(s, separator), separator) == s
  {
    if s != [] {
      var rest := Split(s[1..], separator);
      JoinSplit(s[1..], separator);
      if s[0] != separator {
        var r := Split(s, separator);
        assert r[1..] == rest[1..];
        if |rest| > 1 {
          assert rest == [rest[0]] + rest[1..];
          assert Join(rest, separator) == rest[0] + [separator] + Join(rest[1..], separator);
        }
      }
    }
  }

  /** The first field is the whole string exactly when the separator does not occur. */
  lemma {:induction false} SplitFirstField(s: string, separator: char)
    ensures Split(s, separator)[0] == s <==> separator !in s
    ensures separator in s ==> |Split(s, separator)| >= 2
  {
    if s != [] {
      SplitFirstField(s[1..], separator);
      if s[0] != separator {
        assert separator in s <==> separator in s[1..];
      } else {
        assert s[0] in s;
      }
    }
  }
}
