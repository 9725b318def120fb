/** The small slice of Kotlin's string library the application relies on:
    `startsWith`, `endsWith`, `Int.toString` for non-negative counts and
    `List<String>.toString`. */
module Strings {

  /** Kotlin's `String.startsWith(prefix)`. */
  predicate StartsWith(s: string, prefix: string) {
    |prefix| <= |s| && s[..|prefix|] == prefix
  }

  /** Kotlin's `String.endsWith(suffix)`. */
  predicate EndsWith(s: string, suffix: string) {
    |suffix| <= |s| && s[|s| - |suffix|..] == suffix
  }

  /** `s` starts with `prefix` exactly when it is `prefix` followed by something. */
  lemma StartsWithIffPrefixConcat(s: string, prefix: string)
    ensures StartsWith(s, prefix) <==> exists rest :: s == prefix + rest
  {
    if StartsWith(s, prefix) {
      assert s == prefix + s[|prefix|..];
    }
    if exists rest :: s == prefix + rest {
      var rest :| s == prefix + rest;
      assert s[..|prefix|] == prefix;
    }
  }

  /** `s` ends with `suffix` exactly when it is something followed by `suffix`. */
  lemma EndsWithIffConcatSuffix(s: string, suffix: string)
    ensures EndsWith(s, suffix) <==> exists front :: s == front + suffix
  {
    if EndsWith(s, suffix) {
      assert s == s[..|s| - |suffix|] + suffix;
    }
    if exists front :: s == front + suffix {
      var front :| s == front + suffix;
      assert s[|s| - |suffix|..] == suffix;
    }
  }

  predicate IsDigit(c: char) {
    '0' <= c <= '9'
  }

  function DigitChar(d: nat): (c: char)
    requires d < 10
    ensures IsDigit(c)
  {
    ('0' as int + d) as char
  }

  function DigitValue(c: char): nat
    requires IsDigit(c)
  {
    (c as int - '0' as int) as nat
  }

  /** Decimal rendering of a non-negative Kotlin `Int`, as string templates print it. */
  function NatToString(n: nat): (r: string)
    ensures |r| >= 1
    ensures forall i :: 0 <= i < |r| ==> IsDigit(r[i])
    ensures r[0] == '0' ==> n == 0
    decreases n
  {
    if n < 10 then [DigitChar(n)] else NatToString(n / 10) + [DigitChar(n % 10)]
  }

  /** Reads a string of decimal digits back as a number. */
  function ParseNat(s: string): nat
    requires forall i :: 0 <= i < |s| ==> IsDigit(s[i])
  {
    if |s| == 0 then 0 else 10 * ParseNat(s[..|s| - 1]) + DigitValue(s[|s| - 1])
  }

  /** The decimal rendering loses nothing: parsing it gives the number back. */
  lemma {:induction false} ParseNatToString(n: nat)
    ensures ParseNat(NatToString(n)) == n
    decreases n
  {
    var r := NatToString(n);
    if n < 10 {
      assert r == [DigitChar(n)];
      assert r[..0] == [];
    } else {
      ParseNatToString(n / 10);
      assert r[..|r| - 1] == NatToString(n / 10);
      assert r[|r| - 1] == DigitChar(n % 10);
    }
  }

  /** Different counts are rendered differently. */
  lemma NatToStringInjective(m: nat, n: nat)
    requires NatToString(m) == NatToString(n)
    ensures m == n
  {
    ParseNatToString(m);
    ParseNatToString(n);
  }

  function JoinWithComma(xs: seq<string>): string {
    if |xs| == 0 then ""
    else if |xs| == 1 then xs[0]
    else xs[0] + ", " + JoinWithComma(xs[1..])
  }

  /** Kotlin's `List<String>.toString()`: `[a, b, c]`. */
  function ListToString(xs: seq<string>): (r: string)
    ensures |r| >= 2 && r[0] == '[' && r[|r| - 1] == ']'
    ensures |xs| == 0 ==> r == "[]"
    ensures |xs| == 1 ==> r == "[" + xs[0] + "]"
    ensures (forall i :: 0 <= i < |xs| ==> NoLineBreak(xs[i])) ==> NoLineBreak(r)
  {
    JoinWithCommaNoLineBreak(xs);
    "[" + JoinWithComma(xs) + "]"
  }

  // ---------------------------------------------------------------------
  // Lines of a multi-line message

  predicate NoLineBreak(s: string) {
    forall i :: 0 <= i < |s| ==> s[i] != '\n'
  }

  lemma NoLineBreakConcat(a: string, b: string)
    requires NoLineBreak(a) && NoLineBreak(b)
    ensures NoLineBreak(a + b)
  {
    assert forall i :: 0 <= i < |a + b| ==> (a + b)[i] == (if i < |a| then a[i] else b[i - |a|]);
  }

  lemma {:induction false} JoinWithCommaNoLineBreak(xs: seq<string>)
    ensures (forall i :: 0 <= i < |xs| ==> NoLineBreak(xs[i])) ==> NoLineBreak(JoinWithComma(xs))
    decreases |xs|
  {
    if |xs| > 1 && forall i :: 0 <= i < |xs| ==> NoLineBreak(xs[i]) {
      JoinWithCommaNoLineBreak(xs[1..]);
      assert NoLineBreak(xs[0]);
      NoLineBreakConcat(xs[0], ", ");
      NoLineBreakConcat(xs[0] + ", ", JoinWithComma(xs[1..]));
    }
  }

  /** The text of a raw string literal after `trimIndent`: its lines joined
      with line breaks. */
  function JoinLines(ls: seq<string>): string
    decreases |ls|
  {
    if |ls| == 0 then ""
    else if |ls| == 1 then ls[0]
    else ls[0] + "\n" + JoinLines(ls[1..])
  }

  lemma JoinFourLines(a: string, b: string, c: string, d: string)
    ensures JoinLines([a, b, c, d]) == a + "\n" + b + "\n" + c + "\n" + d
  {
    var ls := [a, b, c, d];
    assert ls[1..] == [b, c, d] && ls[2..] == [c, d] && ls[3..] == [d];
    assert JoinLines([c, d]) == c + "\n" + d;
    assert JoinLines([b, c, d]) == b + "\n" + (c + "\n" + d);
  }

  /** The lines of a text, cut at every line break; a text always has at
      least one line. */
  function SplitLines(s: string): (ls: seq<string>)
    ensures |ls| >= 1
    decreases |s|
  {
    if |s| == 0 then [""]
    else if s[0] == '\n' then [""] + SplitLines(s[1..])
    else
      var rest := SplitLines(s[1..]);
      [[s[0]] + rest[0]] + rest[1..]
  }

  /** Text without a line break stays on the first line. */
  lemma {:induction false} SplitLinesPrefix(a: string, s: string)
    requires NoLineBreak(a)
    ensures SplitLines(a + s) == [a + SplitLines(s)[0]] + SplitLines(s)[1..]
    decreases |a|
  {
    if |a| > 0 {
      assert (a + s)[0] == a[0] && (a + s)[1..] == a[1..] + s;
      SplitLinesPrefix(a[1..], s);
      assert [a[0]] + (a[1..] + SplitLines(s)[0]) == a + SplitLines(s)[0];
    } else {
      var ls := SplitLines(s);
      assert a + s == s && a + ls[0] == ls[0];
      assert [ls[0]] + ls[1..] == ls;
    }
  }

  /** Cutting the joined lines at line breaks gives the lines back, when no
      line holds a break of its own. */
  lemma {:induction false} SplitJoinLines(ls: seq<string>)
    requires |ls| >= 1
    requires forall i :: 0 <= i < |ls| ==> NoLineBreak(ls[i])
    ensures SplitLines(JoinLines(ls)) == ls
    decreases |ls|
  {
    assert NoLineBreak(ls[0]);
    if |ls| == 1 {
      SplitLinesPrefix(ls[0], "");
      assert ls[0] + "" == ls[0];
    } else {
      var tail := JoinLines(ls[1..]);
      SplitJoinLines(ls[1..]);
      assert ("\n" + tail)[0] == '\n' && ("\n" + tail)[1..] == tail;
      assert SplitLines("\n" + tail) == [""] + ls[1..];
      assert JoinLines(ls) == ls[0] + ("\n" + tail);
      SplitLinesPrefix(ls[0], "\n" + tail);
      assert ls[0] + "" == ls[0];
      assert [ls[0]] + ls[1..] == ls;
    }
  }
}
