/**
 * Decimal text and separator-delimited text, as Python's str(), int(),
 * str.split and str.join treat them for the values the program stores.
 */
module Strings {
  import opened Wrappers

  predicate IsDigit(c: char) { '0' <= c <= '9' }

  predicate AllDigits(s: string) { forall i :: 0 <= i < |s| ==> IsDigit(s[i]) }

  function DigitChar(d: nat): char
    requires d < 10
  {
    ('0' as int + d) as char
  }

  /** Python's str() of a non-negative int: shortest decimal form. */
  function NatToString(n: nat): (s: string)
    ensures |s| >= 1 && AllDigits(s)
    ensures n < 10 <==> |s| == 1
  {
    if n < 10 then [DigitChar(n)] else NatToString(n / 10) + [DigitChar(n % 10)]
  }

  /** Python's str() of any int. */
  function IntToString(i: int): string
  {
    if i < 0 then "-" + NatToString(-i) else NatToString(i)
  }

  function DigitsToNat(s: string): nat
    requires AllDigits(s)
  {
    if |s| == 0 then 0 else 10 * DigitsToNat(s[..|s| - 1]) + (s[|s| - 1] as int - '0' as int)
  }

  /** The characters Python's str.strip() and str.isspace() treat as whitespace. */
  predicate IsSpace(c: char)
  {
    if c <= ' ' then
      '\t' <= c <= '\r' || '\U{1C}' <= c
    else
      '\U{85}' <= c &&
      (c == '\U{85}' || c == '\U{A0}' || c == '\U{1680}' || ('\U{2000}' <= c <= '\U{200A}') ||
       c == '\U{2028}' || c == '\U{2029}' || c == '\U{202F}' || c == '\U{205F}' || c == '\U{3000}')
  }

  /**
   * The characters int() skips around a number: the six ASCII whitespace
   * characters tab, line feed, vertical tab, form feed, carriage return and
   * space, and the non-ASCII whitespace.  The separators \x1c-\x1f, which
   * str.strip() removes, are not among them.
   */
  predicate IsIntSpace(c: char)
  {
    if c <= '\U{7F}' then c == ' ' || '\t' <= c <= '\r' else IsSpace(c)
  }

  /** Every character of s belongs to the whitespace set space. */
  predicate Blank(s: string, space: char -> bool) { forall i :: 0 <= i < |s| ==> space(s[i]) }

  predicate AllSpace(s: string) { Blank(s, IsSpace) }

  predicate AllIntSpace(s: string) { Blank(s, IsIntSpace) }

  /** The leading and trailing characters of the whitespace set space removed, one character at a time. */
  function StripBy(s: string, space: char -> bool): (t: string)
    ensures t == "" || (!space(t[0]) && !space(t[|t| - 1]))
    ensures t == "" <==> Blank(s, space)
    decreases |s|
  {
    if |s| > 0 && space(s[0]) then
      assert forall i :: 0 <= i < |s| - 1 ==> s[1..][i] == s[i + 1];
      StripBy(s[1..], space)
    else if |s| > 0 && space(s[|s| - 1]) then
      assert s[..|s| - 1][0] == s[0];
      StripBy(s[..|s| - 1], space)
    else
      s
  }

  /** str.strip(). */
  function Strip(s: string): (t: string)
    ensures t == "" || (!IsSpace(t[0]) && !IsSpace(t[|t| - 1]))
    ensures t == "" <==> AllSpace(s)
  {
    StripBy(s, IsSpace)
  }

  /** The stripping int() does before it reads the sign and the digits. */
  function IntStrip(s: string): (t: string)
    ensures t == "" || (!IsIntSpace(t[0]) && !IsIntSpace(t[|t| - 1]))
    ensures t == "" <==> AllIntSpace(s)
  {
    StripBy(s, IsIntSpace)
  }

  /** Stripping twice is stripping once. */
  lemma StripIdempotent(s: string, space: char -> bool)
    ensures StripBy(StripBy(s, space), space) == StripBy(s, space)
  {
    var t := StripBy(s, space);
    if t != "" {
      StripTrimmed(t, space);
    }
  }

  /** A digit is whitespace for neither str.strip() nor int(). */
  lemma DigitNotSpace(c: char)
    requires IsDigit(c)
    ensures !IsSpace(c) && !IsIntSpace(c)
  {
  }

  /** Text that neither starts nor ends with whitespace is its own strip. */
  lemma StripTrimmed(s: string, space: char -> bool)
    requires |s| >= 1 && !space(s[0]) && !space(s[|s| - 1])
    ensures StripBy(s, space) == s
  {
  }

  /** Trailing whitespace after text that does not end with whitespace strips away. */
  lemma {:induction false} StripTrailing(s: string, b: string, space: char -> bool)
    requires Blank(b, space) && |s| >= 1 && !space(s[0]) && !space(s[|s| - 1])
    ensures StripBy(s + b, space) == s
    decreases |b|
  {
    var x := s + b;
    if |b| == 0 {
      assert x == s;
    } else {
      assert x[0] == s[0] && x[|x| - 1] == b[|b| - 1];
      assert x[..|x| - 1] == s + b[..|b| - 1];
      StripTrailing(s, b[..|b| - 1], space);
    }
  }

  /** Text that neither starts nor ends with whitespace, padded with whitespace, strips back to itself. */
  lemma {:induction false} StripPadded(a: string, s: string, b: string, space: char -> bool)
    requires Blank(a, space) && Blank(b, space) && |s| >= 1 && !space(s[0]) && !space(s[|s| - 1])
    ensures StripBy(a + s + b, space) == s
    decreases |a|
  {
    var x := a + s + b;
    if |a| == 0 {
      assert x == s + b;
      StripTrailing(s, b, space);
    } else {
      assert x[0] == a[0];
      assert x[1..] == a[1..] + s + b;
      StripPadded(a[1..], s, b, space);
    }
  }

  /** int() of unsigned text: the value of its digits, or none. */
  function ParseUnsigned(t: string): (r: Option<nat>)
    ensures r.Some? <==> |t| >= 1 && AllDigits(t)
  {
    if |t| >= 1 && AllDigits(t) then Some(DigitsToNat(t)) else None
  }

  /** int() of stripped text: an optional sign, then digits. */
  function ParseSigned(t: string): Option<int>
  {
    if |t| >= 1 && (t[0] == '-' || t[0] == '+') then
      var u := ParseUnsigned(t[1..]);
      if u.None? then None else if t[0] == '-' then Some(-(u.value as int)) else Some(u.value as int)
    else
      var u := ParseUnsigned(t);
      if u.None? then None else Some(u.value as int)
  }

  /**
   * Python's int() of a string in base 10: the whitespace int() skips is
   * stripped from both ends, then an optional sign and at least one ASCII
   * digit.  The '_' digit separators and the non-ASCII decimal digits int()
   * also accepts are not: such text reads as none.
   */
  function ParseInt(s: string): (r: Option<int>)
    ensures IntStrip(s) == "" ==> r == None
    ensures r.Some? && r.value < 0 ==> IntStrip(s)[0] == '-'
  {
    ParseSigned(IntStrip(s))
  }

  /** int() accepts exactly an optional sign followed by at least one digit, once the whitespace is stripped. */
  lemma ParseIntAccepts(s: string)
    ensures var t := IntStrip(s);
      ParseInt(s).Some? <==>
        (|t| >= 1 && AllDigits(t)) || (|t| >= 2 && (t[0] == '-' || t[0] == '+') && AllDigits(t[1..]))
  {
  }

  /** int() does not skip the separator characters \x1c-\x1f that str.strip() removes. */
  lemma SeparatorNotSkipped(t: string)
    requires |t| >= 1 && AllDigits(t)
    ensures Strip("\U{1C}" + t) == t
    ensures ParseInt("\U{1C}" + t) == None
  {
    var s := "\U{1C}" + t;
    DigitNotSpace(t[0]);
    DigitNotSpace(t[|t| - 1]);
    assert s == "\U{1C}" + t + "";
    StripPadded("\U{1C}", t, "", IsSpace);
    assert s[0] == '\U{1C}' && !IsIntSpace(s[0]) && s[|s| - 1] == t[|t| - 1];
    StripTrimmed(s, IsIntSpace);
  }

  /** Surrounding whitespace does not change what int() reads. */
  lemma PaddedParse(a: string, s: string, b: string)
    requires AllIntSpace(a) && AllIntSpace(b) && |s| >= 1 && !IsIntSpace(s[0]) && !IsIntSpace(s[|s| - 1])
    ensures ParseInt(a + s + b) == ParseInt(s)
  {
    StripPadded(a, s, b, IsIntSpace);
    StripTrimmed(s, IsIntSpace);
  }

  /** Text whose first non-space character is an underscore is not a number. */
  lemma LeadingUnderscoreFails(s: string)
    requires |s| >= 1 && s[0] == '_'
    ensures ParseInt(s) == None
  {
    StripKeepsFirst(s, IsIntSpace);
  }

  /** Text that does not start with whitespace keeps its first character when stripped. */
  lemma {:induction false} StripKeepsFirst(s: string, space: char -> bool)
    requires |s| >= 1 && !space(s[0])
    ensures |StripBy(s, space)| >= 1 && StripBy(s, space)[0] == s[0]
    decreases |s|
  {
    if space(s[|s| - 1]) {
      assert |s| >= 2 && s[..|s| - 1][0] == s[0];
      StripKeepsFirst(s[..|s| - 1], space);
    }
  }

  lemma {:induction false} NatToStringRoundTrip(n: nat)
    ensures DigitsToNat(NatToString(n)) == n
  {
    if n >= 10 {
      var s := NatToString(n);
      assert s[..|s| - 1] == NatToString(n / 10);
      NatToStringRoundTrip(n / 10);
    }
  }

  /** A non-empty run of digits parses as the number it spells. */
  lemma ParseDigits(s: string)
    requires |s| >= 1 && AllDigits(s)
    ensures ParseInt(s) == Some(DigitsToNat(s))
  {
    DigitNotSpace(s[0]);
    DigitNotSpace(s[|s| - 1]);
    StripTrimmed(s, IsIntSpace);
  }

  /** A minus sign before a non-empty run of digits parses as the negated number. */
  lemma ParseNegative(t: string)
    requires |t| >= 1 && AllDigits(t)
    ensures ParseInt("-" + t) == Some(-(DigitsToNat(t) as int))
  {
    NegativeTrimmed(t);
    NegativeSigned(t);
  }

  lemma NegativeTrimmed(t: string)
    requires |t| >= 1 && AllDigits(t)
    ensures IntStrip("-" + t) == "-" + t
  {
    var s := "-" + t;
    assert s[0] == '-' && s[|s| - 1] == t[|t| - 1];
    DigitNotSpace(t[|t| - 1]);
    StripTrimmed(s, IsIntSpace);
  }

  lemma NegativeSigned(t: string)
    requires |t| >= 1 && AllDigits(t)
    ensures ParseSigned("-" + t) == Some(-(DigitsToNat(t) as int))
  {
    var s := "-" + t;
    assert s[0] == '-' && s[1..] == t;
    SignedNegative(s, t);
  }

  lemma SignedNegative(s: string, t: string)
    requires |s| >= 1 && s[0] == '-' && s[1..] == t && ParseUnsigned(t).Some?
    ensures ParseSigned(s) == Some(-(ParseUnsigned(t).value as int))
  {
  }

  /** int(str(i)) == i */
  lemma ParseIntRoundTrip(i: int)
    ensures ParseInt(IntToString(i)) == Some(i)
  {
    if i < 0 {
      NegativeRoundTrip(i);
    } else {
      NaturalRoundTrip(i);
    }
  }

  lemma NegativeRoundTrip(i: int)
    requires i < 0
    ensures ParseInt(IntToString(i)) == Some(i)
  {
    var n: nat := -i;
    var t := "-" + NatToString(n);
    NegativeForm(i);
    assert IntToString(i) == t;
    MinusRoundTrip(n);
    assert ParseInt(t) == Some(i);
  }

  lemma NegativeForm(i: int)
    requires i < 0
    ensures IntToString(i) == "-" + NatToString(-i)
  {
  }

  lemma MinusRoundTrip(n: nat)
    requires n >= 1
    ensures ParseInt("-" + NatToString(n)) == Some(-(n as int))
  {
    var t := NatToString(n);
    NatToStringRoundTrip(n);
    assert DigitsToNat(t) == n;
    ParseNegative(t);
  }

  lemma NaturalRoundTrip(i: nat)
    ensures ParseInt(IntToString(i)) == Some(i)
  {
    var t := NatToString(i);
    assert IntToString(i) == t;
    ParseDigits(t);
    NatToStringRoundTrip(i);
  }

  /** Distinct numbers have distinct decimal forms. */
  lemma NatToStringInjective(a: nat, b: nat)
    requires NatToString(a) == NatToString(b)
    ensures a == b
  {
    NatToStringRoundTrip(a);
    NatToStringRoundTrip(b);
  }

  predicate StartsWith(s: string, prefix: string)
  {
    |prefix| <= |s| && s[..|prefix|] == prefix
  }

  predicate EndsWith(s: string, suffix: string)
  {
    |suffix| <= |s| && s[|s| - |suffix|..] == suffix
  }

  function IndexOf(s: string, c: char): (i: nat)
    requires c in s
    ensures i < |s| && s[i] == c && c !in s[..i]
  {
    if s[0] == c then 0 else assert s == [s[0]] + s[1..]; 1 + IndexOf(s[1..], c)
  }

  /** Python's s.split(sep) for a one-character separator. */
  function Split(s: string, sep: char): (parts: seq<string>)
    ensures |parts| >= 1
    decreases |s|
  {
    if sep !in s then [s]
    else
      var i := IndexOf(s, sep);
      [s[..i]] + Split(s[i + 1..], sep)
  }

  /** Two pieces free of the separator, joined by it, split back into the two. */
  lemma SplitPair(a: string, b: string, sep: char)
    requires sep !in a && sep !in b
    ensures Split(a + [sep] + b, sep) == [a, b]
  {
    var s := a + [sep] + b;
    assert s[|a|] == sep && s[..|a|] == a;
    assert IndexOf(s, sep) == |a|;
    assert s[|a| + 1..] == b;
  }

  /** Python's s.split(sep, maxsplit): at most maxsplit cuts, the remainder kept whole. */
  function SplitAtMost(s: string, sep: char, maxsplit: nat): (parts: seq<string>)
    ensures 1 <= |parts| <= maxsplit + 1
    decreases |s|
  {
    if maxsplit == 0 || sep !in s then [s]
    else
      var i := IndexOf(s, sep);
      [s[..i]] + SplitAtMost(s[i + 1..], sep, maxsplit - 1)
  }

  /** Python's sep.join(parts). */
  function Join(parts: seq<string>, sep: char): string
  {
    if |parts| == 0 then ""
    else if |parts| == 1 then parts[0]
    else parts[0] + [sep] + Join(parts[1..], sep)
  }

  predicate NoneContains(parts: seq<string>, sep: char)
  {
    forall k :: 0 <= k < |parts| ==> sep !in parts[k]
  }

  lemma {:induction false} JoinContains(parts: seq<string>, sep: char)
    requires NoneContains(parts, sep)
    ensures (sep in Join(parts, sep)) <==> |parts| >= 2
  {
    if |parts| >= 2 {
      var j := Join(parts, sep);
      assert j[|parts[0]|] == sep;
    } else if |parts| == 1 {
    }
  }

  /** Splitting a join gives the parts back when none of them holds the separator. */
  lemma {:induction false} SplitJoin(parts: seq<string>, sep: char)
    requires |parts| >= 1 && NoneContains(parts, sep)
    ensures Split(Join(parts, sep), sep) == parts
  {
    JoinContains(parts, sep);
    if |parts| >= 2 {
      var rest := Join(parts[1..], sep);
      assert Join(parts, sep) == parts[0] + [sep] + rest;
      SplitCut(parts[0], rest, sep);
      assert NoneContains(parts[1..], sep) by {
        forall k | 0 <= k < |parts[1..]| ensures sep !in parts[1..][k] { assert parts[1..][k] == parts[k + 1]; }
      }
      SplitJoin(parts[1..], sep);
      assert parts == [parts[0]] + parts[1..];
    }
  }

  /** The first cut of a split: the text before the first separator, then the rest split. */
  lemma SplitCut(a: string, rest: string, sep: char)
    requires sep !in a
    ensures Split(a + [sep] + rest, sep) == [a] + Split(rest, sep)
  {
    var s := a + [sep] + rest;
    assert s[|a|] == sep && s[..|a|] == a;
    assert IndexOf(s, sep) == |a|;
    assert s[|a| + 1..] == rest;
  }

  /** A decimal rendering holds only digits and a leading minus sign. */
  lemma IntToStringAvoids(i: int, c: char)
    requires !IsDigit(c) && c != '-'
    ensures c !in IntToString(i)
  {
    var t := NatToString(if i < 0 then -i else i);
    assert forall k :: 0 <= k < |t| ==> t[k] != c;
  }

  /** A decimal rendering neither starts nor ends with whitespace. */
  lemma IntToStringTrimmed(i: int)
    ensures var s := IntToString(i); |s| >= 1 && !IsIntSpace(s[0]) && !IsIntSpace(s[|s| - 1])
  {
    var t := NatToString(if i < 0 then -i else i);
    DigitNotSpace(t[0]);
    DigitNotSpace(t[|t| - 1]);
  }

  /** A join holds a character other than the separator only when some part does. */
  lemma {:induction false} JoinAvoids(parts: seq<string>, sep: char, c: char)
    requires c != sep && NoneContains(parts, c)
    ensures c !in Join(parts, sep)
  {
    if |parts| >= 2 {
      assert NoneContains(parts[1..], c) by {
        forall k | 0 <= k < |parts[1..]| ensures c !in parts[1..][k] { assert parts[1..][k] == parts[k + 1]; }
      }
      JoinAvoids(parts[1..], sep, c);
    }
  }

  /** One cut of a bounded split: the text before the first separator, then the rest split once fewer times. */
  lemma SplitAtMostCut(a: string, rest: string, sep: char, maxsplit: nat)
    requires sep !in a && maxsplit >= 1
    ensures SplitAtMost(a + [sep] + rest, sep, maxsplit) == [a] + SplitAtMost(rest, sep, maxsplit - 1)
  {
    var s := a + [sep] + rest;
    assert s[|a|] == sep && s[..|a|] == a;
    assert IndexOf(s, sep) == |a|;
    assert s[|a| + 1..] == rest;
  }

  /** Rejoining the parts of a bounded split gives the text back. */
  lemma {:induction false} SplitAtMostJoin(s: string, sep: char, maxsplit: nat)
    ensures Join(SplitAtMost(s, sep, maxsplit), sep) == s
    decreases |s|, 1
  {
    if maxsplit > 0 && sep in s {
      var i := IndexOf(s, sep);
      CutAt(s, i);
      JoinAfterCut(s[..i], s[i + 1..], sep, maxsplit);
    }
  }

  lemma {:induction false} JoinAfterCut(head: string, tail: string, sep: char, maxsplit: nat)
    requires sep !in head && maxsplit >= 1
    ensures Join(SplitAtMost(head + [sep] + tail, sep, maxsplit), sep) == head + [sep] + tail
    decreases |head + [sep] + tail|, 0
  {
    var rest := SplitAtMost(tail, sep, maxsplit - 1);
    assert SplitAtMost(head + [sep] + tail, sep, maxsplit) == [head] + rest by {
      SplitAtMostCut(head, tail, sep, maxsplit);
    }
    assert Join(rest, sep) == tail by {
      SplitAtMostJoin(tail, sep, maxsplit - 1);
    }
    JoinCons(head, rest, sep);
  }

  lemma CutAt(s: string, i: nat)
    requires i < |s|
    ensures s == s[..i] + [s[i]] + s[i + 1..]
  {
  }

  /** Joining a part before at least one more puts the separator between it and the rest's join. */
  lemma JoinCons(x: string, rest: seq<string>, sep: char)
    requires |rest| >= 1
    ensures Join([x] + rest, sep) == x + [sep] + Join(rest, sep)
  {
    assert ([x] + rest)[1..] == rest;
  }
}
