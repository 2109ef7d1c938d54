/** Character-level text handling: the decimal text of an integer, its reading by Python's int(),
    str.join and str.split with a one-character separator. */
module Texts {
  import Types

  predicate IsDigit(c: char) { '0' <= c <= '9' }

  /** The white space that int() strips, within ASCII. */
  predicate IsSpace(c: char) { 9 <= c as int <= 13 || 28 <= c as int <= 32 }

  function DigitChar(d: nat): (c: char)
    requires d < 10
    ensures IsDigit(c)
  {
    (48 + d) as char
  }

  function NatText(n: nat): (s: string)
    ensures |s| >= 1 && forall c | c in s :: IsDigit(c)
  {
    if n < 10 then [DigitChar(n)] else NatText(n / 10) + [DigitChar(n % 10)]
  }

  function IntText(n: int): string {
    if n < 0 then "-" + NatText(-n) else NatText(n)
  }

  /** Digits with at most one underscore between two of them. */
  function ParseNat(s: string): Types.Option<nat> {
    if s == [] || !IsDigit(s[|s| - 1]) then Types.None
    else
      var digit := s[|s| - 1] as int - 48;
      if |s| == 1 then Types.Some(digit)
      else
        var front := s[..|s| - 1];
        var rest := if front[|front| - 1] == '_' then front[..|front| - 1] else front;
        match ParseNat(rest)
        case Some(value) => Types.Some(10 * value + digit)
        case None => Types.None
  }

  function StripLeft(s: string): string {
    if s != [] && IsSpace(s[0]) then StripLeft(s[1..]) else s
  }

  function StripRight(s: string): string {
    if s != [] && IsSpace(s[|s| - 1]) then StripRight(s[..|s| - 1]) else s
  }

  function ParseInt(s: string): Types.Option<int> {
    var text := StripRight(StripLeft(s));
    if text == [] then Types.None
    else if text[0] == '-' then
      var magnitude := ParseNat(text[1..]);
      if magnitude.None? then Types.None else Types.Some(-(magnitude.value as int))
    else ParseNat(if text[0] == '+' then text[1..] else text)
  }

  lemma {:induction false} ParseNatText(n: nat)
    ensures ParseNat(NatText(n)) == Types.Some(n)
  {
    if n >= 10 {
      ParseNatText(n / 10);
      var s := NatText(n);
      assert s[..|s| - 1] == NatText(n / 10);
      assert NatText(n / 10)[|NatText(n / 10)| - 1] in NatText(n / 10);
    }
  }

  /** The text of an integer has no white space, no separator, and starts with a digit or a minus sign. */
  lemma IntTextShape(n: int)
    ensures var s := IntText(n);
            |s| >= 1 && (IsDigit(s[0]) || s[0] == '-') && IsDigit(s[|s| - 1]) && forall c | c in s :: IsDigit(c) || c == '-'
  {
    var digits := NatText(if n < 0 then -n else n);
    assert digits[0] in digits && digits[|digits| - 1] in digits;
  }

  lemma ParseIntText(n: int)
    ensures ParseInt(IntText(n)) == Types.Some(n)
  {
    hide NatText, ParseNat;
    IntTextShape(n);
    ParseNatText(if n < 0 then -n else n);
    var s := IntText(n);
    assert StripLeft(s) == s && StripRight(s) == s;
    if n < 0 {
      assert s[1..] == NatText(-n);
    } else {
      assert s[0] in NatText(n);
    }
  }

  lemma EmptyIsNoInteger()
    ensures ParseInt("") == Types.None
  {}

  lemma LettersAreNoInteger()
    ensures ParseInt("cfg") == Types.None
  {}

  function Join(parts: seq<string>, sep: char): string {
    if parts == [] then "" else if |parts| == 1 then parts[0] else parts[0] + [sep] + Join(parts[1..], sep)
  }

  function Split(s: string, sep: char): (parts: seq<string>)
    ensures |parts| >= 1
  {
    if s == [] then [""]
    else
      var rest := Split(s[1..], sep);
      if s[0] == sep then [""] + rest else [[s[0]] + rest[0]] + rest[1..]
  }

  /** How often the separator occurs. */
  function Separators(s: string, sep: char): nat {
    if s == [] then 0 else (if s[0] == sep then 1 else 0) + Separators(s[1..], sep)
  }

  lemma {:induction false} SplitFirst(a: string, b: string, sep: char)
    requires sep !in a
    ensures Split(a + [sep] + b, sep) == [a] + Split(b, sep)
  {
    var s := a + [sep] + b;
    if a == [] {
      assert s[1..] == b;
    } else {
      assert s[1..] == a[1..] + [sep] + b;
      SplitFirst(a[1..], b, sep);
      assert [s[0]] + a[1..] == a;
    }
  }

  lemma {:induction false} SplitSingle(a: string, sep: char)
    requires sep !in a
    ensures Split(a, sep) == [a]
  {
    if a != [] {
      SplitSingle(a[1..], sep);
      assert [a[0]] + a[1..] == a;
    }
  }

  lemma {:induction false} SplitJoin(parts: seq<string>, sep: char)
    requires parts != [] && forall k | 0 <= k < |parts| :: sep !in parts[k]
    ensures Split(Join(parts, sep), sep) == parts
  {
    if |parts| == 1 {
      SplitSingle(parts[0], sep);
    } else {
      SplitJoin(parts[1..], sep);
      SplitFirst(parts[0], Join(parts[1..], sep), sep);
    }
  }

  lemma {:induction false} JoinSplit(s: string, sep: char)
    ensures Join(Split(s, sep), sep) == s
  {
    if s != [] {
      var rest, parts := Split(s[1..], sep), Split(s, sep);
      JoinSplit(s[1..], sep);
      if s[0] == sep {
        assert parts[1..] == rest;
      } else {
        assert parts[1..] == rest[1..];
      }
      assert s == [s[0]] + s[1..];
    }
  }

  lemma {:induction false} PartsFree(s: string, sep: char)
    ensures forall k | 0 <= k < |Split(s, sep)| :: sep !in Split(s, sep)[k]
  {
    if s != [] {
      PartsFree(s[1..], sep);
    }
  }

  lemma {:induction false} SplitLength(s: string, sep: char)
    ensures |Split(s, sep)| == Separators(s, sep) + 1
  {
    if s != [] { SplitLength(s[1..], sep); }
  }

  lemma {:induction false} SeparatorsConcat(a: string, b: string, sep: char)
    ensures Separators(a + b, sep) == Separators(a, sep) + Separators(b, sep)
  {
    if a == [] {
      assert a + b == b;
    } else {
      assert (a + b)[1..] == a[1..] + b;
      SeparatorsConcat(a[1..], b, sep);
    }
  }

  lemma {:induction false} SeparatorsZero(a: string, sep: char)
    ensures Separators(a, sep) == 0 <==> sep !in a
  {
    if a != [] {
      SeparatorsZero(a[1..], sep);
      assert a == [a[0]] + a[1..];
    }
  }

  /** Joining and splitting keeps the number of parts exactly when no part holds the separator. */
  lemma {:induction false} SplitCounts(parts: seq<string>, sep: char)
    requires parts != []
    ensures |Split(Join(parts, sep), sep)| >= |parts|
    ensures |Split(Join(parts, sep), sep)| == |parts| <==> forall k | 0 <= k < |parts| :: sep !in parts[k]
  {
    SplitLength(Join(parts, sep), sep);
    SeparatorsZero(parts[0], sep);
    if |parts| > 1 {
      var rest := parts[1..];
      SplitCounts(rest, sep);
      SplitLength(Join(rest, sep), sep);
      SeparatorsConcat(parts[0] + [sep], Join(rest, sep), sep);
      SeparatorsConcat(parts[0], [sep], sep);
      assert Separators([sep], sep) == 1;
      assert parts == [parts[0]] + rest;
      assert (forall k | 0 <= k < |parts| :: sep !in parts[k])
        <==> sep !in parts[0] && forall k | 0 <= k < |rest| :: sep !in rest[k];
    }
  }
}
