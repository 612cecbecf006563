/**
 * The few pieces of java.lang behaviour the plugin's logic depends on:
 * String.trim, String.split with a one-character pattern, Integer.toString,
 * and 32-bit int arithmetic with wrap-around.
 */
module JavaStrings {

  // ---------------------------------------------------------------- trim

  /** String.trim removes every character whose code is at most U+0020. */
  predicate TrimDrops(c: char) {
    c <= ' '
  }

  /** How many characters at most U+0020 s starts with. */
  function LeadingBlanks(s: string): (n: nat)
    ensures n <= |s|
    ensures forall i :: 0 <= i < n ==> TrimDrops(s[i])
    ensures n < |s| ==> !TrimDrops(s[n])
  {
    if s != [] && TrimDrops(s[0]) then 1 + LeadingBlanks(s[1..]) else 0
  }

  /** The length of s once its trailing characters at most U+0020 are dropped. */
  function TrimmedEnd(s: string): (m: nat)
    ensures m <= |s|
    ensures forall i :: m <= i < |s| ==> TrimDrops(s[i])
    ensures m > 0 ==> !TrimDrops(s[m - 1])
  {
    if s != [] && TrimDrops(s[|s| - 1]) then TrimmedEnd(s[..|s| - 1]) else |s|
  }

  /** String.trim: the longest infix of s that neither starts nor ends with a character at most U+0020. */
  function Trim(s: string): (r: string)
    ensures r == [] || (!TrimDrops(r[0]) && !TrimDrops(r[|r| - 1]))
    ensures |r| <= |s|
    ensures (s == [] || (!TrimDrops(s[0]) && !TrimDrops(s[|s| - 1]))) ==> r == s
  {
    var n := LeadingBlanks(s);
    if n == |s| then [] else s[n..TrimmedEnd(s)]
  }

  /** Trim gives back exactly the text between blank padding on either side. */
  lemma TrimPadded(pre: string, m: string, post: string)
    requires forall i :: 0 <= i < |pre| ==> TrimDrops(pre[i])
    requires forall i :: 0 <= i < |post| ==> TrimDrops(post[i])
    requires m != [] && !TrimDrops(m[0]) && !TrimDrops(m[|m| - 1])
    ensures Trim(pre + m + post) == m
  {
    var s := pre + m + post;
    assert s[|pre|] == m[0];
    assert s[|pre| + |m| - 1] == m[|m| - 1];
    assert LeadingBlanks(s) == |pre|;
    assert TrimmedEnd(s) == |pre| + |m|;
    assert s[|pre|..|pre| + |m|] == m;
  }

  /** Conversely, Trim(s) sits in s between two runs of characters at most U+0020. */
  lemma TrimInfix(s: string)
    ensures var k := LeadingBlanks(s);
      && k + |Trim(s)| <= |s| && s[k..k + |Trim(s)|] == Trim(s)
      && (forall i :: 0 <= i < k ==> TrimDrops(s[i]))
      && (forall i :: k + |Trim(s)| <= i < |s| ==> TrimDrops(s[i]))
  {
  }

  /** TrimmedEnd is the only cut with blanks after it and a non-blank just before it. */
  lemma {:induction false} TrimmedEndAt(s: string, e: nat)
    requires 0 < e <= |s| && !TrimDrops(s[e - 1])
    requires forall i :: e <= i < |s| ==> TrimDrops(s[i])
    ensures TrimmedEnd(s) == e
    decreases |s|
  {
    if e < |s| {
      var r := s[..|s| - 1];
      forall i | e <= i < |r|
        ensures TrimDrops(r[i])
      {
        assert r[i] == s[i];
      }
      assert r[e - 1] == s[e - 1];
      TrimmedEndAt(r, e);
    }
  }

  /** Dropping one leading blank moves the trimmed end one place back. */
  lemma TrimmedEndDropBlank(t: string)
    requires t != [] && TrimmedEnd(t[1..]) > 0
    ensures TrimmedEnd(t) == TrimmedEnd(t[1..]) + 1
  {
    var r := t[1..];
    var e := TrimmedEnd(r);
    forall i | e + 1 <= i < |t|
      ensures TrimDrops(t[i])
    {
      assert t[i] == r[i - 1];
    }
    assert t[e] == r[e - 1];
    TrimmedEndAt(t, e + 1);
  }

  /** A slice of t without its first character is a slice of t one place on. */
  lemma SliceAfterFirst(t: string, n: nat, e: nat)
    requires n <= e < |t|
    ensures t[1..][n..e] == t[n + 1..e + 1]
  {
    forall i | 0 <= i < e - n
      ensures t[1..][n..e][i] == t[n + 1..e + 1][i]
    {
      assert t[1..][n + i] == t[n + 1 + i];
    }
  }

  /** Trim ignores a leading character at most U+0020. */
  lemma TrimDropBlank(t: string)
    requires t != [] && TrimDrops(t[0])
    ensures Trim(t) == Trim(t[1..])
  {
    var r := t[1..];
    var n := LeadingBlanks(r);
    assert LeadingBlanks(t) == n + 1;
    if n < |r| {
      var e := TrimmedEnd(r);
      assert n < e;
      TrimmedEndDropBlank(t);
      SliceAfterFirst(t, n, e);
    }
  }

  /** Trimming ignores leading blanks, so a value written after "= " reads back trimmed. */
  lemma TrimAfterBlank(s: string)
    ensures Trim(" " + s) == Trim(s)
  {
    assert (" " + s)[1..] == s;
    TrimDropBlank(" " + s);
  }

  /** Trimming twice is trimming once. */
  lemma TrimIdempotent(s: string)
    ensures Trim(Trim(s)) == Trim(s)
  {
  }

  // ---------------------------------------------------------------- split

  /** Position of the first occurrence of c in s. */
  function IndexOf(s: string, c: char): (i: nat)
    requires c in s
    ensures i < |s| && s[i] == c && c !in s[..i]
  {
    if s[0] == c then 0 else 1 + IndexOf(s[1..], c)
  }

  /** Every piece of s between occurrences of c, empty pieces included. */
  function Pieces(s: string, c: char): (r: seq<string>)
    ensures |r| >= 1
    ensures forall i :: 0 <= i < |r| ==> c !in r[i]
    decreases |s|
  {
    if c !in s then [s]
    else
      var i := IndexOf(s, c);
      [s[..i]] + Pieces(s[i + 1..], c)
  }

  /** The pieces put back together with the separator between them. */
  function Join(ps: seq<string>, c: char): string
    requires |ps| >= 1
  {
    if |ps| == 1 then ps[0] else ps[0] + [c] + Join(ps[1..], c)
  }

  /** Pieces loses nothing: joining them again gives back the string. */
  lemma {:induction false} JoinPieces(s: string, c: char)
    ensures Join(Pieces(s, c), c) == s
    decreases |s|
  {
    if c in s {
      var i := IndexOf(s, c);
      var ps := Pieces(s, c);
      var rest := Pieces(s[i + 1..], c);
      JoinPieces(s[i + 1..], c);
      assert ps == [s[..i]] + rest;
      assert ps[0] == s[..i] && ps[1..] == rest && |ps| > 1;
      assert Join(ps, c) == s[..i] + [c] + Join(rest, c);
      assert s == s[..i] + [c] + s[i + 1..];
    }
  }

  /** Drops the empty strings at the end of a list of pieces. */
  function DropTrailingEmpty(ps: seq<string>): (r: seq<string>)
    ensures |r| <= |ps| && forall i :: 0 <= i < |r| ==> r[i] == ps[i]
    ensures r == [] || r[|r| - 1] != []
    ensures forall i :: |r| <= i < |ps| ==> ps[i] == []
  {
    if ps == [] || ps[|ps| - 1] != [] then ps else DropTrailingEmpty(ps[..|ps| - 1])
  }

  /**
   * String.split(c) for a one-character pattern that is not a regular-expression
   * metacharacter, with the default limit 0: no occurrence gives the string itself;
   * otherwise the pieces, leading empty strings kept and trailing empty strings dropped.
   */
  function Split(s: string, c: char): (r: seq<string>)
    ensures c !in s ==> r == [s]
    ensures c in s ==> r == [] || r[|r| - 1] != []
    ensures forall i :: 0 <= i < |r| ==> c !in r[i]
    ensures c in s ==> |r| <= |Pieces(s, c)| && (forall i :: 0 <= i < |r| ==> r[i] == Pieces(s, c)[i])
    ensures c in s ==> forall i :: |r| <= i < |Pieces(s, c)| ==> Pieces(s, c)[i] == []
  {
    if c !in s then [s] else DropTrailingEmpty(Pieces(s, c))
  }

  /** A string with one separator and a non-empty right-hand side splits into exactly its two sides. */
  lemma SplitPair(a: string, c: char, b: string)
    requires c !in a && c !in b && b != []
    ensures Split(a + [c] + b, c) == [a, b]
  {
    var s := a + [c] + b;
    assert s[|a|] == c;
    var i := IndexOf(s, c);
    assert s[..i] == a;
    assert s[i + 1..] == b;
    assert Pieces(s, c) == [a, b];
  }

  // ---------------------------------------------------------------- numbers

  function Digit(d: nat): (c: char)
    requires d < 10
    ensures '0' <= c <= '9'
  {
    ('0' as int + d) as char
  }

  function DigitValue(c: char): nat
    requires '0' <= c <= '9'
  {
    (c as int - '0' as int) as nat
  }

  /** Decimal digits of n, most significant first, without leading zeros. */
  function NatToString(n: nat): (r: string)
    ensures |r| >= 1
    ensures forall i :: 0 <= i < |r| ==> '0' <= r[i] <= '9'
    ensures r[0] == '0' ==> n == 0
  {
    if n < 10 then [Digit(n)] else NatToString(n / 10) + [Digit(n % 10)]
  }

  /** The number a string of decimal digits denotes. */
  predicate AllDigits(s: string) {
    forall i :: 0 <= i < |s| ==> '0' <= s[i] <= '9'
  }

  function DigitsValue(s: string): nat
    requires AllDigits(s)
  {
    if s == [] then 0 else 10 * DigitsValue(s[..|s| - 1]) + DigitValue(s[|s| - 1])
  }

  /** Reading back the decimal rendering gives the number. */
  lemma {:induction false} NatToStringValue(n: nat)
    ensures DigitsValue(NatToString(n)) == n
  {
    var r := NatToString(n);
    if n >= 10 {
      NatToStringValue(n / 10);
      assert r[..|r| - 1] == NatToString(n / 10);
      assert DigitValue(r[|r| - 1]) == n % 10;
    }
  }

  /** Integer.toString: a minus sign for negative numbers, then the decimal digits. */
  function IntToString(n: int): (r: string)
    ensures r != []
    ensures n < 0 <==> r[0] == '-'
    ensures n >= 0 ==> AllDigits(r) && DigitsValue(r) == n
    ensures n < 0 ==> AllDigits(r[1..]) && DigitsValue(r[1..]) == -n
    ensures n >= 0 && r[0] == '0' ==> n == 0
    ensures n < 0 ==> |r| >= 2 && r[1] != '0'
  {
    if n < 0 then
      NatToStringValue(-n);
      assert ("-" + NatToString(-n))[1..] == NatToString(-n);
      "-" + NatToString(-n)
    else
      NatToStringValue(n);
      NatToString(n)
  }

  newtype int32 = x: int | -0x8000_0000 <= x < 0x8000_0000

  /** Java int arithmetic: the mathematical result reduced into the 32-bit range. */
  function Wrap32(x: int): (r: int32)
    ensures -0x8000_0000 <= x < 0x8000_0000 ==> r as int == x
    ensures (x - r as int) % 0x1_0000_0000 == 0
  {
    ((x + 0x8000_0000) % 0x1_0000_0000 - 0x8000_0000) as int32
  }
}
