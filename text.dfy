/** The few `java.lang.String` and Guava `Joiner` operations that the modelled
    code relies on, on `string` = `seq<char>`. */
module Text {
  import opened Wrappers

  /** `p` occurs in `s` at index `i`. */
  predicate OccursAt(s: string, p: string, i: nat) {
    i + |p| <= |s| && s[i..i + |p|] == p
  }

  /** `s.contains(p)`. */
  predicate Occurs(s: string, p: string) {
    exists i: nat | i <= |s| :: OccursAt(s, p, i)
  }

  /** A pattern that does not occur matches at no position. */
  lemma NotOccursAt(s: string, p: string, i: nat)
    requires !Occurs(s, p) && i <= |s|
    ensures !OccursAt(s, p, i)
  {
  }

  /** `s.startsWith(p)`. */
  predicate StartsWith(s: string, p: string) {
    |p| <= |s| && s[..|p|] == p
  }

  /** `s.indexOf(c)`, with `None` for Java's -1: the first index holding `c`. */
  function IndexOf(s: string, c: char): (r: Option<nat>)
    ensures r.None? <==> c !in s
    ensures r.Some? ==> r.value < |s| && s[r.value] == c && c !in s[..r.value]
  {
    if |s| == 0 then None
    else if s[0] == c then Some(0)
    else
      match IndexOf(s[1..], c)
      case None => None
      case Some(i) =>
        assert s[..i + 1] == [s[0]] + s[1..][..i];
        Some(i + 1)
  }

  /** `IndexOf` finds the separator right after a prefix that does not hold it. */
  lemma IndexOfAfterPrefix(a: string, c: char, b: string)
    requires c !in a
    ensures IndexOf(a + [c] + b, c) == Some(|a|)
  {
    var s := a + [c] + b;
    assert s[|a|] == c;
    assert s[..|a|] == a;
  }

  /** `s.replaceAll(p, rep)` for a pattern without regular-expression
      metacharacters and a replacement without `$` or `\`: the occurrences of
      `p` are replaced from left to right, without overlap. */
  function ReplaceAll(s: string, p: string, rep: string): string
    requires |p| > 0
    decreases |s|
  {
    if |s| < |p| then s
    else if s[..|p|] == p then rep + ReplaceAll(s[|p|..], p, rep)
    else [s[0]] + ReplaceAll(s[1..], p, rep)
  }

  /** Text in which the pattern does not occur comes back unchanged. */
  lemma {:induction false} ReplaceAllWithoutOccurrence(s: string, p: string, rep: string)
    requires |p| > 0
    ensures !Occurs(s, p) ==> ReplaceAll(s, p, rep) == s
  {
    if |s| >= |p| && !Occurs(s, p) {
      assert !OccursAt(s, p, 0);
      forall i: nat ensures !OccursAt(s[1..], p, i) {
        if OccursAt(s[1..], p, i) {
          assert s[1..][i..i + |p|] == s[i + 1..i + 1 + |p|];
          assert OccursAt(s, p, i + 1);
        }
      }
      ReplaceAllWithoutOccurrence(s[1..], p, rep);
      assert [s[0]] + s[1..] == s;
    }
  }

  /** An occurrence in the tail of a text is one in the text, one further on. */
  lemma OccursAtTail(s: string, p: string, k: nat)
    requires |s| > 0
    ensures OccursAt(s[1..], p, k) <==> OccursAt(s, p, k + 1)
  {
    if k + |p| <= |s[1..]| {
      assert s[1..][k..k + |p|] == s[k + 1..k + 1 + |p|];
    }
  }

  /** Where the pattern does not start, the first character is kept. */
  lemma ReplaceAllKeepsFirst(s: string, p: string, rep: string)
    requires |p| > 0 && |s| >= |p| && !OccursAt(s, p, 0)
    ensures ReplaceAll(s, p, rep) == [s[0]] + ReplaceAll(s[1..], p, rep)
  {
  }

  /** No occurrence before `i` in a text means none before `i - 1` in its tail. */
  lemma NoEarlierOccurrenceInTail(s: string, p: string, i: nat)
    requires 0 < i <= |s|
    requires forall k: nat :: k < i ==> !OccursAt(s, p, k)
    ensures forall k: nat :: k < i - 1 ==> !OccursAt(s[1..], p, k)
  {
    forall k: nat | k < i - 1 ensures !OccursAt(s[1..], p, k) {
      OccursAtTail(s, p, k);
    }
  }

  /** Where the pattern starts, it becomes the replacement. */
  lemma ReplaceAllReplacesFirst(s: string, p: string, rep: string)
    requires |p| > 0 && |s| >= |p| && s[..|p|] == p
    ensures ReplaceAll(s, p, rep) == rep + ReplaceAll(s[|p|..], p, rep)
  {
  }

  /** A prefix in which the pattern does not start is kept as it is. */
  lemma {:induction false} ReplaceAllKeepsPrefix(s: string, p: string, rep: string, i: nat)
    requires |p| > 0 && i + |p| <= |s|
    requires forall k: nat :: k < i ==> !OccursAt(s, p, k)
    ensures ReplaceAll(s, p, rep) == s[..i] + ReplaceAll(s[i..], p, rep)
    decreases i
  {
    if i == 0 {
      assert s[..0] == [] && s[0..] == s;
    } else {
      var t := s[1..];
      ReplaceAllKeepsFirst(s, p, rep);
      NoEarlierOccurrenceInTail(s, p, i);
      ReplaceAllKeepsPrefix(t, p, rep, i - 1);
      assert t[i - 1..] == s[i..];
      ConsPrefix(s, i, ReplaceAll(s[i..], p, rep));
    }
  }

  /** Up to the first occurrence of the pattern the text is kept; that
      occurrence becomes the replacement, and the rest is rewritten in turn. */
  lemma ReplaceAllAtFirstOccurrence(s: string, p: string, rep: string, i: nat)
    requires |p| > 0 && OccursAt(s, p, i)
    requires forall k: nat :: k < i ==> !OccursAt(s, p, k)
    ensures ReplaceAll(s, p, rep) == s[..i] + rep + ReplaceAll(s[i + |p|..], p, rep)
  {
    ReplaceAllKeepsPrefix(s, p, rep, i);
    var u := s[i..];
    assert u[..|p|] == s[i..i + |p|];
    ReplaceAllReplacesFirst(u, p, rep);
    assert u[|p|..] == s[i + |p|..];
    AppendAssociative(s[..i], rep, ReplaceAll(s[i + |p|..], p, rep));
  }

  /** Concatenation is associative. */
  lemma AppendAssociative(a: string, b: string, c: string)
    ensures a + (b + c) == a + b + c
  {
  }

  /** Putting the first character back in front of the tail's prefix. */
  lemma ConsPrefix(s: string, i: nat, u: string)
    requires 0 < i <= |s|
    ensures [s[0]] + (s[1..][..i - 1] + u) == s[..i] + u
  {
    assert s[..i] == [s[0]] + s[1..][..i - 1];
  }

  /** Guava `Joiner.on(sep).join(xs)`. */
  function Join(xs: seq<string>, sep: char): (r: string)
    ensures |xs| == 1 ==> r == xs[0]
  {
    if |xs| == 0 then ""
    else if |xs| == 1 then xs[0]
    else xs[0] + [sep] + Join(xs[1..], sep)
  }

  /** Splits `s` at every `sep` (the inverse of `Join`); `""` gives `[""]`. */
  function Split(s: string, sep: char): (r: seq<string>)
    ensures |r| > 0
    decreases |s|
  {
    match IndexOf(s, sep)
    case None => [s]
    case Some(i) => [s[..i]] + Split(s[i + 1..], sep)
  }

  /** Joining lines that hold no separator and splitting the result again
      gives back the lines. */
  lemma {:induction false} SplitJoin(xs: seq<string>, sep: char)
    requires |xs| > 0
    requires forall k :: 0 <= k < |xs| ==> sep !in xs[k]
    ensures Split(Join(xs, sep), sep) == xs
  {
    if |xs| == 1 {
      assert IndexOf(xs[0], sep) == None;
    } else {
      var rest := Join(xs[1..], sep);
      var s := xs[0] + [sep] + rest;
      assert Join(xs, sep) == s;
      IndexOfAfterPrefix(xs[0], sep, rest);
      assert s[..|xs[0]|] == xs[0];
      assert s[|xs[0]| + 1..] == rest;
      assert Split(s, sep) == [xs[0]] + Split(rest, sep);
      assert forall k :: 0 <= k < |xs[1..]| ==> xs[1..][k] == xs[k + 1];
      SplitJoin(xs[1..], sep);
      assert [xs[0]] + xs[1..] == xs;
    }
  }

  /** Splitting at a separator that follows a separator-free prefix gives
      that prefix, then the split of the rest. */
  lemma SplitAfterPrefix(a: string, sep: char, rest: string)
    requires sep !in a
    ensures Split(a + [sep] + rest, sep) == [a] + Split(rest, sep)
  {
    var s := a + [sep] + rest;
    IndexOfAfterPrefix(a, sep, rest);
    assert s[..|a|] == a && s[|a| + 1..] == rest;
  }

  /** Joining three parts puts the separator between them. */
  lemma JoinThree(a: string, b: string, c: string, sep: char)
    ensures Join([a, b, c], sep) == a + [sep] + (b + [sep] + c)
  {
    assert [a, b, c][1..] == [b, c] && [b, c][1..] == [c];
  }

  /** Three parts joined with a separator none of them holds split back
      into the three. */
  lemma SplitThree(a: string, b: string, c: string, sep: char)
    requires sep !in a && sep !in b && sep !in c
    ensures Split(a + [sep] + (b + [sep] + c), sep) == [a, b, c]
  {
    SplitAfterPrefix(a, sep, b + [sep] + c);
    SplitAfterPrefix(b, sep, c);
    assert IndexOf(c, sep) == None;
  }

  /** The digit character for `d`. */
  function DigitChar(d: nat): char
    requires d < 10
  {
    "0123456789"[d]
  }

  /** Decimal digits of `n`, without leading zeros. */
  function Digits(n: nat): (r: string)
    ensures |r| > 0
    ensures forall k :: 0 <= k < |r| ==> '0' <= r[k] <= '9'
    ensures |r| > 1 ==> r[0] != '0'
  {
    if n < 10 then [DigitChar(n)] else Digits(n / 10) + [DigitChar(n % 10)]
  }

  /** The value of a string of decimal digits. */
  function ParseDigits(s: string): nat
    requires forall k :: 0 <= k < |s| ==> '0' <= s[k] <= '9'
  {
    if |s| == 0 then 0 else ParseDigits(s[..|s| - 1]) * 10 + (s[|s| - 1] - '0') as nat
  }

  /** Reading back the digits of `n` gives `n`. */
  lemma {:induction false} ParseDigitsOfDigits(n: nat)
    ensures ParseDigits(Digits(n)) == n
  {
    if n >= 10 {
      var d := Digits(n / 10) + [DigitChar(n % 10)];
      assert d[..|d| - 1] == Digits(n / 10);
      ParseDigitsOfDigits(n / 10);
    }
  }

  /** `Integer.toString(n)`: a minus sign for a negative value, then the digits. */
  function IntToString(n: int): string {
    if n < 0 then "-" + Digits(-n) else Digits(n)
  }
}
