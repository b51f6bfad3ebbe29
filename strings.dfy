/** String operations the pipeline relies on, with Python's semantics:
    `str.split(c)` for a one-character separator, `sep.join(parts)`,
    ASCII `str.lower()` / `str.upper()` of one character, the `in` substring
    test and `f"{n}"` for a natural number. */
module Strings {

  /** The position of the first `c` in `s`, or `|s|` when there is none. */
  function IndexOf(s: string, c: char): (i: nat)
    ensures i <= |s|
    ensures i < |s| ==> s[i] == c
    ensures forall j :: 0 <= j < i ==> s[j] != c
  {
    if s == [] then 0 else if s[0] == c then 0 else 1 + IndexOf(s[1..], c)
  }

  /** Python's `s.split(c)`: the maximal runs between occurrences of `c`,
      read from the left; the empty string splits into one empty piece. */
  function Split(s: string, c: char): (r: seq<string>)
    ensures |r| >= 1
    decreases |s|
  {
    var i := IndexOf(s, c);
    if i == |s| then [s] else [s[..i]] + Split(s[i + 1..], c)
  }

  /** No piece of a split holds the separator. */
  lemma {:induction false} SplitNoSep(s: string, c: char)
    ensures forall k :: 0 <= k < |Split(s, c)| ==> c !in Split(s, c)[k]
    decreases |s|
  {
    var i := IndexOf(s, c);
    if i < |s| {
      SplitNoSep(s[i + 1..], c);
      assert c !in s[..i];
      var r := Split(s, c);
      assert forall k :: 1 <= k < |r| ==> r[k] == Split(s[i + 1..], c)[k - 1];
    }
  }

  /** Python's `sep.join(parts)`. */
  function Join(parts: seq<string>, sep: string): string
  {
    if |parts| == 0 then []
    else if |parts| == 1 then parts[0]
    else parts[0] + sep + Join(parts[1..], sep)
  }

  /** Where the first separator of a string is, when it starts with a
      separator-free piece. */
  lemma IndexOfAfter(x: string, c: char, t: string)
    requires c !in x
    ensures IndexOf(x + [c] + t, c) == |x|
  {
    var s := x + [c] + t;
    assert s[|x|] == c;
    assert forall j :: 0 <= j < |x| ==> s[j] == x[j];
  }

  /** Text after the first separator does not move it. */
  lemma IndexOfExtend(x: string, y: string, c: char)
    requires IndexOf(x, c) < |x|
    ensures IndexOf(x + y, c) == IndexOf(x, c)
  {
    assert forall j :: 0 <= j < |x| ==> (x + y)[j] == x[j];
  }

  /** Joining the pieces of a split with the separator gives the string back. */
  lemma {:induction false} JoinSplit(s: string, c: char)
    ensures Join(Split(s, c), [c]) == s
    decreases |s|
  {
    var i := IndexOf(s, c);
    if i < |s| {
      var rest := s[i + 1..];
      JoinSplit(rest, c);
      var r := [s[..i]] + Split(rest, c);
      assert r[1..] == Split(rest, c);
      assert Join(r, [c]) == s[..i] + [c] + rest;
      assert s == s[..i] + [c] + rest;
    }
  }

  /** Appending a separator and a separator-free piece adds exactly one piece. */
  lemma {:induction false} SplitAppend(x: string, c: char, p: string)
    requires c !in p
    ensures Split(x + [c] + p, c) == Split(x, c) + [p]
    decreases |x|
  {
    var i := IndexOf(x, c);
    if i == |x| {
      assert forall j :: 0 <= j < |x| ==> x[j] != c;
      SplitFree(x, c);
      SplitPrepend(x, c, p);
      SplitFree(p, c);
    } else {
      SplitAppend(x[i + 1..], c, p);
      SplitAppendStep(x, c, p);
    }
  }

  /** The inductive step of `SplitAppend`: the first piece of `x` comes first
      on both sides. */
  lemma SplitAppendStep(x: string, c: char, p: string)
    requires IndexOf(x, c) < |x|
    requires Split(x[IndexOf(x, c) + 1..] + [c] + p, c) == Split(x[IndexOf(x, c) + 1..], c) + [p]
    ensures Split(x + [c] + p, c) == Split(x, c) + [p]
  {
    SplitFirstAppend(x, c, p);
  }

  /** A split whose first separator lies in `x` starts with the same piece
      after anything is appended to `x`. */
  lemma SplitFirstAppend(x: string, c: char, p: string)
    requires IndexOf(x, c) < |x|
    ensures Split(x + [c] + p, c) == [x[..IndexOf(x, c)]] + Split(x[IndexOf(x, c) + 1..] + [c] + p, c)
  {
    var s := x + [c] + p;
    var i := IndexOf(x, c);
    IndexOfExtend(x, [c] + p, c);
    assert s == x + ([c] + p);
    assert s[..i] == x[..i];
    assert s[i + 1..] == x[i + 1..] + [c] + p;
  }

  /** Prepending a separator-free piece and a separator adds exactly one
      piece in front. */
  lemma SplitPrepend(x: string, c: char, t: string)
    requires c !in x
    ensures Split(x + [c] + t, c) == [x] + Split(t, c)
  {
    var s := x + [c] + t;
    IndexOfAfter(x, c, t);
    assert s[..|x|] == x && s[|x| + 1..] == t;
  }

  /** A separator-free string is a single piece. */
  lemma SplitFree(p: string, c: char)
    requires c !in p
    ensures Split(p, c) == [p]
  {
    assert forall j :: 0 <= j < |p| ==> p[j] != c;
  }

  /** Splitting the join of separator-free pieces gives the pieces back. */
  lemma {:induction false} SplitJoin(parts: seq<string>, c: char)
    requires |parts| >= 1
    requires forall k :: 0 <= k < |parts| ==> c !in parts[k]
    ensures Split(Join(parts, [c]), c) == parts
    decreases |parts|
  {
    if |parts| == 1 {
      SplitFree(parts[0], c);
    } else {
      var rest := parts[1..];
      SplitJoin(rest, c);
      SplitPrepend(parts[0], c, Join(rest, [c]));
      assert [parts[0]] + rest == parts;
    }
  }

  /** Python's `str.lower()` on one character, restricted to ASCII letters. */
  function LowerChar(ch: char): (r: char)
    ensures 'A' <= ch <= 'Z' ==> r as int == ch as int + 32
    ensures !('A' <= ch <= 'Z') ==> r == ch
  {
    if 'A' <= ch <= 'Z' then (ch as int + 32) as char else ch
  }

  /** Python's `str.upper()` on one character, restricted to ASCII letters. */
  function UpperChar(ch: char): (r: char)
    ensures 'a' <= ch <= 'z' ==> r as int == ch as int - 32
    ensures !('a' <= ch <= 'z') ==> r == ch
  {
    if 'a' <= ch <= 'z' then (ch as int - 32) as char else ch
  }

  /** Python's `s.lower()` (ASCII case folding). */
  function Lower(s: string): (r: string)
    ensures |r| == |s|
    ensures forall k :: 0 <= k < |s| ==> r[k] == LowerChar(s[k])
  {
    seq(|s|, k requires 0 <= k < |s| => LowerChar(s[k]))
  }

  /** Upper-casing a character never changes what it folds to. */
  lemma UpperLower(ch: char)
    ensures LowerChar(UpperChar(ch)) == LowerChar(ch)
  {
  }

  /** Python's `sub in s`. */
  predicate Contains(s: string, sub: string)
  {
    (|sub| <= |s| && s[..|sub|] == sub) || (s != [] && Contains(s[1..], sub))
  }

  /** The decimal digit for `d`. */
  function Digit(d: nat): (r: char)
    requires d < 10
    ensures '0' <= r <= '9' && r as int - '0' as int == d
  {
    ('0' as int + d) as char
  }

  /** Python's `f"{n}"` for a natural number: its decimal digits. */
  function NatToString(n: nat): (r: string)
    ensures |r| >= 1
    ensures forall k :: 0 <= k < |r| ==> '0' <= r[k] <= '9'
  {
    if n < 10 then [Digit(n)] else NatToString(n / 10) + [Digit(n % 10)]
  }

  /** The number a string of decimal digits denotes. */
  function DigitsValue(s: string): nat
    requires forall k :: 0 <= k < |s| ==> '0' <= s[k] <= '9'
  {
    if s == [] then 0 else 10 * DigitsValue(s[..|s| - 1]) + (s[|s| - 1] as int - '0' as int)
  }

  /** The decimal text of a number reads back as that number. */
  lemma {:induction false} NatToStringValue(n: nat)
    ensures DigitsValue(NatToString(n)) == n
  {
    if n >= 10 {
      NatToStringValue(n / 10);
      var s := NatToString(n);
      assert s[..|s| - 1] == NatToString(n / 10);
    }
  }
}
