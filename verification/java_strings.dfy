/**
 * The java.lang.String operations the servlet helpers and the header mapper use, over
 * `string` = seq<char>. Case mapping covers ASCII letters only.
 */
module JavaStrings {

  /** s.replace(from, to) for single characters. */
  function Replace(s: string, from: char, to: char): (r: string)
    ensures |r| == |s|
    ensures from != to ==> from !in r
    ensures forall i | 0 <= i < |s| :: r[i] == (if s[i] == from then to else s[i])
  {
    seq(|s|, i requires 0 <= i < |s| => if s[i] == from then to else s[i])
  }

  /** s.endsWith(suffix) */
  predicate EndsWith(s: string, suffix: string)
  {
    |suffix| <= |s| && s[|s| - |suffix|..] == suffix
  }

  /** s.indexOf(c): the first position of c, or -1. */
  function IndexOf(s: string, c: char): (n: int)
    ensures -1 <= n < |s|
    ensures n == -1 <==> c !in s
    ensures n >= 0 ==> s[n] == c && c !in s[..n]
  {
    if |s| == 0 then -1
    else if s[0] == c then 0
    else
      var k := IndexOf(s[1..], c);
      assert s[1..][..(if k == -1 then 0 else k)] == s[1..(if k == -1 then 1 else k + 1)];
      if k == -1 then -1 else k + 1
  }

  /** The characters String.trim removes: every code point up to and including the space. */
  predicate IsTrimmed(ch: char)
  {
    ch <= ' '
  }

  function TrimStart(s: string): (r: string)
    ensures |r| <= |s| && r == s[|s| - |r|..]
    ensures r == [] || !IsTrimmed(r[0])
    ensures forall i | 0 <= i < |s| - |r| :: IsTrimmed(s[i])
  {
    if |s| > 0 && IsTrimmed(s[0]) then TrimStart(s[1..]) else s
  }

  function TrimEnd(s: string): (r: string)
    ensures |r| <= |s| && r == s[..|r|]
    ensures r == [] || !IsTrimmed(r[|r| - 1])
    ensures forall i | |r| <= i < |s| :: IsTrimmed(s[i])
  {
    if |s| > 0 && IsTrimmed(s[|s| - 1]) then TrimEnd(s[..|s| - 1]) else s
  }

  /** s.trim() */
  function Trim(s: string): string
  {
    TrimEnd(TrimStart(s))
  }

  /** The text before the first c, or all of s when c does not occur. */
  function SegmentBefore(s: string, c: char): (r: string)
    ensures c !in r
    ensures |r| <= |s| && r == s[..|r|]
    ensures |r| < |s| ==> s[|r|] == c
  {
    var n := IndexOf(s, c);
    if n == -1 then s else s[..n]
  }

  /** Every piece between occurrences of c, empty pieces included. */
  function SplitAll(s: string, c: char): (parts: seq<string>)
    ensures |parts| >= 1
    ensures parts[0] == SegmentBefore(s, c)
    decreases |s|
  {
    var n := IndexOf(s, c);
    if n == -1 then [s] else [s[..n]] + SplitAll(s[n + 1..], c)
  }

  function DropTrailingEmpty(parts: seq<string>): (r: seq<string>)
    ensures |r| <= |parts| && r == parts[..|r|]
    ensures r == [] || r[|r| - 1] != []
    ensures forall i | |r| <= i < |parts| :: parts[i] == []
  {
    if |parts| > 0 && parts[|parts| - 1] == [] then DropTrailingEmpty(parts[..|parts| - 1]) else parts
  }

  /**
   * s.split(c) for a one-character pattern and limit 0: the input itself when c does not
   * occur, otherwise every piece with the trailing empty pieces removed.
   */
  function Split(s: string, c: char): seq<string>
  {
    if c !in s then [s] else DropTrailingEmpty(SplitAll(s, c))
  }

  predicate AllEmpty(parts: seq<string>)
  {
    forall i | 0 <= i < |parts| :: parts[i] == []
  }

  predicate OnlyChar(s: string, c: char)
  {
    forall j | 0 <= j < |s| :: s[j] == c
  }

  /** Every piece of s is empty exactly when s is made of c alone. */
  lemma SplitAllEmpty(s: string, c: char)
    ensures AllEmpty(SplitAll(s, c)) <==> OnlyChar(s, c)
  {
    if OnlyChar(s, c) {
      OnlyCharSplitsEmpty(s, c);
    }
    if AllEmpty(SplitAll(s, c)) {
      EmptySplitsOnlyChar(s, c);
    }
  }

  lemma {:induction false} OnlyCharSplitsEmpty(s: string, c: char)
    requires OnlyChar(s, c)
    ensures AllEmpty(SplitAll(s, c))
    decreases |s|
  {
    if |s| > 0 {
      assert s[0] == c;
      assert IndexOf(s, c) == 0;
      var rest := s[1..];
      assert OnlyChar(rest, c) by {
        forall j | 0 <= j < |rest| ensures rest[j] == c { assert rest[j] == s[j + 1]; }
      }
      OnlyCharSplitsEmpty(rest, c);
      assert SplitAll(s, c) == [[]] + SplitAll(rest, c);
    }
  }

  lemma {:induction false} EmptySplitsOnlyChar(s: string, c: char)
    requires AllEmpty(SplitAll(s, c))
    ensures OnlyChar(s, c)
    decreases |s|
  {
    var n := IndexOf(s, c);
    if n != -1 {
      var rest := s[n + 1..];
      AllEmptyCons(s[..n], SplitAll(rest, c));
      EmptySplitsOnlyChar(rest, c);
      OnlyCharCons(s, c);
    }
  }

  /** The head and the tail of an all-empty list of pieces are all-empty. */
  lemma AllEmptyCons(head: string, tail: seq<string>)
    requires AllEmpty([head] + tail)
    ensures head == [] && AllEmpty(tail)
  {
    assert ([head] + tail)[0] == head;
    forall i | 0 <= i < |tail| ensures tail[i] == [] {
      assert ([head] + tail)[i + 1] == tail[i];
    }
  }

  /** A string that starts with c and continues with c alone is made of c alone. */
  lemma OnlyCharCons(s: string, c: char)
    requires |s| > 0 && s[0] == c && OnlyChar(s[1..], c)
    ensures OnlyChar(s, c)
  {
    forall j | 0 <= j < |s| ensures s[j] == c {
      if j > 0 { assert s[j] == s[1..][j - 1]; }
    }
  }

  /**
   * What s.split(c)[0] reads: the split is empty exactly when s is a non-empty run of c
   * (then indexing it throws), and otherwise its first element is the text before the first c.
   */
  lemma SplitFirst(s: string, c: char)
    ensures Split(s, c) == [] <==> |s| > 0 && OnlyChar(s, c)
    ensures Split(s, c) != [] ==> Split(s, c)[0] == SegmentBefore(s, c)
  {
    if c in s {
      var parts := SplitAll(s, c);
      SplitAllEmpty(s, c);
      var r := DropTrailingEmpty(parts);
      if r == [] {
        assert AllEmpty(parts);
      } else {
        assert r[0] == parts[0];
      }
    } else if |s| > 0 {
      assert s[0] != c;
    }
  }

  /** Fields joined by c split back into those fields: a field without c, then the rest. */
  lemma SplitAllJoin(field: string, c: char, rest: string)
    requires c !in field
    ensures SplitAll(field + [c] + rest, c) == [field] + SplitAll(rest, c)
  {
    var s := field + [c] + rest;
    var n := IndexOf(s, c);
    assert s[|field|] == c;
    assert s[..n] == field;
    assert s[n + 1..] == rest;
  }

  /** Two fields without c, joined by c, make exactly two pieces. */
  lemma SplitAllTwo(b: string, last: string, c: char)
    requires c !in b && c !in last
    ensures SplitAll(b + [c] + last, c) == [b, last]
  {
    SplitAllJoin(b, c, last);
    assert SplitAll(last, c) == [last];
  }

  /** Three fields without c, joined by c, make exactly three pieces. */
  lemma SplitAllThree(a: string, b: string, last: string, c: char)
    requires c !in a && c !in b && c !in last
    ensures SplitAll(a + [c] + b + [c] + last, c) == [a, b, last]
  {
    JoinAssoc(a, b, last, c);
    SplitAllTwo(b, last, c);
    SplitAllJoin(a, c, b + [c] + last);
  }

  /** Joining three fields groups the last two. */
  lemma JoinAssoc(a: string, b: string, last: string, c: char)
    ensures a + [c] + b + [c] + last == a + [c] + (b + [c] + last)
  {
  }

  /** Three fields without c, the last non-empty, joined by c: split gives back the three. */
  lemma SplitThree(a: string, b: string, last: string, c: char)
    requires c !in a && c !in b && c !in last && last != []
    ensures Split(a + [c] + b + [c] + last, c) == [a, b, last]
  {
    var s := a + [c] + b + [c] + last;
    SplitAllThree(a, b, last, c);
    assert s[|a|] == c;
    assert DropTrailingEmpty([a, b, last]) == [a, b, last];
  }

  /** s.toUpperCase() restricted to ASCII: 'a'..'z' become 'A'..'Z', every other character stays. */
  function ToUpperCase(s: string): (r: string)
    ensures |r| == |s|
    ensures forall i | 0 <= i < |r| :: !('a' <= r[i] <= 'z')
    ensures forall i | 0 <= i < |s| && 'a' <= s[i] <= 'z' :: r[i] as int == s[i] as int - 32
    ensures forall i | 0 <= i < |s| && !('a' <= s[i] <= 'z') :: r[i] == s[i]
  {
    seq(|s|, i requires 0 <= i < |s| => if 'a' <= s[i] <= 'z' then (s[i] as int - 32) as char else s[i])
  }

  /** Upper-casing twice is upper-casing once. */
  lemma ToUpperCaseIdempotent(s: string)
    ensures ToUpperCase(ToUpperCase(s)) == ToUpperCase(s)
  {
  }
}
