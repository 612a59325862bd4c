/** The String.prototype operations the bridge uses: prefix and suffix tests, the first-occurrence
    `replace` with a string pattern, `split` on a one-character separator, `join`, and
    lower-casing of ASCII letters. */
module Strings {

  predicate StartsWith(s: string, p: string) {
    |p| <= |s| && s[..|p|] == p
  }

  predicate EndsWith(s: string, p: string) {
    |p| <= |s| && s[|s| - |p|..] == p
  }

  /** `s.indexOf(p, from)`, as an index or -1. */
  function IndexFrom(s: string, p: string, from: nat): (r: int)
    requires from <= |s|
    ensures r == -1 || (from <= r <= |s| && StartsWith(s[r..], p))
    decreases |s| - from
  {
    if StartsWith(s[from..], p) then from
    else if from == |s| then -1
    else IndexFrom(s, p, from + 1)
  }

  /** The index found is the first occurrence from `from` on, and -1 means there is none. */
  lemma {:induction false} IndexFromFirst(s: string, p: string, from: nat)
    requires from <= |s|
    ensures var r := IndexFrom(s, p, from);
      forall j | from <= j <= |s| && (r == -1 || j < r) :: !StartsWith(s[j..], p)
    decreases |s| - from
  {
    if !StartsWith(s[from..], p) && from < |s| {
      IndexFromFirst(s, p, from + 1);
    }
  }

  /** `s.replace(p, r)` with a string pattern: only the first occurrence is replaced. */
  function ReplaceFirst(s: string, p: string, r: string): string {
    var i := IndexFrom(s, p, 0);
    if i == -1 then s else s[..i] + r + s[i + |p|..]
  }

  /** When the pattern is a prefix, replacing its first occurrence strips it. */
  lemma ReplaceFirstAtStart(s: string, p: string, r: string)
    requires StartsWith(s, p)
    ensures ReplaceFirst(s, p, r) == r + s[|p|..]
  {
    assert s[0..] == s;
    assert IndexFrom(s, p, 0) == 0;
    assert s[..0] == [];
  }

  /** `s.split(c)` for a one-character separator: always at least one piece. */
  function Split(s: string, c: char): (r: seq<string>)
    ensures |r| >= 1
  {
    if s == [] then [""]
    else
      var rest := Split(s[1..], c);
      if s[0] == c then [""] + rest else [[s[0]] + rest[0]] + rest[1..]
  }

  /** No piece of a split holds the separator, and there is more than one piece exactly when
      the string holds it. */
  lemma {:induction false} SplitPieces(s: string, c: char)
    ensures var r := Split(s, c);
      (forall k | 0 <= k < |r| :: c !in r[k]) && (|r| == 1 <==> c !in s)
  {
    if s != [] {
      var tail := s[1..];
      var rest := Split(tail, c);
      SplitPieces(tail, c);
      assert s == [s[0]] + tail;
      if s[0] == c {
        assert c in s;
      } else {
        var r := [[s[0]] + rest[0]] + rest[1..];
        forall k | 0 <= k < |r|
          ensures c !in r[k]
        {
          if k > 0 {
            assert r[k] == rest[k];
          }
        }
        assert c in s <==> c in tail;
      }
    }
  }

  /** A string without the separator splits into itself alone. */
  lemma {:induction false} SplitWithout(s: string, c: char)
    requires c !in s
    ensures Split(s, c) == [s]
  {
    if s != [] {
      assert s == [s[0]] + s[1..];
      SplitWithout(s[1..], c);
    }
  }

  /** `parts.join(sep)` */
  function Join(parts: seq<string>, sep: string): string {
    if parts == [] then ""
    else if |parts| == 1 then parts[0]
    else parts[0] + sep + Join(parts[1..], sep)
  }

  lemma JoinCons(x: string, rest: seq<string>, sep: string)
    requires rest != []
    ensures Join([x] + rest, sep) == x + sep + Join(rest, sep)
  {
    assert ([x] + rest)[1..] == rest;
  }

  /** Joining the pieces of a split with the separator gives back the string. */
  lemma {:induction false} JoinSplit(s: string, c: char)
    ensures Join(Split(s, c), [c]) == s
  {
    if s != [] {
      var rest := Split(s[1..], c);
      JoinSplit(s[1..], c);
      if s[0] == c {
        JoinCons("", rest, [c]);
      } else if |rest| == 1 {
      } else {
        assert Join(rest, [c]) == rest[0] + [c] + Join(rest[1..], [c]);
        JoinCons([s[0]] + rest[0], rest[1..], [c]);
      }
    }
  }

  /** The first piece of a split is empty exactly when the string is empty or starts with the separator. */
  lemma SplitHead(s: string, c: char)
    ensures Split(s, c)[0] == [] <==> (s == [] || s[0] == c)
  {
  }

  function Last<T>(xs: seq<T>): T
    requires xs != []
  {
    xs[|xs| - 1]
  }

  /** The last piece of a split of a non-empty string is the whole string when it holds no
      separator, and otherwise the last piece of the split of its tail. */
  lemma SplitLastStep(s: string, c: char)
    requires s != []
    ensures Last(Split(s, c)) == if c !in s then s else Last(Split(s[1..], c))
  {
    var tail := s[1..];
    var rest := Split(tail, c);
    assert s == [s[0]] + tail;
    SplitPieces(tail, c);
    if s[0] == c {
      assert c in s;
      var r := [""] + rest;
      assert Split(s, c) == r;
      assert r[|r| - 1] == rest[|rest| - 1];
    } else {
      var r := [[s[0]] + rest[0]] + rest[1..];
      assert Split(s, c) == r;
      if c !in tail {
        SplitWithout(tail, c);
        assert r == [s];
      } else {
        assert c in s;
        assert |rest| > 1;
        assert r[|r| - 1] == rest[|rest| - 1];
      }
    }
  }

  /** The last piece of a split is the part of the string after its last separator. */
  lemma {:induction false} SplitLast(s: string, c: char)
    ensures var t := Last(Split(s, c));
      EndsWith(s, t) && c !in t && (|t| < |s| ==> s[|s| - |t| - 1] == c)
  {
    if s != [] {
      var tail := s[1..];
      SplitLastStep(s, c);
      if c in s {
        SplitLast(tail, c);
        var t := Last(Split(tail, c));
        assert s[|s| - |t|..] == tail[|tail| - |t|..];
        if |t| < |s| - 1 {
          assert s[|s| - |t| - 1] == tail[|tail| - |t| - 1];
        } else {
          assert t == tail;
          assert c !in tail;
        }
      }
    }
  }

  function LowerChar(c: char): char {
    if 'A' <= c <= 'Z' then (c as int + 32) as char else c
  }

  /** `toLowerCase` restricted to ASCII letters; other characters are kept. */
  function LowerAscii(s: string): (r: string)
    ensures |r| == |s|
    ensures forall i | 0 <= i < |s| :: r[i] == LowerChar(s[i])
  {
    if s == [] then [] else [LowerChar(s[0])] + LowerAscii(s[1..])
  }

  /** A string without upper-case ASCII letters is its own lower-case form. */
  lemma LowerAsciiKeepsLower(s: string)
    requires forall i | 0 <= i < |s| :: !('A' <= s[i] <= 'Z')
    ensures LowerAscii(s) == s
  {
    var r := LowerAscii(s);
    assert forall i | 0 <= i < |s| :: r[i] == s[i];
  }

  predicate AsciiAlnum(c: char) {
    ('a' <= c <= 'z') || ('A' <= c <= 'Z') || ('0' <= c <= '9')
  }
}
