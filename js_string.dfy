/**
 * The few JavaScript built-ins on strings and arrays that the dashboard relies on:
 * `toLowerCase`, `startsWith`, `slice`, `split`, `join` and `replaceAll` of one character.
 */
module JsString {

  predicate IsUpper(c: char) { 'A' <= c <= 'Z' }

  /** `toLowerCase` on one character (ASCII letters; see README for the rest of Unicode). */
  function LowerChar(c: char): (r: char)
    ensures !IsUpper(r)
    ensures !IsUpper(c) ==> r == c
  {
    if IsUpper(c) then (c as int + 32) as char else c
  }

  /** `toUpperCase` on one character, ASCII letters only. */
  function UpperChar(c: char): (r: char)
    ensures LowerChar(r) == LowerChar(c)
  {
    if 'a' <= c <= 'z' then (c as int - 32) as char else c
  }

  /** Lower-casing a whole string, character by character. */
  function ToLower(s: string): (r: string)
    ensures |r| == |s|
    ensures forall i :: 0 <= i < |r| ==> !IsUpper(r[i])
    ensures forall i :: 0 <= i < |s| && !IsUpper(s[i]) ==> r[i] == s[i]
  {
    seq(|s|, i requires 0 <= i < |s| => LowerChar(s[i]))
  }

  /** Upper-casing a whole string, character by character. */
  function ToUpper(s: string): (r: string)
    ensures |r| == |s|
  {
    seq(|s|, i requires 0 <= i < |s| => UpperChar(s[i]))
  }

  /** Upper-casing a string does not change its lower case. */
  lemma ToLowerOfToUpper(s: string)
    ensures ToLower(ToUpper(s)) == ToLower(s)
  {
    var u := ToUpper(s);
    forall i | 0 <= i < |s| ensures ToLower(u)[i] == ToLower(s)[i] {
      assert u[i] == UpperChar(s[i]);
    }
  }

  /** `p` is a prefix of `s`. */
  predicate StartsWith<T(==)>(s: seq<T>, p: seq<T>) {
    |p| <= |s| && s[..|p|] == p
  }

  /** How `slice` reads one index argument against a length: negative counts from the end. */
  function ClampIndex(i: int, n: nat): (r: nat)
    ensures r <= n
    ensures 0 <= i <= n ==> r == i
    ensures i < 0 && n + i >= 0 ==> r == n + i
  {
    if i < 0 then (if n + i < 0 then 0 else n + i) else if i > n then n else i
  }

  /** `s.slice(start, end)` for strings and arrays alike. */
  function Slice<T>(s: seq<T>, start: int, end: int): (r: seq<T>)
    ensures |r| <= |s|
    ensures ClampIndex(start, |s|) <= ClampIndex(end, |s|) ==> r == s[ClampIndex(start, |s|)..ClampIndex(end, |s|)]
    ensures ClampIndex(start, |s|) >= ClampIndex(end, |s|) ==> r == []
  {
    var a, b := ClampIndex(start, |s|), ClampIndex(end, |s|);
    if a < b then s[a..b] else []
  }

  /** `s.slice(0, k)` for k >= 0 is the longest prefix of length at most k. */
  lemma SlicePrefix<T>(s: seq<T>, k: nat)
    ensures |Slice(s, 0, k)| == if |s| < k then |s| else k
    ensures Slice(s, 0, k) <= s
  {
  }

  /** `s.slice(-k)` for k > 0 is the longest suffix of length at most k. */
  lemma SliceSuffix<T>(s: seq<T>, k: nat)
    requires k > 0
    ensures |Slice(s, -(k as int), |s|)| == if |s| < k then |s| else k
    ensures Slice(s, -(k as int), |s|) == s[|s| - |Slice(s, -(k as int), |s|)|..]
  {
  }

  /**
   * `s.split(sep)` for a non-empty separator: the text between consecutive
   * occurrences of `sep`, found from left to right without overlap.
   */
  function Split(s: string, sep: string): (r: seq<string>)
    requires |sep| > 0
    ensures |r| >= 1
    ensures r[0] <= s
    decreases |s|
  {
    if |s| < |sep| then [s]
    else if s[..|sep|] == sep then [""] + Split(s[|sep|..], sep)
    else
      var rest := Split(s[1..], sep);
      [[s[0]] + rest[0]] + rest[1..]
  }

  /** `parts.join(sep)` */
  function Join(parts: seq<string>, sep: string): (r: string)
    requires |parts| >= 1
    decreases |parts|
  {
    if |parts| == 1 then parts[0] else parts[0] + sep + Join(parts[1..], sep)
  }

  /** Joining the pieces of a split with the same separator gives back the string. */
  lemma {:induction false} JoinSplit(s: string, sep: string)
    requires |sep| > 0
    ensures Join(Split(s, sep), sep) == s
    decreases |s|
  {
    if |s| < |sep| {
    } else if s[..|sep|] == sep {
      JoinSplit(s[|sep|..], sep);
      assert s == sep + s[|sep|..];
    } else {
      var rest := Split(s[1..], sep);
      JoinSplit(s[1..], sep);
      var first := [s[0]] + rest[0];
      if |rest| == 1 {
        assert s == [s[0]] + s[1..];
      } else {
        assert ([first] + rest[1..])[1..] == rest[1..];
        assert Join(rest, sep) == rest[0] + sep + Join(rest[1..], sep);
        assert s == [s[0]] + s[1..];
      }
    }
  }

  /** `sep` occurs in `s` starting at index `k`. */
  predicate OccursAt(s: string, sep: string, k: nat) {
    k + |sep| <= |s| && s[k..k + |sep|] == sep
  }

  predicate Occurs(s: string, sep: string) {
    exists k: nat | k <= |s| :: OccursAt(s, sep, k)
  }

  /** No piece of a split contains the separator: every occurrence was cut out. */
  lemma {:induction false} SplitPiecesClean(s: string, sep: string)
    requires |sep| > 0
    ensures forall i :: 0 <= i < |Split(s, sep)| ==> !Occurs(Split(s, sep)[i], sep)
    decreases |s|
  {
    var r := Split(s, sep);
    if |s| < |sep| {
    } else if s[..|sep|] == sep {
      SplitPiecesClean(s[|sep|..], sep);
      assert r == [""] + Split(s[|sep|..], sep);
    } else {
      var rest := Split(s[1..], sep);
      SplitPiecesClean(s[1..], sep);
      var p := [s[0]] + rest[0];
      assert r == [p] + rest[1..];
      forall k: nat ensures !OccursAt(p, sep, k) {
        if k + |sep| <= |p| {
          if k == 0 {
            assert p[..|sep|] == s[..|sep|];
          } else {
            assert p[k..k + |sep|] == rest[0][k - 1..k - 1 + |sep|];
            assert !OccursAt(rest[0], sep, k - 1);
          }
        }
      }
      forall i | 0 <= i < |r| ensures !Occurs(r[i], sep) {
        if i > 0 {
          assert r[i] == rest[i];
        }
      }
    }
  }

  /**
   * With a one-character separator, the first piece of a split is the longest
   * prefix free of the separator: it stops at the first separator or at the end.
   */
  lemma {:induction false} SplitFirstPiece(s: string, c: char)
    ensures var v := Split(s, [c])[0];
      && c !in v && v <= s
      && (|v| == |s| || s[|v|] == c)
    decreases |s|
  {
    if |s| < 1 {
    } else if s[..1] == [c] {
    } else {
      SplitFirstPiece(s[1..], c);
      assert s[0] != c by { assert s[..1] == [s[0]]; }
    }
  }

  /** A prefix free of the separator, then the separator, comes off as the first piece. */
  lemma {:induction false} SplitAfterFreePrefix(p: string, c: char, t: string)
    requires c !in p
    ensures Split(p + [c] + t, [c]) == [p] + Split(t, [c])
    decreases |p|
  {
    var s := p + [c] + t;
    if |p| == 0 {
      assert s == [c] + t;
      assert s[..1] == [c];
      assert s[1..] == t;
    } else {
      assert s[..1] == [p[0]];
      assert s[1..] == p[1..] + [c] + t;
      SplitAfterFreePrefix(p[1..], c, t);
      assert [p[0]] + p[1..] == p;
    }
  }

  /** `s.replaceAll(c, "")` for one character `c`. */
  function RemoveAll(s: string, c: char): (r: string)
    ensures c !in r
    ensures |r| <= |s|
    ensures forall d :: d != c ==> multiset(r)[d] == multiset(s)[d]
    decreases |s|
  {
    if s == [] then []
    else
      var rest := RemoveAll(s[1..], c);
      assert s == [s[0]] + s[1..];
      if s[0] == c then rest else [s[0]] + rest
  }

  /** Removal works piece by piece, so the characters that stay keep their order. */
  lemma {:induction false} RemoveAllConcat(x: string, y: string, c: char)
    ensures RemoveAll(x + y, c) == RemoveAll(x, c) + RemoveAll(y, c)
    decreases |x|
  {
    if x == [] {
      assert x + y == y;
    } else {
      RemoveAllConcat(x[1..], y, c);
      assert (x + y)[1..] == x[1..] + y;
    }
  }

  /** On one character: the removed character goes, any other stays. */
  lemma RemoveAllSingle(d: char, c: char)
    ensures RemoveAll([d], c) == if d == c then [] else [d]
  {
    assert [d][1..] == [];
  }

  /** Removing a character that does not occur changes nothing. */
  lemma {:induction false} RemoveAllAbsent(s: string, c: char)
    requires c !in s
    ensures RemoveAll(s, c) == s
    decreases |s|
  {
    if s != [] {
      RemoveAllAbsent(s[1..], c);
      assert s == [s[0]] + s[1..];
    }
  }
}
