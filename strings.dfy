/** String helpers with the meaning of the JavaScript methods they stand for. */
module Strings {

  /** `s.startsWith(prefix)`. */
  predicate StartsWith(s: string, prefix: string) {
    |prefix| <= |s| && s[..|prefix|] == prefix
  }

  /** `s.replace(from, to)` with a one-character pattern: only the FIRST occurrence is replaced. */
  function ReplaceFirst(s: string, from: char, to: char): (r: string)
    ensures |r| == |s|
    ensures (forall k :: 0 <= k < |s| ==> s[k] != from) ==> r == s
    ensures forall k :: 0 <= k < |s| && s[k] != from ==> r[k] == s[k]
  {
    if s == [] then []
    else if s[0] == from then [to] + s[1..]
    else [s[0]] + ReplaceFirst(s[1..], from, to)
  }

  /** The first occurrence of `from`, at index `i`, is the one that becomes `to`. */
  lemma {:induction false} ReplaceFirstAt(s: string, from: char, to: char, i: nat)
    requires i < |s| && s[i] == from && from !in s[..i]
    ensures ReplaceFirst(s, from, to) == s[..i] + [to] + s[i + 1..]
  {
    if i == 0 {
      assert s[..0] == [] && s[1..] == s[0 + 1..];
    } else {
      assert s[..i][0] == s[0];
      assert s[1..][..i - 1] == s[..i][1..];
      ReplaceFirstAt(s[1..], from, to, i - 1);
      assert s[..i] == [s[0]] + s[1..][..i - 1];
      assert s[i + 1..] == s[1..][i..];
    }
  }

  /** Number of occurrences of `c` in `s`. */
  function Occurrences(s: string, c: char): nat {
    if s == [] then 0 else (if s[0] == c then 1 else 0) + Occurrences(s[1..], c)
  }

  /** With at most one `from` in `s` and `to != from`, the replacement leaves no `from` behind. */
  lemma {:induction false} ReplaceFirstRemovesSingle(s: string, from: char, to: char)
    requires Occurrences(s, from) <= 1 && to != from
    ensures Occurrences(ReplaceFirst(s, from, to), from) == 0
  {
    if s != [] {
      if s[0] == from {
        NoOccurrences(s[1..], from);
        assert ([to] + s[1..])[1..] == s[1..];
      } else {
        ReplaceFirstRemovesSingle(s[1..], from, to);
        assert ([s[0]] + ReplaceFirst(s[1..], from, to))[1..] == ReplaceFirst(s[1..], from, to);
      }
    }
  }

  lemma {:induction false} NoOccurrences(s: string, c: char)
    requires Occurrences(s, c) == 0
    ensures forall k :: 0 <= k < |s| ==> s[k] != c
  {
    if s != [] {
      NoOccurrences(s[1..], c);
      assert forall k :: 1 <= k < |s| ==> s[k] == s[1..][k - 1];
    }
  }

  /** Lexicographic order on character codes (an ORDER BY on a text column). */
  predicate LexLe(a: string, b: string) {
    a == [] || (b != [] && (a[0] < b[0] || (a[0] == b[0] && LexLe(a[1..], b[1..]))))
  }

  /** Any two strings are comparable. */
  lemma {:induction false} LexLeTotal(a: string, b: string)
    ensures LexLe(a, b) || LexLe(b, a)
  {
    if a != [] && b != [] && a[0] == b[0] {
      LexLeTotal(a[1..], b[1..]);
    }
  }
}
