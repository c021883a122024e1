/** Shared vocabulary: an option type, first-match search and filtering over
    sequences, and the character classes used when currency names are compared. */
module Common {

  datatype Option<+T> = None | Some(value: T)

  /** Index of the first element of `s` satisfying `p`, in sequence order. */
  function FirstWhere<T>(s: seq<T>, p: T -> bool): (r: Option<nat>)
    ensures r.Some? ==> r.value < |s| && p(s[r.value])
    ensures r.Some? ==> forall j :: 0 <= j < r.value ==> !p(s[j])
    ensures r.None? <==> forall j :: 0 <= j < |s| ==> !p(s[j])
  {
    if |s| == 0 then None
    else if p(s[0]) then Some(0)
    else match FirstWhere(s[1..], p)
      case None => None
      case Some(k) => Some(k + 1)
  }

  /** The elements of `s` satisfying `p`, in their original order. */
  function Filter<T(!new)>(s: seq<T>, p: T -> bool): (r: seq<T>)
    ensures |r| <= |s|
    ensures forall x :: x in r <==> x in s && p(x)
  {
    if |s| == 0 then [] else (if p(s[0]) then [s[0]] else []) + Filter(s[1..], p)
  }

  /** Filtering keeps elements distinct under a key when they were distinct. */
  lemma {:induction false} FilterKeepsDistinct<T(!new), K>(s: seq<T>, p: T -> bool, key: T -> K)
    requires forall i, j :: 0 <= i < j < |s| ==> key(s[i]) != key(s[j])
    ensures forall i, j :: 0 <= i < j < |Filter(s, p)| ==> key(Filter(s, p)[i]) != key(Filter(s, p)[j])
  {
    if |s| > 0 {
      FilterKeepsDistinct(s[1..], p, key);
      var tail := Filter(s[1..], p);
      assert forall i, j :: 0 <= i < j < |tail| ==> key(tail[i]) != key(tail[j]);
      forall x | x in tail
        ensures key(x) != key(s[0])
      {
        var k :| 0 <= k < |s[1..]| && s[1..][k] == x;
        assert s[k + 1] == x;
      }
      var r := Filter(s, p);
      if p(s[0]) {
        assert r == [s[0]] + tail;
        forall i, j | 0 <= i < j < |r|
          ensures key(r[i]) != key(r[j])
        {
          if i == 0 {
            assert r[j] == tail[j - 1];
            assert r[j] in tail;
          } else {
            assert r[i] == tail[i - 1] && r[j] == tail[j - 1];
          }
        }
      } else {
        assert r == tail;
      }
    }
  }

  /** The first `n` elements of `s` (all of them when there are fewer), as a
      bounded cursor read does. */
  function Take<T>(s: seq<T>, n: nat): (r: seq<T>)
    ensures |r| == if |s| <= n then |s| else n
    ensures r <= s
  {
    if |s| <= n then s else s[..n]
  }

  /** ASCII case folding, the part of case-insensitive matching this model covers. */
  function LowerAscii(c: char): char
  {
    if 'A' <= c <= 'Z' then (c as int + 32) as char else c
  }

  function Lowered(s: string): (r: string)
    ensures |r| == |s|
  {
    if s == [] then [] else [LowerAscii(s[0])] + Lowered(s[1..])
  }

  lemma {:induction false} LoweredSnoc(s: string, c: char)
    ensures Lowered(s + [c]) == Lowered(s) + [LowerAscii(c)]
  {
    if s != [] {
      assert (s + [c])[1..] == s[1..] + [c];
      LoweredSnoc(s[1..], c);
    }
  }

  /** Equality ignoring ASCII case, as an anchored case-insensitive literal match. */
  predicate EqualsIgnoreCase(a: string, b: string)
  {
    Lowered(a) == Lowered(b)
  }

  /** ASCII whitespace (the `\s` class). */
  predicate IsSpace(c: char)
  {
    c == ' ' || c == '\t' || c == '\n' || c == '\r' || c == '\U{B}' || c == '\U{C}'
  }

  /** A whitespace character or ZERO WIDTH NON-JOINER (U+200C). */
  predicate IsGap(c: char)
  {
    IsSpace(c) || c == '\U{200C}'
  }

  /** `s` with every whitespace and ZWNJ character removed. */
  function RemoveGaps(s: string): (r: string)
    ensures |r| <= |s|
    ensures forall i :: 0 <= i < |r| ==> !IsGap(r[i])
  {
    if s == [] then [] else (if IsGap(s[0]) then [] else [s[0]]) + RemoveGaps(s[1..])
  }
}
