/**
 * The `Array.prototype` methods the components call on their lists,
 * with JavaScript's handling of missing and negative indices.
 */
module JsArray {

  /** `s.indexOf(x)`: the first index holding `x`, or -1. */
  function IndexOf<T(==)>(s: seq<T>, x: T): (i: int)
    ensures -1 <= i < |s|
    ensures i == -1 <==> x !in s
    ensures 0 <= i ==> s[i] == x && x !in s[..i]
  {
    if |s| == 0 then -1
    else if s[0] == x then 0
    else
      var j := IndexOf(s[1..], x);
      if j == -1 then -1
      else
        assert s[..1 + j] == [s[0]] + s[1..][..j];
        1 + j
  }

  /**
   * `s.findIndex(pred)` where the predicate is "has key `key`", with `key`
   * read through `keyOf`.
   */
  function FindIndex<T, K(==)>(s: seq<T>, keyOf: T -> K, key: K): (i: int)
    ensures -1 <= i < |s|
    ensures i == -1 <==> forall k :: 0 <= k < |s| ==> keyOf(s[k]) != key
    ensures 0 <= i ==> keyOf(s[i]) == key && forall k :: 0 <= k < i ==> keyOf(s[k]) != key
  {
    if |s| == 0 then -1
    else if keyOf(s[0]) == key then 0
    else
      var j := FindIndex(s[1..], keyOf, key);
      if j == -1 then -1 else 1 + j
  }

  /**
   * The array left by `s.splice(start, 1)`: a negative `start` counts back
   * from the end (clamped at 0), and a `start` at or past the end removes
   * nothing.
   */
  function SpliceOne<T>(s: seq<T>, start: int): (r: seq<T>)
    ensures 0 <= start < |s| ==> r == s[..start] + s[start + 1..]
    ensures -|s| <= start < 0 ==> r == s[..|s| + start] + s[|s| + start + 1..]
    ensures start < -|s| && |s| > 0 ==> r == s[1..]
    ensures start >= |s| ==> r == s
  {
    var k := if start >= 0 then start else if |s| + start < 0 then 0 else |s| + start;
    if k >= |s| then s else s[..k] + s[k + 1..]
  }

  /** `s.slice(start, end)` for non-negative bounds. */
  function Slice<T>(s: seq<T>, start: nat, end: nat): (r: seq<T>)
    ensures |r| == if start >= |s| || end <= start then 0
                   else (if end < |s| then end else |s|) - start
    ensures forall k :: 0 <= k < |r| ==> r[k] == s[start + k]
  {
    if start >= |s| || end <= start then [] else s[start..if end < |s| then end else |s|]
  }

  /** Every element of a slice is an element of the sliced list. */
  lemma SliceWithin<T>(s: seq<T>, start: nat, end: nat)
    ensures forall x :: x in Slice(s, start, end) ==> x in s
  {
    var r := Slice(s, start, end);
    forall x | x in r ensures x in s {
      var k :| 0 <= k < |r| && r[k] == x;
      assert s[start + k] == x;
    }
  }

  /**
   * Deleting a list element by `s.splice(s.indexOf(x), 1)`: when `x` is
   * present its first occurrence goes and the rest keep their order; when it
   * is absent indexOf gives -1 and the LAST element is removed instead.
   */
  lemma {:induction false} SpliceIndexOf<T>(s: seq<T>, x: T)
    ensures var r := SpliceOne(s, IndexOf(s, x));
            (x in s ==> var i := IndexOf(s, x);
                        r == s[..i] + s[i + 1..] && s[i] == x &&
                        multiset(r) == multiset(s) - multiset{x}) &&
            (x !in s && |s| > 0 ==> r == s[..|s| - 1]) &&
            (s == [] ==> r == [])
  {
    var i := IndexOf(s, x);
    if x in s {
      assert s == s[..i] + [s[i]] + s[i + 1..];
      assert multiset(s) == multiset(s[..i]) + multiset{x} + multiset(s[i + 1..]);
    } else if |s| > 0 {
      assert s[|s| - 1 + 1..] == [];
      assert s[..|s| - 1] + [] == s[..|s| - 1];
    }
  }
}
