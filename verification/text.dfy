/**
 * String operations of the JavaScript runtime that the front end relies on:
 * `split` on a one-character separator, `join`, `startsWith`, and substring
 * search. Strings are `seq<char>`, sequences of Unicode scalar values; a
 * character outside the Basic Multilingual Plane is one `char` here where
 * JavaScript counts two UTF-16 code units.
 */
module Text {

  /** Position of the first `c` in `s`, or `|s|` when `s` holds no `c`. */
  function IndexOf(s: string, c: char): (i: nat)
    ensures i <= |s|
    ensures i < |s| ==> s[i] == c
  {
    if |s| == 0 then 0
    else if s[0] == c then 0
    else 1 + IndexOf(s[1..], c)
  }

  /** No `c` comes before the one `IndexOf` finds. */
  lemma {:induction false} IndexOfFirst(s: string, c: char)
    ensures c !in s[..IndexOf(s, c)]
    decreases |s|
  {
    if |s| > 0 && s[0] != c {
      var j := IndexOf(s[1..], c);
      IndexOfFirst(s[1..], c);
      assert s[..1 + j] == [s[0]] + s[1..][..j];
    }
  }

  /**
   * `s.split(c)`: the maximal pieces of `s` between occurrences of `c`.
   * There is always at least one piece, and no piece holds `c`.
   */
  function Split(s: string, c: char): (parts: seq<string>)
    ensures |parts| >= 1
    decreases |s|
  {
    var i := IndexOf(s, c);
    if i == |s| then
      [s]
    else
      [s[..i]] + Split(s[i + 1..], c)
  }

  /** The first piece is the text before the first `c`. */
  lemma SplitFirst(s: string, c: char)
    ensures Split(s, c)[0] == s[..IndexOf(s, c)]
  {
    if IndexOf(s, c) == |s| {
      assert s[..|s|] == s;
    }
  }

  /** One unfolding of `Split` when `s` holds a `c`. */
  lemma SplitFound(s: string, c: char)
    requires IndexOf(s, c) < |s|
    ensures Split(s, c) == [s[..IndexOf(s, c)]] + Split(s[IndexOf(s, c) + 1..], c)
  {
  }

  /** One unfolding of `Split` when `s` holds no `c`. */
  lemma SplitNotFound(s: string, c: char)
    requires IndexOf(s, c) == |s|
    ensures Split(s, c) == [s]
  {
    assert s[..|s|] == s;
  }

  /** No piece of `s.split(c)` holds `c`, and there is one piece exactly when `s` holds no `c`. */
  lemma {:induction false} SplitPieces(s: string, c: char)
    ensures forall k :: 0 <= k < |Split(s, c)| ==> c !in Split(s, c)[k]
    ensures |Split(s, c)| == 1 <==> c !in s
    decreases |s|
  {
    var i := IndexOf(s, c);
    IndexOfFirst(s, c);
    if i == |s| {
      SplitNotFound(s, c);
      assert s[..i] == s;
    } else {
      var head, rest := s[..i], Split(s[i + 1..], c);
      SplitPieces(s[i + 1..], c);
      SplitFound(s, c);
      PiecesCons(head, rest, c);
    }
  }

  /** `parts.join(c)` for a non-empty list of pieces. */
  function Join(parts: seq<string>, c: char): (s: string)
    requires |parts| >= 1
    ensures |s| >= |parts| - 1
  {
    if |parts| == 1 then parts[0] else parts[0] + [c] + Join(parts[1..], c)
  }

  /** `Array.prototype.join(sep)`: the empty list joins to the empty string. */
  function JoinAll(parts: seq<string>, c: char): (s: string)
    ensures parts == [] ==> s == ""
    ensures parts != [] ==> s == Join(parts, c)
  {
    if parts == [] then "" else Join(parts, c)
  }

  /** A piece free of `c` in front of pieces free of `c`. */
  lemma PiecesCons(head: string, rest: seq<string>, c: char)
    requires c !in head && |rest| >= 1
    requires forall k :: 0 <= k < |rest| ==> c !in rest[k]
    ensures forall k :: 0 <= k < |[head] + rest| ==> c !in ([head] + rest)[k]
    ensures |[head] + rest| != 1
  {
  }

  /** Joining a piece in front of a non-empty list puts one separator between them. */
  lemma JoinCons(head: string, rest: seq<string>, c: char)
    requires |rest| >= 1
    ensures Join([head] + rest, c) == head + [c] + Join(rest, c)
  {
    assert ([head] + rest)[1..] == rest;
  }

  /** Splitting and joining again on the same separator gives back the input. */
  lemma {:induction false} JoinSplit(s: string, c: char)
    ensures Join(Split(s, c), c) == s
    decreases |s|
  {
    var i := IndexOf(s, c);
    if i == |s| {
      SplitNotFound(s, c);
    } else {
      var head, tail := s[..i], s[i + 1..];
      var rest := Split(tail, c);
      SplitFound(s, c);
      JoinSplit(tail, c);
      JoinCons(head, rest, c);
      assert s == head + [c] + tail;
    }
  }

  /** The first `c` of `a + [c] + b` is the one just after `a` when `a` holds none. */
  lemma IndexOfAfterPrefix(a: string, c: char, b: string)
    requires c !in a
    ensures IndexOf(a + [c] + b, c) == |a|
  {
    var s := a + [c] + b;
    var i := IndexOf(s, c);
    IndexOfFirst(s, c);
    assert s[|a|] == c;
    assert forall k :: 0 <= k < |a| ==> s[k] == a[k];
    assert forall k :: 0 <= k < i ==> s[..i][k] == s[k];
  }

  /** Joining pieces free of `c` and splitting again gives back the pieces. */
  lemma {:induction false} SplitJoin(parts: seq<string>, c: char)
    requires |parts| >= 1
    requires forall k :: 0 <= k < |parts| ==> c !in parts[k]
    ensures Split(Join(parts, c), c) == parts
  {
    if |parts| == 1 {
      IndexOfAbsent(parts[0], c);
      SplitNotFound(parts[0], c);
    } else {
      var head := parts[0];
      var rest := Join(parts[1..], c);
      assert Join(parts, c) == head + [c] + rest;
      SplitCons(head, rest, c);
      SplitJoin(parts[1..], c);
      assert parts == [head] + parts[1..];
    }
  }

  /** Splitting `head + [c] + rest` when `head` holds no `c`: `head` is the first piece. */
  lemma SplitCons(head: string, rest: string, c: char)
    requires c !in head
    ensures Split(head + [c] + rest, c) == [head] + Split(rest, c)
  {
    var s := head + [c] + rest;
    IndexOfAfterPrefix(head, c, rest);
    assert s[..|head|] == head;
    assert s[|head| + 1..] == rest;
    SplitFound(s, c);
  }

  /** The text after the last `c` of `s`, or all of `s` when it holds no `c`. */
  function LastPiece(s: string, c: char): string
    decreases |s|
  {
    var i := IndexOf(s, c);
    if i == |s| then s else LastPiece(s[i + 1..], c)
  }

  /** The last piece is what `s.split(c).pop()` returns. */
  lemma {:induction false} LastPieceIsPop(s: string, c: char)
    ensures var parts := Split(s, c); LastPiece(s, c) == parts[|parts| - 1]
    decreases |s|
  {
    var i := IndexOf(s, c);
    if i == |s| {
      SplitNotFound(s, c);
    } else {
      var t := s[i + 1..];
      assert LastPiece(s, c) == LastPiece(t, c);
      LastPieceIsPop(t, c);
      PopOfFound(s, c);
    }
  }

  /** Past the first `c`, the last piece of the split is that of the rest. */
  lemma PopOfFound(s: string, c: char)
    requires IndexOf(s, c) < |s|
    ensures var parts, rest := Split(s, c), Split(s[IndexOf(s, c) + 1..], c);
      parts[|parts| - 1] == rest[|rest| - 1]
  {
    var i := IndexOf(s, c);
    SplitFound(s, c);
    LastOfCons(s[..i], Split(s[i + 1..], c));
  }

  /** The last piece holds no `c`. */
  lemma {:induction false} LastPieceNoSeparator(s: string, c: char)
    ensures c !in LastPiece(s, c)
    decreases |s|
  {
    var p := LastPiece(s, c);
    LastPieceFree(s, c);
    IndexOfFirst(p, c);
    assert p[..|p|] == p;
  }

  /** `IndexOf` finds no `c` in the last piece. */
  lemma {:induction false} LastPieceFree(s: string, c: char)
    ensures IndexOf(LastPiece(s, c), c) == |LastPiece(s, c)|
    decreases |s|
  {
    var i := IndexOf(s, c);
    if i < |s| {
      LastPieceFree(s[i + 1..], c);
    }
  }

  /**
   * The last piece is a suffix of `s` that is preceded in `s` by a `c`
   * whenever it is not all of `s`.
   */
  lemma {:induction false} LastPieceSuffix(s: string, c: char)
    ensures |LastPiece(s, c)| <= |s|
    ensures s[|s| - |LastPiece(s, c)|..] == LastPiece(s, c)
    ensures |LastPiece(s, c)| < |s| ==> s[|s| - |LastPiece(s, c)| - 1] == c
    decreases |s|
  {
    var i := IndexOf(s, c);
    if i < |s| {
      var t := s[i + 1..];
      LastPieceSuffix(t, c);
      SuffixOfRest(s, i + 1, |LastPiece(t, c)|);
    }
  }

  /** Whatever precedes the last `c`, the last piece is the text after it. */
  lemma {:induction false} LastPieceAfter(a: string, b: string, c: char)
    requires c !in b
    ensures LastPiece(a + [c] + b, c) == b
    decreases |a|
  {
    var i := IndexOf(a, c);
    if i == |a| {
      IndexOfFirst(a, c);
      assert a[..i] == a;
      LastPieceStep(a, b, c);
      IndexOfAbsent(b, c);
    } else {
      var head, tail := a[..i], a[i + 1..];
      IndexOfFirst(a, c);
      assert a + [c] + b == head + [c] + (tail + [c] + b) by {
        assert a == head + [c] + tail;
      }
      LastPieceStep(head, tail + [c] + b, c);
      LastPieceAfter(tail, b, c);
    }
  }

  /** Past a first `c`, the last piece is that of the rest. */
  lemma LastPieceStep(head: string, rest: string, c: char)
    requires c !in head
    ensures LastPiece(head + [c] + rest, c) == LastPiece(rest, c)
  {
    var s := head + [c] + rest;
    IndexOfAfterPrefix(head, c, rest);
    assert s[|head| + 1..] == rest;
  }

  /** The last element of a non-empty list is unchanged by putting an element in front. */
  lemma LastOfCons<T>(x: T, rest: seq<T>)
    requires |rest| >= 1
    ensures ([x] + rest)[|[x] + rest| - 1] == rest[|rest| - 1]
  {
  }

  /** Dropping `j` characters from `x + y`, with `j` inside `x`. */
  lemma DropAcross(x: string, y: string, j: nat)
    requires j <= |x|
    ensures (x + y)[j..] == x[j..] + y
  {
  }

  /** A string without `c` has no first `c`. */
  lemma IndexOfAbsent(s: string, c: char)
    requires c !in s
    ensures IndexOf(s, c) == |s|
  {
  }

  /** A suffix of `s[j..]` of length `n` is the suffix of `s` of that length. */
  lemma SuffixOfRest(s: string, j: nat, n: nat)
    requires j <= |s| && n <= |s| - j
    ensures s[|s| - n..] == s[j..][|s| - j - n..]
    ensures n < |s| - j ==> s[|s| - n - 1] == s[j..][|s| - j - n - 1]
  {
  }

  /** `sub` occurs in `s` starting at position `i`. */
  predicate OccursAt(s: string, sub: string, i: int) {
    0 <= i <= |s| - |sub| && s[i..i + |sub|] == sub
  }

  /**
   * `s.includes(sub)`, equivalently `s.match(sub) !== null` for a pattern
   * without regular-expression metacharacters.
   */
  function Contains(s: string, sub: string): (r: bool)
    ensures r <==> exists i :: OccursAt(s, sub, i)
  {
    if sub <= s then
      assert OccursAt(s, sub, 0);
      true
    else if |s| == 0 then
      false
    else
      var t := s[1..];
      var r := Contains(t, sub);
      if r then
        var i :| OccursAt(t, sub, i);
        assert s[i + 1..i + 1 + |sub|] == t[i..i + |sub|];
        assert OccursAt(s, sub, i + 1);
        true
      else
        assert forall i :: OccursAt(s, sub, i) ==> i == 0 || OccursAt(t, sub, i - 1) by {
          forall i | OccursAt(s, sub, i) && i > 0 ensures OccursAt(t, sub, i - 1) {
            assert s[i..i + |sub|] == t[i - 1..i - 1 + |sub|];
          }
        }
        assert !OccursAt(s, sub, 0);
        false
  }

  /** A string without the first character of `sub` cannot contain `sub`. */
  lemma ContainsNeedsFirst(s: string, sub: string)
    requires |sub| > 0 && sub[0] !in s
    ensures !Contains(s, sub)
  {
    forall i | 0 <= i <= |s| - |sub|
      ensures !OccursAt(s, sub, i)
    {
      assert s[i..i + |sub|][0] == s[i] != sub[0];
    }
  }
}
