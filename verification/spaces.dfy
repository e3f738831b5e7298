/**
 * The `spaces` pipe: `value.replace(/([a-z0-9])([A-Z])/g, '$1 $2')`, which
 * splits camel-case words for display ("templateLimit" shows as
 * "template Limit").
 */
module SpacesPipe {

  predicate IsLowerOrDigit(ch: char) {
    'a' <= ch <= 'z' || '0' <= ch <= '9'
  }

  predicate IsUpper(ch: char) {
    'A' <= ch <= 'Z'
  }

  /** The pair `a b` is one match of the pattern `([a-z0-9])([A-Z])`. */
  predicate Boundary(a: char, b: char) {
    IsLowerOrDigit(a) && IsUpper(b)
  }

  /**
   * The global replace: the pattern is searched left to right; after a match
   * the search resumes just past the matched upper-case letter, and every
   * match gets a space between its two characters.
   */
  function Transform(value: string): (r: string)
    ensures |value| > 0 ==> |r| > 0 && r[0] == value[0]
  {
    if |value| < 2 then value
    else if Boundary(value[0], value[1]) then [value[0], ' ', value[1]] + Transform(value[2..])
    else [value[0]] + Transform(value[1..])
  }

  /** The number of adjacent pairs of `s` that match the pattern. */
  function BoundaryCount(s: string): nat {
    if |s| < 2 then 0
    else (if Boundary(s[0], s[1]) then 1 else 0) + BoundaryCount(s[1..])
  }

  /**
   * A reference definition by position: every character of `s`, in order,
   * each followed by one space exactly when it and its successor match.
   */
  function Spaced(s: string): string {
    if |s| == 0 then []
    else [s[0]] + (if |s| > 1 && Boundary(s[0], s[1]) then " " else "") + Spaced(s[1..])
  }

  /** No adjacent pair of `s` matches the pattern. */
  predicate NoBoundary(s: string) {
    forall i :: 0 <= i < |s| - 1 ==> !Boundary(s[i], s[i + 1])
  }

  /**
   * The pipe keeps every character, in order, and inserts exactly one space
   * inside each matching pair: matches never overlap, because the second
   * character of a match (upper case) cannot start another one.
   */
  lemma {:induction false} TransformIsSpaced(s: string)
    ensures Transform(s) == Spaced(s)
    decreases |s|
  {
    if |s| < 2 {
    } else if Boundary(s[0], s[1]) {
      TransformIsSpaced(s[2..]);
      assert s[1..][1..] == s[2..];
      assert !(|s[1..]| > 1 && Boundary(s[1], s[2]));
      assert Spaced(s[1..]) == [s[1]] + Spaced(s[2..]);
    } else {
      TransformIsSpaced(s[1..]);
    }
  }

  /** The output is longer than the input by the number of matching pairs. */
  lemma {:induction false} TransformLength(s: string)
    ensures |Transform(s)| == |s| + BoundaryCount(s)
    decreases |s|
  {
    if |s| < 2 {
    } else if Boundary(s[0], s[1]) {
      TransformLength(s[2..]);
      assert s[1..][1..] == s[2..];
      assert BoundaryCount(s[1..]) == BoundaryCount(s[2..]);
    } else {
      TransformLength(s[1..]);
    }
  }

  /** A string with no matching pair, the empty string included, is returned unchanged. */
  lemma {:induction false} NoBoundaryUnchanged(s: string)
    requires NoBoundary(s)
    ensures Transform(s) == s
    decreases |s|
  {
    if |s| >= 2 {
      assert !Boundary(s[0], s[1]);
      NoBoundaryUnchanged(s[1..]);
      assert [s[0]] + s[1..] == s;
    }
  }

  lemma NoBoundaryCons(x: char, t: string)
    requires NoBoundary(t)
    requires |t| > 0 ==> !Boundary(x, t[0])
    ensures NoBoundary([x] + t)
  {
    var u := [x] + t;
    forall i | 0 <= i < |u| - 1 ensures !Boundary(u[i], u[i + 1]) {
      if i > 0 {
        assert u[i] == t[i - 1] && u[i + 1] == t[i];
      }
    }
  }

  /** The output never holds a matching pair. */
  lemma {:induction false} TransformNoBoundary(s: string)
    ensures NoBoundary(Transform(s))
    decreases |s|
  {
    if |s| < 2 {
    } else if Boundary(s[0], s[1]) {
      var rest := Transform(s[2..]);
      TransformNoBoundary(s[2..]);
      NoBoundaryCons(s[1], rest);
      NoBoundaryCons(' ', [s[1]] + rest);
      NoBoundaryCons(s[0], [' ', s[1]] + rest);
      assert [s[0]] + ([' '] + ([s[1]] + rest)) == [s[0], ' ', s[1]] + rest;
    } else {
      TransformNoBoundary(s[1..]);
      NoBoundaryCons(s[0], Transform(s[1..]));
    }
  }

  /** Applying the pipe twice gives the same text as applying it once. */
  lemma Idempotent(s: string)
    ensures Transform(Transform(s)) == Transform(s)
  {
    TransformNoBoundary(s);
    NoBoundaryUnchanged(Transform(s));
  }
}
