/** The `untagged` pipe: `value.split('#').shift()`, a name without its `#tag`. */
module UntaggedPipe {
  import Text

  /**
   * The first piece of the split: the text before the first `#`, or all of
   * `value` when it holds none.
   */
  function Transform(value: string): (r: string)
    ensures r <= value
    ensures '#' !in r
    ensures |r| < |value| ==> value[|r|] == '#'
  {
    Text.SplitPieces(value, '#');
    Text.SplitFirst(value, '#');
    Text.Split(value, '#')[0]
  }

  /** The result is the prefix of `value` that ends at its first `#`. */
  lemma BeforeFirstHash(value: string)
    ensures Transform(value) == value[..Text.IndexOf(value, '#')]
  {
    var r := Transform(value);
    var i := Text.IndexOf(value, '#');
    assert forall k :: 0 <= k < i ==> value[..i][k] == value[k];
    assert forall k :: 0 <= k < |r| ==> r[k] == value[k];
  }

  /** A value without `#` is returned unchanged. */
  lemma WithoutHashUnchanged(value: string)
    requires '#' !in value
    ensures Transform(value) == value
  {
  }

  /** A value that starts with `#` yields the empty string. */
  lemma LeadingHashEmpty(value: string)
    requires |value| > 0 && value[0] == '#'
    ensures Transform(value) == ""
  {
  }

  /** Applying the pipe twice gives the same text as applying it once. */
  lemma Idempotent(value: string)
    ensures Transform(Transform(value)) == Transform(value)
  {
    WithoutHashUnchanged(Transform(value));
  }
}
