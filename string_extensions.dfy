/**
 * The `TrimStart(string)` and `TrimEnd(string)` extension methods: remove
 * every repeated copy of a text from the start or the end of a string,
 * comparing ASCII letters without regard to case.
 */
module StringExtensions {
  import opened Results
  import opened Text

  /** `w` is made of whole copies of `t`, each equal to `t` ignoring case. */
  predicate IsCopies(w: string, t: string)
    requires t != []
    decreases |w|
  {
    w == [] || (|t| <= |w| && EqualsIgnoreCase(w[..|t|], t) && IsCopies(w[|t|..], t))
  }

  /** A copy of `t` appended to copies of `t` is still copies of `t`. */
  lemma {:induction false} IsCopiesAppend(w: string, t: string, c: string)
    requires t != [] && IsCopies(w, t) && |c| == |t| && EqualsIgnoreCase(c, t)
    ensures IsCopies(w + c, t)
    decreases |w|
  {
    if w == [] {
      assert (w + c)[..|t|] == c && (w + c)[|t|..] == [];
    } else {
      IsCopiesAppend(w[|t|..], t, c);
      assert (w + c)[..|t|] == w[..|t|];
      assert (w + c)[|t|..] == w[|t|..] + c;
    }
  }

  /** A leading copy of `t` followed by copies of `t` is copies of `t`. */
  lemma CopyThenCopies(s: string, t: string, k: int)
    requires t != [] && StartsWithIgnoreCase(s, t) && |t| <= k <= |s|
    requires IsCopies(s[|t|..][..k - |t|], t)
    ensures IsCopies(s[..k], t)
  {
    var w := s[..k];
    assert w[..|t|] == s[..|t|];
    assert w[|t|..] == s[|t|..][..k - |t|];
  }

  /** The string with every leading copy of `t` removed. */
  function StripLeading(s: string, t: string): (r: string)
    requires t != []
    decreases |s|
    ensures |r| <= |s| && r == s[|s| - |r|..]
    ensures IsCopies(s[..|s| - |r|], t)
    ensures !StartsWithIgnoreCase(r, t)
  {
    if StartsWithIgnoreCase(s, t) then
      var r := StripLeading(s[|t|..], t);
      CopyThenCopies(s, t, |s| - |r|);
      r
    else
      assert s[..0] == [];
      s
  }

  /** The string with every trailing copy of `t` removed. */
  function StripTrailing(s: string, t: string): (r: string)
    requires t != []
    decreases |s|
    ensures |r| <= |s| && r == s[..|r|]
    ensures IsCopies(s[|r|..], t)
    ensures !EndsWithIgnoreCase(r, t)
  {
    if EndsWithIgnoreCase(s, t) then
      var head := s[..|s| - |t|];
      var r := StripTrailing(head, t);
      IsCopiesAppend(head[|r|..], t, s[|s| - |t|..]);
      assert s[|r|..] == head[|r|..] + s[|s| - |t|..];
      r
    else
      assert s[|s|..] == [];
      s
  }

  /**
   * `value.TrimStart(trimString)`: a null or empty value, or a null or
   * empty text to trim, leaves the value as it is.
   */
  method TrimStart(value: Option<string>, trimString: Option<string>) returns (r: Option<string>)
    ensures value.None? || value == Some([]) || trimString.None? || trimString == Some([]) ==> r == value
    ensures value.Some? && value.value != [] && trimString.Some? && trimString.value != [] ==>
      r == Some(StripLeading(value.value, trimString.value))
  {
    if value.None? || value.value == [] {
      return value;
    }
    if trimString.None? || trimString.value == [] {
      return value;
    }
    var t := trimString.value;
    var result := value.value;
    while StartsWithIgnoreCase(result, t)
      invariant StripLeading(result, t) == StripLeading(value.value, t)
      decreases |result|
    {
      result := result[|t|..];
    }
    return Some(result);
  }

  /**
   * `value.TrimEnd(trimString)`: a null or empty value, or a null or empty
   * text to trim, leaves the value as it is.
   */
  method TrimEnd(value: Option<string>, trimString: Option<string>) returns (r: Option<string>)
    ensures value.None? || value == Some([]) || trimString.None? || trimString == Some([]) ==> r == value
    ensures value.Some? && value.value != [] && trimString.Some? && trimString.value != [] ==>
      r == Some(StripTrailing(value.value, trimString.value))
  {
    if value.None? || value.value == [] {
      return value;
    }
    if trimString.None? || trimString.value == [] {
      return value;
    }
    var t := trimString.value;
    var result := value.value;
    while EndsWithIgnoreCase(result, t)
      invariant StripTrailing(result, t) == StripTrailing(value.value, t)
      decreases |result|
    {
      result := result[..|result| - |t|];
    }
    return Some(result);
  }

  /** Removing leading copies inverts putting them in front of a string that does not start with one. */
  lemma {:induction false} StripLeadingCopies(w: string, r: string, t: string)
    requires t != [] && IsCopies(w, t) && !StartsWithIgnoreCase(r, t)
    ensures StripLeading(w + r, t) == r
    decreases |w|
  {
    if w == [] {
      assert w + r == r;
    } else {
      var s := w + r;
      assert s[..|t|] == w[..|t|];
      assert s[|t|..] == w[|t|..] + r;
      StripLeadingCopies(w[|t|..], r, t);
    }
  }

  /** Removing trailing copies inverts appending them to a string that does not end with one. */
  lemma {:induction false} StripTrailingCopies(r: string, w: string, t: string)
    requires t != [] && IsCopies(w, t) && !EndsWithIgnoreCase(r, t)
    ensures StripTrailing(r + w, t) == r
    decreases |w|
  {
    if w == [] {
      assert r + w == r;
    } else {
      IsCopiesSplitLast(w, t);
      var front := w[..|w| - |t|];
      StripTrailingCopies(r, front, t);
      StripTrailingLastCopy(r, w, t);
    }
  }

  /** A string ending with a copy of `t` strips to what its front strips to. */
  lemma StripTrailingLastCopy(r: string, w: string, t: string)
    requires t != [] && |t| <= |w| && EqualsIgnoreCase(w[|w| - |t|..], t)
    ensures StripTrailing(r + w, t) == StripTrailing(r + w[..|w| - |t|], t)
  {
    EndsWithLastCopy(r, w, t);
    StripTrailingStep(r + w, t);
  }

  lemma EndsWithLastCopy(r: string, w: string, t: string)
    requires |t| <= |w| && EqualsIgnoreCase(w[|w| - |t|..], t)
    ensures EndsWithIgnoreCase(r + w, t)
    ensures (r + w)[..|r + w| - |t|] == r + w[..|w| - |t|]
  {
    var s := r + w;
    assert s[|s| - |t|..] == w[|w| - |t|..];
  }

  lemma StripTrailingStep(s: string, t: string)
    requires t != [] && EndsWithIgnoreCase(s, t)
    ensures StripTrailing(s, t) == StripTrailing(s[..|s| - |t|], t)
  {
  }

  /** Non-empty copies of `t` end with a copy of `t` after copies of `t`. */
  lemma {:induction false} IsCopiesSplitLast(w: string, t: string)
    requires t != [] && IsCopies(w, t) && w != []
    ensures |t| <= |w| && EqualsIgnoreCase(w[|w| - |t|..], t) && IsCopies(w[..|w| - |t|], t)
    decreases |w|
  {
    var tail := w[|t|..];
    if tail == [] {
      assert w[|w| - |t|..] == w[..|t|];
      assert w[..|w| - |t|] == [];
    } else {
      IsCopiesSplitLast(tail, t);
      assert w[|w| - |t|..] == tail[|tail| - |t|..];
      var front := w[..|w| - |t|];
      assert front[..|t|] == w[..|t|];
      assert front[|t|..] == tail[..|tail| - |t|];
    }
  }

  lemma StripLeadingIdempotent(s: string, t: string)
    requires t != []
    ensures StripLeading(StripLeading(s, t), t) == StripLeading(s, t)
  {
  }

  lemma StripTrailingIdempotent(s: string, t: string)
    requires t != []
    ensures StripTrailing(StripTrailing(s, t), t) == StripTrailing(s, t)
  {
  }

  /** Copies are removed whatever the case of their letters. */
  lemma StripLeadingExample()
    ensures StripLeading("INV-inv-12", "INV-") == "12"
  {
    var t := "INV-";
    var w := "INV-inv-";
    assert IsCopies(w, t) by {
      assert w[..4] == "INV-" && w[4..] == "inv-";
      assert w[4..][..4] == "inv-" && w[4..][4..] == [];
      assert EqualsIgnoreCase("inv-", t);
    }
    assert !StartsWithIgnoreCase("12", t);
    StripLeadingCopies(w, "12", t);
    assert w + "12" == "INV-inv-12";
  }
}
