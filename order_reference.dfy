/**
 * Shortening an order number to the order id sent to the gateway, which
 * accepts at most 20 characters: a longer order number has the literal
 * text around the store's order-number template placeholder cut away.
 */
module OrderReference {
  import opened Results
  import opened Text

  const Placeholder := "{0}"
  const MaxLength := 20

  /** Why shortening threw: a null template, or a `Substring` out of range. */
  datatype NormalizeError = NullTemplate | PlaceholderMissing | OutOfRange

  /** The template text before the first placeholder. */
  function Prefix(template: string): string
    requires Contains(template, Placeholder)
  {
    template[..IndexOf(template, Placeholder)]
  }

  /** The template text after the first placeholder. */
  function Suffix(template: string): string
    requires Contains(template, Placeholder)
  {
    template[IndexOf(template, Placeholder) + |Placeholder|..]
  }

  /**
   * The order number the host generates from a template with one
   * placeholder: the number put in place of the placeholder.
   */
  function Decorate(template: string, number: string): string
    requires Contains(template, Placeholder)
  {
    Prefix(template) + number + Suffix(template)
  }

  /**
   * The order id for `orderNumber` under the store's template (null when
   * the store has none).  The suffix is trimmed when the template starts
   * with the placeholder, the prefix when it ends with it, both otherwise.
   */
  function Normalize(orderNumber: string, template: Option<string>): (r: Result<string, NormalizeError>)
    ensures |orderNumber| <= MaxLength ==> r == Success(orderNumber)
    ensures template == Some(Placeholder) ==> r == Success(orderNumber)
    ensures |orderNumber| > MaxLength ==> (r == Failure(NullTemplate) <==> template.None?)
    ensures |orderNumber| > MaxLength && template.Some? && template.value != Placeholder ==>
      (r == Failure(PlaceholderMissing) <==> !Contains(template.value, Placeholder))
    ensures r.Success? && |orderNumber| > MaxLength && template.Some? && template.value != Placeholder ==>
      var t := template.value;
      && Contains(t, Placeholder)
      && |Prefix(t)| <= |orderNumber|
      && (if !StartsWith(t, Placeholder) && EndsWith(t, Placeholder)
          then r.value == orderNumber[|Prefix(t)|..]
          else |Prefix(t)| + |Suffix(t)| <= |orderNumber|
               && r.value == orderNumber[|Prefix(t)|..|orderNumber| - |Suffix(t)|])
    ensures |orderNumber| > MaxLength && template.Some? && template.value != Placeholder
            && Contains(template.value, Placeholder) ==>
      var t := template.value;
      (r == Failure(OutOfRange) <==>
         if !StartsWith(t, Placeholder) && EndsWith(t, Placeholder) then |Prefix(t)| > |orderNumber|
         else |Prefix(t)| + |Suffix(t)| > |orderNumber|)
  {
    if |orderNumber| <= MaxLength then Success(orderNumber)
    else if template.None? then Failure(NullTemplate)
    else
      var t := template.value;
      if t == Placeholder then Success(orderNumber)
      else
        var index := IndexOf(t, Placeholder);
        if index < 0 then Failure(PlaceholderMissing)
        else
          var prefix := t[..index];
          var suffix := t[index + |Placeholder|..];
          if StartsWith(t, Placeholder) then
            assert OccursAt(t, Placeholder, 0);
            var length := |orderNumber| - |suffix|;
            if 0 <= length && index + length <= |orderNumber| then Success(orderNumber[index..index + length])
            else Failure(OutOfRange)
          else if EndsWith(t, Placeholder) then
            if |prefix| <= |orderNumber| then Success(orderNumber[|prefix|..])
            else Failure(OutOfRange)
          else if Contains(t, Placeholder) then
            if |prefix| + |suffix| <= |orderNumber| then Success(orderNumber[|prefix|..|orderNumber| - |suffix|])
            else Failure(OutOfRange)
          else Success(orderNumber)
  }

  /** Two occurrences of the placeholder cannot overlap. */
  lemma PlaceholderOccurrencesApart(t: string, i: int, j: int)
    requires OccursAt(t, Placeholder, i) && OccursAt(t, Placeholder, j) && i < j
    ensures i + |Placeholder| <= j
  {
    assert t[i..i + 3] == "{0}" && t[j..j + 3] == "{0}";
    assert t[i + 1] == '0' && t[i + 2] == '}' && t[j] == '{';
  }

  /**
   * A template ending with its only placeholder has an empty suffix, so
   * the prefix-only branch agrees with cutting both ends.
   */
  lemma EndingPlaceholderHasEmptySuffix(t: string)
    requires Contains(t, Placeholder) && EndsWith(t, Placeholder)
    requires !Contains(Suffix(t), Placeholder)
    ensures Suffix(t) == []
  {
    var i := IndexOf(t, Placeholder);
    var j := |t| - |Placeholder|;
    assert OccursAt(t, Placeholder, j);
    if i < j {
      PlaceholderOccurrencesApart(t, i, j);
      var s := Suffix(t);
      assert s[j - (i + 3)..j - (i + 3) + 3] == t[j..j + 3];
      assert OccursAt(s, Placeholder, j - (i + 3));
    }
  }

  /**
   * Shortening inverts the host's decoration: a long order number built
   * from a one-placeholder template yields the number that was put in.
   */
  lemma NormalizeDecorated(t: string, number: string)
    requires Contains(t, Placeholder) && !Contains(Suffix(t), Placeholder)
    requires |Decorate(t, number)| > MaxLength
    ensures Normalize(Decorate(t, number), Some(t)) == Success(number)
  {
    var on := Decorate(t, number);
    var p, s := Prefix(t), Suffix(t);
    if t != Placeholder {
      if !StartsWith(t, Placeholder) && EndsWith(t, Placeholder) {
        EndingPlaceholderHasEmptySuffix(t);
        assert on[|p|..] == number;
      } else {
        assert on[|p|..|on| - |s|] == number;
      }
    } else {
      assert IndexOf(t, Placeholder) == 0;
      assert on == number;
    }
  }

  lemma NoPlaceholderAt(t: string, i: int)
    requires 0 <= i < |t| && t[i] != '{'
    ensures !OccursAt(t, Placeholder, i)
  {
  }

  /** The worked example: store template `INV-{0}`, a 21-character order number. */
  lemma NormalizeExample()
    ensures Normalize("INV-00000000000012345", Some("INV-{0}")) == Success("00000000000012345")
  {
    var t, on := "INV-{0}", "INV-00000000000012345";
    assert |on| == 21;
    NoPlaceholderAt(t, 0);
    NoPlaceholderAt(t, 1);
    NoPlaceholderAt(t, 2);
    NoPlaceholderAt(t, 3);
    assert OccursAt(t, Placeholder, 4);
    assert IndexOf(t, Placeholder) == 4;
    assert !StartsWith(t, Placeholder);
    assert EndsWith(t, Placeholder);
    assert on[4..] == "00000000000012345";
  }

  /**
   * Nothing bounds the result by 20 characters, so shortening a result
   * again can cut it further: `Normalize` is not idempotent.
   */
  lemma NormalizeNotIdempotent()
    ensures var once := Normalize("AAAAAAAAAAAAAAAAAAAAAA", Some("A{0}"));
      && once == Success("AAAAAAAAAAAAAAAAAAAAA")
      && |once.value| > MaxLength
      && Normalize(once.value, Some("A{0}")) == Success("AAAAAAAAAAAAAAAAAAAA")
  {
    var t := "A{0}";
    assert OccursAt(t, Placeholder, 1);
    NoPlaceholderAt(t, 0);
    assert IndexOf(t, Placeholder) == 1;
    assert Suffix(t) == [];
    NormalizeDecorated(t, "AAAAAAAAAAAAAAAAAAAAA");
    NormalizeDecorated(t, "AAAAAAAAAAAAAAAAAAAA");
  }
}
