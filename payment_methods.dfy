/**
 * The comma-separated payment methods setting, cleaned into the
 * `payment_methods` field of a payment link request.
 */
module PaymentMethods {
  import opened Results
  import opened Text

  const Separator := ','

  /** Every piece is blank. */
  predicate AllBlank(pieces: seq<string>) {
    forall j :: 0 <= j < |pieces| ==> IsBlank(pieces[j])
  }

  /** No piece contains the separator. */
  predicate SeparatorFree(pieces: seq<string>) {
    forall j :: 0 <= j < |pieces| ==> Separator !in pieces[j]
  }

  /** Every entry is non-empty and trimmed. */
  predicate AllClean(entries: seq<string>) {
    forall i :: 0 <= i < |entries| ==> entries[i] != [] && IsTrimmed(entries[i])
  }

  /**
   * Drops the blank pieces and trims the others.  An empty piece is blank,
   * so this also removes what `StringSplitOptions.RemoveEmptyEntries` does.
   */
  function Clean(pieces: seq<string>): (entries: seq<string>)
    ensures |entries| <= |pieces|
    ensures AllClean(entries)
    ensures SeparatorFree(pieces) ==> SeparatorFree(entries)
    ensures entries == [] <==> AllBlank(pieces)
  {
    if pieces == [] then []
    else
      var rest := Clean(pieces[1..]);
      TailFacts(pieces);
      if IsBlank(pieces[0]) then rest
      else
        var entries := [Trim(pieces[0])] + rest;
        HeadFacts(Trim(pieces[0]), rest);
        entries
  }

  /** The predicates on a non-empty sequence split into its head and its tail. */
  lemma TailFacts(pieces: seq<string>)
    requires pieces != []
    ensures AllBlank(pieces) <==> IsBlank(pieces[0]) && AllBlank(pieces[1..])
    ensures SeparatorFree(pieces) ==> Separator !in pieces[0] && SeparatorFree(pieces[1..])
  {
    assert forall j :: 1 <= j < |pieces| ==> pieces[j] == pieces[1..][j - 1];
  }

  lemma HeadFacts(e: string, rest: seq<string>)
    ensures AllClean([e] + rest) <==> e != [] && IsTrimmed(e) && AllClean(rest)
    ensures SeparatorFree([e] + rest) <==> Separator !in e && SeparatorFree(rest)
  {
    var entries := [e] + rest;
    assert entries[0] == e;
    assert forall i :: 1 <= i < |entries| ==> entries[i] == rest[i - 1];
    assert forall i :: 0 <= i < |rest| ==> rest[i] == entries[i + 1];
  }

  /** Entry `k` is `f` of the piece at position `ix[k]`, which is not blank. */
  predicate PicksBy(f: string -> string, pieces: seq<string>, entries: seq<string>, ix: seq<int>) {
    && |ix| == |entries|
    && forall k :: 0 <= k < |ix| ==>
         0 <= ix[k] < |pieces| && !IsBlank(pieces[ix[k]]) && entries[k] == f(pieces[ix[k]])
  }

  /** Entry `k` is the trimmed piece at position `ix[k]`, which is not blank. */
  predicate Picks(pieces: seq<string>, entries: seq<string>, ix: seq<int>) {
    PicksBy(Trim, pieces, entries, ix)
  }

  predicate Increasing(ix: seq<int>) {
    forall k, l :: 0 <= k < l < |ix| ==> ix[k] < ix[l]
  }

  /** Every non-blank piece's position is listed. */
  predicate Covers(pieces: seq<string>, ix: seq<int>) {
    forall i :: 0 <= i < |pieces| && !IsBlank(pieces[i]) ==> i in ix
  }

  /**
   * `ix` lists the positions of the non-blank pieces, each once and in
   * increasing order, and entry `k` is piece `ix[k]` trimmed.
   */
  predicate Selects(pieces: seq<string>, entries: seq<string>, ix: seq<int>) {
    Picks(pieces, entries, ix) && Increasing(ix) && Covers(pieces, ix)
  }

  /** Cleaning keeps exactly the non-blank pieces, in order, each trimmed. */
  lemma {:induction false} CleanSelects(pieces: seq<string>)
    ensures exists ix :: Selects(pieces, Clean(pieces), ix)
  {
    if pieces == [] {
      assert Selects(pieces, Clean(pieces), []);
    } else {
      var p, rest := pieces[0], pieces[1..];
      CleanSelects(rest);
      var ix :| Selects(rest, Clean(rest), ix);
      assert [p] + rest == pieces;
      if IsBlank(p) {
        assert Clean(pieces) == Clean(rest);
        PicksSkip(Trim, p, rest, Clean(rest), ix);
        IncreasingShift(ix);
        CoversSkip(p, rest, ix);
        assert Selects(pieces, Clean(pieces), Shift(ix));
      } else {
        assert Clean(pieces) == [Trim(p)] + Clean(rest);
        PicksKeep(Trim, p, rest, Clean(rest), ix);
        IncreasingKeep(ix);
        CoversKeep(p, rest, ix);
        assert Selects(pieces, Clean(pieces), [0] + Shift(ix));
      }
    }
  }

  /** Every position moved one place on. */
  function Shift(ix: seq<int>): (r: seq<int>)
    ensures |r| == |ix| && forall k :: 0 <= k < |ix| ==> r[k] == ix[k] + 1
  {
    seq(|ix|, k requires 0 <= k < |ix| => ix[k] + 1)
  }

  lemma PicksSkip(f: string -> string, p: string, rest: seq<string>, entries: seq<string>, ix: seq<int>)
    requires PicksBy(f, rest, entries, ix)
    ensures PicksBy(f, [p] + rest, entries, Shift(ix))
  {
    var pieces, jx := [p] + rest, Shift(ix);
    forall k | 0 <= k < |jx|
      ensures 0 <= jx[k] < |pieces| && !IsBlank(pieces[jx[k]]) && entries[k] == f(pieces[jx[k]])
    {
      assert pieces[jx[k]] == rest[ix[k]];
    }
  }

  lemma PicksKeep(f: string -> string, p: string, rest: seq<string>, entries: seq<string>, ix: seq<int>)
    requires !IsBlank(p) && PicksBy(f, rest, entries, ix)
    ensures PicksBy(f, [p] + rest, [f(p)] + entries, [0] + Shift(ix))
  {
    var pieces, jx, es := [p] + rest, [0] + Shift(ix), [f(p)] + entries;
    forall k | 0 <= k < |jx|
      ensures 0 <= jx[k] < |pieces| && !IsBlank(pieces[jx[k]]) && es[k] == f(pieces[jx[k]])
    {
      if k > 0 {
        assert jx[k] == ix[k - 1] + 1 && es[k] == entries[k - 1];
        assert pieces[jx[k]] == rest[ix[k - 1]];
      }
    }
  }

  lemma IncreasingShift(ix: seq<int>)
    requires Increasing(ix)
    ensures Increasing(Shift(ix))
  {
  }

  lemma IncreasingKeep(ix: seq<int>)
    requires Increasing(ix) && forall k :: 0 <= k < |ix| ==> 0 <= ix[k]
    ensures Increasing([0] + Shift(ix))
  {
    var jx := [0] + Shift(ix);
    assert forall k :: 1 <= k < |jx| ==> jx[k] == ix[k - 1] + 1;
  }

  lemma CoversSkip(p: string, rest: seq<string>, ix: seq<int>)
    requires IsBlank(p) && Covers(rest, ix)
    ensures Covers([p] + rest, Shift(ix))
  {
    var pieces, jx := [p] + rest, Shift(ix);
    forall i | 0 <= i < |pieces| && !IsBlank(pieces[i])
      ensures i in jx
    {
      assert pieces[i] == rest[i - 1];
      var k :| 0 <= k < |ix| && ix[k] == i - 1;
      assert jx[k] == i;
    }
  }

  lemma CoversKeep(p: string, rest: seq<string>, ix: seq<int>)
    requires Covers(rest, ix)
    ensures Covers([p] + rest, [0] + Shift(ix))
  {
    var pieces, jx := [p] + rest, [0] + Shift(ix);
    forall i | 0 <= i < |pieces| && !IsBlank(pieces[i])
      ensures i in jx
    {
      if i > 0 {
        assert pieces[i] == rest[i - 1];
        var k :| 0 <= k < |ix| && ix[k] == i - 1;
        assert jx[k + 1] == i;
      }
    }
  }

  /** The trimmed, non-blank entries of the setting, in order. */
  function Entries(setting: string): (entries: seq<string>)
    ensures exists ix :: Selects(Split(setting, Separator), entries, ix)
    ensures forall i :: 0 <= i < |entries| ==> entries[i] != [] && IsTrimmed(entries[i])
    ensures forall i :: 0 <= i < |entries| ==> Separator !in entries[i]
  {
    CleanSelects(Split(setting, Separator));
    Clean(Split(setting, Separator))
  }

  /**
   * The `payment_methods` field of a link request: the entries joined
   * with commas, or null when the setting is null or has no entry.
   */
  function PaymentMethodsField(setting: Option<string>): (r: Option<string>)
    ensures r.None? <==> setting.None? || Entries(setting.value) == []
    ensures r.Some? ==> Split(r.value, Separator) == Entries(setting.value)
  {
    if setting.None? then None
    else
      var entries := Entries(setting.value);
      if |entries| > 0 then
        SplitJoin(entries, Separator);
        Some(Join(entries, Separator))
      else None
  }

  /** Cleaning entries that are already clean changes nothing. */
  lemma {:induction false} CleanClean(entries: seq<string>)
    requires AllClean(entries)
    ensures Clean(entries) == entries
  {
    if entries != [] {
      var e := entries[0];
      CleanHead(entries);
      CleanClean(entries[1..]);
      assert Clean(entries) == [e] + Clean(entries[1..]);
      assert [e] + entries[1..] == entries;
    }
  }

  /** The head of clean entries is kept as it is, and the tail stays clean. */
  lemma CleanHead(entries: seq<string>)
    requires entries != [] && AllClean(entries)
    ensures !IsBlank(entries[0]) && Trim(entries[0]) == entries[0]
    ensures AllClean(entries[1..])
  {
    assert entries[0] != [] && IsTrimmed(entries[0]);
    assert !IsWhiteSpace(entries[0][0]);
    forall i | 0 <= i < |entries[1..]|
      ensures entries[1..][i] != [] && IsTrimmed(entries[1..][i])
    {
      assert entries[1..][i] == entries[i + 1];
    }
  }

  /** Feeding the field back in as the setting gives the same field. */
  lemma PaymentMethodsFieldIdempotent(setting: Option<string>)
    ensures PaymentMethodsField(PaymentMethodsField(setting)) == PaymentMethodsField(setting)
  {
    var r := PaymentMethodsField(setting);
    if r.Some? {
      var entries := Entries(setting.value);
      CleanClean(entries);
      assert Entries(r.value) == entries;
    }
  }

  /** A setting of commas and white space only sends no payment methods. */
  lemma BlankSettingSendsNothing(setting: string)
    requires forall i :: 0 <= i < |Split(setting, Separator)| ==> IsBlank(Split(setting, Separator)[i])
    ensures PaymentMethodsField(Some(setting)) == None
  {
  }
}
