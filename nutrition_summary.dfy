/**
 * The nutrition summary panel: which of its three renderings is chosen, and
 * the normalisation of "N/A" nutrient values into a zero quantity.
 */
module NutritionSummary {
  import opened Wrappers
  import opened Text
  import opened Records

  const NotApplicable := "N/A"
  /** Nutrient names containing this word ("salt") are measured in milligrams. */
  const SaltWord := "garam"
  const ZeroMilligrams := "0mg"
  const ZeroGrams := "0g"

  /** The value the reducer stores for one entry. */
  function NormalisedValue(key: string, value: string): (v: string)
  {
    if value == NotApplicable then
      (if Contains(ToLower(key), SaltWord) then ZeroMilligrams else ZeroGrams)
    else value
  }

  /** Only the exact text "N/A" is rewritten, and only to "0mg" or "0g". */
  lemma NormalisedValueCases(key: string, value: string)
    ensures NormalisedValue(key, value) != value <==> value == NotApplicable
    ensures value == NotApplicable ==>
      (NormalisedValue(key, value) == ZeroMilligrams <==> Contains(ToLower(key), SaltWord))
    ensures NormalisedValue(key, value) in {value, ZeroMilligrams, ZeroGrams}
    ensures NormalisedValue(key, value) != NotApplicable
  {
  }

  /** The record the reduce builds: every entry in order, its value normalised. */
  function Normalise(r: Record): (n: Record)
  {
    if r == [] then [] else [(r[0].0, NormalisedValue(r[0].0, r[0].1))] + Normalise(r[1..])
  }

  lemma {:induction false} NormaliseAt(r: Record, i: int)
    requires 0 <= i < |r|
    ensures |Normalise(r)| == |r|
    ensures Normalise(r)[i] == (r[i].0, NormalisedValue(r[i].0, r[i].1))
  {
    if i > 0 {
      NormaliseAt(r[1..], i - 1);
    } else {
      NormaliseLength(r);
    }
  }

  lemma {:induction false} NormaliseLength(r: Record)
    ensures |Normalise(r)| == |r|
  {
    if r != [] { NormaliseLength(r[1..]); }
  }

  /** Normalisation produces exactly the input's keys, in the input's order. */
  lemma NormaliseKeepsKeys(r: Record)
    ensures Keys(Normalise(r)) == Keys(r)
    ensures DistinctKeys(r) ==> DistinctKeys(Normalise(r))
  {
    NormaliseLength(r);
    forall i | 0 <= i < |r| ensures Normalise(r)[i].0 == r[i].0 {
      NormaliseAt(r, i);
    }
  }

  /** Looking a key up after normalisation gives the normalised value of its lookup before. */
  lemma NormaliseGet(r: Record, k: string)
    ensures Get(Normalise(r), k) == if Get(r, k).Some? then Some(NormalisedValue(k, Get(r, k).value)) else None
  {
    if r != [] { NormaliseGet(r[1..], k); }
  }

  /** Normalising twice is normalising once: "0mg" and "0g" are never "N/A". */
  lemma {:induction false} NormaliseIdempotent(r: Record)
    ensures Normalise(Normalise(r)) == Normalise(r)
  {
    if r != [] {
      NormaliseIdempotent(r[1..]);
      NormalisedValueCases(r[0].0, r[0].1);
    }
  }

  lemma {:induction false} NormaliseAppend(r: Record, e: Entry)
    ensures Normalise(r + [e]) == Normalise(r) + [(e.0, NormalisedValue(e.0, e.1))]
  {
    if r != [] {
      assert (r + [e])[1..] == r[1..] + [e];
      NormaliseAppend(r[1..], e);
    }
  }

  /** One step of the reduce: assigning the next normalised entry extends the result by it. */
  lemma NormaliseStep(entries: Record, i: int)
    requires DistinctKeys(entries) && 0 <= i < |entries|
    ensures Put(Normalise(entries[..i]), entries[i].0, NormalisedValue(entries[i].0, entries[i].1))
            == Normalise(entries[..i + 1])
  {
    var pre, e := entries[..i], entries[i];
    var v := NormalisedValue(e.0, e.1);
    NormaliseKeepsKeys(pre);
    DistinctKeysPrefix(entries, i);
    assert e.0 !in Keys(Normalise(pre));
    PutFreshAppends(Normalise(pre), e.0, v);
    assert entries[..i + 1] == pre + [e];
    NormaliseAppend(pre, e);
    assert Put(Normalise(pre), e.0, v) == Normalise(pre) + [(e.0, v)];
    assert Normalise(entries[..i + 1]) == Normalise(pre) + [(e.0, v)];
  }

  /**
   * The `reduce` over `Object.entries(nutrients)`, assigning into `acc`;
   * `null` nutrients give `null`.
   */
  method ProcessNutrients(nutrients: Option<Record>) returns (processed: Option<Record>)
    requires nutrients.Some? ==> DistinctKeys(nutrients.value)
    ensures nutrients.None? ==> processed.None?
    ensures nutrients.Some? ==> processed == Some(Normalise(nutrients.value))
  {
    if nutrients.None? {
      return None;
    }
    var entries := nutrients.value;
    var acc: Record := [];
    var i := 0;
    while i < |entries|
      invariant 0 <= i <= |entries|
      invariant acc == Normalise(entries[..i])
    {
      var (key, value) := entries[i];
      NormaliseStep(entries, i);
      if value == NotApplicable {
        acc := Put(acc, key, if Contains(ToLower(key), SaltWord) then ZeroMilligrams else ZeroGrams);
      } else {
        acc := Put(acc, key, value);
      }
      i := i + 1;
    }
    assert entries[..i] == entries;
    processed := Some(acc);
  }

  lemma ProteinIsNotSalt()
    ensures !Contains(ToLower("Protein"), SaltWord)
  {
    assert ToLower("Protein") == "protein";
    NotContainsWithoutFirstChar("protein", SaltWord);
  }

  /** The worked example: {"Garam": "N/A", "Protein": "N/A"} becomes {"Garam": "0mg", "Protein": "0g"}. */
  lemma SaltAndProteinExample()
    ensures Normalise([("Garam", "N/A"), ("Protein", "N/A")]) == [("Garam", "0mg"), ("Protein", "0g")]
  {
    assert ToLower("Garam") == "garam";
    assert StartsWith("garam", SaltWord);
    ProteinIsNotSalt();
  }

  // ---- The reduce as ECMAScript actually runs it ----

  /** The one key whose assignment reaches an inherited accessor of `Object.prototype`. */
  const ProtoKey := "__proto__"

  /**
   * `acc[key] = value` on a plain object: for "__proto__" the inherited setter
   * runs instead, and it ignores a value that is not an object.
   */
  function AssignAsWritten(acc: Record, key: string, value: string): (acc': Record)
  {
    if key == ProtoKey then acc else Put(acc, key, value)
  }

  function ReduceAsWritten(acc: Record, entries: Record): (out: Record)
    decreases |entries|
  {
    if entries == [] then acc
    else ReduceAsWritten(AssignAsWritten(acc, entries[0].0, NormalisedValue(entries[0].0, entries[0].1)), entries[1..])
  }

  /** Away from the key "__proto__" the reduce as written is the normalisation above. */
  lemma {:induction false} ReduceAsWrittenAgrees(acc: Record, entries: Record)
    requires DistinctKeys(entries) && ProtoKey !in Keys(entries)
    requires forall k :: k in Keys(acc) ==> k !in Keys(entries)
    ensures ReduceAsWritten(acc, entries) == acc + Normalise(entries)
    decreases |entries|
  {
    if entries != [] {
      var e, rest := entries[0], entries[1..];
      var v := NormalisedValue(e.0, e.1);
      assert Keys(entries) == [e.0] + Keys(rest);
      assert e.0 != ProtoKey && e.0 !in Keys(acc);
      PutFreshAppends(acc, e.0, v);
      var acc' := acc + [(e.0, v)];
      assert ReduceAsWritten(acc, entries) == ReduceAsWritten(acc', rest);
      KeysAppend(acc, (e.0, v));
      DistinctKeysUncons(entries);
      assert forall k :: k in Keys(acc') ==> k !in Keys(rest);
      ReduceAsWrittenAgrees(acc', rest);
      assert Normalise(entries) == [(e.0, v)] + Normalise(rest);
      AppendAssoc(acc, [(e.0, v)], Normalise(rest));
    }
  }

  lemma AppendAssoc(a: Record, b: Record, c: Record)
    ensures (a + b) + c == a + (b + c)
  {
  }

  /**
   * A response whose first key is "__proto__" loses that key under the reduce
   * as written, while the normalisation keeps it.
   */
  lemma ProtoKeyDroppedAsWritten(v: string, rest: Record)
    requires DistinctKeys(rest) && ProtoKey !in Keys(rest)
    ensures ReduceAsWritten([], [(ProtoKey, v)] + rest) == Normalise(rest)
    ensures ProtoKey !in Keys(ReduceAsWritten([], [(ProtoKey, v)] + rest))
    ensures Keys(Normalise([(ProtoKey, v)] + rest))[0] == ProtoKey
  {
    var input := [(ProtoKey, v)] + rest;
    assert input[1..] == rest;
    assert ReduceAsWritten([], input) == ReduceAsWritten([], rest);
    ReduceAsWrittenAgrees([], rest);
    NormaliseKeepsKeys(rest);
    NormaliseKeepsKeys(input);
  }

  // ---- Which rendering the component returns ----

  /** JavaScript truthiness of a `string | null`. */
  predicate Truthy(s: Option<string>)
  {
    s.Some? && s.value != ""
  }

  datatype SummaryView =
    | Placeholder
    | Nothing
      /** The panel; each section is present exactly when its field is Some. */
    | Panel(nutrientList: Option<Record>, analysisSection: Option<string>)

  function Render(nutrients: Option<Record>, analysis: Option<string>, isLoading: bool): (view: SummaryView)
  {
    if isLoading then Placeholder
    else if nutrients.None? && !Truthy(analysis) then Nothing
    else Panel(if nutrients.Some? then Some(Normalise(nutrients.value)) else None,
               if Truthy(analysis) then analysis else None)
  }

  /**
   * Loading shows the placeholder whatever else is set; otherwise nothing is
   * rendered exactly when there are no nutrients and no (non-empty) analysis;
   * the list shows the normalised nutrients; the analysis section needs a
   * non-empty analysis.
   */
  lemma RenderBranches(nutrients: Option<Record>, analysis: Option<string>, isLoading: bool)
    ensures isLoading ==> Render(nutrients, analysis, isLoading) == Placeholder
    ensures !isLoading ==>
      (Render(nutrients, analysis, isLoading) == Nothing <==> nutrients.None? && !Truthy(analysis))
    ensures Render(nutrients, analysis, isLoading).Panel? ==>
      && (Render(nutrients, analysis, isLoading).analysisSection.Some? <==> Truthy(analysis))
      && (Truthy(analysis) ==> Render(nutrients, analysis, isLoading).analysisSection == analysis)
      && (nutrients.Some? <==> Render(nutrients, analysis, isLoading).nutrientList.Some?)
      && (nutrients.Some? ==> Keys(Render(nutrients, analysis, isLoading).nutrientList.value) == Keys(nutrients.value))
      && (nutrients.Some? ==> Render(nutrients, analysis, isLoading).nutrientList == Some(Normalise(nutrients.value)))
  {
    if nutrients.Some? { NormaliseKeepsKeys(nutrients.value); }
  }
}
