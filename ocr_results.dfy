/**
 * The OCR results view: loading and empty branches, the per-entry display
 * value (digits kept, unit chosen from the text) and the chart colours.
 * `parseFloat` is a parameter: an arbitrary function that may answer NaN.
 */
module OcrResults {
  import opened Wrappers
  import opened Text
  import opened Records

  /** The result of `parseFloat`, with the number taken as a real. */
  datatype Parsed = NaN | Number(value: real)

  type ParseFloat = string -> Parsed

  const Milligrams := "mg"
  const Grams := "g"

  /** The characters `/[^\d.-]/g` leaves in place. */
  predicate IsNumberChar(c: char)
  {
    ('0' <= c <= '9') || c == '.' || c == '-'
  }

  /** `value.replace(/[^\d.-]/g, "")` */
  function KeepNumberChars(s: string): (kept: string)
  {
    if s == [] then []
    else if IsNumberChar(s[0]) then [s[0]] + KeepNumberChars(s[1..])
    else KeepNumberChars(s[1..])
  }

  /** Every character kept is a digit, '.' or '-'. */
  lemma {:induction false} KeptCharsAreNumberChars(s: string)
    ensures forall i :: 0 <= i < |KeepNumberChars(s)| ==> IsNumberChar(KeepNumberChars(s)[i])
    ensures |KeepNumberChars(s)| <= |s|
  {
    if s != [] { KeptCharsAreNumberChars(s[1..]); }
  }

  /** The filter distributes over concatenation: it removes characters one by one, in place. */
  lemma {:induction false} KeepNumberCharsAppend(a: string, b: string)
    ensures KeepNumberChars(a + b) == KeepNumberChars(a) + KeepNumberChars(b)
  {
    if a == [] {
      assert a + b == b;
    } else {
      assert (a + b)[0] == a[0] && (a + b)[1..] == a[1..] + b;
      KeepNumberCharsAppend(a[1..], b);
    }
  }

  /** A string made only of digits, '.' and '-' is left untouched. */
  lemma {:induction false} KeepNumberCharsIdentity(s: string)
    requires forall i :: 0 <= i < |s| ==> IsNumberChar(s[i])
    ensures KeepNumberChars(s) == s
  {
    if s != [] { KeepNumberCharsIdentity(s[1..]); }
  }

  /** Any other character is removed. */
  lemma KeepNumberCharsDrops(c: char)
    requires !IsNumberChar(c)
    ensures KeepNumberChars([c]) == []
  {
  }

  /** Text with no digit, '.' or '-' in it filters to the empty string (which `parseFloat` reads as NaN). */
  lemma {:induction false} KeepNumberCharsNoneKept(s: string)
    requires forall i :: 0 <= i < |s| ==> !IsNumberChar(s[i])
    ensures KeepNumberChars(s) == []
  {
    if s != [] { KeepNumberCharsNoneKept(s[1..]); }
  }

  /** The unit suffix: "mg" when the lower-cased value mentions mg, otherwise "g". */
  function Unit(value: string): (u: string)
  {
    if Contains(ToLower(value), Milligrams) then Milligrams else Grams
  }

  /** One chart entry: the nutrient, its amount and its unit. */
  datatype Amount = Amount(key: string, amount: real, unit: string)

  /** The body of the `map` callback, including the NaN-to-0 reassignment. */
  function ProcessEntry(e: Entry, parseFloat: ParseFloat): (a: Amount)
  {
    var parsed := parseFloat(KeepNumberChars(e.1));
    var numericValue := if parsed.NaN? then 0.0 else parsed.value;
    Amount(e.0, numericValue, Unit(e.1))
  }

  /** `Object.entries(nutrients).map(...)` */
  function ProcessNutrients(r: Record, parseFloat: ParseFloat): (out: seq<Amount>)
    ensures |out| == |r|
    ensures forall i :: 0 <= i < |r| ==> out[i].key == r[i].0
  {
    if r == [] then [] else [ProcessEntry(r[0], parseFloat)] + ProcessNutrients(r[1..], parseFloat)
  }

  /**
   * Entry `i` of the output carries key `i` of the input, the parse of its
   * filtered text (0 when that is NaN) and the unit chosen from its text.
   */
  lemma {:induction false} ProcessNutrientsAt(r: Record, parseFloat: ParseFloat, i: int)
    requires 0 <= i < |r|
    ensures var a := ProcessNutrients(r, parseFloat)[i];
      && a.key == r[i].0
      && (parseFloat(KeepNumberChars(r[i].1)).NaN? ==> a.amount == 0.0)
      && (parseFloat(KeepNumberChars(r[i].1)).Number? ==> a.amount == parseFloat(KeepNumberChars(r[i].1)).value)
      && (a.unit == Milligrams <==> Contains(ToLower(r[i].1), Milligrams))
      && (a.unit == Milligrams || a.unit == Grams)
  {
    if i > 0 { ProcessNutrientsAt(r[1..], parseFloat, i - 1); }
  }

  /** "250MG" is in milligrams although its letters are upper case; "12 g" is in grams. */
  lemma UnitExamples()
    ensures Unit("250MG") == Milligrams
    ensures Unit("12 g") == Grams
  {
    assert ToLower("250MG") == "250mg";
    assert StartsWith("250mg"[3..], Milligrams);
    SuffixContains("250mg", 3, Milligrams);
    assert ToLower("12 g") == "12 g";
    NotContainsWithoutFirstChar("12 g", Milligrams);
  }

  // ---- Chart colours ----

  const NutrientColors: map<string, string> := map[
    "Lemak Total" := "rgba(255, 99, 132, 0.5)",
    "Protein" := "rgba(75, 192, 192, 0.5)",
    "Gula" := "rgba(255, 206, 86, 0.5)",
    "Garam" := "rgba(54, 162, 235, 0.5)"]

  const NutrientBorderColors: map<string, string> := map[
    "Lemak Total" := "rgba(255, 99, 132, 1)",
    "Protein" := "rgba(75, 192, 192, 1)",
    "Gula" := "rgba(255, 206, 86, 1)",
    "Garam" := "rgba(54, 162, 235, 1)"]

  const FallbackColor := "rgba(200, 200, 200, 0.5)"
  const FallbackBorderColor := "rgba(200, 200, 200, 1)"

  /** `nutrientColors[key] || fallback`, as intended: only the table's own keys. */
  function BackgroundColor(key: string): (color: string)
  {
    if key in NutrientColors then NutrientColors[key] else FallbackColor
  }

  function BorderColor(key: string): (color: string)
  {
    if key in NutrientBorderColors then NutrientBorderColors[key] else FallbackBorderColor
  }

  /** The four named nutrients have their own colours; every other key is grey. */
  lemma ColorLookup(key: string)
    ensures key in {"Lemak Total", "Protein", "Gula", "Garam"} ==>
      BackgroundColor(key) == NutrientColors[key] && BorderColor(key) == NutrientBorderColors[key]
    ensures key !in {"Lemak Total", "Protein", "Gula", "Garam"} ==>
      BackgroundColor(key) == FallbackColor && BorderColor(key) == FallbackBorderColor
    ensures BackgroundColor("Garam") == "rgba(54, 162, 235, 0.5)"
  {
  }

  /** Names an object literal inherits from `Object.prototype`. */
  const ObjectPrototypeMembers: set<string> := {
    "constructor", "hasOwnProperty", "isPrototypeOf", "propertyIsEnumerable",
    "toLocaleString", "toString", "valueOf", "__proto__",
    "__defineGetter__", "__defineSetter__", "__lookupGetter__", "__lookupSetter__"}

  /** What a property read on the colour table yields. */
  datatype Lookup = OwnColor(color: string) | Inherited(member: string) | Undefined

  /**
   * `nutrientColors[key] || fallback` as ECMAScript evaluates it: an inherited
   * member is a function or an object, hence truthy, and wins over the fallback.
   */
  function BackgroundColorAsWritten(key: string): (l: Lookup)
  {
    if key in NutrientColors then OwnColor(NutrientColors[key])
    else if key in ObjectPrototypeMembers then Inherited(key)
    else OwnColor(FallbackColor)
  }

  /** `nutrientBorderColors[key] || fallback`, which reads inherited members in the same way. */
  function BorderColorAsWritten(key: string): (l: Lookup)
  {
    if key in NutrientBorderColors then OwnColor(NutrientBorderColors[key])
    else if key in ObjectPrototypeMembers then Inherited(key)
    else OwnColor(FallbackBorderColor)
  }

  /** A nutrient named "toString" gets an inherited function as its fill and border colour instead of grey. */
  lemma InheritedKeyMissesFallback()
    ensures BackgroundColorAsWritten("toString") == Inherited("toString")
    ensures BorderColorAsWritten("toString") == Inherited("toString")
    ensures BackgroundColor("toString") == FallbackColor
    ensures BorderColor("toString") == FallbackBorderColor
  {
  }

  /** Everywhere else the lookups as written and the intended ones agree. */
  lemma AsWrittenAgreesElsewhere(key: string)
    requires key !in ObjectPrototypeMembers
    ensures BackgroundColorAsWritten(key) == OwnColor(BackgroundColor(key))
    ensures BorderColorAsWritten(key) == OwnColor(BorderColor(key))
  {
  }

  // ---- Which rendering the component returns ----

  datatype Chart = Chart(key: string, amount: real, unit: string, background: string, border: string)

  datatype OcrView = Pulse | NoData | Charts(charts: seq<Chart>)

  function ToChart(a: Amount): (chart: Chart)
  {
    Chart(a.key, a.amount, a.unit, BackgroundColor(a.key), BorderColor(a.key))
  }

  function Render(nutrients: Option<Record>, isLoading: bool, parseFloat: ParseFloat): (v: OcrView)
  {
    if isLoading then Pulse
    else if nutrients.None? || |nutrients.value| == 0 then NoData
    else
      var amounts := ProcessNutrients(nutrients.value, parseFloat);
      Charts(seq(|amounts|, i requires 0 <= i < |amounts| => ToChart(amounts[i])))
  }

  /**
   * Loading shows the placeholder; null or empty nutrients show the "no data"
   * message; otherwise there is one chart per entry, in entry order, with that
   * entry's key and colours.
   */
  lemma RenderBranches(nutrients: Option<Record>, isLoading: bool, parseFloat: ParseFloat)
    ensures isLoading ==> Render(nutrients, isLoading, parseFloat) == Pulse
    ensures !isLoading ==>
      (Render(nutrients, isLoading, parseFloat) == NoData <==> nutrients.None? || nutrients.value == [])
    ensures Render(nutrients, isLoading, parseFloat).Charts? ==>
      var cs := Render(nutrients, isLoading, parseFloat).charts;
      && |cs| == |nutrients.value|
      && forall i :: 0 <= i < |cs| ==>
           && cs[i].key == nutrients.value[i].0
           && cs[i].amount == ProcessNutrients(nutrients.value, parseFloat)[i].amount
           && cs[i].unit == Unit(nutrients.value[i].1)
           && cs[i].background == BackgroundColor(nutrients.value[i].0)
           && cs[i].border == BorderColor(nutrients.value[i].0)
  {
    if !isLoading && nutrients.Some? && nutrients.value != [] {
      forall i | 0 <= i < |nutrients.value| {
        ProcessNutrientsAt(nutrients.value, parseFloat, i);
      }
    }
  }
}
