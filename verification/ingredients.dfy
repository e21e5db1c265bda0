/** The "Ingredients:" section of the recipe-detail overlay
    (`renderRecipeModal` in app/home.tsx): every truthy `strIngredient...`
    field, in key order, paired with the matching `strMeasure...` field. */
module Ingredients {
  import opened Wrappers
  import opened Recipes

  const IngredientPrefix: string := "strIngredient"
  const MeasurePrefix: string := "strMeasure"
  const NoMeasure: string := "No measure available"

  /** One rendered line, `<ingredient> - <measure>`. */
  datatype Line = Line(ingredient: string, measure: string)

  predicate IsDigit(c: char)
  {
    '0' <= c <= '9'
  }

  predicate AllDigits(s: string)
  {
    forall i :: 0 <= i < |s| ==> IsDigit(s[i])
  }

  predicate NoDigits(s: string)
  {
    forall i :: 0 <= i < |s| ==> !IsDigit(s[i])
  }

  /** The longest prefix of `s` made of digits. */
  function DigitPrefix(s: string): (d: string)
    ensures |d| <= |s| && d == s[..|d|]
    ensures AllDigits(d)
    ensures |d| == |s| || !IsDigit(s[|d|])
  {
    if |s| == 0 || !IsDigit(s[0]) then ""
    else [s[0]] + DigitPrefix(s[1..])
  }

  /** `key.match(/\d+/)?.[0]`: the leftmost maximal run of digits, or None
      when the key has no digit at all. */
  function FirstDigitRun(s: string): (r: Option<string>)
    ensures r.None? <==> NoDigits(s)
    ensures r.Some? ==> |r.value| > 0 && AllDigits(r.value)
  {
    if |s| == 0 then None
    else if IsDigit(s[0]) then Some(DigitPrefix(s))
    else
      var r := FirstDigitRun(s[1..]);
      assert forall i :: 1 <= i < |s| ==> s[i] == s[1..][i - 1];
      r
  }

  /** The measure key built by the template literal
      `strMeasure${key.match(/\d+/)?.[0]}`: a key without digits makes the
      template print `undefined`. */
  function MeasureKey(key: string): (k: string)
    ensures StartsWith(k, MeasurePrefix) && |k| > |MeasurePrefix|
  {
    MeasurePrefix + FirstDigitRun(key).GetOr("undefined")
  }

  /** The test applied to each key: it starts with `strIngredient` and the
      recipe holds a truthy value under it. */
  predicate Kept(f: Field)
  {
    StartsWith(f.key, IngredientPrefix) && Truthy(Some(f.value))
  }

  /** The line rendered for a kept field: the measure read from the whole
      recipe, or the fallback text when that read is falsy. */
  function LineFor(f: Field, r: Recipe): Line
    requires Kept(f)
  {
    var m := Get(r, MeasureKey(f.key));
    Line(f.value.s, if Truthy(m) then m.value.s else NoMeasure)
  }

  /** The lines rendered for the keys in `fields`, scanned in order; `r` is
      the recipe the measures are read from. */
  function LinesOf(fields: seq<Field>, r: Recipe): seq<Line>
  {
    if |fields| == 0 then []
    else
      var last := fields[|fields| - 1];
      LinesOf(fields[..|fields| - 1], r) + (if Kept(last) then [LineFor(last, r)] else [])
  }

  /** The ingredient section of the overlay for recipe `r`. */
  function IngredientLines(r: Recipe): (ls: seq<Line>)
    ensures |ls| <= |r.fields|
    ensures forall l :: l in ls ==> l.ingredient != "" && l.measure != ""
  {
    LinesBounded(r.fields, r);
    LinesOf(r.fields, r)
  }

  /** Every line has a non-empty ingredient and a non-empty measure, and
      there is at most one line per key. */
  lemma {:induction false} LinesBounded(fields: seq<Field>, r: Recipe)
    ensures |LinesOf(fields, r)| <= |fields|
    ensures forall l :: l in LinesOf(fields, r) ==> l.ingredient != "" && l.measure != ""
  {
    if |fields| > 0 {
      LinesBounded(fields[..|fields| - 1], r);
    }
  }

  /** The positions, in increasing order, of the kept keys of `fields`. */
  function KeptPositions(fields: seq<Field>): (ks: seq<nat>)
    ensures forall j :: 0 <= j < |ks| ==> ks[j] < |fields| && Kept(fields[ks[j]])
    ensures forall j, k :: 0 <= j < k < |ks| ==> ks[j] < ks[k]
    ensures forall i :: 0 <= i < |fields| && Kept(fields[i]) ==> i in ks
  {
    if |fields| == 0 then []
    else
      var n := |fields| - 1;
      var ks := KeptPositions(fields[..n]);
      assert forall i :: 0 <= i < n ==> fields[..n][i] == fields[i];
      ks + (if Kept(fields[n]) then [n] else [])
  }

  /** The overlay lists exactly the kept keys, in key order (the j-th line
      belongs to the j-th kept position, and no other key contributes),
      each showing its own value and the value under its measure key, or
      the fallback text when that value is falsy. */
  lemma {:induction false} IngredientLinesFollowKeptKeys(r: Recipe)
    ensures |IngredientLines(r)| == |KeptPositions(r.fields)|
    ensures forall j :: 0 <= j < |IngredientLines(r)| ==>
      var f := r.fields[KeptPositions(r.fields)[j]];
      var m := Get(r, MeasureKey(f.key));
      && IngredientLines(r)[j].ingredient == f.value.s != ""
      && IngredientLines(r)[j].measure == (if Truthy(m) then m.value.s else NoMeasure)
  {
    LinesFollowPositions(r.fields, r);
  }

  lemma {:induction false} LinesFollowPositions(fields: seq<Field>, r: Recipe)
    ensures |LinesOf(fields, r)| == |KeptPositions(fields)|
    ensures forall j :: 0 <= j < |LinesOf(fields, r)| ==>
      LinesOf(fields, r)[j] == LineFor(fields[KeptPositions(fields)[j]], r)
  {
    if |fields| > 0 {
      var n := |fields| - 1;
      LinesFollowPositions(fields[..n], r);
      assert forall i :: 0 <= i < n ==> fields[..n][i] == fields[i];
    }
  }

  /** The first digit run is found past any digit-free prefix, and stops at
      the first non-digit. */
  lemma {:induction false} FirstDigitRunOf(pre: string, d: string, post: string)
    requires NoDigits(pre) && |d| > 0 && AllDigits(d)
    requires |post| == 0 || !IsDigit(post[0])
    ensures FirstDigitRun(pre + d + post) == Some(d)
  {
    if |pre| == 0 {
      assert pre + d + post == d + post;
      DigitPrefixOf(d, post);
    } else {
      assert (pre + d + post)[1..] == pre[1..] + d + post;
      FirstDigitRunOf(pre[1..], d, post);
    }
  }

  lemma {:induction false} DigitPrefixOf(d: string, post: string)
    requires AllDigits(d)
    requires |post| == 0 || !IsDigit(post[0])
    ensures DigitPrefix(d + post) == d
  {
    if |d| > 0 {
      assert (d + post)[1..] == d[1..] + post;
      DigitPrefixOf(d[1..], post);
    }
  }

  /** For the meal API's keys `strIngredient<N>` (a digit run, optionally
      followed by a non-digit suffix) the measure is read from
      `strMeasure<N>`; a key with no digits reads `strMeasureundefined`. */
  lemma MeasureKeyOfIngredient(n: string, rest: string)
    requires |n| > 0 && AllDigits(n)
    requires |rest| == 0 || !IsDigit(rest[0])
    ensures MeasureKey(IngredientPrefix + n + rest) == MeasurePrefix + n
  {
    assert NoDigits(IngredientPrefix);
    FirstDigitRunOf(IngredientPrefix, n, rest);
  }

  lemma MeasureKeyWithoutDigits(key: string)
    requires NoDigits(key)
    ensures MeasureKey(key) == "strMeasureundefined"
  {
  }
}
