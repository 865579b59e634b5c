/**
 * The diet description both AI-backed screens send with a request
 * (recommendations-display.tsx and food-recognition.tsx build it alike).
 */
module DietChart {
  import opened Common
  import opened Text
  import opened ProfileSchema

  /** `profile.restrictions || 'None'`: an absent or empty text reads as "None". */
  function RestrictionsText(restrictions: Option<string>): (text: string)
    ensures text != ""
  {
    match restrictions
    case Some(r) => if r == "" then "None" else r
    case None => "None"
  }

  function DietChartString(p: Profile): string {
    "Macros: Protein " + IntToString(p.protein)
      + ("g, Carbs " + IntToString(p.carbs)
      + ("g, Fat " + IntToString(p.fat)
      + ("g. Restrictions: " + RestrictionsText(p.restrictions))))
  }

  /**
   * The fallback: the text is "None" exactly when the restrictions are
   * absent, empty, or literally "None"; otherwise they are sent verbatim.
   */
  lemma RestrictionsFallback(restrictions: Option<string>)
    ensures RestrictionsText(restrictions) == "None" <==>
      restrictions == None || restrictions == Some("") || restrictions == Some("None")
    ensures restrictions.Some? && restrictions.value != "" ==> RestrictionsText(restrictions) == restrictions.value
  {
  }

  /** Reads a diet chart back into its three macros and its restrictions text. */
  ghost function ParseDietChart(s: string): Option<(int, int, int, string)> {
    var (protein, s1) :- ParseIntAfter("Macros: Protein ", s);
    var (carbs, s2) :- ParseIntAfter("g, Carbs ", s1);
    var (fat, s3) :- ParseIntAfter("g, Fat ", s2);
    var restrictions :- Expect("g. Restrictions: ", s3);
    Some((protein, carbs, fat, restrictions))
  }

  lemma ParseDietChartSteps(s: string, protein: int, carbs: int, fat: int, s1: string, s2: string, s3: string, r: string)
    requires ParseIntAfter("Macros: Protein ", s) == Some((protein, s1))
    requires ParseIntAfter("g, Carbs ", s1) == Some((carbs, s2))
    requires ParseIntAfter("g, Fat ", s2) == Some((fat, s3))
    requires Expect("g. Restrictions: ", s3) == Some(r)
    ensures ParseDietChart(s) == Some((protein, carbs, fat, r))
  {
  }

  /** The diet chart carries the macros and the restrictions text recoverably. */
  lemma DietChartReadsBack(p: Profile)
    ensures ParseDietChart(DietChartString(p)) == Some((p.protein, p.carbs, p.fat, RestrictionsText(p.restrictions)))
  {
    var r := RestrictionsText(p.restrictions);
    var t3 := "g. Restrictions: " + r;
    var t2 := "g, Fat " + IntToString(p.fat) + t3;
    var t1 := "g, Carbs " + IntToString(p.carbs) + t2;
    assert DietChartString(p) == "Macros: Protein " + IntToString(p.protein) + t1;
    ParseIntAfterRoundTrip("Macros: Protein ", p.protein, t1);
    ParseIntAfterRoundTrip("g, Carbs ", p.carbs, t2);
    ParseIntAfterRoundTrip("g, Fat ", p.fat, t3);
    ExpectPrefix("g. Restrictions: ", r);
    ParseDietChartSteps(DietChartString(p), p.protein, p.carbs, p.fat, t1, t2, t3, r);
  }

  /** Two profiles with the same diet chart agree on macros and on the restrictions text. */
  lemma DietChartDeterminesMacros(p: Profile, q: Profile)
    requires DietChartString(p) == DietChartString(q)
    ensures p.protein == q.protein && p.carbs == q.carbs && p.fat == q.fat
    ensures RestrictionsText(p.restrictions) == RestrictionsText(q.restrictions)
  {
    DietChartReadsBack(p);
    DietChartReadsBack(q);
  }

  lemma SampleNumerals()
    ensures IntToString(150) == "150" && IntToString(200) == "200" && IntToString(70) == "70"
  {
    assert NatToString(15) == NatToString(1) + "5";
    assert NatToString(20) == NatToString(2) + "0";
  }

  lemma SampleChartPrefix(restrictions: Option<string>, goal: Option<string>)
    ensures DietChartString(Profile(150, 200, 70, restrictions, goal))
      == "Macros: Protein 150g, Carbs 200g, Fat 70g. Restrictions: " + RestrictionsText(restrictions)
  {
    SampleNumerals();
  }

  /** The chart for the documented sample profile, with restrictions given or left empty. */
  lemma DietChartExamples()
    ensures DietChartString(Profile(150, 200, 70, Some("gluten-free"), Some("lose weight")))
      == "Macros: Protein 150g, Carbs 200g, Fat 70g. Restrictions: gluten-free"
    ensures DietChartString(Profile(150, 200, 70, Some(""), Some("lose weight")))
      == "Macros: Protein 150g, Carbs 200g, Fat 70g. Restrictions: None"
  {
    SampleChartPrefix(Some("gluten-free"), Some("lose weight"));
    SampleChartPrefix(Some(""), Some("lose weight"));
  }
}
