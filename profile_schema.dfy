/**
 * The profile record and the form schema that validates it
 * (`profileFormSchema` and `ProfileFormValues` in profile-form.tsx).
 */
module ProfileSchema {
  import opened Common

  /** The three values the fitness-goal enum admits. */
  const FitnessGoals: seq<string> := ["lose weight", "gain muscle", "maintain"]

  predicate IsFitnessGoal(s: string) { s in FitnessGoals }

  /**
   * A profile as the application holds it. Macros are grams; the goal is a
   * plain string because a profile read back from storage is not re-validated,
   * and it may be undefined there.
   */
  datatype Profile = Profile(
    protein: int,
    carbs: int,
    fat: int,
    restrictions: Option<string>,
    fitnessGoal: Option<string>)

  /**
   * The raw values of the form before validation: a macro is `None` when the
   * typed text does not coerce to a number; `None` for the goal means no radio
   * button is selected.
   */
  datatype FormValues = FormValues(
    protein: Option<int>,
    carbs: Option<int>,
    fat: Option<int>,
    restrictions: Option<string>,
    fitnessGoal: Option<string>)

  datatype Field = ProteinField | CarbsField | FatField | RestrictionsField | GoalField

  /** One validation issue, reported against one field. */
  datatype Issue =
    | NotANumber(field: Field)
    | Negative(field: Field)
    | GoalRequired
    | GoalNotInEnum(received: string)

  function FieldOf(issue: Issue): Field {
    match issue
    case NotANumber(f) => f
    case Negative(f) => f
    case GoalRequired => GoalField
    case GoalNotInEnum(_) => GoalField
  }

  /** The messages the schema declares itself; the other two come from the validation library. */
  function CustomMessage(issue: Issue): Option<string> {
    match issue
    case Negative(ProteinField) => Some("Protein must be non-negative.")
    case Negative(CarbsField) => Some("Carbs must be non-negative.")
    case Negative(FatField) => Some("Fat must be non-negative.")
    case GoalRequired => Some("You need to select a fitness goal.")
    case _ => None
  }

  /** `z.coerce.number().min(0)`: a number, at least zero. */
  predicate MacroAccepted(raw: Option<int>) {
    raw.Some? && raw.value >= 0
  }

  /** `z.enum([...])` with a required error: present and one of the three goals. */
  predicate GoalAccepted(raw: Option<string>) {
    raw.Some? && IsFitnessGoal(raw.value)
  }

  /** Whether the schema accepts the value of field `f`; restrictions are `z.string().optional()`. */
  predicate FieldAccepted(v: FormValues, f: Field) {
    match f
    case ProteinField => MacroAccepted(v.protein)
    case CarbsField => MacroAccepted(v.carbs)
    case FatField => MacroAccepted(v.fat)
    case RestrictionsField => true
    case GoalField => GoalAccepted(v.fitnessGoal)
  }

  function MacroIssues(f: Field, raw: Option<int>): seq<Issue> {
    match raw
    case None => [NotANumber(f)]
    case Some(n) => if n < 0 then [Negative(f)] else []
  }

  function GoalIssues(raw: Option<string>): seq<Issue> {
    match raw
    case None => [GoalRequired]
    case Some(g) => if IsFitnessGoal(g) then [] else [GoalNotInEnum(g)]
  }

  /** All issues of a form value, in the order of the schema's fields. */
  function Issues(v: FormValues): seq<Issue> {
    MacroIssues(ProteinField, v.protein) + MacroIssues(CarbsField, v.carbs)
      + MacroIssues(FatField, v.fat) + GoalIssues(v.fitnessGoal)
  }

  lemma IssuesNameFailingFields(v: FormValues, f: Field)
    ensures (exists i :: i in Issues(v) && FieldOf(i) == f) <==> !FieldAccepted(v, f)
  {
    var p, c, t, g := MacroIssues(ProteinField, v.protein), MacroIssues(CarbsField, v.carbs),
      MacroIssues(FatField, v.fat), GoalIssues(v.fitnessGoal);
    assert Issues(v) == p + c + t + g;
    assert forall i :: i in Issues(v) <==> i in p || i in c || i in t || i in g;
    if !FieldAccepted(v, f) {
      var w := match f
        case ProteinField => p[0]
        case CarbsField => c[0]
        case FatField => t[0]
        case GoalField => g[0];
      assert w in Issues(v) && FieldOf(w) == f;
    }
  }

  /**
   * Parsing a form value against the schema: every field is checked and all
   * issues are collected; on success the parsed record carries the input
   * values unchanged.
   */
  function Validate(v: FormValues): (r: Result<Profile, seq<Issue>>)
    ensures r.Ok? <==>
      MacroAccepted(v.protein) && MacroAccepted(v.carbs) && MacroAccepted(v.fat) && GoalAccepted(v.fitnessGoal)
    ensures r.Ok? ==>
      r.value == Profile(v.protein.value, v.carbs.value, v.fat.value, v.restrictions, v.fitnessGoal)
    ensures r.Err? ==> r.error != []
    ensures r.Err? ==>
      forall f: Field :: (exists i :: i in r.error && FieldOf(i) == f) <==> !FieldAccepted(v, f)
  {
    var issues := Issues(v);
    if issues == [] then
      Ok(Profile(v.protein.value, v.carbs.value, v.fat.value, v.restrictions, v.fitnessGoal))
    else
      assert forall f: Field :: (exists i :: i in issues && FieldOf(i) == f) <==> !FieldAccepted(v, f) by {
        forall f: Field ensures (exists i :: i in issues && FieldOf(i) == f) <==> !FieldAccepted(v, f) {
          IssuesNameFailingFields(v, f);
        }
      }
      Err(issues)
  }
}
