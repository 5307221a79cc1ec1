/** The first-run setup wizard: a step counter running from 1 to 5 and the profile
    form (full name, language, currency, monthly budget) that the steps fill in. */
module Onboarding {
  import opened Navigation

  const TotalSteps: int := 5

  /** The language codes and currency codes offered by the step 2 and step 3 selects. */
  const LanguageCodes: seq<string> := ["uz", "ru", "en"]
  const CurrencyCodes: seq<string> := ["UZS", "USD", "EUR"]

  datatype Field = FullName | Language | Currency | MonthlyBudget

  datatype Profile = Profile(fullName: string, language: string, currency: string, monthlyBudget: string)

  function Get(p: Profile, field: Field): string
  {
    match field
    case FullName => p.fullName
    case Language => p.language
    case Currency => p.currency
    case MonthlyBudget => p.monthlyBudget
  }

  /** The form as the wizard starts with it: every field empty. */
  function EmptyProfile(): (p: Profile)
    ensures forall field :: Get(p, field) == ""
  {
    Profile("", "", "", "")
  }

  /** `updateFormData`: the profile with `field` set to `value` and nothing else changed. */
  function Update(p: Profile, field: Field, value: string): (q: Profile)
    ensures Get(q, field) == value
    ensures forall other :: other != field ==> Get(q, other) == Get(p, other)
  {
    match field
    case FullName => p.(fullName := value)
    case Language => p.(language := value)
    case Currency => p.(currency := value)
    case MonthlyBudget => p.(monthlyBudget := value)
  }

  /** What `handleNext` does to the step, and where it navigates. */
  datatype NextOutcome = NextOutcome(step: int, navigation: Option<Route>)

  /** `handleNext`: below the last step it advances by one; at the last step it keeps the
      step and navigates to the dashboard. The Back transition undoes an advance. */
  function AfterNext(step: int): (r: NextOutcome)
    ensures step < TotalSteps ==> r.step == step + 1 && r.navigation == None
    ensures step >= TotalSteps ==> r.step == step && r.navigation == Some(DashboardRoute)
    ensures 1 <= step <= TotalSteps ==> 1 <= r.step <= TotalSteps
    ensures 1 <= step < TotalSteps ==> AfterBack(r.step) == step
  {
    if step < TotalSteps then NextOutcome(step + 1, None) else NextOutcome(step, Some(DashboardRoute))
  }

  /** Whether the Back button is rendered at all. */
  predicate BackOffered(step: int)
  {
    step > 1
  }

  /** `handleBack`: above the first step it goes back by one, otherwise it changes nothing,
      so it moves the step exactly when the Back button is offered. */
  function AfterBack(step: int): (r: int)
    ensures BackOffered(step) ==> r == step - 1
    ensures r != step <==> BackOffered(step)
    ensures 1 <= step <= TotalSteps ==> 1 <= r <= TotalSteps
  {
    if step > 1 then step - 1 else step
  }

  /** The `disabled` condition of the Next button: each of the first three steps blocks
      until its field is filled in; steps 4 and 5 never block. */
  predicate NextDisabled(step: int, p: Profile)
  {
    (step == 1 && p.fullName == "") ||
    (step == 2 && p.language == "") ||
    (step == 3 && p.currency == "")
  }

  /** The field each step's input edits; the last step shows a summary and edits nothing. */
  function FieldOfStep(step: int): (r: Option<Field>)
    ensures r.Some? <==> 1 <= step <= 4
    ensures step == 1 ==> r == Some(FullName)
    ensures step == 2 ==> r == Some(Language)
    ensures step == 3 ==> r == Some(Currency)
    ensures step == 4 ==> r == Some(MonthlyBudget)
  {
    if step == 1 then Some(FullName)
    else if step == 2 then Some(Language)
    else if step == 3 then Some(Currency)
    else if step == 4 then Some(MonthlyBudget)
    else None
  }

  /** Next is blocked on the first three steps exactly while the field that step's input
      edits is empty, so the user can always unblock it from the same step; on steps 4 and
      5 it is never blocked. */
  lemma NextBlockedByOwnField(step: int, p: Profile)
    ensures 1 <= step <= 3 ==> (NextDisabled(step, p) <==> Get(p, FieldOfStep(step).value) == "")
    ensures step >= 4 ==> !NextDisabled(step, p)
  {
  }

  /** Values the step's widget can produce: the two selects offer fixed codes, the text
      inputs any string. */
  predicate Choosable(field: Field, value: string)
  {
    match field
    case Language => value in LanguageCodes
    case Currency => value in CurrencyCodes
    case _ => true
  }

  // ---------------------------------------------------------------------------
  // Handler invocations on the bare step counter
  // ---------------------------------------------------------------------------

  datatype Move = Next | Back

  function StepAfter(step: int, m: Move): int
  {
    match m
    case Next => AfterNext(step).step
    case Back => AfterBack(step)
  }

  function StepAfterAll(step: int, moves: seq<Move>): int
    decreases |moves|
  {
    if moves == [] then step else StepAfterAll(StepAfter(step, moves[0]), moves[1..])
  }

  /** Whatever sequence of `handleNext` and `handleBack` calls is made, a step that starts
      in 1..5 stays in 1..5. */
  lemma {:induction false} StepStaysInRange(step: int, moves: seq<Move>)
    requires 1 <= step <= TotalSteps
    ensures 1 <= StepAfterAll(step, moves) <= TotalSteps
    decreases |moves|
  {
    if moves != [] {
      StepStaysInRange(StepAfter(step, moves[0]), moves[1..]);
    }
  }

  // ---------------------------------------------------------------------------
  // The page as the user drives it through its buttons and inputs
  // ---------------------------------------------------------------------------

  datatype WizardState = WizardState(step: int, profile: Profile)

  /** The page as it mounts: step 1 with the empty form, which is consistent. */
  function Initial(): (s: WizardState)
    ensures s.step == 1 && s.profile == EmptyProfile() && Consistent(s)
  {
    WizardState(1, EmptyProfile())
  }

  datatype UserEvent = PressNext | PressBack | Edit(field: Field, value: string)

  /** Which events the rendered page can produce in state `s`. */
  predicate Offered(s: WizardState, e: UserEvent)
  {
    match e
    case PressNext => true
    case PressBack => BackOffered(s.step)
    case Edit(field, value) => FieldOfStep(s.step) == Some(field) && Choosable(field, value)
  }

  /** The fields the wizard must have collected before it reached the current step. */
  predicate Consistent(s: WizardState)
  {
    && 1 <= s.step <= TotalSteps
    && (s.step > 1 ==> s.profile.fullName != "")
    && (s.step > 2 ==> s.profile.language != "")
    && (s.step > 3 ==> s.profile.currency != "")
    && (s.profile.language == "" || s.profile.language in LanguageCodes)
    && (s.profile.currency == "" || s.profile.currency in CurrencyCodes)
  }

  predicate ProfileComplete(p: Profile)
  {
    p.fullName != "" && p.language in LanguageCodes && p.currency in CurrencyCodes
  }

  datatype Reaction = Reaction(state: WizardState, navigation: Option<Route>)

  /** The effect of one event: a disabled Next button does nothing, an enabled one runs
      `handleNext`; Back runs `handleBack`; an edit runs `updateFormData`. Offered events
      keep the state consistent, and the wizard only navigates away with a complete profile. */
  function Handle(s: WizardState, e: UserEvent): (r: Reaction)
    ensures Consistent(s) && Offered(s, e) ==> Consistent(r.state)
    ensures Consistent(s) && r.navigation.Some? ==> ProfileComplete(s.profile) && r.state == s
    ensures e.PressNext? && NextDisabled(s.step, s.profile) ==> r == Reaction(s, None)
  {
    match e
    case PressNext =>
      if NextDisabled(s.step, s.profile) then Reaction(s, None)
      else
        var o := AfterNext(s.step);
        Reaction(s.(step := o.step), o.navigation)
    case PressBack => Reaction(s.(step := AfterBack(s.step)), None)
    case Edit(field, value) => Reaction(s.(profile := Update(s.profile, field, value)), None)
  }

  function HandleAll(s: WizardState, es: seq<UserEvent>): WizardState
    decreases |es|
  {
    if es == [] then s else HandleAll(Handle(s, es[0]).state, es[1..])
  }

  /** Every event in `es` is offered in the state the page is in when it happens. */
  predicate AllOffered(s: WizardState, es: seq<UserEvent>)
    decreases |es|
  {
    es == [] || (Offered(s, es[0]) && AllOffered(Handle(s, es[0]).state, es[1..]))
  }

  /** From the initial page, any run of offered events keeps the state consistent, so the
      step stays in 1..5 and every step past the third was reached with name, language and
      currency filled in. */
  lemma {:induction false} ConsistentAlongRun(s: WizardState, es: seq<UserEvent>)
    requires Consistent(s) && AllOffered(s, es)
    ensures Consistent(HandleAll(s, es))
    decreases |es|
  {
    if es != [] {
      ConsistentAlongRun(Handle(s, es[0]).state, es[1..]);
    }
  }

  /** The wizard page. `step` and `formData` are the page's two pieces of state. */
  class Wizard {
    var step: int
    var formData: Profile

    ghost predicate Valid()
      reads this
    {
      1 <= step <= TotalSteps
    }

    function State(): WizardState
      reads this
    {
      WizardState(step, formData)
    }

    constructor ()
      ensures Valid() && State() == Initial()
    {
      step := 1;
      formData := EmptyProfile();
    }

    /** `handleNext`. */
    method HandleNext() returns (navigation: Option<Route>)
      requires Valid()
      modifies this
      ensures Valid()
      ensures step == AfterNext(old(step)).step && navigation == AfterNext(old(step)).navigation
      ensures formData == old(formData)
    {
      if step < TotalSteps {
        step := step + 1;
        navigation := None;
      } else {
        navigation := Some(DashboardRoute);
      }
    }

    /** `handleBack`. */
    method HandleBack()
      requires Valid()
      modifies this
      ensures Valid()
      ensures step == AfterBack(old(step)) && formData == old(formData)
    {
      if step > 1 {
        step := step - 1;
      }
    }

    /** `updateFormData`. */
    method UpdateFormData(field: Field, value: string)
      requires Valid()
      modifies this
      ensures Valid()
      ensures formData == Update(old(formData), field, value) && step == old(step)
    {
      formData := Update(formData, field, value);
    }

    /** A click on the Next button: nothing while it is disabled, `handleNext` otherwise. */
    method ClickNext() returns (navigation: Option<Route>)
      requires Valid()
      modifies this
      ensures Valid()
      ensures Reaction(State(), navigation) == Handle(old(State()), PressNext)
    {
      if NextDisabled(step, formData) {
        navigation := None;
      } else {
        navigation := HandleNext();
      }
    }
  }
}
