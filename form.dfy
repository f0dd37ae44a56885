/** The login-form machine of examples/form.ts, run by the engine of module Fsm.

    Note on the table's shape: examples/form.ts:54-112 places each state's handlers directly
    under the state's key (`initial: { changeValue, submitForm }`), while the reducer looks
    them up one level deeper, under `on` (src/index.ts:61-64). Read literally, every action
    of the example would find no handler and leave the state unchanged; `AsWrittenConfig`
    and `AsWrittenIsInert` record that. `FormConfig` installs the handlers as each state's
    `on` table, as the example intends, and everything else here uses it. */
module FormMachine {
  import opened Fsm
  import opened FsmBinding

  datatype Field = Email | Password

  datatype Values = Values(email: string, password: string)

  /** The four form states (examples/form.ts:3-16). */
  datatype FormState =
    | Initial(email: string, password: string, formError: Option<string>)
    | Pending(email: string, password: string)
    | Errored(error: string)
    | Success

  /** The form's actions (examples/form.ts:18-39). */
  datatype Action =
    | SubmitForm(values: Values)
    | ChangeValue(input: Field, value: string)
    | ReportSubmitSuccess
    | ClickBackButton
    | ReportSubmitError

  /** The form's effects (examples/form.ts:41-49). */
  datatype Effect = SubmitFormEffect(values: Values) | NavigateAwayFromPage

  type FormSt = St<FormState, Effect>

  function StateTag(s: FormState): string {
    match s
    case Initial(_, _, _) => "initial"
    case Pending(_, _) => "pending"
    case Errored(_) => "errored"
    case Success => "success"
  }

  function ActionTag(a: Action): string {
    match a
    case SubmitForm(_) => "submitForm"
    case ChangeValue(_, _) => "changeValue"
    case ReportSubmitSuccess => "reportSubmitSuccess"
    case ClickBackButton => "clickBackButton"
    case ReportSubmitError => "reportSubmitError"
  }

  function EffectTag(e: Effect): string {
    match e
    case SubmitFormEffect(_) => "submitForm"
    case NavigateAwayFromPage => "navigateAwayFromPage"
  }

  const MissingValuesMessage := "You must include all values above."
  const SubmitErrorMessage := "Oh no, something bad happened."

  // Each handler below is only ever called with a state and an action of the tags it is
  // registered under (the narrowing of examples/form.ts). `ChangeValueInInitial` reads both
  // inputs and returns a falsy value on anything but an `initial` state with a `changeValue`
  // action. `SubmitFormInInitial` ignores the action, as its source does, and returns a falsy
  // value only for a state other than `initial`. The other three ignore the tags of both
  // inputs, as their sources do, and return a state on every input.

  /** `initial` / `changeValue` (examples/form.ts:56-63): the named field takes the value
      and the form error is cleared; `effects` is carried by the spread. */
  function ChangeValueInInitial(st: FormSt, a: Action): Returned<FormState, Effect> {
    match (st.data, a)
    case (Initial(email, password, _), ChangeValue(Email, v)) =>
      NextState(Initial(v, password, Some("")), CarriedBySpread)
    case (Initial(email, password, _), ChangeValue(Password, v)) =>
      NextState(Initial(email, v, Some("")), CarriedBySpread)
    case _ => Falsy
  }

  /** `initial` / `submitForm` (examples/form.ts:64-82): an empty field keeps the form in
      `initial` with an error; otherwise it goes to `pending` with one `submitForm` effect
      built from the state's own fields. */
  function SubmitFormInInitial(st: FormSt, a: Action): Returned<FormState, Effect> {
    match st.data
    case Initial(email, password, formError) =>
      if password == "" || email == "" then
        NextState(Initial(email, password, Some(MissingValuesMessage)), CarriedBySpread)
      else
        NextState(Pending(email, password), Fresh([SubmitFormEffect(Values(email, password))]))
    case _ => Falsy
  }

  /** `pending` / `reportSubmitError` (examples/form.ts:85-90). */
  function ReportSubmitErrorInPending(st: FormSt, a: Action): Returned<FormState, Effect> {
    NextState(Errored(SubmitErrorMessage), Absent)
  }

  /** `pending` / `reportSubmitSuccess` (examples/form.ts:91-95). */
  function ReportSubmitSuccessInPending(st: FormSt, a: Action): Returned<FormState, Effect> {
    NextState(Success, Absent)
  }

  /** `errored` / `clickBackButton` and `success` / `clickBackButton`
      (examples/form.ts:97-112), which are the same function: the state is spread unchanged
      and a new `effects` array holds one `navigateAwayFromPage`. */
  function ClickBackButtonHandler(st: FormSt, a: Action): Returned<FormState, Effect> {
    NextState(st.data, Fresh([NavigateAwayFromPage]))
  }

  /** The `submitForm` effect handler (examples/form.ts:118-128). `resolved` says whether
      the request's promise resolved; it dispatches exactly one report either way. */
  function SubmitFormEffectHandler(e: Effect, resolved: bool): (r: seq<Action>)
    ensures |r| == 1
    ensures r[0] == ReportSubmitSuccess || r[0] == ReportSubmitError
    ensures r[0] == ReportSubmitSuccess <==> resolved
  {
    if resolved then [ReportSubmitSuccess] else [ReportSubmitError]
  }

  /** The `navigateAwayFromPage` effect handler (examples/form.ts:115-117): it navigates,
      which is outside the model, and dispatches nothing. */
  function NavigateAwayEffectHandler(e: Effect, resolved: bool): seq<Action> {
    []
  }

  /** The per-state `on` tables as the example intends them. */
  function FormStates(): map<string, map<string, Handler<FormState, Action, Effect>>> {
    map[
      "initial" := map["changeValue" := ChangeValueInInitial, "submitForm" := SubmitFormInInitial],
      "pending" := map["reportSubmitError" := ReportSubmitErrorInPending,
                       "reportSubmitSuccess" := ReportSubmitSuccessInPending],
      "errored" := map["clickBackButton" := ClickBackButtonHandler],
      "success" := map["clickBackButton" := ClickBackButtonHandler]]
  }

  function FormEffects(): map<string, EffectHandler<Effect, Action, bool>> {
    map["navigateAwayFromPage" := NavigateAwayEffectHandler, "submitForm" := SubmitFormEffectHandler]
  }

  /** The configuration of `useFormLogic` (examples/form.ts:52-130): no global `on` table and
      no `runEffectsOnMount`. */
  function FormConfig(): Config<FormState, Action, Effect, bool> {
    Config(StateTag, ActionTag, EffectTag, Initial("", "", None),
      FormStates(), map[], FormEffects(), None)
  }

  /** The form's reducer. */
  function FormReduce(st: FormSt, a: Action, newRef: nat): FormSt {
    Reduce(FormConfig(), st, a, newRef)
  }

  /** The (state tag, action tag) pairs the form handles, listed from examples/form.ts:55-112. */
  predicate Handled(s: FormState, a: Action) {
    || (s.Initial? && (a.ChangeValue? || a.SubmitForm?))
    || (s.Pending? && (a.ReportSubmitError? || a.ReportSubmitSuccess?))
    || ((s.Errored? || s.Success?) && a.ClickBackButton?)
  }

  /** The table holds a handler exactly for the handled pairs, and the handler it holds never
      answers with a falsy value: the narrowing always holds for what the lookup passes. */
  lemma FormTableMatchesHandled(st: FormSt, a: Action)
    ensures HasStateHandler(FormConfig(), st, a) <==> Handled(st.data, a)
    ensures Handled(st.data, a) ==> Outcome(FormConfig(), st, a).NextState?
  {
  }

  /** With no global table, an action the current state does not handle leaves the state
      unchanged (`changeValue` in `pending`, `submitForm` in `errored`, ...). */
  lemma UnhandledLeavesStateUnchanged(st: FormSt, a: Action, newRef: nat)
    requires !Handled(st.data, a)
    ensures FormReduce(st, a, newRef) == st
  {
    FormTableMatchesHandled(st, a);
  }

  /** `changeValue` in `initial`: still `initial`, the named field holds the value, the
      other field is kept, the form error is the empty string and `effects` is untouched. */
  lemma ChangeValueSetsField(st: FormSt, f: Field, v: string, newRef: nat)
    requires st.data.Initial?
    ensures var r := FormReduce(st, ChangeValue(f, v), newRef);
      && r.data.Initial?
      && (if f == Email then r.data.email == v && r.data.password == st.data.password
          else r.data.password == v && r.data.email == st.data.email)
      && r.data.formError == Some("")
      && r.effects == st.effects
  {
  }

  /** `submitForm` in `initial` with an empty field: still `initial` with both fields kept,
      the missing-values error, and no new `effects` array. */
  lemma SubmitIncompleteStaysInitial(st: FormSt, values: Values, newRef: nat)
    requires st.data.Initial? && (st.data.email == "" || st.data.password == "")
    ensures FormReduce(st, SubmitForm(values), newRef)
      == St(Initial(st.data.email, st.data.password, Some(MissingValuesMessage)), st.effects)
  {
  }

  /** `submitForm` in `initial` with both fields set: `pending` with the same fields and a new
      `effects` array of one `submitForm` effect whose values come from the state, whatever
      the action carried. */
  lemma SubmitCompleteGoesPending(st: FormSt, values: Values, newRef: nat)
    requires st.data.Initial? && st.data.email != "" && st.data.password != ""
    ensures FormReduce(st, SubmitForm(values), newRef)
      == St(Pending(st.data.email, st.data.password),
            Some(EffectList(newRef, [SubmitFormEffect(Values(st.data.email, st.data.password))])))
  {
  }

  /** The two reports in `pending` give exactly `errored` with its message, or `success`,
      and in both cases no `effects` field. */
  lemma ReportsInPending(st: FormSt, newRef: nat)
    requires st.data.Pending?
    ensures FormReduce(st, ReportSubmitError, newRef) == St(Errored(SubmitErrorMessage), None)
    ensures FormReduce(st, ReportSubmitSuccess, newRef) == St(Success, None)
  {
  }

  /** `clickBackButton` in `errored` or `success` keeps the state and attaches a new array
      holding one `navigateAwayFromPage` effect. */
  lemma BackButtonQueuesNavigation(st: FormSt, newRef: nat)
    requires st.data.Errored? || st.data.Success?
    ensures FormReduce(st, ClickBackButton, newRef)
      == St(st.data, Some(EffectList(newRef, [NavigateAwayFromPage])))
  {
  }

  /** Running the effects of a submission calls the `submitForm` handler once with that
      effect, and it dispatches one report: success when the request resolves, else error. */
  lemma SubmitEffectRun(v: Values, answers: nat -> bool)
    ensures Fires(FormConfig(), [SubmitFormEffect(v)]) == [Fired(SubmitFormEffect(v), "submitForm")]
    ensures Dispatched(FormConfig(), [SubmitFormEffect(v)], answers)
      == [if answers(0) then ReportSubmitSuccess else ReportSubmitError]
  {
    assert [SubmitFormEffect(v)][..0] == [];
  }

  /** Running the effects of the back button calls the navigation handler once, and it
      dispatches nothing. */
  lemma NavigateEffectRun(answers: nat -> bool)
    ensures Fires(FormConfig(), [NavigateAwayFromPage]) == [Fired(NavigateAwayFromPage, "navigateAwayFromPage")]
    ensures Dispatched(FormConfig(), [NavigateAwayFromPage], answers) == []
  {
    assert [NavigateAwayFromPage][..0] == [];
  }

  /** Both effect tags of the form have a handler, so in any run every effect is handed to
      its handler exactly once, in list order. */
  lemma FormEffectsAllFire(xs: seq<Effect>)
    ensures |Fires(FormConfig(), xs)| == |xs|
    ensures forall i :: 0 <= i < |xs| ==> Fires(FormConfig(), xs)[i] == Fired(xs[i], EffectTag(xs[i]))
  {
    FiresEachHandledOnceInOrder(FormConfig(), xs);
  }

  /** The table exactly as examples/form.ts:54-112 writes it: every state key is present,
      but none has an `on` entry, so each state's `on` table is empty. */
  function AsWrittenConfig(): Config<FormState, Action, Effect, bool> {
    Config(StateTag, ActionTag, EffectTag, Initial("", "", None),
      map["initial" := map[], "pending" := map[], "errored" := map[], "success" := map[]],
      map[], FormEffects(), None)
  }

  /** Under the table as written, no action changes any state: the form never leaves
      `initial` and never queues an effect. */
  lemma AsWrittenIsInert(st: FormSt, a: Action, newRef: nat)
    ensures Reduce(AsWrittenConfig(), st, a, newRef) == st
  {
  }

  // A session driven through the binding, one interaction per method.

  /** The user types `v` into field `f`: the field changes, nothing fires. */
  method EditField(b: Binding<FormState, Action, Effect, bool>, f: Field, v: string, answers: nat -> bool)
    requires b.Valid() && b.cfg == FormConfig() && b.pending == [] && b.state.data.Initial?
    modifies b
    ensures b.Valid() && b.pending == [] && b.log == old(b.log)
    ensures b.state.effects == old(b.state.effects)
    ensures b.state.data == if f == Email then Initial(v, old(b.state.data.password), Some(""))
                            else Initial(old(b.state.data.email), v, Some(""))
  {
    b.Dispatch(ChangeValue(f, v));
    ghost var s, n := b.state, b.nextRef;
    var _ := b.Step(answers);
    ChangeValueSetsField(s, f, v, n);
    EffectsChangeOnlyWhenAttached(FormConfig(), s, ChangeValue(f, v), n);
  }

  /** The user submits a filled-in form: it goes to `pending`, the `submitForm` handler is
      called once, and the report it dispatches waits in the queue. The values the action
      carries play no part. */
  method SubmitFilledForm(b: Binding<FormState, Action, Effect, bool>, values: Values, answers: nat -> bool)
    requires b.Valid() && b.cfg == FormConfig() && b.pending == [] && b.state.data.Initial?
    requires b.state.data.email != "" && b.state.data.password != ""
    modifies b
    ensures b.Valid()
    ensures b.state.data == Pending(old(b.state.data.email), old(b.state.data.password))
    ensures b.log == old(b.log) + [Fired(SubmitFormEffect(Values(old(b.state.data.email), old(b.state.data.password))), "submitForm")]
    ensures b.pending == [if answers(0) then ReportSubmitSuccess else ReportSubmitError]
  {
    b.Dispatch(SubmitForm(values));
    ghost var s, n := b.state, b.nextRef;
    var _ := b.Step(answers);
    SubmitCompleteGoesPending(s, values, n);
    EffectsChangeOnlyWhenAttached(FormConfig(), s, SubmitForm(values), n);
    SubmitEffectRun(Values(s.data.email, s.data.password), answers);
  }

  /** The queued report is reduced in a step of its own: `success` or `errored`, nothing fires. */
  method ReduceReport(b: Binding<FormState, Action, Effect, bool>, answers: nat -> bool)
    requires b.Valid() && b.cfg == FormConfig() && b.state.data.Pending?
    requires b.pending == [ReportSubmitSuccess] || b.pending == [ReportSubmitError]
    modifies b
    ensures b.Valid() && b.pending == [] && b.log == old(b.log)
    ensures b.state == St(if old(b.pending) == [ReportSubmitSuccess] then Success else Errored(SubmitErrorMessage), None)
  {
    ghost var s, n, a := b.state, b.nextRef, b.pending[0];
    var _ := b.Step(answers);
    ReportsInPending(s, n);
    EffectsChangeOnlyWhenAttached(FormConfig(), s, a, n);
  }

  /** The user clicks the back button in `errored` or `success`: the navigation handler is
      called once and dispatches nothing. */
  method GoBack(b: Binding<FormState, Action, Effect, bool>, answers: nat -> bool)
    requires b.Valid() && b.cfg == FormConfig() && b.pending == []
    requires b.state.data.Errored? || b.state.data.Success?
    modifies b
    ensures b.Valid() && b.pending == [] && b.state.data == old(b.state.data)
    ensures b.log == old(b.log) + [Fired(NavigateAwayFromPage, "navigateAwayFromPage")]
  {
    b.Dispatch(ClickBackButton);
    ghost var s, n := b.state, b.nextRef;
    var _ := b.Step(answers);
    BackButtonQueuesNavigation(s, n);
    EffectsChangeOnlyWhenAttached(FormConfig(), s, ClickBackButton, n);
    NavigateEffectRun(answers);
  }

  /** A whole session from mount: both fields typed in, the form submitted, the report of
      the request reduced, then the back button. It returns the effect-handler calls made,
      in order, and the final state: `success` when the request resolved, else `errored`. */
  method Session(email: string, password: string, resolved: bool) returns (calls: seq<Fired<Effect>>, last: FormSt)
    requires email != "" && password != ""
    ensures calls == [Fired(SubmitFormEffect(Values(email, password)), "submitForm"),
                      Fired(NavigateAwayFromPage, "navigateAwayFromPage")]
    ensures last.data == if resolved then Success else Errored(SubmitErrorMessage)
  {
    var answers := (i: nat) => resolved;
    var b := new Binding(FormConfig(), answers);
    assert b.log == [] && b.pending == [];
    EditField(b, Email, email, answers);
    EditField(b, Password, password, answers);
    SubmitFilledForm(b, Values("", ""), answers);
    ReduceReport(b, answers);
    GoBack(b, answers);
    calls, last := b.log, b.state;
  }
}
