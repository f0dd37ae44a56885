# use-fsm-reducer in Dafny

A model of `useFsmReducer`, a React hook that runs a finite-state machine. It pairs pure state
transitions with effects: queued side effects described as data. The model has three modules:

- `Fsm` (`fsm.dfy`) is the transition engine. It covers the configuration, the reducer and a
  specification of one run of the effect loop. The reducer looks up a handler for the pair
  (state tag, action tag) in that state's `on` table. If there is none, it uses the global `on`
  table. If there is still none, or the handler returns a falsy value, it returns the input
  state. A state's `effects` array is identified by the array itself, not by its contents.
  So each attached list carries a reference id. A transition handler says how its result got
  its `effects` field: carried over by a spread (`CarriedBySpread`), set to a newly built
  array (`Fresh`), or left out (`Absent`). The binding supplies the id a new array receives.
- `FsmBinding` (`binding.dfy`) is the host binding, a class. It holds:
  - the state cell;
  - a FIFO queue of dispatched actions that have not been reduced yet;
  - an append-only log of effect-handler calls;
  - the next free reference id.

  Mounting seeds the state and runs the effect loop once. `Dispatch` queues an action. `Step`
  reduces the oldest queued action and commits the result. It walks the new state's effect
  list only when the list's reference differs from the previous state's. Actions that effect
  handlers dispatch are appended to the queue, so they are reduced later, never inside the run.
- `FormMachine` (`form.dfy`) is the login form of `examples/form.ts`. It has four states
  (`initial`, `pending`, `errored`, `success`) and per-state handlers. Its two effect handlers
  keep only the actions they dispatch. The `submitForm` handler's network answer is an input:
  `true` when the request's promise resolves.

## Model

| member | source | states |
|---|---|---|
| `Fsm.Reduce` | src/index.ts:57-81 | A per-state handler for (state tag, action tag) decides the result even when a global handler for the action exists. Without one, a global handler decides. With neither, or when the chosen handler returns a falsy value, the input state is returned unchanged. The function is total. A result never refers to an array allocated after it. |
| `Fsm.EffectsChangeOnlyWhenAttached` | src/index.ts:87-98 | The `effects` reference changes exactly when the handler built a new array, or dropped an existing one. After a change, the loop walks only the newly attached effects, so earlier effects are not fired again. Spread-carried effects, the identity case and an absent field fire nothing new. |
| `Fsm.InitialState` | src/index.ts:82-85 | The seeded state is `initialState` with `effects` set to `runEffectsOnMount`, or to an empty list when that is absent. The seeded list is always attached. |
| `Fsm.FiresAppend` | src/index.ts:88-97 | A run over `xs + ys` makes the calls of a run over `xs` followed by those of a run over `ys`. So effects are handled in list order, each once. |
| `Fsm.DispatchedAppend` | src/index.ts:88-97 | The actions dispatched during a run over `xs + ys` are those dispatched for `xs` followed by those for `ys`. So dispatches are queued in the order the handler calls are made. |
| `Fsm.FiresEachHandledOnceInOrder` | src/index.ts:88-97 | When every effect tag has a handler, the run makes exactly one call per effect. The i-th call gets the i-th effect and goes to that effect's handler. |
| `Fsm.FiresSkipsUnhandled` | src/index.ts:93-96 | Effects whose tag has no handler are skipped silently. They produce no call and no dispatch. |
| `Fsm.FiresCallsRegisteredHandler` | src/index.ts:93-96 | Every call goes to the handler registered under the effect's own tag. There are never more calls than effects. |
| `FsmBinding.Binding.constructor` | src/index.ts:82-98 | On mount the state is the seeded state. The loop runs once over the seeded effects, with no action dispatched. The log holds those calls. The queue holds what they dispatched. |
| `FsmBinding.Binding.Dispatch` | src/index.ts:82 | `dispatch` appends the action behind those already waiting (FIFO). The binding's invariant is kept. |
| `FsmBinding.Binding.RunEffects` | src/index.ts:88-97 | The loop appends exactly `Fires` to the log and `Dispatched` to the queue. It does not change the state, and the binding's invariant is kept. |
| `FsmBinding.Binding.Step` | src/index.ts:82-98 | The oldest queued action is reduced. The new state is the reducer's result. The log grows by the calls for the effects the handler newly attached, and by nothing else. Dispatches from those calls join the end of the queue. With an empty queue nothing changes. |
| `FormMachine.SubmitFormEffectHandler` | examples/form.ts:118-128 | The `submitForm` effect handler dispatches exactly one action: `reportSubmitSuccess` when the request resolves, else `reportSubmitError`. |
| `FormMachine.FormTableMatchesHandled` | examples/form.ts:54-112 | The table has an entry exactly for the pairs the form handles. Each entry's handler always returns a state for them, never a falsy value. |
| `FormMachine.UnhandledLeavesStateUnchanged` | examples/form.ts:52-113 | There is no global table. So an action without an entry for the current state leaves that state unchanged (for example `changeValue` in `pending`, or `submitForm` in `errored`). |
| `FormMachine.ChangeValueSetsField` | examples/form.ts:56-63 | `changeValue` in `initial` stays `initial`. The named field gets the value and the other field is kept. `formError` becomes `''`. `effects` is untouched. |
| `FormMachine.SubmitIncompleteStaysInitial` | examples/form.ts:64-71 | `submitForm` in `initial` with an empty email or password stays `initial` with both fields kept. `formError` is set to the missing-values message. The same `effects` reference stays, so nothing new fires. |
| `FormMachine.SubmitCompleteGoesPending` | examples/form.ts:72-81 | `submitForm` with both fields set goes to `pending` with the same fields. `effects` is a new array holding exactly one `submitForm` effect. Its values come from the state, whatever the action carried. |
| `FormMachine.ReportsInPending` | examples/form.ts:84-95 | In `pending`, `reportSubmitError` gives exactly `errored` with its message, and `reportSubmitSuccess` gives exactly `success`. Neither result has an `effects` field. |
| `FormMachine.BackButtonQueuesNavigation` | examples/form.ts:97-112 | `clickBackButton` in `errored` or `success` keeps the state. It attaches a new array holding the single `navigateAwayFromPage` effect. |
| `FormMachine.SubmitEffectRun` | examples/form.ts:114-128 | Running a submission's effects calls the `submitForm` handler once. It dispatches one report. |
| `FormMachine.NavigateEffectRun` | examples/form.ts:114-117 | Running the back button's effects calls the navigation handler once. It dispatches nothing. |
| `FormMachine.FormEffectsAllFire` | examples/form.ts:114-129 | Both effect tags have handlers. So every effect the form attaches is handed to its handler exactly once, in list order. |
| `FormMachine.AsWrittenIsInert` | examples/form.ts:54-112 | This uses the table exactly as written, with handlers not under `on`. Then no action changes any state. |
| `FormMachine.EditField` | examples/form.ts:56-63 | Typing a value through the binding sets the named field to that value and resets `formError` to `''`; the other field and the `effects` reference are kept. Nothing fires and nothing is queued. |
| `FormMachine.SubmitFilledForm` | examples/form.ts:72-128 | Submitting a filled-in form through the binding gives `pending` and one `submitForm` call. The report it dispatched waits in the queue, not yet reduced. |
| `FormMachine.ReduceReport` | examples/form.ts:84-95 | The queued report is reduced in its own step, giving `success` or `errored`. Nothing fires. |
| `FormMachine.GoBack` | examples/form.ts:97-117 | The back button through the binding keeps the state. It makes one navigation call. |
| `FormMachine.Session` | examples/form.ts:51-131 | A session from mount goes: both fields typed, submit, report, back. It makes exactly two effect-handler calls, the submission and then the navigation. It ends in `success` or in `errored`, according to the request's outcome. |

## Left out

- React scheduling is modelled only by what can be observed of it: a state cell, a FIFO of deferred dispatches, and firing when the effects reference changes. Re-rendering is not modelled. Neither is React batching several dispatches into one render; every transition is committed, and its effects compared, before the next one.
- Asynchrony: the model queues a handler's dispatches when it is called. In the source, the `submitForm` handler dispatches when the request's promise settles. A user action dispatched in the meantime would be reduced before the report. The model does not capture that interleaving.
- The effect handlers' real I/O is not modelled: the request URL built from the email and password, `fetch`, and setting `window.location.href`. The only trace of a handler call is its entry in the log, plus what it dispatches.
- FsmBinding.Binding.RunEffects and Fsm.Fires: an effect handler that throws is not modelled. In the source it aborts the `forEach`, so the later effects of the same array are never handed to their handlers, and the error escapes the effect. In the model every effect handler returns, so every run reaches the end of the list.
- A transition handler that throws is not modelled. In the source the exception propagates to the caller and the state cell keeps its previous value.
- The TypeScript type-level machinery (mapped types, `Extract`, generic defaults) is not modelled. Tagged datatypes and tag functions replace it. Type narrowing is also not modelled: each form handler is total. `ChangeValueInInitial` returns a falsy value on anything but an `initial` state with a `changeValue` action. `SubmitFormInInitial` ignores the action's tag, as its source does, and returns a falsy value only for a state other than `initial`. The other three form handlers ignore the tags of both inputs, as the source's do, and return a state on every input.
- Fields a spread carries beyond a variant's declared ones are not modelled. For example, `formError` survives into the `pending` object, but no handler reads it there.
- A table entry that is present but not a function is not modelled; the model treats it like an absent entry.
- `initialState` is modelled without its own `effects` field, because the seeding always overwrites that field.

## Findings

| source | as written | input that shows it | evidently intended | confidence | as-written member | corrected member |
|---|---|---|---|---|---|---|
| examples/form.ts:54-112 | Each state's handlers sit directly under the state key. The reducer reads `states[tag].on[action]` (src/index.ts:61-64), so it finds no handler. | state `initial` with empty fields, action `changeValue` for the email with value `a@b.com`: the state stays unchanged, and no action ever leaves `initial` | The handlers are each state's `on` table. | high (not executed) | `FormMachine.AsWrittenIsInert` | `FormMachine.FormTableMatchesHandled` |
