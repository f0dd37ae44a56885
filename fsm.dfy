/** The transition engine of useFsmReducer (src/index.ts): the reducer that looks a
    transition handler up per state and then globally, and the specification of one run
    of the effect loop over a state's `effects` list.

    The JavaScript state is an object whose `effects` field, when present, holds an array;
    the effect loop is keyed on the identity of that array, not on its contents. Dafny
    values have no identity, so an attached list carries the id of the array that holds it
    (`ref`), and a handler says how the `effects` field of the object it returns came about:
    copied from the input state by a spread, set to a newly built array, or left out. */
module Fsm {

  datatype Option<T> = None | Some(value: T)

  /** An `effects` array: its identity and the effects it holds, in order. */
  datatype EffectList<E> = EffectList(ref: nat, items: seq<E>)

  /** A state object: the machine's own tagged variant plus the optional `effects` field. */
  datatype St<S, E> = St(data: S, effects: Option<EffectList<E>>)

  /** How a handler's returned object got its `effects` field. */
  datatype EffectsOut<E> =
    | CarriedBySpread       // `{...state, ...}` without setting `effects`: the same array
    | Fresh(items: seq<E>)  // `effects: [...]`: a newly built array
    | Absent                // an object literal without `effects`

  /** What a transition handler returns: a falsy value (or nothing), or a new state object. */
  datatype Returned<S, E> = Falsy | NextState(data: S, effects: EffectsOut<E>)

  /** A transition handler, called with the current state and the action. */
  type Handler<!S, !A, !E> = (St<S, E>, A) -> Returned<S, E>

  /** An effect handler. What it dispatches depends on the outside world (a network answer,
      say), which the second argument stands for. */
  type EffectHandler<!E, A, !W> = (E, W) -> seq<A>

  /** The configuration handed to useFsmReducer (src/index.ts:29-44). The `type`
      discriminants are read through the three tag functions. `states` maps a state tag
      to that state's `on` table; a missing `states`, a missing entry or a missing `on`
      are all the empty table, and likewise for the optional `on` and `effects`. */
  datatype Config<!S, !A, !E, !W> = Config(
    stateTag: S -> string,
    actionTag: A -> string,
    effectTag: E -> string,
    initialState: S,
    states: map<string, map<string, Handler<S, A, E>>>,
    on: map<string, Handler<S, A, E>>,
    effects: map<string, EffectHandler<E, A, W>>,
    runEffectsOnMount: Option<seq<E>>)

  /** The identity of the state's `effects` array, None when the field is absent. */
  function Ref<S, E>(st: St<S, E>): Option<nat> {
    if st.effects.Some? then Some(st.effects.value.ref) else None
  }

  /** The effects the loop walks for this state (`state.effects?.forEach`). */
  function Items<S, E>(st: St<S, E>): seq<E> {
    if st.effects.Some? then st.effects.value.items else []
  }

  /** Every array the state refers to was allocated before `next`. */
  predicate RefBelow<S, E>(st: St<S, E>, next: nat) {
    st.effects.Some? ==> st.effects.value.ref < next
  }

  /** A handler registered for this state's tag and this action's tag. */
  predicate HasStateHandler<S, A, E, W>(cfg: Config<S, A, E, W>, st: St<S, E>, a: A) {
    cfg.stateTag(st.data) in cfg.states && cfg.actionTag(a) in cfg.states[cfg.stateTag(st.data)]
  }

  /** The handler the reducer runs, if any (`actionWithinState || globalAction`). */
  function Select<S, A, E, W>(cfg: Config<S, A, E, W>, st: St<S, E>, a: A): Option<Handler<S, A, E>> {
    if HasStateHandler(cfg, st, a) then Some(cfg.states[cfg.stateTag(st.data)][cfg.actionTag(a)])
    else if cfg.actionTag(a) in cfg.on then Some(cfg.on[cfg.actionTag(a)])
    else None
  }

  /** `actionToRun?.(state, action)`: no handler yields undefined, which is falsy. */
  function Outcome<S, A, E, W>(cfg: Config<S, A, E, W>, st: St<S, E>, a: A): Returned<S, E> {
    match Select(cfg, st, a)
    case None => Falsy
    case Some(h) => h(st, a)
  }

  /** The state object a handler's result stands for, `|| state` included; `newRef` is the
      identity a newly built `effects` array receives. */
  function Adopt<S, E>(st: St<S, E>, out: Returned<S, E>, newRef: nat): St<S, E> {
    match out
    case Falsy => st
    case NextState(d, CarriedBySpread) => St(d, st.effects)
    case NextState(d, Fresh(xs)) => St(d, Some(EffectList(newRef, xs)))
    case NextState(d, Absent) => St(d, None)
  }

  /** The reducer (src/index.ts:57-81). It is total: every (state, action) pair yields a
      state. The per-state handler wins over a global one; with neither, or when the chosen
      handler returns a falsy value, the input state comes back unchanged. */
  function Reduce<S, A, E, W>(cfg: Config<S, A, E, W>, st: St<S, E>, a: A, newRef: nat): (r: St<S, E>)
    ensures HasStateHandler(cfg, st, a) ==>
      r == Adopt(st, cfg.states[cfg.stateTag(st.data)][cfg.actionTag(a)](st, a), newRef)
    ensures !HasStateHandler(cfg, st, a) && cfg.actionTag(a) in cfg.on ==>
      r == Adopt(st, cfg.on[cfg.actionTag(a)](st, a), newRef)
    ensures !HasStateHandler(cfg, st, a) && cfg.actionTag(a) !in cfg.on ==> r == st
    ensures Outcome(cfg, st, a).Falsy? ==> r == st
    ensures RefBelow(st, newRef) ==> RefBelow(r, newRef + 1)
  {
    Adopt(st, Outcome(cfg, st, a), newRef)
  }

  /** The effects a transition newly attaches: those of a newly built array, else none. */
  function NewlyAttached<S, E>(out: Returned<S, E>): seq<E> {
    if out.NextState? && out.effects.Fresh? then out.effects.items else []
  }

  /** The effect identity changes exactly when the handler built a new array, or dropped an
      existing one; and when it changes, the loop walks only what the handler attached, so
      effects of an earlier state are never fired again. */
  lemma EffectsChangeOnlyWhenAttached<S, A, E, W>(cfg: Config<S, A, E, W>, st: St<S, E>, a: A, newRef: nat)
    requires RefBelow(st, newRef)
    ensures var out := Outcome(cfg, st, a);
      Ref(Reduce(cfg, st, a, newRef)) != Ref(st) <==>
        out.NextState? && (out.effects.Fresh? || (out.effects.Absent? && st.effects.Some?))
    ensures Ref(Reduce(cfg, st, a, newRef)) != Ref(st) ==>
      Items(Reduce(cfg, st, a, newRef)) == NewlyAttached(Outcome(cfg, st, a))
    ensures Ref(Reduce(cfg, st, a, newRef)) == Ref(st) ==> NewlyAttached(Outcome(cfg, st, a)) == []
  {
  }

  /** The seeded state (src/index.ts:82-85): `initialState` with `effects` set to
      `runEffectsOnMount`, or to an empty array when that is absent. */
  function InitialState<S, A, E, W>(cfg: Config<S, A, E, W>, ref: nat): (r: St<S, E>)
    ensures r.data == cfg.initialState && r.effects.Some? && Ref(r) == Some(ref)
    ensures cfg.runEffectsOnMount.Some? ==> Items(r) == cfg.runEffectsOnMount.value
    ensures cfg.runEffectsOnMount.None? ==> Items(r) == []
  {
    St(cfg.initialState, Some(EffectList(ref, if cfg.runEffectsOnMount.Some? then cfg.runEffectsOnMount.value else [])))
  }

  /** One call of an effect handler: the effect it was given and the tag it is registered under. */
  datatype Fired<E> = Fired(effect: E, handler: string)

  /** The handler calls one run of the effect loop makes over `xs`, in order
      (src/index.ts:88-97): one per effect whose tag has a handler; the others are skipped. */
  function Fires<E, S, A, W>(cfg: Config<S, A, E, W>, xs: seq<E>): seq<Fired<E>> {
    if xs == [] then []
    else
      var e := xs[|xs| - 1];
      Fires(cfg, xs[..|xs| - 1]) +
        (if cfg.effectTag(e) in cfg.effects then [Fired(e, cfg.effectTag(e))] else [])
  }

  /** The actions the handlers dispatch during one run over `xs`, in the order the calls are
      made; `answers(i)` is what the world answers to the call for the effect at index i. */
  function Dispatched<E, S, A, W>(cfg: Config<S, A, E, W>, xs: seq<E>, answers: nat -> W): seq<A> {
    if xs == [] then []
    else
      var e := xs[|xs| - 1];
      Dispatched(cfg, xs[..|xs| - 1], answers) +
        (if cfg.effectTag(e) in cfg.effects then cfg.effects[cfg.effectTag(e)](e, answers(|xs| - 1)) else [])
  }

  /** The run over a concatenation is the run over the first part followed by the run over
      the second: effects are taken in list order, each exactly once. */
  lemma {:induction false} FiresAppend<E, S, A, W>(cfg: Config<S, A, E, W>, xs: seq<E>, ys: seq<E>)
    ensures Fires(cfg, xs + ys) == Fires(cfg, xs) + Fires(cfg, ys)
    decreases |ys|
  {
    if ys == [] {
      assert xs + ys == xs;
    } else {
      var n := |ys| - 1;
      assert (xs + ys)[..|xs + ys| - 1] == xs + ys[..n];
      assert (xs + ys)[|xs + ys| - 1] == ys[n];
      FiresAppend(cfg, xs, ys[..n]);
    }
  }

  /** The dispatches of a run over `xs + ys` are those of the run over `xs` followed by those
      of the run over `ys`, whose effects sit |xs| places further on: actions are queued in
      the order the handler calls are made. */
  lemma {:induction false} DispatchedAppend<E, S, A, W>(cfg: Config<S, A, E, W>, xs: seq<E>, ys: seq<E>, answers: nat -> W)
    ensures Dispatched(cfg, xs + ys, answers)
      == Dispatched(cfg, xs, answers) + Dispatched(cfg, ys, (i: nat) => answers(|xs| + i))
    decreases |ys|
  {
    var shifted := (i: nat) => answers(|xs| + i);
    if ys == [] {
      assert xs + ys == xs;
    } else {
      var n := |ys| - 1;
      var e := ys[n];
      assert (xs + ys)[..|xs + ys| - 1] == xs + ys[..n];
      assert (xs + ys)[|xs + ys| - 1] == e;
      DispatchedAppend(cfg, xs, ys[..n], answers);
      assert shifted(n) == answers(|xs + ys| - 1);
    }
  }

  /** When every effect has a handler, the i-th call is for the i-th effect: none is
      skipped, repeated or reordered. */
  lemma {:induction false} FiresEachHandledOnceInOrder<E, S, A, W>(cfg: Config<S, A, E, W>, xs: seq<E>)
    requires forall i :: 0 <= i < |xs| ==> cfg.effectTag(xs[i]) in cfg.effects
    ensures |Fires(cfg, xs)| == |xs|
    ensures forall i :: 0 <= i < |xs| ==> Fires(cfg, xs)[i] == Fired(xs[i], cfg.effectTag(xs[i]))
  {
    if xs != [] {
      var n := |xs| - 1;
      FiresEachHandledOnceInOrder(cfg, xs[..n]);
    }
  }

  /** Effects whose tag has no handler are dropped silently: a run over them calls nothing. */
  lemma {:induction false} FiresSkipsUnhandled<E, S, A, W>(cfg: Config<S, A, E, W>, xs: seq<E>)
    requires forall i :: 0 <= i < |xs| ==> cfg.effectTag(xs[i]) !in cfg.effects
    ensures Fires(cfg, xs) == []
    ensures forall answers: nat -> W :: Dispatched(cfg, xs, answers) == []
  {
    if xs != [] {
      FiresSkipsUnhandled(cfg, xs[..|xs| - 1]);
    }
  }

  /** Every call the loop makes goes to the handler registered for that effect's own tag,
      and there are never more calls than effects. */
  lemma {:induction false} FiresCallsRegisteredHandler<E, S, A, W>(cfg: Config<S, A, E, W>, xs: seq<E>)
    ensures |Fires(cfg, xs)| <= |xs|
    ensures forall k :: 0 <= k < |Fires(cfg, xs)| ==>
      Fires(cfg, xs)[k].handler in cfg.effects && Fires(cfg, xs)[k].handler == cfg.effectTag(Fires(cfg, xs)[k].effect)
  {
    if xs != [] {
      FiresCallsRegisteredHandler(cfg, xs[..|xs| - 1]);
    }
  }
}
