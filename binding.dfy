/** The host binding of useFsmReducer (src/index.ts:82-100): one mutable state cell, the
    actions dispatched but not yet reduced, and the log of effect-handler calls.

    Dispatches are deferred: `Dispatch` only queues an action, and `Step` reduces the oldest
    queued one, commits the new state and, when the identity of its `effects` array differs
    from the previous state's, walks the list once. Actions that effect handlers dispatch
    join the end of the queue, so they are reduced after the run that produced them. */
module FsmBinding {
  import opened Fsm

  class Binding<S, A, E, W> {
    const cfg: Config<S, A, E, W>
    /** The state cell of `useReducer`. */
    var state: St<S, E>
    /** Dispatched actions not yet reduced, oldest first. */
    var pending: seq<A>
    /** Every effect-handler call made so far, in call order. */
    var log: seq<Fired<E>>
    /** The identity the next newly built `effects` array receives. */
    var nextRef: nat

    ghost predicate Valid()
      reads this
    {
      RefBelow(state, nextRef)
    }

    /** Mounting: the state is seeded from `initialState` and `runEffectsOnMount`, and the
        effect loop runs once over the seeded effects before any action is dispatched. */
    constructor (cfg: Config<S, A, E, W>, answers: nat -> W)
      ensures Valid()
      ensures this.cfg == cfg
      ensures state == InitialState(cfg, 0)
      ensures log == Fires(cfg, Items(InitialState(cfg, 0)))
      ensures pending == Dispatched(cfg, Items(InitialState(cfg, 0)), answers)
    {
      this.cfg := cfg;
      state := InitialState(cfg, 0);
      pending := [];
      log := [];
      nextRef := 1;
      new;
      RunEffects(Items(state), answers);
    }

    /** `dispatch(action)`: the action waits behind those dispatched before it. */
    method Dispatch(a: A)
      requires Valid()
      modifies this`pending
      ensures Valid()
      ensures pending == old(pending) + [a]
    {
      pending := pending + [a];
    }

    /** One run of the effect loop over `xs` (src/index.ts:88-97): for each effect in order,
        the handler registered for its tag, if any, is called; what it dispatches is queued. */
    method RunEffects(xs: seq<E>, answers: nat -> W)
      requires Valid()
      modifies this`log, this`pending
      ensures Valid()
      ensures log == old(log) + Fires(cfg, xs)
      ensures pending == old(pending) + Dispatched(cfg, xs, answers)
    {
      var i := 0;
      while i < |xs|
        invariant 0 <= i <= |xs|
        invariant log == old(log) + Fires(cfg, xs[..i])
        invariant pending == old(pending) + Dispatched(cfg, xs[..i], answers)
      {
        var e := xs[i];
        var tag := cfg.effectTag(e);
        assert xs[..i + 1][..i] == xs[..i];
        if tag in cfg.effects {
          log := log + [Fired(e, tag)];
          pending := pending + cfg.effects[tag](e, answers(i));
        }
        i := i + 1;
      }
      assert xs[..i] == xs;
    }

    /** Reduces the oldest pending action, if there is one. The effects that fire are exactly
        those the chosen handler attached in a newly built array: a transition that keeps the
        array by a spread, leaves the state unchanged or omits `effects` fires nothing. */
    method Step(answers: nat -> W) returns (acted: bool)
      requires Valid()
      modifies this`state, this`pending, this`log, this`nextRef
      ensures Valid()
      ensures acted == (old(pending) != [])
      ensures !acted ==> state == old(state) && pending == old(pending) && log == old(log)
      ensures acted ==>
        var a := old(pending)[0];
        var attached := NewlyAttached(Outcome(cfg, old(state), a));
        && state == Reduce(cfg, old(state), a, old(nextRef))
        && log == old(log) + Fires(cfg, attached)
        && pending == old(pending)[1..] + Dispatched(cfg, attached, answers)
    {
      if pending == [] {
        return false;
      }
      var a := pending[0];
      var prev := state;
      var next := Reduce(cfg, prev, a, nextRef);
      EffectsChangeOnlyWhenAttached(cfg, prev, a, nextRef);
      state := next;
      pending := pending[1..];
      nextRef := nextRef + 1;
      if Ref(next) != Ref(prev) {
        RunEffects(Items(next), answers);
      }
      acted := true;
    }
  }
}
