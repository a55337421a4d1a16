/**
 * The counter reducer of 12/index.ts and the stream of states it renders: the
 * dispatched actions are folded by `scan(counter, INITIAL_STATE)` and the initial
 * state is put in front by `startWith(INITIAL_STATE)`. The subject, the
 * subscription and the logging are the stream library's and are not modelled.
 */
module ScanCounter {
  import opened Wrappers

  datatype ActionType = Increment | Decrement | Default

  datatype ReduxAction = ReduxAction(actionType: ActionType)

  datatype ReduxState = ReduxState(value: int)

  const InitialState := ReduxState(0)

  /** The action `counter` falls back to when called without one. */
  const DefaultAction := ReduxAction(Default)

  /** How much an action moves the counter. */
  function Step(t: ActionType): (r: int)
  {
    match t
    case Increment => 1
    case Decrement => -1
    case Default => 0
  }

  /**
   * `counter`: an omitted state (None) defaults to the initial state and an
   * omitted action to the default action. Increment and Decrement return a new
   * state one up or one down; every other action returns the given state itself.
   */
  function Counter(state: Option<ReduxState>, action: Option<ReduxAction>): (r: ReduxState)
    ensures var s, a := state.GetOr(InitialState), action.GetOr(DefaultAction);
      r.value == s.value + Step(a.actionType) && (a.actionType == Default ==> r == s)
  {
    var s := state.GetOr(InitialState);
    match action.GetOr(DefaultAction).actionType
    case Increment => ReduxState(s.value + 1)
    case Decrement => ReduxState(s.value - 1)
    case Default => s
  }

  /** The state after folding `counter` over the actions, starting from `seed`. */
  function Reduce(seed: ReduxState, actions: seq<ActionType>): (r: ReduxState)
    ensures Increment !in actions && Decrement !in actions ==> r == seed
    decreases actions
  {
    if actions == [] then seed
    else Reduce(Counter(Some(seed), Some(ReduxAction(actions[0]))), actions[1..])
  }

  /** What `scan` emits: the accumulated state after each action. */
  function Scan(seed: ReduxState, actions: seq<ActionType>): (r: seq<ReduxState>)
    ensures |r| == |actions|
    decreases actions
  {
    if actions == [] then []
    else
      var next := Counter(Some(seed), Some(ReduxAction(actions[0])));
      [next] + Scan(next, actions[1..])
  }

  /** What `render` is called with: the initial state, then every state `scan` emits. */
  function Rendered(actions: seq<ActionType>): (r: seq<ReduxState>)
    ensures |r| == |actions| + 1 && r[0] == InitialState
  {
    [InitialState] + Scan(InitialState, actions)
  }

  /** The number of actions of type `t`. */
  function Occurrences(actions: seq<ActionType>, t: ActionType): (r: nat)
  {
    if actions == [] then 0
    else (if actions[0] == t then 1 else 0) + Occurrences(actions[1..], t)
  }

  // ---------------------------------------------------------------------------
  // Properties
  // ---------------------------------------------------------------------------

  /** Called with neither argument, `counter` returns the initial state, whose value is 0. */
  lemma CounterWithoutArguments()
    ensures Counter(None, None) == InitialState && InitialState.value == 0
  {
  }

  /** One Increment followed by one Decrement returns to the original state, for any state. */
  lemma IncrementThenDecrement(s: ReduxState)
    ensures Counter(Some(Counter(Some(s), Some(ReduxAction(Increment)))), Some(ReduxAction(Decrement))) == s
  {
  }

  /** Folding ends at the seed's value plus the increments minus the decrements. */
  lemma {:induction false} ReduceValue(seed: ReduxState, actions: seq<ActionType>)
    ensures Reduce(seed, actions).value
        == seed.value + Occurrences(actions, Increment) - Occurrences(actions, Decrement)
    decreases actions
  {
    if actions != [] {
      ReduceValue(Counter(Some(seed), Some(ReduxAction(actions[0]))), actions[1..]);
    }
  }

  /** Element k of the scan is the fold over the first k + 1 actions. */
  lemma {:induction false} ScanAt(seed: ReduxState, actions: seq<ActionType>, k: int)
    requires 0 <= k < |actions|
    ensures Scan(seed, actions)[k] == Reduce(seed, actions[..k + 1])
    decreases actions
  {
    var next := Counter(Some(seed), Some(ReduxAction(actions[0])));
    if k == 0 {
      assert actions[..1][1..] == [];
    } else {
      ScanAt(next, actions[1..], k - 1);
      assert actions[1..][..k] == actions[..k + 1][1..];
    }
  }

  /** Rendered state k + 1 is the fold of `counter` over the first k + 1 actions. */
  lemma RenderedAt(actions: seq<ActionType>, k: int)
    requires 0 <= k < |actions|
    ensures Rendered(actions)[k + 1] == Reduce(InitialState, actions[..k + 1])
  {
    ScanAt(InitialState, actions, k);
  }

  /** The last rendered state is the fold over every dispatched action. */
  lemma LastRendered(actions: seq<ActionType>)
    ensures Rendered(actions)[|actions|] == Reduce(InitialState, actions)
  {
    if actions != [] {
      ScanAt(InitialState, actions, |actions| - 1);
      assert actions[..|actions|] == actions;
    }
  }

  /** Dispatching Increment then Decrement renders the values 0, 1, 0. */
  lemma IncrementDecrementRenders()
    ensures var r := Rendered([Increment, Decrement]);
      |r| == 3 && r[0].value == 0 && r[1].value == 1 && r[2].value == 0
  {
  }
}
