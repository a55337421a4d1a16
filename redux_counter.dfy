/**
 * The counter reducer of 12/redux.ts, which is handed to the store of the redux
 * library. The store itself (creating it, dispatching, subscribing) is that
 * library's code and is not modelled; the reducer and its fold are.
 */
module ReduxCounter {
  import opened Wrappers
  import ScanCounter

  /**
   * The enumeration declares Increment and Decrement only; any other type an
   * action may carry at run time (the store's own initialisation action, for one)
   * is `Other`.
   */
  datatype ActionType = Increment | Decrement | Other(tag: string)

  datatype ReduxAction = ReduxAction(actionType: ActionType)

  datatype ReduxState = ReduxState(value: int)

  const InitialState := ReduxState(0)

  /**
   * `counter`: an omitted state (None) defaults to the initial state; the action
   * has no default. Increment and Decrement move the value by one; an
   * unrecognised action returns the given state itself.
   */
  function Counter(state: Option<ReduxState>, action: ReduxAction): (r: ReduxState)
    ensures var s := state.GetOr(InitialState);
      && (action.actionType == Increment ==> r.value == s.value + 1)
      && (action.actionType == Decrement ==> r.value == s.value - 1)
      && (action.actionType.Other? ==> r == s)
  {
    var s := state.GetOr(InitialState);
    match action.actionType
    case Increment => ReduxState(s.value + 1)
    case Decrement => ReduxState(s.value - 1)
    case Other(_) => s
  }

  /** The state after the reducer has been applied to each action in turn. */
  function Reduce(state: ReduxState, actions: seq<ActionType>): (r: ReduxState)
    ensures Increment !in actions && Decrement !in actions ==> r == state
    decreases actions
  {
    if actions == [] then state
    else Reduce(Counter(Some(state), ReduxAction(actions[0])), actions[1..])
  }

  /** The action type of 12/index.ts that this one corresponds to. */
  function FromScanCounter(t: ScanCounter.ActionType): (r: ActionType)
  {
    match t
    case Increment => Increment
    case Decrement => Decrement
    case Default => Other("Default")
  }

  // ---------------------------------------------------------------------------
  // Properties
  // ---------------------------------------------------------------------------

  /** Without a state the reducer starts from the initial state, whose value is 0. */
  lemma OmittedStateIsInitial(action: ReduxAction)
    ensures Counter(None, action) == Counter(Some(InitialState), action)
    ensures InitialState.value == 0
  {
  }

  /** On every action the two reducers move the same value to the same value. */
  lemma AgreesWithScanCounter(v: int, t: ScanCounter.ActionType)
    ensures Counter(Some(ReduxState(v)), ReduxAction(FromScanCounter(t))).value
        == ScanCounter.Counter(Some(ScanCounter.ReduxState(v)), Some(ScanCounter.ReduxAction(t))).value
  {
  }

  /** Folding the two reducers over corresponding actions ends at the same value. */
  lemma {:induction false} ReduceAgreesWithScanCounter(v: int, actions: seq<ScanCounter.ActionType>)
    ensures Reduce(ReduxState(v), seq(|actions|, k requires 0 <= k < |actions| => FromScanCounter(actions[k]))).value
        == ScanCounter.Reduce(ScanCounter.ReduxState(v), actions).value
    decreases actions
  {
    var translated := seq(|actions|, k requires 0 <= k < |actions| => FromScanCounter(actions[k]));
    if actions != [] {
      var next := ScanCounter.Counter(Some(ScanCounter.ReduxState(v)), Some(ScanCounter.ReduxAction(actions[0])));
      ReduceAgreesWithScanCounter(next.value, actions[1..]);
      AgreesWithScanCounter(v, actions[0]);
      var rest := seq(|actions[1..]|, k requires 0 <= k < |actions[1..]| => FromScanCounter(actions[1..][k]));
      assert translated[1..] == rest;
      assert next == ScanCounter.ReduxState(next.value);
    }
  }

  /** Dispatching Increment then Decrement to a fresh store ends at value 0. */
  lemma IncrementDecrementFromInitial()
    ensures Reduce(Counter(None, ReduxAction(Other("@@redux/INIT"))), [Increment, Decrement]).value == 0
  {
  }
}
