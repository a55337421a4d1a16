# rxjs-advent-2018: the hand-written helpers, modelled in Dafny

The repository is a series of small TypeScript demos of a reactive-stream library.
Almost every demo only calls that library. A few helpers are written out in the
repository itself, and this project models them and proves what they promise:

- **08/index.ts**, module `MapFilter` (imperative): `mapArr` fills a preallocated array in a counted loop.
  `filterArr` pushes the items that pass a predicate. `mapIter` and `filterIter` are their
  generator versions. An iterable is a `seq`, and a generator becomes a method that returns
  the sequence it yields. Each method is proved against a recursive specification function
  (`Mapped`, `IndexMapped`, `Filtered`). Lemmas characterise those functions.
- **12/index.ts**, module `ScanCounter` (pure): the `counter` reducer over `{value}` with its
  default arguments, the running fold `scan(counter, INITIAL_STATE)`, and the rendered
  stream with `startWith(INITIAL_STATE)` in front.
- **12/redux.ts**, module `ReduxCounter` (pure): the same reducer handed to a redux store. It
  has no default action. An action type outside the enumeration, which redux's own
  initialisation action carries, is `Other`.
- **19/index.ts**, module `RateLimit` (imperative): `throttle` and `debounce` as classes whose
  fields are the variables their closures update (`lastCall`, `timerId`). The clock is an
  explicit `now` argument. The host's timer queue is a table from handles to pending timers
  (arguments and deadline). Ghost histories of calls and invocations carry the invariants.
  Forwarded throttle calls stay `delay` apart. At most one debounce timer is pending, and it
  holds the latest call's arguments. That second invariant holds when `fn` does not call the
  debounced function, or when the callback is the corrected one (`Fire`). With the callback as
  written, a call made from inside `fn` can leave two timers pending (see Findings).
- `Wrappers` holds `Option`: `None` stands for an omitted argument or an `undefined` result.

Callbacks (`selector`, `predicate`, `fn`) are total Dafny functions. JavaScript numbers are
unbounded integers.

## Model

| member | source | states |
|---|---|---|
| `MapFilter.Mapped` | 08/index.ts:5-9 | the mapped array has exactly the source's length |
| `MapFilter.MappedAt` | 08/index.ts:7-9 | element k of the mapped array is `selector(source[k], k)` |
| `MapFilter.MapArr` | 08/index.ts:4-12 | returns a new array of `source.length` elements whose element i is `selector(source[i], i)`, i.e. the `Mapped` sequence |
| `MapFilter.IndexMapped` | 08/index.ts:17-20 | what `mapIter` yields has one value per source item |
| `MapFilter.IndexMappedAt` | 08/index.ts:17-20 | the k-th value yielded is the selector applied to the index k, with an undefined index argument |
| `MapFilter.IndexMappedIsMappedOverIndices` | 08/index.ts:16-21 | `mapIter` over any source equals `mapArr` over the indices 0..n-1 with the index argument undefined: the selector's arguments never include an item, which is passed only as the receiver `this` (not modelled) |
| `MapFilter.MapIter` | 08/index.ts:16-21 | as written: yields one value per item, the k-th being `selector(k, undefined)` |
| `MapFilter.MapIterCorrected` | 08/index.ts:16-21 | corrected: yields exactly what `mapArr` returns, `selector(source[k], k)` for each k |
| `MapFilter.MapArrSquares` | 08/index.ts:14 | `mapArr([1,2,3], x => x * x)` gives 1, 4, 9 |
| `MapFilter.MapIterSquares` | 08/index.ts:23-26 | `mapIter` as written over the items 1, 2, 3 with `x => x * x` yields 0, 1, 4 |
| `MapFilter.MapIterCorrectedSquares` | 08/index.ts:23-26 | the corrected `mapIter` over 1, 2, 3 yields 1, 4, 9 |
| `MapFilter.Filtered` | 08/index.ts:38-45 | the filtered result is no longer than the source |
| `MapFilter.KeptIndices` | 08/index.ts:39-42 | there are at most as many kept positions as source positions |
| `MapFilter.KeptIndicesMembership` | 08/index.ts:39-42 | position i is kept if and only if i is a source position and `predicate(source[i], i)` holds; the index is the source position, not the output position |
| `MapFilter.KeptIndicesIncreasing` | 08/index.ts:39-43 | kept positions are source positions in strictly increasing order (original order) |
| `MapFilter.FilteredAtKeptIndices` | 08/index.ts:38-45 | the result has one item per kept position, and item k is the source item at kept position k |
| `MapFilter.FilterArr` | 08/index.ts:37-46 | returns exactly the `Filtered` items, so it is no longer than the source |
| `MapFilter.FilterIter` | 08/index.ts:50-57 | the index advances on every item, so it yields the same sequence as `filterArr` for the same source and predicate |
| `MapFilter.FilterEvens` | 08/index.ts:48-61 | keeping the even items of [1, 2, 3] gives [2] with `filterArr` and with `filterIter` |
| `ScanCounter.Counter` | 12/index.ts:19-28 | an omitted state is `INITIAL_STATE` and an omitted action is `Default`; the value moves by +1 on Increment and by -1 on Decrement; any other action returns the state itself |
| `ScanCounter.CounterWithoutArguments` | 12/index.ts:17-19 | `counter()` with both defaults returns `INITIAL_STATE`, whose value is 0 |
| `ScanCounter.IncrementThenDecrement` | 12/index.ts:21-24 | Increment followed by Decrement returns to the original state, for any state |
| `ScanCounter.Reduce` | 12/index.ts:31-32 | the state `scan(counter, INITIAL_STATE)` has accumulated after the given actions; actions that are neither `Increment` nor `Decrement` leave the seed unchanged (its value in general is `ReduceValue`) |
| `ScanCounter.ReduceValue` | 12/index.ts:19-28 | folding `counter` ends at the seed's value plus the number of Increments minus the number of Decrements |
| `ScanCounter.Scan` | 12/index.ts:31-32 | `scan` emits one state per dispatched action |
| `ScanCounter.ScanAt` | 12/index.ts:31-32 | the k-th state `scan` emits is the fold of `counter` over the first k+1 actions |
| `ScanCounter.Rendered` | 12/index.ts:31-34 | the rendered states are `INITIAL_STATE` followed by one state per action |
| `ScanCounter.RenderedAt` | 12/index.ts:31-34 | rendered state k+1 is the fold of `counter` over the first k+1 dispatched actions: the running fold behind `startWith(INITIAL_STATE)` |
| `ScanCounter.LastRendered` | 12/index.ts:31-34 | the last rendered state is the fold over every dispatched action |
| `ScanCounter.IncrementDecrementRenders` | 12/index.ts:36-46 | dispatching Increment then Decrement renders the values 0, 1, 0 |
| `ReduxCounter.Counter` | 12/redux.ts:17-26 | an omitted state is `INITIAL_STATE`; Increment gives value + 1, Decrement gives value - 1, an unrecognised type returns the state itself |
| `ReduxCounter.OmittedStateIsInitial` | 12/redux.ts:15-17 | an omitted state is the initial state, whose value is 0 |
| `ReduxCounter.Reduce` | 12/redux.ts:17-26 | the state the store reaches when the reducer is applied to each dispatched action in turn; actions of any other type (such as the store's own initialisation action) leave the state unchanged |
| `ReduxCounter.AgreesWithScanCounter` | 12/redux.ts:17-26 | on every action and from any state, this reducer gives the same value as the one in 12/index.ts (with `Default` standing for an unrecognised type) |
| `ReduxCounter.ReduceAgreesWithScanCounter` | 12/redux.ts:17-26 | folding the two reducers over corresponding actions from the same value ends at the same value |
| `ReduxCounter.IncrementDecrementFromInitial` | 12/redux.ts:28-41 | a store initialised by an unrecognised action and then sent Increment and Decrement ends at value 0 |
| `RateLimit.Forwarded` | 19/index.ts:9-16 | a throttle forwards at most as many calls as it receives |
| `RateLimit.ForwardedSpaced` | 19/index.ts:11-14 | any two consecutive forwarded calls are at least `delay` apart, and the first is at time `delay` or later because `lastCall` starts at 0 |
| `RateLimit.ForwardedAreCalls` | 19/index.ts:11-15 | only the times of calls that were made are forwarded |
| `RateLimit.Throttle.Valid` | 19/index.ts:8-14 | the forwarded calls are those the rule of lines 11-14 selects from all calls so far, and `lastCall` is the last forwarded time or 0; under it the forwarded calls are at least `delay` apart, the first comes no earlier than `delay`, and `lastCall` is the time of an actual call once any was forwarded |
| `RateLimit.Throttle.constructor` | 19/index.ts:7-8 | a new throttle has `lastCall = 0` and has seen no calls |
| `RateLimit.Throttle.Call` | 19/index.ts:9-16 | a call less than `delay` after `lastCall` is dropped: `fn` is not invoked, `lastCall` is unchanged and the result is undefined; otherwise `lastCall := now` and the result is `fn(args)`; forwarded calls stay spaced |
| `RateLimit.Debounce.Valid` | 19/index.ts:22-25 | no timer is orphaned: a pending timer is the one `timerId` names, so at most one is pending, and it holds the latest call's arguments and falls due `delay` after that call |
| `RateLimit.Debounce.constructor` | 19/index.ts:19-20 | a new debouncer has no pending timer and has seen no calls |
| `RateLimit.Debounce.Call` | 19/index.ts:21-29 | a call cancels the timer `timerId` names and schedules one new timer with its own arguments, due `delay` later; `fn` is not invoked; from a valid state exactly one timer is then pending |
| `RateLimit.Debounce.RunTimer` | 19/index.ts:25-26 | as written, first step of the callback: the host runs a due timer and `fn` is invoked with its arguments, while `timerId` still holds its handle; from a valid state these are the latest call's arguments, at least `delay` after it |
| `RateLimit.Debounce.ClearHandle` | 19/index.ts:27 | as written, second step of the callback: `timerId` becomes null; a valid state stays valid exactly when no timer is pending, so a timer scheduled by `fn` in between is orphaned |
| `RateLimit.Debounce.Fire` | 19/index.ts:25-28 | corrected callback, which clears `timerId` before `fn` runs: when the pending timer is due, the slot is cleared, no timer is left pending, and `fn` is invoked with the latest call's arguments, at least `delay` after that call; otherwise nothing changes |
| `RateLimit.Burst` | 19/index.ts:19-30 | a burst of calls each less than `delay` after the previous one produces exactly one invocation of `fn`, with the last call's arguments, and leaves no timer pending |
| `RateLimit.BurstAsWritten` | 19/index.ts:19-30 | with the callback as written (`RunTimer`, then `ClearHandle`) and a `fn` that does not call the debounced function, a burst of calls each less than `delay` apart gives exactly one invocation, with the last call's arguments, and leaves no timer |
| `RateLimit.ReentrantCallAsWritten` | 19/index.ts:21-28 | as written, with `fn` calling the debounced function from inside the callback: two timers end up pending at once, and two calls one tick apart both reach `fn` |
| `RateLimit.ReentrantCallCorrected` | 19/index.ts:21-28 | the same calls against the corrected callback: one timer is pending and only the last call of the burst reaches `fn` |

## Left out

- The stream library's observables, subjects, schedulers and operators (`scan`, `startWith`, `map`, `filter`, `throttleTime`, `debounceTime`, `retry` and the rest). The demos only call them and their code is not in the repository. This covers every demo file other than the four above, and the `debounceTime` pipeline at 19/index.ts:32-41.
- The periodic producer of 01/index.ts and the `retryCount` producer of 21/index.ts. Their meaning depends on the stream library's teardown and retry behaviour.
- The redux store (`createStore`, `dispatch`, `subscribe`, `getState`) in 12/redux.ts:28-41. It is a foreign library. Only the reducer and its fold are modelled, and the store's initialisation action is represented by an `Other` action type.
- Console output, `render`, HTTP calls and event emitters. These are I/O.
- The wall clock (`+new Date()`) and the host timer API (`setTimeout`, `clearTimeout`). The clock is an explicit `now` argument. The host runs a due timer with `RunTimer`, which invokes `fn`, and the callback then nulls `timerId` with `ClearHandle`: these two steps are the callback as written. `Fire` is the corrected callback, which clears `timerId` before `fn` runs.
- RateLimit.Debounce.Call: the deadline is `now + delay` for every `delay`. Hosts clamp out-of-range delays: Node runs a delay below 1 or above 2^31-1 after 1 ms, and browsers run one above 2^31-1 at once. That belongs to the host timer API and is not modelled.
- Floating-point behaviour of JavaScript numbers. Values and times are unbounded integers.
- Callbacks that throw, `thisArg`, and `Object.freeze`. Callbacks are total functions. The receiver affects nothing that is modelled. `mapIter`'s argument order is kept exactly as written.
- RateLimit.Debounce: `fn` is not a field. Its invocations are recorded as the arguments passed to it (the result of `Fire` and the ghost `invoked` history), because `debounce` ignores `fn`'s result.
- RateLimit.Burst: assumes the host runs a due timer before it delivers the next call, and that the debouncer is idle when the burst starts. It uses the corrected callback `Fire`. `RateLimit.BurstAsWritten` drives the callback as written (`RunTimer`, then `ClearHandle`) for a `fn` that does not call the debounced function. A `fn` that does call it is covered by the second Findings row.
- MapFilter.MapArr: the result type must have a default value (`R(0)`), because Dafny allocates an array by filling it. In JavaScript, `new Array(length)` leaves holes that the loop then fills, for any element type.

## Findings

| source | as written | input that shows it | evidently intended | confidence | as-written member | corrected member |
|---|---|---|---|---|---|---|
| 08/index.ts:19 | `mapIter` passes the item as the selector's receiver and the running index as its first argument, so the selector is applied to the index rather than to the item | `mapIter(new Set([1, 2, 3]), x => x * x)` (08/index.ts:23) yields 0, 1, 4 | yield `selector(item, i)`, giving 1, 4, 9 as `mapArr` does at 08/index.ts:14 | high; not executed | `MapFilter.MapIterSquares` | `MapFilter.MapIterCorrected` |
| 19/index.ts:26-27 | the timer callback invokes `fn` before it sets `timerId` to null, so a timer that `fn` schedules by calling the debounced function is forgotten and the next call cannot cancel it | delay 10: a call with "a" at 0; at 10 its timer runs and `fn` calls with "b"; a call with "c" at 11. Two timers are pending and `fn` runs with "b" and with "c", one tick apart | clear `timerId` before invoking `fn`, so that a burst still gives one invocation | medium; not executed | `RateLimit.ReentrantCallAsWritten` | `RateLimit.Debounce.Fire` |
