/**
 * The two hand-written rate limiters of 19/index.ts. Each wraps a function and
 * keeps in its closure the state it updates on every call; here each is a class
 * with that state as fields. The wall clock becomes a `now` argument (JavaScript
 * time values become integers). The host's timer queue is represented by the
 * part of it that belongs to one debouncer: a table from timer handles to
 * pending timers.
 */
module RateLimit {
  import opened Wrappers

  // ---------------------------------------------------------------------------
  // throttle
  // ---------------------------------------------------------------------------

  /** The time of the last forwarded call, 0 before any call was forwarded. */
  function LastCall(forwarded: seq<int>): (r: int)
  {
    if forwarded == [] then 0 else forwarded[|forwarded| - 1]
  }

  /**
   * The times of the calls a throttle forwards, given the times of all calls in
   * order: a call is forwarded when at least `delay` has passed since the last
   * forwarded call (or since time 0).
   */
  function Forwarded(delay: int, calls: seq<int>): (r: seq<int>)
    ensures |r| <= |calls|
  {
    if calls == [] then []
    else
      var prev := Forwarded(delay, calls[..|calls| - 1]);
      var now := calls[|calls| - 1];
      if now - LastCall(prev) < delay then prev else prev + [now]
  }

  /** Consecutive times are at least `delay` apart. */
  ghost predicate Spaced(times: seq<int>, delay: int)
  {
    forall k :: 0 < k < |times| ==> times[k] - times[k - 1] >= delay
  }

  /**
   * Any two consecutive forwarded calls are at least `delay` apart, and the
   * first one comes at time `delay` or later.
   */
  lemma {:induction false} ForwardedSpaced(delay: int, calls: seq<int>)
    ensures Spaced(Forwarded(delay, calls), delay)
    ensures Forwarded(delay, calls) != [] ==> Forwarded(delay, calls)[0] >= delay
  {
    if calls != [] {
      ForwardedSpaced(delay, calls[..|calls| - 1]);
    }
  }

  /** Only calls that were made are forwarded. */
  lemma {:induction false} ForwardedAreCalls(delay: int, calls: seq<int>)
    ensures forall t :: t in Forwarded(delay, calls) ==> t in calls
  {
    if calls != [] {
      var n := |calls| - 1;
      ForwardedAreCalls(delay, calls[..n]);
      assert forall t :: t in calls[..n] ==> t in calls;
    }
  }

  /** The function `throttle` returns, with the `lastCall` it closes over. */
  class Throttle<A, B> {
    const delay: int
    const fn: A -> B
    var lastCall: int
    /** The times of all calls so far, and of those that were forwarded to `fn`. */
    ghost var calls: seq<int>
    ghost var forwarded: seq<int>

    ghost predicate Valid()
      reads this
      ensures Valid() ==> Spaced(forwarded, delay)
      ensures Valid() && forwarded != [] ==> lastCall in calls && forwarded[0] >= delay
    {
      ForwardedSpaced(delay, calls);
      ForwardedAreCalls(delay, calls);
      forwarded == Forwarded(delay, calls) && lastCall == LastCall(forwarded)
    }

    /** `throttle(delay, fn)`: no call has been made and `lastCall` is 0. */
    constructor (delay: int, fn: A -> B)
      ensures Valid()
      ensures this.delay == delay && this.fn == fn
      ensures lastCall == 0 && calls == [] && forwarded == []
    {
      this.delay := delay;
      this.fn := fn;
      lastCall := 0;
      calls := [];
      forwarded := [];
    }

    /**
     * A call at time `now`. Less than `delay` after the last forwarded call it is
     * dropped: `fn` is not invoked, nothing but the call history changes and the
     * result is undefined (None). Otherwise `lastCall` becomes `now` and the
     * result is `fn`'s. Forwarded calls stay at least `delay` apart.
     */
    method Call(now: int, args: A) returns (result: Option<B>)
      requires Valid()
      modifies this
      ensures Valid() && Spaced(forwarded, delay)
      ensures calls == old(calls) + [now]
      ensures if now - old(lastCall) < delay then
          result == None && lastCall == old(lastCall) && forwarded == old(forwarded)
        else
          result == Some(fn(args)) && lastCall == now && forwarded == old(forwarded) + [now]
    {
      calls := calls + [now];
      assert calls[..|calls| - 1] == old(calls);
      if now - lastCall < delay {
        result := None;
      } else {
        lastCall := now;
        forwarded := forwarded + [now];
        result := Some(fn(args));
      }
      ForwardedSpaced(delay, calls);
    }
  }

  // ---------------------------------------------------------------------------
  // debounce
  // ---------------------------------------------------------------------------

  /** A timer scheduled with the host: the arguments it will pass on, and when it is due. */
  datatype Timer<A> = Timer(args: A, deadline: int)

  /** One call of a debounced function: when it was made and with what arguments. */
  datatype CallRecord<A> = CallRecord(time: int, args: A)

  /** The function `debounce` returns, with the `timerId` it closes over. */
  class Debounce<A> {
    const delay: int
    /** The handle of the latest timer, None when there is none (null or not yet set). */
    var timerId: Option<nat>
    /** This debouncer's timers in the host's timer queue, by handle. */
    var timers: map<nat, Timer<A>>
    /** The handle the host will give the next timer. */
    var nextHandle: nat
    /** Every call so far, and the arguments of every invocation of `fn` so far. */
    ghost var calls: seq<CallRecord<A>>
    ghost var invoked: seq<A>

    /** The handles a call can still cancel: the one in `timerId`, if it is set. */
    function Tracked(): (r: set<nat>)
      reads this
      ensures |r| <= 1
    {
      if timerId.Some? then {timerId.value} else {}
    }

    /** Every handle in the queue or in `timerId` was given out before `nextHandle`. */
    ghost predicate Wellformed()
      reads this
    {
      && (forall id :: id in timers ==> id < nextHandle)
      && (timerId.Some? ==> timerId.value < nextHandle)
    }

    /**
     * No pending timer is orphaned: if any is pending it is the one `timerId`
     * names, so at most one is pending, and it holds the arguments of the latest
     * call and falls due `delay` after it.
     */
    ghost predicate Valid()
      reads this
      ensures Valid() ==> |timers| <= 1
    {
      && Wellformed()
      && (timers == map[] || timers.Keys == Tracked())
      && (timerId.Some? && timerId.value in timers ==>
            calls != [] && timers[timerId.value] == Timer(calls[|calls| - 1].args, calls[|calls| - 1].time + delay))
    }

    /** `debounce(delay, fn)`: no timer is pending and nothing has been called. */
    constructor (delay: int)
      ensures Valid()
      ensures this.delay == delay
      ensures timerId == None && timers == map[] && calls == [] && invoked == []
    {
      this.delay := delay;
      timerId := None;
      timers := map[];
      nextHandle := 1;
      calls := [];
      invoked := [];
    }

    /**
     * A call at time `now`: the timer `timerId` names, if any, is cancelled, and
     * a new one holding `args` is scheduled `delay` from now. `fn` is not
     * invoked. Starting from a valid state exactly one timer is then pending.
     */
    method Call(now: int, args: A)
      requires Wellformed()
      modifies this
      ensures Wellformed()
      ensures old(Valid()) ==> Valid()
      ensures calls == old(calls) + [CallRecord(now, args)] && invoked == old(invoked)
      ensures timerId == Some(old(nextHandle)) && nextHandle == old(nextHandle) + 1
      ensures timers == (old(timers) - old(Tracked()))[old(nextHandle) := Timer(args, now + delay)]
      ensures old(timerId).Some? ==> old(timerId).value !in timers
      ensures old(Valid()) ==> timers == map[old(nextHandle) := Timer(args, now + delay)]
    {
      if timerId.Some? {
        timers := timers - {timerId.value};
      }
      var id := nextHandle;
      nextHandle := nextHandle + 1;
      timers := timers[id := Timer(args, now + delay)];
      timerId := Some(id);
      calls := calls + [CallRecord(now, args)];
    }

    /**
     * The timer callback as written, first step: the host runs the due timer
     * `id`, and `fn` is invoked with that timer's arguments. `timerId` still
     * holds `id`; it is cleared only by the second step, `ClearHandle`, and `fn`
     * may call the debounced function in between. From a valid state the timer
     * run is the latest call's, at least `delay` after it.
     */
    method RunTimer(id: nat, now: int) returns (ran: A)
      requires Wellformed() && id in timers && timers[id].deadline <= now
      modifies this
      ensures Wellformed()
      ensures old(Valid()) ==> Valid()
      ensures ran == old(timers[id].args) && invoked == old(invoked) + [ran]
      ensures timers == old(timers) - {id}
      ensures timerId == old(timerId) && calls == old(calls) && nextHandle == old(nextHandle)
      ensures old(Valid()) ==>
        calls != [] && ran == calls[|calls| - 1].args && now >= calls[|calls| - 1].time + delay
    {
      ran := timers[id].args;
      timers := timers - {id};
      invoked := invoked + [ran];
    }

    /**
     * The timer callback as written, second step: `timerId` is set to null. A
     * timer scheduled in the meantime is then orphaned: the state stays valid
     * exactly when no timer is pending.
     */
    method ClearHandle()
      requires Wellformed()
      modifies this
      ensures Wellformed()
      ensures timerId == None && timers == old(timers)
      ensures calls == old(calls) && invoked == old(invoked) && nextHandle == old(nextHandle)
      ensures old(Valid()) ==> (Valid() <==> timers == map[])
    {
      timerId := None;
    }

    /**
     * The timer callback with `timerId` cleared before `fn` runs. When the
     * pending timer is due at `now` the host removes it, the slot is cleared,
     * and `fn` is invoked with the latest call's arguments, which came at least
     * `delay` before. Whatever `fn` then does happens after this method returns,
     * so a call it makes can be cancelled by the next one. If no timer is due
     * nothing changes.
     */
    method Fire(now: int) returns (ran: Option<A>)
      requires Valid()
      modifies this
      ensures Valid()
      ensures calls == old(calls) && nextHandle == old(nextHandle)
      ensures if old(timerId.Some? && timerId.value in timers && timers[timerId.value].deadline <= now) then
          && calls != []
          && ran == Some(calls[|calls| - 1].args)
          && now >= calls[|calls| - 1].time + delay
          && invoked == old(invoked) + [ran.value]
          && timerId == None && timers == map[]
        else
          ran == None && invoked == old(invoked) && timerId == old(timerId) && timers == old(timers)
    {
      if timerId.Some? && timerId.value in timers && timers[timerId.value].deadline <= now {
        var timer := timers[timerId.value];
        timers := timers - {timerId.value};
        timerId := None;
        ran := Some(timer.args);
        invoked := invoked + [timer.args];
      } else {
        ran := None;
      }
    }
  }

  /**
   * A burst of calls, each less than `delay` after the one before, followed by
   * silence. The host gets to run due timers before every call and once the last
   * call's delay has passed: `fn` runs exactly once, with the last call's
   * arguments, and no timer is left pending.
   */
  method Burst<A>(d: Debounce<A>, times: seq<int>, args: seq<A>) returns (ran: seq<A>)
    requires d.Valid() && d.timerId.None?
    requires |times| == |args| > 0
    requires forall k :: 0 < k < |times| ==> times[k - 1] <= times[k] < times[k - 1] + d.delay
    modifies d
    ensures d.Valid() && d.timerId.None?
    ensures ran == [args[|args| - 1]]
    ensures d.invoked == old(d.invoked) + ran
  {
    d.Call(times[0], args[0]);
    var k := 1;
    while k < |times|
      invariant 1 <= k <= |times|
      invariant d.Valid() && d.invoked == old(d.invoked)
      invariant d.timerId.Some? && d.timerId.value in d.timers
      invariant d.timers[d.timerId.value] == Timer(args[k - 1], times[k - 1] + d.delay)
    {
      // The host first runs any due timer; the pending one falls due after times[k].
      var early := d.Fire(times[k]);
      d.Call(times[k], args[k]);
      k := k + 1;
    }
    var last := d.Fire(times[|times| - 1] + d.delay);
    ran := [last.value];
  }

  /**
   * The same burst against the callback as written, with a `fn` that does not
   * call the debounced function: once the last call's delay has passed the host
   * runs its timer (`fn` is invoked) and the callback then nulls `timerId`. `fn`
   * runs exactly once, with the last call's arguments, and no timer is left.
   */
  method BurstAsWritten<A>(d: Debounce<A>, times: seq<int>, args: seq<A>) returns (ran: seq<A>)
    requires d.Valid() && d.timerId.None?
    requires |times| == |args| > 0
    requires forall k :: 0 < k < |times| ==> times[k - 1] <= times[k] < times[k - 1] + d.delay
    modifies d
    ensures d.Valid() && d.timerId.None? && d.timers == map[]
    ensures ran == [args[|args| - 1]]
    ensures d.invoked == old(d.invoked) + ran
  {
    d.Call(times[0], args[0]);
    var k := 1;
    while k < |times|
      invariant 1 <= k <= |times|
      invariant d.Valid() && d.invoked == old(d.invoked)
      invariant d.timerId.Some? && d.timerId.value in d.timers
      invariant d.timers[d.timerId.value] == Timer(args[k - 1], times[k - 1] + d.delay)
    {
      // No timer is due at times[k], so the host runs nothing before the call.
      d.Call(times[k], args[k]);
      k := k + 1;
    }
    var last := d.RunTimer(d.timerId.value, times[|times| - 1] + d.delay);
    d.ClearHandle();
    ran := [last];
  }

  /**
   * The callback as written, with `fn` calling the debounced function (delay 10):
   * "a" at 0; at 10 its timer runs and `fn` calls again with "b"; `timerId` is
   * then nulled, so the call with "c" at 11 cancels nothing. Two timers are
   * pending at once, and "b" and "c", one tick apart, both reach `fn`.
   */
  method ReentrantCallAsWritten() returns (ran: seq<string>, pendingAtOnce: nat)
    ensures pendingAtOnce == 2
    ensures ran == ["a", "b", "c"]
  {
    var d := new Debounce<string>(10);
    d.Call(0, "a");
    var first := d.RunTimer(d.timerId.value, 10);
    d.Call(10, "b");
    var second := d.timerId.value;
    d.ClearHandle();
    d.Call(11, "c");
    var third := d.timerId.value;
    pendingAtOnce := |d.timers|;
    var b := d.RunTimer(second, 20);
    var c := d.RunTimer(third, 21);
    ran := [first, b, c];
  }

  /**
   * The same calls with the slot cleared before `fn` runs: the call with "c"
   * cancels the timer of "b", one timer is pending, and `fn` sees "a" and "c".
   */
  method ReentrantCallCorrected() returns (ran: seq<string>, pendingAtOnce: nat)
    ensures pendingAtOnce == 1
    ensures ran == ["a", "c"]
  {
    var d := new Debounce<string>(10);
    d.Call(0, "a");
    var first := d.Fire(10);
    d.Call(10, "b");
    d.Call(11, "c");
    pendingAtOnce := |d.timers|;
    var last := d.Fire(21);
    ran := [first.value, last.value];
  }
}
