/** The throttling hooks of `src/hooks/useThrottle.ts`, as clocked state
    machines. `Date.now()` is the `now` argument of each event, a
    `setTimeout` is a pending timer with the time it is due, and a call
    of the callback is appended to `calls`. The environment fires a
    pending timer by calling the `Fire` step. */
module Throttle {
  import opened Wrappers

  /** A pending `setTimeout` of the value hook: when it is due and the
      value it will publish. */
  datatype ValueTimer<T> = ValueTimer(due: int, value: T)

  /** The refs and state of `useThrottleValue`. */
  datatype ValueState<T> = ValueState(throttled: T, lastUpdate: int, pending: Option<ValueTimer<T>>)

  function InitialValue<T>(value: T): ValueState<T> {
    ValueState(value, 0, None)
  }

  /** A pending update is due `delay` after the last one. */
  predicate ValueTimerAligned<T>(s: ValueState<T>, delay: int) {
    s.pending.Some? ==> s.pending.value.due == s.lastUpdate + delay
  }

  /** The effect for a new `value` at `now`. The previous effect's cleanup
      cancels any pending update first; then the value is published at
      once if `delay` has passed since the last update, and otherwise an
      update is scheduled for the rest of the delay. */
  function ValueChangeStep<T>(s: ValueState<T>, delay: int, now: int, value: T): (r: ValueState<T>)
    ensures now - s.lastUpdate >= delay ==> r == ValueState(value, now, None)
    ensures now - s.lastUpdate < delay ==>
              r.throttled == s.throttled && r.lastUpdate == s.lastUpdate &&
              r.pending == Some(ValueTimer(s.lastUpdate + delay, value))
    ensures ValueTimerAligned(r, delay)
  {
    var timeSinceLastUpdate := now - s.lastUpdate;
    if timeSinceLastUpdate >= delay then ValueState(value, now, None)
    else ValueState(s.throttled, s.lastUpdate, Some(ValueTimer(now + (delay - timeSinceLastUpdate), value)))
  }

  /** The pending timer fires at `now`: its value is published and `now`
      becomes the time of the last update. */
  function ValueFireStep<T>(s: ValueState<T>, now: int): (r: ValueState<T>)
    requires s.pending.Some?
    ensures r == ValueState(s.pending.value.value, now, None)
  {
    ValueState(s.pending.value.value, now, None)
  }

  /** However many values arrive within the delay, the timer that fires
      publishes the last of them. */
  lemma {:induction false} ValueSettlesToLast<T>(s: ValueState<T>, delay: int, now: int, values: seq<T>, fireAt: int)
    requires values != []
    requires now - s.lastUpdate < delay
    ensures ValueChanges(s, delay, now, values).pending.Some?
    ensures ValueFireStep(ValueChanges(s, delay, now, values), fireAt).throttled == values[|values| - 1]
    ensures ValueChanges(s, delay, now, values).pending.value.due == s.lastUpdate + delay
    decreases |values|
  {
    if |values| > 1 {
      var s1 := ValueChangeStep(s, delay, now, values[0]);
      ValueSettlesToLast(s1, delay, now, values[1..], fireAt);
    }
  }

  /** `values` arriving one after another at the same instant. */
  function ValueChanges<T>(s: ValueState<T>, delay: int, now: int, values: seq<T>): ValueState<T>
    decreases |values|
  {
    if values == [] then s else ValueChanges(ValueChangeStep(s, delay, now, values[0]), delay, now, values[1..])
  }

  /** The refs of `useThrottleCallback`: the time of the last invocation,
      the time the pending trailing timer is due, the latest arguments,
      and the invocations so far. */
  datatype CallbackState<A> = CallbackState(lastCallTime: int, pending: Option<int>, lastArgs: Option<A>, calls: seq<A>)

  function InitialCallback<A>(): CallbackState<A> {
    CallbackState(0, None, None, [])
  }

  /** A call at `now`. The arguments are always recorded; the callback
      runs at once when leading calls are allowed and `delay` has passed
      since the last invocation; otherwise, with trailing calls allowed and
      no timer pending, one timer is scheduled for the rest of the delay. */
  function CallbackCallStep<A>(s: CallbackState<A>, delay: int, leading: bool, trailing: bool,
                               now: int, args: A): (r: CallbackState<A>)
    ensures r.lastArgs == Some(args)
    ensures leading && now - s.lastCallTime >= delay ==>
              r.calls == s.calls + [args] && r.lastCallTime == now && r.pending == s.pending
    ensures !(leading && now - s.lastCallTime >= delay) ==> r.calls == s.calls && r.lastCallTime == s.lastCallTime
    ensures !(leading && now - s.lastCallTime >= delay) && trailing && s.pending.None? ==>
              r.pending == Some(s.lastCallTime + delay)
    ensures !(leading && now - s.lastCallTime >= delay && trailing && s.pending.None?) && s.pending.Some? ==>
              r.pending == s.pending
    ensures r.pending.Some? ==> s.pending.Some? || trailing
  {
    var timeSinceLastCall := now - s.lastCallTime;
    if leading && timeSinceLastCall >= delay then
      CallbackState(now, s.pending, Some(args), s.calls + [args])
    else if trailing && s.pending.None? then
      CallbackState(s.lastCallTime, Some(now + (delay - timeSinceLastCall)), Some(args), s.calls)
    else
      CallbackState(s.lastCallTime, s.pending, Some(args), s.calls)
  }

  /** The trailing timer fires at `now`: the latest arguments, if any,
      are used once and forgotten, and the timer is gone. */
  function CallbackFireStep<A>(s: CallbackState<A>, now: int): (r: CallbackState<A>)
    requires s.pending.Some?
    ensures r.pending.None? && r.lastArgs.None?
    ensures s.lastArgs.Some? ==> r.calls == s.calls + [s.lastArgs.value] && r.lastCallTime == now
    ensures s.lastArgs.None? ==> r.calls == s.calls && r.lastCallTime == s.lastCallTime
  {
    if s.lastArgs.Some? then CallbackState(now, None, None, s.calls + [s.lastArgs.value])
    else CallbackState(s.lastCallTime, None, None, s.calls)
  }

  /** With the default options a first call runs at once; a second one
      within the delay is held back and runs, with its own arguments, when
      the timer fires. */
  lemma LeadingThenTrailing<A>(delay: int, t0: int, t1: int, t2: int, a: A, b: A)
    requires delay > 0 && t0 >= delay && t0 <= t1 < t0 + delay
    ensures var s1 := CallbackCallStep(InitialCallback(), delay, true, true, t0, a);
            var s2 := CallbackCallStep(s1, delay, true, true, t1, b);
            && s1.calls == [a] && s2.calls == [a]
            && s2.pending == Some(t0 + delay)
            && CallbackFireStep(s2, t2).calls == [a, b]
  {
  }

  class ThrottledValue<T> {
    const delay: int
    var throttled: T
    var lastUpdate: int
    var pending: Option<ValueTimer<T>>

    function Snapshot(): ValueState<T>
      reads this
    {
      ValueState(throttled, lastUpdate, pending)
    }

    /** Mounting at `mountTime`: the state starts with the value and no
        update yet (`lastUpdateRef` is 0), and the mount effect then runs
        as for a change to the same value. */
    constructor (value: T, delay: int, mountTime: int)
      ensures this.delay == delay && Snapshot() == ValueChangeStep(InitialValue(value), delay, mountTime, value)
    {
      this.delay := delay;
      throttled := value;
      if mountTime - 0 >= delay {
        lastUpdate := mountTime;
        pending := None;
      } else {
        lastUpdate := 0;
        pending := Some(ValueTimer(mountTime + (delay - mountTime), value));
      }
    }

    method OnValueChange(now: int, value: T)
      modifies this
      ensures Snapshot() == ValueChangeStep(old(Snapshot()), delay, now, value)
    {
      pending := None;
      var timeSinceLastUpdate := now - lastUpdate;
      if timeSinceLastUpdate >= delay {
        throttled := value;
        lastUpdate := now;
      } else {
        pending := Some(ValueTimer(now + (delay - timeSinceLastUpdate), value));
      }
    }

    method Fire(now: int)
      requires pending.Some?
      modifies this
      ensures Snapshot() == ValueFireStep(old(Snapshot()), now)
    {
      throttled := pending.value.value;
      lastUpdate := now;
      pending := None;
    }

    /** The effect's cleanup on unmount cancels the pending update. */
    method Unmount()
      modifies this`pending
      ensures pending.None?
    {
      pending := None;
    }
  }

  class ThrottledCallback<A> {
    const delay: int
    const leading: bool
    const trailing: bool
    var lastCallTime: int
    var pending: Option<int>
    var lastArgs: Option<A>
    var calls: seq<A>

    function Snapshot(): CallbackState<A>
      reads this
    {
      CallbackState(lastCallTime, pending, lastArgs, calls)
    }

    /** Options left out default to leading and trailing calls. */
    constructor (delay: int, leading: Option<bool>, trailing: Option<bool>)
      ensures this.delay == delay && this.leading == leading.GetOr(true) && this.trailing == trailing.GetOr(true)
      ensures Snapshot() == InitialCallback()
    {
      this.delay := delay;
      this.leading := leading.GetOr(true);
      this.trailing := trailing.GetOr(true);
      lastCallTime := 0;
      pending := None;
      lastArgs := None;
      calls := [];
    }

    method Call(now: int, args: A)
      modifies this
      ensures Snapshot() == CallbackCallStep(old(Snapshot()), delay, leading, trailing, now, args)
    {
      var timeSinceLastCall := now - lastCallTime;
      lastArgs := Some(args);
      if leading && timeSinceLastCall >= delay {
        lastCallTime := now;
        calls := calls + [args];
      } else if trailing && pending.None? {
        var remainingTime := delay - timeSinceLastCall;
        pending := Some(now + remainingTime);
      }
    }

    method Fire(now: int)
      requires pending.Some?
      modifies this
      ensures Snapshot() == CallbackFireStep(old(Snapshot()), now)
    {
      if lastArgs.Some? {
        lastCallTime := now;
        calls := calls + [lastArgs.value];
        lastArgs := None;
      }
      pending := None;
    }

    method Unmount()
      modifies this`pending
      ensures pending.None?
    {
      pending := None;
    }
  }
}
