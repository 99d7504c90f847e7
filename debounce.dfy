/** The debouncing hooks of `src/hooks/useDebounce.ts`, as clocked state
    machines in the same style as the throttling hooks: `Date.now()` is
    the `now` of each event, a `setTimeout` is a pending timer with the
    time it is due, a call of the callback is appended to `calls`, and the
    environment fires a pending timer through the `Fire` step. */
module Debounce {
  import opened Wrappers

  /** A pending `setTimeout` of the value hook. */
  datatype ValueTimer<T> = ValueTimer(due: int, value: T)

  datatype ValueState<T> = ValueState(debounced: T, pending: Option<ValueTimer<T>>)

  /** A new value arriving at `at`. */
  datatype Change<T> = Change(at: int, value: T)

  function InitialValue<T>(value: T): ValueState<T> {
    ValueState(value, None)
  }

  /** The effect for a new value: the previous effect's cleanup cancels the
      pending timer, and a new one is set to publish the value after
      `delay`. The published value does not move. */
  function ValueChangeStep<T>(s: ValueState<T>, delay: int, c: Change<T>): (r: ValueState<T>)
    ensures r.debounced == s.debounced
    ensures r.pending == Some(ValueTimer(c.at + delay, c.value))
  {
    ValueState(s.debounced, Some(ValueTimer(c.at + delay, c.value)))
  }

  function ValueFireStep<T>(s: ValueState<T>): (r: ValueState<T>)
    requires s.pending.Some?
    ensures r == ValueState(s.pending.value.value, None)
  {
    ValueState(s.pending.value.value, None)
  }

  function ValueChanges<T>(s: ValueState<T>, delay: int, changes: seq<Change<T>>): ValueState<T>
    decreases |changes|
  {
    if changes == [] then s else ValueChanges(ValueChangeStep(s, delay, changes[0]), delay, changes[1..])
  }

  /** After a burst of changes only one timer is pending, due `delay` after
      the last change, and it publishes the last value; nothing is
      published before it fires. */
  lemma {:induction false} ValueSettlesToLast<T>(s: ValueState<T>, delay: int, changes: seq<Change<T>>)
    requires changes != []
    ensures var r := ValueChanges(s, delay, changes);
            && r.debounced == s.debounced
            && r.pending == Some(ValueTimer(changes[|changes| - 1].at + delay, changes[|changes| - 1].value))
            && ValueFireStep(r).debounced == changes[|changes| - 1].value
    decreases |changes|
  {
    if |changes| > 1 {
      ValueSettlesToLast(ValueChangeStep(s, delay, changes[0]), delay, changes[1..]);
    }
  }

  /** The refs of `useDebounceCallback`: the time of the last invocation,
      the time the pending trailing timer is due, the latest arguments and
      the invocations so far. */
  datatype CallbackState<A> = CallbackState(lastCallTime: int, pending: Option<int>, lastArgs: Option<A>, calls: seq<A>)

  function InitialCallback<A>(): CallbackState<A> {
    CallbackState(0, None, None, [])
  }

  /** Whether a call at `now` invokes the callback at once: only with
      leading calls, and only when no timer is pending or `delay` has
      passed since the last invocation. */
  predicate InvokesNow<A>(s: CallbackState<A>, delay: int, leading: bool, now: int) {
    leading && (s.pending.None? || now - s.lastCallTime >= delay)
  }

  /** A call at `now`. The arguments are recorded, the callback may run at
      once, the pending timer is cancelled, and with trailing calls a new
      timer is set `delay` from now. Without trailing calls no timer is ever
      set, so the timer ref stays null. */
  function CallbackCallStep<A>(s: CallbackState<A>, delay: int, leading: bool, trailing: bool,
                               now: int, args: A): (r: CallbackState<A>)
    ensures r.lastArgs == Some(args)
    ensures InvokesNow(s, delay, leading, now) ==> r.calls == s.calls + [args] && r.lastCallTime == now
    ensures !InvokesNow(s, delay, leading, now) ==> r.calls == s.calls && r.lastCallTime == s.lastCallTime
    ensures trailing <==> r.pending.Some?
    ensures trailing ==> r.pending == Some(now + delay)
  {
    var invoke := InvokesNow(s, delay, leading, now);
    CallbackState(if invoke then now else s.lastCallTime,
                  if trailing then Some(now + delay) else None,
                  Some(args),
                  if invoke then s.calls + [args] else s.calls)
  }

  /** The trailing timer fires at `now`: the latest arguments, if any, are
      used once and forgotten, and the timer is gone. */
  function CallbackFireStep<A>(s: CallbackState<A>, now: int): (r: CallbackState<A>)
    requires s.pending.Some?
    ensures r.pending.None? && r.lastArgs.None?
    ensures s.lastArgs.Some? ==> r.calls == s.calls + [s.lastArgs.value] && r.lastCallTime == now
    ensures s.lastArgs.None? ==> r.calls == s.calls && r.lastCallTime == s.lastCallTime
  {
    if s.lastArgs.Some? then CallbackState(now, None, None, s.calls + [s.lastArgs.value])
    else CallbackState(s.lastCallTime, None, None, s.calls)
  }

  /** A call of the callback with its arguments at a time. */
  datatype Invocation<A> = Invocation(at: int, args: A)

  function CallbackCalls<A>(s: CallbackState<A>, delay: int, leading: bool, trailing: bool,
                            events: seq<Invocation<A>>): CallbackState<A>
    decreases |events|
  {
    if events == [] then s
    else CallbackCalls(CallbackCallStep(s, delay, leading, trailing, events[0].at, events[0].args),
                       delay, leading, trailing, events[1..])
  }

  function ArgsOf<A>(events: seq<Invocation<A>>): (r: seq<A>)
    ensures |r| == |events|
    ensures forall i | 0 <= i < |events| :: r[i] == events[i].args
    decreases |events|
  {
    if events == [] then [] else [events[0].args] + ArgsOf(events[1..])
  }

  /** With the default options (trailing only) no call runs the callback:
      after any burst one timer is pending, due `delay` after the last
      call, and when it fires the callback runs once with the last
      arguments. */
  lemma {:induction false} TrailingBurst<A>(s: CallbackState<A>, delay: int, events: seq<Invocation<A>>, fireAt: int)
    requires events != []
    ensures var r := CallbackCalls(s, delay, false, true, events);
            && r.calls == s.calls
            && r.pending == Some(events[|events| - 1].at + delay)
            && CallbackFireStep(r, fireAt).calls == s.calls + [events[|events| - 1].args]
    decreases |events|
  {
    if |events| > 1 {
      TrailingBurst(CallbackCallStep(s, delay, false, true, events[0].at, events[0].args), delay, events[1..], fireAt);
    }
  }

  /** With leading calls only, no timer is ever set, so every call runs the
      callback at once with its own arguments. */
  lemma {:induction false} LeadingOnlyRunsEveryCall<A>(s: CallbackState<A>, delay: int, events: seq<Invocation<A>>)
    requires s.pending.None?
    ensures CallbackCalls(s, delay, true, false, events).calls == s.calls + ArgsOf(events)
    ensures CallbackCalls(s, delay, true, false, events).pending.None?
    decreases |events|
  {
    if events == [] {
      assert s.calls + ArgsOf(events) == s.calls;
    } else {
      var a := events[0].args;
      var s1 := CallbackCallStep(s, delay, true, false, events[0].at, a);
      assert InvokesNow(s, delay, true, events[0].at);
      assert s1.calls == s.calls + [a] && s1.pending.None?;
      LeadingOnlyRunsEveryCall(s1, delay, events[1..]);
      assert CallbackCalls(s, delay, true, false, events) == CallbackCalls(s1, delay, true, false, events[1..]);
      var rest := ArgsOf(events[1..]);
      assert ArgsOf(events) == [a] + rest;
      AppendAssoc(s.calls, [a], rest);
    }
  }

  lemma AppendAssoc<T>(x: seq<T>, y: seq<T>, z: seq<T>)
    ensures x + (y + z) == (x + y) + z
  {
  }

  /** With both leading and trailing calls a lone call runs the callback
      twice with the same arguments: once at once and once when its timer
      fires. */
  lemma LoneCallRunsTwice<A>(s: CallbackState<A>, delay: int, now: int, args: A, fireAt: int)
    requires s.pending.None?
    ensures var r := CallbackCallStep(s, delay, true, true, now, args);
            && r.pending.Some?
            && CallbackFireStep(r, fireAt).calls == s.calls + [args, args]
  {
  }

  class DebouncedValue<T> {
    const delay: int
    var debounced: T
    var pending: Option<ValueTimer<T>>

    function Snapshot(): ValueState<T>
      reads this
    {
      ValueState(debounced, pending)
    }

    /** Mounting at `mountTime`: the value is published at once, and the
        mount effect sets a timer that will publish it again. */
    constructor (value: T, delay: int, mountTime: int)
      ensures this.delay == delay && Snapshot() == ValueChangeStep(InitialValue(value), delay, Change(mountTime, value))
    {
      this.delay := delay;
      debounced := value;
      pending := Some(ValueTimer(mountTime + delay, value));
    }

    method OnValueChange(now: int, value: T)
      modifies this
      ensures Snapshot() == ValueChangeStep(old(Snapshot()), delay, Change(now, value))
    {
      pending := None;
      pending := Some(ValueTimer(now + delay, value));
    }

    method Fire()
      requires pending.Some?
      modifies this
      ensures Snapshot() == ValueFireStep(old(Snapshot()))
    {
      debounced := pending.value.value;
      pending := None;
    }

    method Unmount()
      modifies this`pending
      ensures pending.None?
    {
      pending := None;
    }
  }

  class DebouncedCallback<A> {
    const delay: int
    const leading: bool
    const trailing: bool
    var lastCallTime: int
    var pending: Option<int>
    var lastArgs: Option<A>
    var calls: seq<A>

    function Snapshot(): CallbackState<A>
      reads this
    {
      CallbackState(lastCallTime, pending, lastArgs, calls)
    }

    /** Options left out default to trailing calls only. */
    constructor (delay: int, leading: Option<bool>, trailing: Option<bool>)
      ensures this.delay == delay && this.leading == leading.GetOr(false) && this.trailing == trailing.GetOr(true)
      ensures Snapshot() == InitialCallback()
    {
      this.delay := delay;
      this.leading := leading.GetOr(false);
      this.trailing := trailing.GetOr(true);
      lastCallTime := 0;
      pending := None;
      lastArgs := None;
      calls := [];
    }

    method Call(now: int, args: A)
      modifies this
      ensures Snapshot() == CallbackCallStep(old(Snapshot()), delay, leading, trailing, now, args)
    {
      var timeSinceLastCall := now - lastCallTime;
      lastArgs := Some(args);
      if leading && (pending.None? || timeSinceLastCall >= delay) {
        lastCallTime := now;
        calls := calls + [args];
      }
      pending := None;
      if trailing {
        pending := Some(now + delay);
      }
    }

    method Fire(now: int)
      requires pending.Some?
      modifies this
      ensures Snapshot() == CallbackFireStep(old(Snapshot()), now)
    {
      if lastArgs.Some? {
        lastCallTime := now;
        calls := calls + [lastArgs.value];
        lastArgs := None;
      }
      pending := None;
    }

    method Unmount()
      modifies this`pending
      ensures pending.None?
    {
      pending := None;
    }
  }
}
