/**
 * `useDebounce(value, delay = 500)` as a discrete-time state machine. A render
 * whose `value` or `delay` differs from the previous one re-runs the effect:
 * the cleanup cancels the pending timer and the effect starts a new one. A tick
 * is one millisecond; a timer fires on the first tick at or after its deadline
 * and sets the debounced value. Unmounting runs the cleanup and nothing fires
 * afterwards.
 */
module UseDebounce {
  import opened Wrappers

  const DEFAULT_DELAY := 500

  /** `delay: number = 500`: only a missing delay is replaced. */
  function EffectiveDelay(delay: Option<int>): (d: int)
    ensures delay.None? ==> d == 500
    ensures delay.Some? ==> d == delay.value
  {
    delay.GetOr(DEFAULT_DELAY)
  }

  const TWO_TO_31 := 0x8000_0000
  const TWO_TO_32 := 0x1_0000_0000

  /**
   * The time `setTimeout` waits. Its `timeout` argument is a WebIDL `long`: the
   * delay is reduced modulo 2^32 into a signed 32-bit integer, and a negative
   * result is read as 0. Inside the signed 32-bit range a delay of 0 or more is
   * waited as given and a negative one not at all.
   */
  function Wait(delay: int): (w: nat)
    ensures 0 <= delay < TWO_TO_31 ==> w == delay
    ensures -TWO_TO_31 <= delay < 0 ==> w == 0
    ensures w < TWO_TO_31
    ensures w == 0 || (delay - w) % TWO_TO_32 == 0
  {
    var m := delay % TWO_TO_32;
    var long := if m >= TWO_TO_31 then m - TWO_TO_32 else m;
    if long < 0 then 0 else long
  }

  /** A delay of 2^31 ms wraps to a negative `long`, so its timer fires on the next tick. */
  lemma WaitWrapsLargeDelay()
    ensures Wait(TWO_TO_31) == 0 && Wait(TWO_TO_32 + 300) == 300
  {
  }

  /** A scheduled `setDebouncedValue(value)`. */
  datatype Timer<T> = Timer(value: T, deadline: int)

  /**
   * The hook's state: the last rendered `value` and `delay` (the effect's
   * dependencies), the `debouncedValue` state, the pending timer, the clock and
   * whether the component is still mounted.
   */
  datatype State<T> = State(
    value: T, delay: int, debounced: T, pending: Option<Timer<T>>, now: int, mounted: bool)

  datatype Event<T> = Render(value: T, delay: Option<int>) | Tick | Teardown

  /** The first render: `useState(value)`, then the effect schedules its timer. */
  function Mount<T>(value: T, delay: Option<int>): (s: State<T>)
    ensures s.debounced == value && s.value == value && s.mounted
  {
    var d := EffectiveDelay(delay);
    State(value, d, value, Some(Timer(value, Wait(d))), 0, true)
  }

  /**
   * One event. Only a due timer changes the debounced value, and it sets the
   * value that timer carries; teardown leaves nothing pending.
   */
  function Step<T(==)>(s: State<T>, e: Event<T>): (r: State<T>)
    ensures r.debounced != s.debounced ==>
      e.Tick? && s.pending.Some? && s.pending.value.deadline <= s.now + 1 && r.debounced == s.pending.value.value
    ensures e.Teardown? ==> !r.mounted && r.pending.None?
    ensures !s.mounted ==> !r.mounted && (s.pending.None? ==> r.pending.None?)
    ensures e.Render? && s.mounted && (e.value != s.value || EffectiveDelay(e.delay) != s.delay) ==>
      r.pending == Some(Timer(e.value, s.now + Wait(EffectiveDelay(e.delay))))
  {
    match e
    case Render(v, delay) =>
      var d := EffectiveDelay(delay);
      if !s.mounted || (v == s.value && d == s.delay) then s
      else s.(value := v, delay := d, pending := Some(Timer(v, s.now + Wait(d))))
    case Tick =>
      var now := s.now + 1;
      if s.pending.Some? && s.pending.value.deadline <= now
      then s.(now := now, debounced := s.pending.value.value, pending := None)
      else s.(now := now)
    case Teardown =>
      s.(pending := None, mounted := false)
  }

  function Run<T(==)>(s: State<T>, es: seq<Event<T>>): State<T>
    decreases |es|
  {
    if es == [] then s else Run(Step(s, es[0]), es[1..])
  }

  function Ticks<T>(n: nat): (es: seq<Event<T>>)
    ensures |es| == n
  {
    if n == 0 then [] else [Tick] + Ticks(n - 1)
  }

  /**
   * The state the hook keeps: while mounted, a pending timer carries the latest
   * value and is due within one delay; with no timer pending the debounced value
   * has caught up with the input. After teardown no timer is pending.
   */
  ghost predicate Valid<T>(s: State<T>) {
    && (s.mounted && s.pending.None? ==> s.debounced == s.value)
    && (s.mounted && s.pending.Some? ==>
          s.pending.value.value == s.value && s.now <= s.pending.value.deadline <= s.now + Wait(s.delay))
    && (!s.mounted ==> s.pending.None?)
  }

  lemma MountValid<T>(value: T, delay: Option<int>)
    ensures Valid(Mount(value, delay))
  {
  }

  lemma StepValid<T>(s: State<T>, e: Event<T>)
    requires Valid(s)
    ensures Valid(Step(s, e))
  {
  }

  lemma {:induction false} RunAppend<T>(s: State<T>, a: seq<Event<T>>, b: seq<Event<T>>)
    ensures Run(s, a + b) == Run(Run(s, a), b)
    decreases |a|
  {
    if a == [] {
      assert a + b == b;
    } else {
      assert (a + b)[0] == a[0];
      assert (a + b)[1..] == a[1..] + b;
      RunAppend(Step(s, a[0]), a[1..], b);
    }
  }

  /** The debounced value stays `x` in every state the events pass through. */
  ghost predicate HeldThroughout<T>(s: State<T>, es: seq<Event<T>>, x: T)
    decreases |es|
  {
    s.debounced == x && (es == [] || HeldThroughout(Step(s, es[0]), es[1..], x))
  }

  lemma {:induction false} HeldThroughoutAppend<T>(s: State<T>, a: seq<Event<T>>, b: seq<Event<T>>, x: T)
    requires HeldThroughout(s, a, x) && HeldThroughout(Run(s, a), b, x)
    ensures HeldThroughout(s, a + b, x)
    decreases |a|
  {
    if a == [] {
      assert a + b == b;
    } else {
      assert (a + b)[0] == a[0];
      assert (a + b)[1..] == a[1..] + b;
      HeldThroughoutAppend(Step(s, a[0]), a[1..], b, x);
    }
  }

  /** Ticks before the deadline change nothing but the clock. */
  lemma {:induction false} TicksBeforeDeadline<T>(s: State<T>, n: nat)
    requires Valid(s) && s.pending.Some? && s.now + n < s.pending.value.deadline
    ensures Run(s, Ticks(n)) == s.(now := s.now + n)
    ensures HeldThroughout(s, Ticks(n), s.debounced)
    decreases n
  {
    if n > 0 {
      var t := Step(s, Tick);
      assert Ticks<T>(n)[0] == Tick && Ticks<T>(n)[1..] == Ticks(n - 1);
      TicksBeforeDeadline(t, n - 1);
    }
  }

  /** Once the debounced value has caught up, ticks change nothing but the clock. */
  lemma {:induction false} TicksWhenSettled<T>(s: State<T>, n: nat)
    requires s.pending.None?
    ensures Run(s, Ticks(n)) == s.(now := s.now + n)
    decreases n
  {
    if n > 0 {
      assert Ticks<T>(n)[0] == Tick && Ticks<T>(n)[1..] == Ticks(n - 1);
      TicksWhenSettled(Step(s, Tick), n - 1);
    }
  }

  /** A pending timer fires once its deadline has passed: the debounced value becomes the input. */
  lemma {:induction false} TicksPastDeadline<T>(s: State<T>, n: nat)
    requires Valid(s) && s.mounted
    requires s.pending.Some? ==> n >= 1 && s.now + n >= s.pending.value.deadline
    ensures var t := Run(s, Ticks(n));
      t.debounced == s.value && t.value == s.value && t.pending.None? && t.mounted && Valid(t)
    decreases n
  {
    if n == 0 {
    } else {
      var t := Step(s, Tick);
      assert Ticks<T>(n)[0] == Tick && Ticks<T>(n)[1..] == Ticks(n - 1);
      if t.pending.None? {
        TicksWhenSettled(t, n - 1);
      } else {
        TicksPastDeadline(t, n - 1);
      }
    }
  }

  /** A new input appears after `delay` quiet milliseconds (one tick at least). */
  lemma QuietPeriodPropagates<T>(s: State<T>, n: nat)
    requires Valid(s) && s.mounted && n >= 1 && n >= Wait(s.delay)
    ensures Run(s, Ticks(n)).debounced == s.value
  {
    TicksPastDeadline(s, n);
  }

  /** Inputs rendered one after another, each followed by `gap` quiet milliseconds. */
  function Burst<T>(values: seq<T>, delay: Option<int>, gap: nat): seq<Event<T>>
    decreases |values|
  {
    if values == [] then [] else [Render(values[0], delay)] + Ticks(gap) + Burst(values[1..], delay, gap)
  }

  /**
   * In a burst of changing inputs whose gaps are shorter than the delay, no
   * input is propagated: the debounced value stays put in every state, and the
   * one timer left pending carries the last input.
   */
  lemma {:induction false} BurstHoldsBack<T>(s: State<T>, values: seq<T>, delay: Option<int>, gap: nat)
    requires Valid(s) && s.mounted && |values| >= 1
    requires gap < Wait(EffectiveDelay(delay))
    requires values[0] != s.value
    requires forall i :: 0 < i < |values| ==> values[i] != values[i - 1]
    ensures HeldThroughout(s, Burst(values, delay, gap), s.debounced)
    ensures var t := Run(s, Burst(values, delay, gap));
      Valid(t) && t.mounted && t.value == values[|values| - 1] && t.debounced == s.debounced
      && t.delay == EffectiveDelay(delay)
      && t.pending == Some(Timer(values[|values| - 1], t.now - gap + Wait(EffectiveDelay(delay))))
    decreases |values|
  {
    var render: seq<Event<T>> := [Render(values[0], delay)];
    var rest := Burst(values[1..], delay, gap);
    var r := Step(s, render[0]);
    assert Run(s, render) == r;
    assert HeldThroughout(s, render, s.debounced);
    TicksBeforeDeadline(r, gap);
    var u := Run(r, Ticks(gap));
    assert Run(s, render + Ticks(gap)) == u by {
      RunAppend(s, render, Ticks(gap));
    }
    HeldThroughoutAppend(s, render, Ticks(gap), s.debounced);
    assert Burst(values, delay, gap) == render + Ticks(gap) + rest;
    RunAppend(s, render + Ticks(gap), rest);
    if |values| > 1 {
      BurstHoldsBack(u, values[1..], delay, gap);
      HeldThroughoutAppend(s, render + Ticks(gap), rest, s.debounced);
    } else {
      assert rest == [];
      assert render + Ticks(gap) + rest == render + Ticks(gap);
    }
  }

  /**
   * After teardown nothing the machine is given changes the debounced value:
   * no pending update fires, no later render schedules one.
   */
  lemma {:induction false} TeardownSilences<T>(s: State<T>, es: seq<Event<T>>)
    ensures HeldThroughout(Step(s, Teardown), es, s.debounced)
    decreases |es|
  {
    var t := Step(s, Teardown);
    if es != [] {
      assert Step(t, es[0]).(pending := None, mounted := false) == Step(t, es[0]);
      assert Step(t, es[0]) == Step(Step(t, es[0]), Teardown);
      TeardownSilences(Step(t, es[0]), es[1..]);
    }
  }

  /** The values that renders supply, in order. */
  function Inputs<T>(es: seq<Event<T>>): seq<T>
    decreases |es|
  {
    if es == [] then []
    else (if es[0].Render? then [es[0].value] else []) + Inputs(es[1..])
  }

  /** Every value the state holds was supplied at some point. */
  ghost predicate HoldsOnly<T>(s: State<T>, supplied: seq<T>) {
    s.debounced in supplied && s.value in supplied
    && (s.pending.Some? ==> s.pending.value.value in supplied)
  }

  lemma {:induction false} RunHoldsOnlyInputs<T>(s: State<T>, es: seq<Event<T>>, supplied: seq<T>)
    requires HoldsOnly(s, supplied)
    ensures HoldsOnly(Run(s, es), supplied + Inputs(es))
    decreases |es|
  {
    if es != [] {
      var head := if es[0].Render? then [es[0].value] else [];
      assert supplied + Inputs(es) == (supplied + head) + Inputs(es[1..]);
      RunHoldsOnlyInputs(Step(s, es[0]), es[1..], supplied + head);
    }
  }

  /** The debounced value is always the initial value or a later input. */
  lemma DebouncedWasSupplied<T>(initial: T, delay: Option<int>, es: seq<Event<T>>)
    ensures Run(Mount(initial, delay), es).debounced in [initial] + Inputs(es)
  {
    RunHoldsOnlyInputs(Mount(initial, delay), es, [initial]);
  }

  /**
   * Typing "a", "ab", "abc" 50 ms apart into a box debounced by 300 ms that has
   * settled on "". The burst ends 50 ms after the last key. The box shows ""
   * throughout the burst and for 249 ms more, that is up to 299 ms after the last
   * key, and shows "abc" exactly 300 ms after it.
   */
  lemma SearchBoxExample()
    ensures var settled := Run(Mount("", Some(300)), Ticks(300));
      var typed := Run(settled, Burst(["a", "ab", "abc"], Some(300), 50));
      && settled.debounced == ""
      && HeldThroughout(settled, Burst(["a", "ab", "abc"], Some(300), 50), "")
      && HeldThroughout(typed, Ticks(249), "")
      && Run(typed, Ticks(250)).debounced == "abc"
  {
    var s := Mount("", Some(300));
    MountValid("", Some(300));
    TicksPastDeadline(s, 300);
    var settled := Run(s, Ticks(300));
    var keys := ["a", "ab", "abc"];
    BurstHoldsBack(settled, keys, Some(300), 50);
    var t := Run(settled, Burst(keys, Some(300), 50));
    TicksBeforeDeadline(t, 249);
    TicksPastDeadline(t, 250);
  }

  /** The hook as an object: its fields are the state, its methods the events. */
  class Debouncer<T(==)> {
    var value: T
    var delay: int
    var debounced: T
    var pending: Option<Timer<T>>
    var now: int
    var mounted: bool

    function Snapshot(): State<T>
      reads this
    {
      State(value, delay, debounced, pending, now, mounted)
    }

    /** The first render of a component that calls `useDebounce(initial, delay)`. */
    constructor (initial: T, delay: Option<int>)
      ensures Snapshot() == Mount(initial, delay)
      ensures Valid(Snapshot()) && debounced == initial
    {
      value := initial;
      this.delay := EffectiveDelay(delay);
      debounced := initial;
      now := 0;
      mounted := true;
      pending := Some(Timer(initial, Wait(EffectiveDelay(delay))));
    }

    /**
     * A later render with `useDebounce(v, newDelay)`: when a dependency changed,
     * the pending timer is cleared and a new one started; returns the debounced
     * value, which a render never changes.
     */
    method Render(v: T, newDelay: Option<int>) returns (current: T)
      requires Valid(Snapshot())
      modifies this
      ensures Snapshot() == Step(old(Snapshot()), Event.Render(v, newDelay))
      ensures Valid(Snapshot())
      ensures current == debounced == old(debounced)
    {
      var d := EffectiveDelay(newDelay);
      if mounted && (v != value || d != delay) {
        pending := None;
        value, delay := v, d;
        pending := Some(Timer(v, now + Wait(d)));
      }
      current := debounced;
      StepValid(old(Snapshot()), Event.Render(v, newDelay));
    }

    /** One millisecond passes; a timer that is due fires. */
    method Tick()
      requires Valid(Snapshot())
      modifies this
      ensures Snapshot() == Step(old(Snapshot()), Event.Tick)
      ensures Valid(Snapshot())
      ensures debounced != old(debounced) ==> old(pending).Some? && debounced == value == old(value)
    {
      now := now + 1;
      if pending.Some? && pending.value.deadline <= now {
        debounced := pending.value.value;
        pending := None;
      }
      StepValid(old(Snapshot()), Event.Tick);
    }

    /** Unmounting: the effect's cleanup clears the pending timer. */
    method Teardown()
      requires Valid(Snapshot())
      modifies this
      ensures Snapshot() == Step(old(Snapshot()), Event.Teardown)
      ensures Valid(Snapshot()) && !mounted && pending.None? && debounced == old(debounced)
    {
      pending := None;
      mounted := false;
    }
  }
}
