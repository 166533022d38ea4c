/** Filter-as-you-type (`_init`, the keyup and keydown handlers): one
    `typingTimer` slot per run of `_init`, shared by the handler pair that
    run binds. A keyup clears the slot's timer and starts a
    new one; a keydown clears it; when the timer expires the configured
    submitter runs. Time is abstract: Expire is the moment the pending
    timer's delay has passed. */
module Debounce {
  import opened Js

  datatype Input = KeyUp | KeyDown | Expire

  /** pending: the id of the timer in the slot, if one is pending;
      issued: how many timers have been started (ids are handed out in
      order); submits: how many times the submitter has run. */
  datatype Timers = Timers(pending: Option<nat>, issued: nat, submits: nat)

  const Idle := Timers(None, 0, 0)

  /** The pending timer, if any, is the one started last. */
  predicate WellFormed(t: Timers) {
    t.pending.Some? ==> t.pending.value + 1 == t.issued
  }

  /** One input: afterwards a timer is pending exactly when the input was a
      keyup; at most one submission, and ids are never reused. */
  function Step(t: Timers, e: Input): (r: Timers)
    ensures r.pending.Some? <==> e == KeyUp
    ensures r.issued >= t.issued && r.submits <= t.submits + 1
    ensures WellFormed(t) ==> WellFormed(r)
  {
    match e
    case KeyUp => Timers(Some(t.issued), t.issued + 1, t.submits)
    case KeyDown => t.(pending := None)
    case Expire => if t.pending.Some? then Timers(None, t.issued, t.submits + 1) else t
  }

  /** A run of inputs: one new timer id per keyup, and submissions never
      undone. */
  function Run(t: Timers, es: seq<Input>): (r: Timers)
    ensures r.issued == t.issued + Count(es, KeyUp)
    ensures r.submits >= t.submits
    decreases |es|
  {
    if es == [] then t else Run(Step(t, es[0]), es[1..])
  }

  function Count(es: seq<Input>, e: Input): nat
    decreases |es|
  {
    if es == [] then 0 else (if es[0] == e then 1 else 0) + Count(es[1..], e)
  }

  function Repeat(e: Input, n: nat): (es: seq<Input>)
    ensures |es| == n && forall k :: 0 <= k < n ==> es[k] == e
  {
    seq(n, _ => e)
  }

  /** One step keeps the slot well formed, and says what each input does to it:
      a keyup leaves a fresh timer pending, a keydown cancels, an expiry
      submits once exactly when a timer was pending. */
  lemma StepFacts(t: Timers, e: Input)
    requires WellFormed(t)
    ensures var r := Step(t, e);
      && WellFormed(r)
      && r.issued >= t.issued
      && (e == KeyUp ==> r.pending.Some? && r.pending != t.pending)
      && (e != KeyUp ==> r.pending.None?)
      && r.submits == t.submits + (if e == Expire && t.pending.Some? then 1 else 0)
  {
  }

  lemma {:induction false} RunAppend(t: Timers, a: seq<Input>, b: seq<Input>)
    ensures Run(t, a + b) == Run(Run(t, a), b)
    decreases |a|
  {
    if a == [] {
      assert a + b == b;
    } else {
      assert (a + b)[0] == a[0];
      assert (a + b)[1..] == a[1..] + b;
      RunAppend(Step(t, a[0]), a[1..], b);
    }
  }

  lemma {:induction false} RunWellFormed(t: Timers, es: seq<Input>)
    requires WellFormed(t)
    ensures WellFormed(Run(t, es))
    decreases |es|
  {
    if es != [] {
      RunWellFormed(Step(t, es[0]), es[1..]);
    }
  }

  /** Every submission is an expiry. */
  lemma {:induction false} SubmitsAtMostExpiries(t: Timers, es: seq<Input>)
    ensures Run(t, es).submits <= t.submits + Count(es, Expire)
    decreases |es|
  {
    if es != [] {
      SubmitsAtMostExpiries(Step(t, es[0]), es[1..]);
    }
  }

  /** Every submission uses up a timer some keyup started: at most one per
      keyup, plus the one pending at the start. */
  lemma {:induction false} SubmitsAtMostKeyUps(t: Timers, es: seq<Input>)
    ensures Run(t, es).submits <= t.submits + Count(es, KeyUp) + (if t.pending.Some? then 1 else 0)
    decreases |es|
  {
    if es != [] {
      SubmitsAtMostKeyUps(Step(t, es[0]), es[1..]);
    }
  }

  /** Typing without a pause submits nothing. */
  lemma {:induction false} TypingDoesNotSubmit(t: Timers, es: seq<Input>)
    requires forall k :: 0 <= k < |es| ==> es[k] != Expire
    ensures Run(t, es).submits == t.submits
    ensures es != [] ==> (Run(t, es).pending.Some? <==> es[|es| - 1] == KeyUp)
    decreases |es|
  {
    if es != [] {
      TypingDoesNotSubmit(Step(t, es[0]), es[1..]);
      if |es| > 1 {
        assert es[1..][|es[1..]| - 1] == es[|es| - 1];
      }
    }
  }

  /** Once nothing is pending, expiries do nothing. */
  lemma {:induction false} ExpiriesWhenIdle(t: Timers, m: nat)
    requires t.pending.None?
    ensures Run(t, Repeat(Expire, m)) == t
    decreases m
  {
    if m > 0 {
      assert Repeat(Expire, m)[1..] == Repeat(Expire, m - 1);
      ExpiriesWhenIdle(t, m - 1);
    }
  }

  /** A burst of keystrokes followed by a pause: exactly one submission if
      the last key event was a keyup, none if it was a keydown; and the slot
      is empty afterwards either way. */
  lemma BurstThenPause(t: Timers, es: seq<Input>, m: nat)
    requires es != [] && m > 0
    requires forall k :: 0 <= k < |es| ==> es[k] != Expire
    ensures var r := Run(t, es + Repeat(Expire, m));
      && r.submits == t.submits + (if es[|es| - 1] == KeyUp then 1 else 0)
      && r.pending.None?
  {
    RunAppend(t, es, Repeat(Expire, m));
    TypingDoesNotSubmit(t, es);
    var mid := Run(t, es);
    var after := Step(mid, Expire);
    assert Repeat(Expire, m) == [Expire] + Repeat(Expire, m - 1);
    RunAppend(mid, [Expire], Repeat(Expire, m - 1));
    ExpiriesWhenIdle(after, m - 1);
  }

  /** The closure's `typingTimer` slot and the submitter's call count. */
  class Debouncer {
    var pending: Option<nat>
    var issued: nat
    var submits: nat

    function State(): Timers
      reads this
    {
      Timers(pending, issued, submits)
    }

    predicate Valid()
      reads this
    {
      WellFormed(State())
    }

    constructor ()
      ensures Valid() && State() == Idle
    {
      pending, issued, submits := None, 0, 0;
    }

    /** `clearTimeout(typingTimer); typingTimer = setTimeout(...)` */
    method KeyUp()
      requires Valid()
      modifies this
      ensures Valid() && State() == Step(old(State()), Input.KeyUp)
      ensures pending.Some? && pending != old(pending) && submits == old(submits)
    {
      pending := None;
      pending := Some(issued);
      issued := issued + 1;
    }

    /** `clearTimeout(typingTimer)` */
    method KeyDown()
      requires Valid()
      modifies this
      ensures Valid() && State() == Step(old(State()), Input.KeyDown)
      ensures pending.None? && submits == old(submits)
    {
      pending := None;
    }

    /** The pending timer's delay has passed: its callback runs the
        submitter once. With nothing pending nothing happens. */
    method Fire()
      requires Valid()
      modifies this
      ensures Valid() && State() == Step(old(State()), Expire)
      ensures pending.None?
      ensures submits == old(submits) + (if old(pending).Some? then 1 else 0)
    {
      if pending.Some? {
        pending := None;
        submits := submits + 1;
      }
    }
  }
}
