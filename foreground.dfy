/**
 * The foreground listener: it remembers the previous application state and
 * calls `api.util.invalidateTags(["Permission"])` exactly when the
 * application moves from a non-active state to `active`.
 */
module Foreground {
  import opened CreateApi

  /** The host platform's application states. */
  datatype AppStateStatus = Active | Background | Inactive | Unknown | Extension

  /** The transition rule: the application came to the foreground. */
  predicate BecameActive(previous: AppStateStatus, next: AppStateStatus) {
    previous != Active && next == Active
  }

  /** The state remembered after a trace of changes starting from `start`. */
  function LastState(start: AppStateStatus, trace: seq<AppStateStatus>): (s: AppStateStatus)
    ensures s == start || s in trace
  {
    if trace == [] then start else trace[|trace| - 1]
  }

  /** The number of invalidations a trace of changes starting from `start` fires. */
  function FireCount(start: AppStateStatus, trace: seq<AppStateStatus>): (n: nat)
    ensures n <= |trace|
    decreases |trace|
  {
    if trace == [] then 0
    else (if BecameActive(start, trace[0]) then 1 else 0) + FireCount(trace[0], trace[1..])
  }

  /** One more change fires once more exactly when it is a foreground transition from the last state. */
  lemma {:induction false} FireCountSnoc(start: AppStateStatus, trace: seq<AppStateStatus>, next: AppStateStatus)
    ensures FireCount(start, trace + [next])
         == FireCount(start, trace) + (if BecameActive(LastState(start, trace), next) then 1 else 0)
    decreases |trace|
  {
    if trace != [] {
      assert (trace + [next])[1..] == trace[1..] + [next];
      FireCountSnoc(trace[0], trace[1..], next);
      assert LastState(trace[0], trace[1..]) == LastState(start, trace);
    }
  }

  /**
   * A trace of n changes fires at most ceil(n / 2) times, and at most
   * floor(n / 2) from active. The induction rests on a firing leaving the
   * state active, from which the next change cannot fire.
   */
  lemma {:induction false} FiresNeverAdjacent(start: AppStateStatus, trace: seq<AppStateStatus>)
    ensures 2 * FireCount(start, trace) <= |trace| + (if start == Active then 0 else 1)
    decreases |trace|
  {
    if trace != [] {
      FiresNeverAdjacent(trace[0], trace[1..]);
    }
  }

  /** A trace that never reaches active fires nothing. */
  lemma {:induction false} NoActiveNoFire(start: AppStateStatus, trace: seq<AppStateStatus>)
    requires Active !in trace
    ensures FireCount(start, trace) == 0
    decreases |trace|
  {
    if trace != [] {
      NoActiveNoFire(trace[0], trace[1..]);
    }
  }

  /** Staying active fires nothing, however long. */
  lemma {:induction false} StayingActiveNoFire(trace: seq<AppStateStatus>)
    requires forall i :: 0 <= i < |trace| ==> trace[i] == Active
    ensures FireCount(Active, trace) == 0
  {
    if trace != [] {
      StayingActiveNoFire(trace[1..]);
    }
  }

  /** From active: background, active, inactive, active, active fire 0, 1, 1, 2, 2 times in total. */
  lemma MultipleTransitions()
    ensures var trace := [Background, Active, Inactive, Active, Active];
      && FireCount(Active, trace[..1]) == 0
      && FireCount(Active, trace[..2]) == 1
      && FireCount(Active, trace[..3]) == 1
      && FireCount(Active, trace[..4]) == 2
      && FireCount(Active, trace[..5]) == 2
  {
    var trace := [Background, Active, Inactive, Active, Active];
    assert trace[..1] == [] + [Background];
    FireCountSnoc(Active, [], Background);
    forall n | 1 <= n < 5
      ensures FireCount(Active, trace[..n + 1])
           == FireCount(Active, trace[..n]) + (if BecameActive(trace[n - 1], trace[n]) then 1 else 0)
    {
      assert trace[..n + 1] == trace[..n] + [trace[n]];
      FireCountSnoc(Active, trace[..n], trace[n]);
    }
  }

  /**
   * The listener `setupForegroundListener` installs: the remembered state,
   * the subscription handle, and the log of invalidation calls it made on
   * the API.
   */
  class ForegroundListener {
    var previousState: AppStateStatus
    var subscribed: bool
    var invalidations: seq<seq<Tag>>

    /** The platform state at setup, and every state delivered to the callback since. */
    ghost const initialState: AppStateStatus
    ghost var history: seq<AppStateStatus>

    ghost predicate Valid()
      reads this
    {
      && previousState == LastState(initialState, history)
      && |invalidations| == FireCount(initialState, history)
      && forall i :: 0 <= i < |invalidations| ==> invalidations[i] == BulkInvalidation
    }

    /** Subscribes to state changes, remembering the platform's current state. */
    constructor (currentState: AppStateStatus)
      ensures Valid()
      ensures previousState == currentState && initialState == currentState
      ensures subscribed && invalidations == [] && history == []
    {
      previousState := currentState;
      subscribed := true;
      invalidations := [];
      initialState := currentState;
      history := [];
    }

    /** The change callback: call `invalidateTags(["Permission"])` on a foreground transition, then remember the new state. */
    method OnChange(nextState: AppStateStatus)
      requires Valid()
      modifies this
      ensures Valid()
      ensures previousState == nextState
      ensures invalidations == old(invalidations)
                + (if BecameActive(old(previousState), nextState) then [BulkInvalidation] else [])
      ensures history == old(history) + [nextState]
      ensures subscribed == old(subscribed)
    {
      if previousState != Active && nextState == Active {
        invalidations := invalidations + [BulkInvalidation];
      }
      FireCountSnoc(initialState, history, nextState);
      previousState := nextState;
      history := history + [nextState];
    }

    /** The platform delivering a change: only a live subscription reaches the callback. */
    method Deliver(nextState: AppStateStatus)
      requires Valid()
      modifies this
      ensures Valid()
      ensures old(subscribed) ==> previousState == nextState && history == old(history) + [nextState]
      ensures old(subscribed) ==>
                invalidations == old(invalidations)
                  + (if BecameActive(old(previousState), nextState) then [BulkInvalidation] else [])
      ensures !old(subscribed) ==> unchanged(this)
      ensures subscribed == old(subscribed)
    {
      if subscribed {
        OnChange(nextState);
      }
    }

    /** The cleanup function: removes the subscription. */
    method Cleanup()
      requires Valid()
      modifies this
      ensures Valid()
      ensures !subscribed
      ensures previousState == old(previousState) && invalidations == old(invalidations)
      ensures history == old(history)
    {
      subscribed := false;
    }
  }

  /** A client replaying the multi-transition trace against the listener's contracts. */
  method ReplayMultipleTransitions() {
    var listener := new ForegroundListener(Active);
    listener.OnChange(Background);
    assert |listener.invalidations| == 0;
    listener.OnChange(Active);
    assert |listener.invalidations| == 1;
    listener.OnChange(Inactive);
    assert |listener.invalidations| == 1;
    listener.OnChange(Active);
    assert |listener.invalidations| == 2;
    listener.OnChange(Active);
    assert listener.invalidations == [BulkInvalidation, BulkInvalidation];
    listener.Cleanup();
    listener.Deliver(Background);
    listener.Deliver(Active);
    assert |listener.invalidations| == 2;
  }
}
