/**
 * `RefreshScheduler`: coalesces refresh requests so that at most one pass over the
 * registered actions is in flight, and drives a repeating timer.
 *
 * A refresh action is an opaque closure; it is named here by a label, and running it
 * appends that label to `ran`. A pass suspends while its actions run, so it is two
 * events: the request that starts it (and runs the actions) and the end of the pass.
 * Timer sleeps are left out; each wake-up of the timer task is a `Tick` event.
 * Dictionary iteration order is unspecified, so the order of `actions.values` is a
 * parameter: any enumeration of the registered keys.
 */
module Scheduling {
  import opened Wrappers

  /** What the scheduler holds: the actions by key, the live timer's interval, the two flags, and what has run. */
  datatype SchedulerState = SchedulerState(
    actions: map<string, string>,
    timer: Option<int>,
    inFlight: bool,
    pending: bool,
    ran: seq<string>)

  datatype Event =
    | Request(order: seq<string>)
    | FinishPass
    | Register(key: string, action: string)
    | Unregister(key: string)
    | Configure(interval: int, enabled: bool)
    | Tick(order: seq<string>)

  const Initial := SchedulerState(map[], None, false, false, [])

  /** `order` lists every registered key exactly once. */
  ghost predicate KeyOrder(order: seq<string>, actions: map<string, string>)
  {
    (forall k :: k in order <==> k in actions) &&
    forall i, j :: 0 <= i < j < |order| ==> order[i] != order[j]
  }

  /** The actions of `order`'s keys, in that order. */
  function ValuesInOrder(actions: map<string, string>, order: seq<string>): (r: seq<string>)
    ensures |r| <= |order|
  {
    if order == [] then []
    else (if order[0] in actions then [actions[order[0]]] else []) + ValuesInOrder(actions, order[1..])
  }

  /** When every key of `order` is registered, the pass runs exactly their actions, position by position. */
  lemma {:induction false} ValuesInOrderAll(actions: map<string, string>, order: seq<string>)
    requires forall k :: k in order ==> k in actions
    ensures |ValuesInOrder(actions, order)| == |order|
    ensures forall i :: 0 <= i < |order| ==> ValuesInOrder(actions, order)[i] == actions[order[i]]
    decreases |order|
  {
    if order != [] {
      assert forall k :: k in order[1..] ==> k in order;
      ValuesInOrderAll(actions, order[1..]);
    }
  }

  /** Run over an enumeration of the keys, a pass runs every registered action, once per key. */
  lemma PassRunsEveryAction(actions: map<string, string>, order: seq<string>, k: string)
    requires KeyOrder(order, actions)
    requires k in actions
    ensures |ValuesInOrder(actions, order)| == |order| == |actions|
    ensures exists i :: 0 <= i < |order| && order[i] == k && ValuesInOrder(actions, order)[i] == actions[k]
    ensures forall i, j :: 0 <= i < j < |order| ==> order[i] != order[j]
  {
    ValuesInOrderAll(actions, order);
    KeyOrderSize(order, actions);
    var i :| 0 <= i < |order| && order[i] == k;
  }

  /** `requestRefresh` up to its first suspension: coalesce when busy, otherwise start a pass and run its actions. */
  function Requested(s: SchedulerState, order: seq<string>): (t: SchedulerState)
    ensures s.inFlight ==> t == s.(pending := true)
    ensures !s.inFlight ==> t.inFlight && t.pending == s.pending && t.actions == s.actions && t.timer == s.timer
  {
    if s.inFlight then s.(pending := true)
    else s.(inFlight := true, ran := s.ran + ValuesInOrder(s.actions, order))
  }

  /**
   * The end of a pass, as written: a pending request is taken, but the follow-up
   * `requestRefresh` still finds the pass in flight (the `defer` has not cleared it),
   * so it only marks the request pending again. Then the pass is over.
   */
  function Finished(s: SchedulerState): (t: SchedulerState)
    requires s.inFlight
    ensures !t.inFlight && t.actions == s.actions && t.timer == s.timer
  {
    var followUp := if s.pending then Requested(s.(pending := false), []) else s;
    followUp.(inFlight := false)
  }

  /** The follow-up never runs: ending a pass runs no action and leaves a pending request pending. */
  lemma FollowUpNeverRuns(s: SchedulerState)
    requires s.inFlight
    ensures Finished(s) == s.(inFlight := false)
  {
  }

  /**
   * The end of a pass as the code evidently intends it: the pass is over first, so
   * a pending request starts the follow-up pass over the actions in `order`.
   */
  function FinishedAsIntended(s: SchedulerState, order: seq<string>): (t: SchedulerState)
    requires s.inFlight
    ensures !t.pending && (t.inFlight <==> s.pending) && t.actions == s.actions && t.timer == s.timer
  {
    var over := s.(inFlight := false);
    if s.pending then Requested(over.(pending := false), order) else over
  }

  /** Under the intended order, a coalesced request is served by exactly one follow-up pass and then cleared. */
  lemma IntendedFollowUpRuns(s: SchedulerState, order: seq<string>)
    requires s.inFlight && s.pending
    ensures FinishedAsIntended(s, order).ran == s.ran + ValuesInOrder(s.actions, order)
    ensures FinishedAsIntended(s, order).inFlight && !FinishedAsIntended(s, order).pending
  {
  }

  /** Without a pending request, both versions simply end the pass. */
  lemma FinishedAgreesWithoutPending(s: SchedulerState, order: seq<string>)
    requires s.inFlight && !s.pending
    ensures Finished(s) == FinishedAsIntended(s, order) == s.(inFlight := false)
  {
  }

  /** How each event changes the state. The end of a pass that is not in flight changes nothing. */
  function Apply(s: SchedulerState, e: Event): (t: SchedulerState)
    ensures e.Register? || e.Unregister? || t.actions == s.actions
    ensures e.Configure? || t.timer == s.timer
    ensures |s.ran| <= |t.ran| && t.ran[..|s.ran|] == s.ran
  {
    match e
    case Request(order) => Requested(s, order)
    case FinishPass => if s.inFlight then Finished(s) else s
    case Register(k, a) => s.(actions := s.actions[k := a])
    case Unregister(k) => s.(actions := s.actions - {k})
    case Configure(interval, enabled) => s.(timer := if enabled then Some(interval) else None)
    case Tick(order) => if s.timer.Some? then Requested(s, order) else s
  }

  function Run(s: SchedulerState, events: seq<Event>): SchedulerState
    decreases |events|
  {
    if events == [] then s else Run(Apply(s, events[0]), events[1..])
  }

  predicate StartsPasses(e: Event)
  {
    e.Request? || e.Tick?
  }

  /** Actions run only when a request or a tick finds the scheduler idle; no other event, ending a pass included, runs one. */
  lemma {:induction false} OnlyRequestsRunActions(s: SchedulerState, events: seq<Event>)
    requires forall i :: 0 <= i < |events| ==> !StartsPasses(events[i])
    ensures Run(s, events).ran == s.ran
    ensures Run(s, events).pending == s.pending
    ensures !Run(s, events).inFlight || s.inFlight
    decreases |events|
  {
    if events != [] {
      assert !StartsPasses(events[0]);
      assert forall i :: 0 <= i < |events[1..]| ==> events[1..][i] == events[i + 1];
      OnlyRequestsRunActions(Apply(s, events[0]), events[1..]);
    }
  }

  /** Once a request has been coalesced, `pending` is never cleared for good: every later state has it set. */
  lemma {:induction false} PendingIsSticky(s: SchedulerState, events: seq<Event>)
    requires s.pending
    ensures Run(s, events).pending
    decreases |events|
  {
    if events != [] {
      PendingIsSticky(Apply(s, events[0]), events[1..]);
    }
  }

  /** Each event grows the run log by at most one pass: only a request or tick that finds the scheduler idle adds actions. */
  lemma StepRunsAtMostOnePass(s: SchedulerState, e: Event)
    ensures var t := Apply(s, e);
      (t.ran == s.ran) ||
      (StartsPasses(e) && !s.inFlight && t.inFlight && t.ran == s.ran + ValuesInOrder(s.actions, e.order))
  {
  }

  /** A timer that `configure(enabled: false)` cancelled never fires: ticks afterwards change nothing. */
  lemma {:induction false} DisabledTimerNeverFires(s: SchedulerState, interval: int, ticks: seq<Event>)
    requires forall i :: 0 <= i < |ticks| ==> ticks[i].Tick?
    ensures Run(s, [Configure(interval, false)] + ticks) == s.(timer := None)
    decreases |ticks|
  {
    var t := s.(timer := None);
    assert ([Configure(interval, false)] + ticks)[1..] == ticks;
    TicksWithoutTimer(t, ticks);
  }

  lemma {:induction false} TicksWithoutTimer(s: SchedulerState, ticks: seq<Event>)
    requires s.timer.None?
    requires forall i :: 0 <= i < |ticks| ==> ticks[i].Tick?
    ensures Run(s, ticks) == s
    decreases |ticks|
  {
    if ticks != [] {
      assert ticks[0].Tick?;
      assert forall i :: 0 <= i < |ticks[1..]| ==> ticks[1..][i] == ticks[i + 1];
      TicksWithoutTimer(s, ticks[1..]);
    }
  }

  /** The scheduler object; each method is one event of `Apply`. */
  class RefreshScheduler {
    var actions: map<string, string>
    var timer: Option<int>
    var inFlight: bool
    var pending: bool
    var ran: seq<string>

    function State(): SchedulerState
      reads this
    {
      SchedulerState(actions, timer, inFlight, pending, ran)
    }

    constructor ()
      ensures State() == Initial
    {
      actions := map[];
      timer := None;
      inFlight := false;
      pending := false;
      ran := [];
    }

    /** `register(key:action:)`: insert or replace the action under `key`. */
    method Register(key: string, action: string)
      modifies this
      ensures State() == Apply(old(State()), Event.Register(key, action))
      ensures actions == old(actions)[key := action]
    {
      actions := actions[key := action];
    }

    /** `unregister(key:)`: remove that key only. */
    method Unregister(key: string)
      modifies this
      ensures State() == Apply(old(State()), Event.Unregister(key))
      ensures actions == old(actions) - {key}
    {
      actions := actions - {key};
    }

    /** `configure(interval:enabled:)`: the previous timer is always cancelled; a new one runs only when enabled. */
    method Configure(interval: int, enabled: bool)
      modifies this
      ensures State() == Apply(old(State()), Event.Configure(interval, enabled))
      ensures enabled <==> timer == Some(interval)
      ensures inFlight == old(inFlight) && pending == old(pending)
    {
      timer := None;
      if !enabled {
        return;
      }
      timer := Some(interval);
    }

    /**
     * `requestRefresh()` up to the end of its loop: a request during a pass only marks
     * itself pending; otherwise the pass starts and every action runs once, in `order`.
     */
    method RequestRefresh(order: seq<string>) returns (started: bool)
      requires !inFlight ==> KeyOrder(order, actions)
      modifies this
      ensures State() == Apply(old(State()), Event.Request(order))
      ensures started <==> !old(inFlight)
      ensures !started ==> ran == old(ran) && pending
      ensures started ==> |ran| == |old(ran)| + |old(actions)|
    {
      if inFlight {
        pending := true;
        return false;
      }
      inFlight := true;
      var i := 0;
      ghost var before := ran;
      KeyOrderSize(order, actions);
      while i < |order|
        invariant 0 <= i <= |order|
        invariant ran == before + ValuesInOrder(actions, order[..i])
        invariant actions == old(actions) && inFlight && pending == old(pending) && timer == old(timer)
      {
        ValuesInOrderSnoc(actions, order[..i], order[i]);
        assert order[..i + 1] == order[..i] + [order[i]];
        ran := ran + [actions[order[i]]];
        i := i + 1;
      }
      assert order[..i] == order;
      ValuesInOrderAll(actions, order);
      started := true;
    }

    /** The rest of `requestRefresh()` once its actions have run: the follow-up and the deferred reset. */
    method FinishPass()
      requires inFlight
      modifies this
      ensures State() == Apply(old(State()), Event.FinishPass)
      ensures !inFlight && pending == old(pending) && ran == old(ran)
    {
      if pending {
        pending := false;
        var again := RequestRefresh([]);
      }
      inFlight := false;
    }

    /** A wake-up of the timer task: a live timer issues one request; a cancelled one does nothing. */
    method Tick(order: seq<string>) returns (started: bool)
      requires timer.Some? && !inFlight ==> KeyOrder(order, actions)
      modifies this
      ensures State() == Apply(old(State()), Event.Tick(order))
      ensures started <==> old(timer).Some? && !old(inFlight)
    {
      started := false;
      if timer.Some? {
        started := RequestRefresh(order);
      }
    }
  }

  /** An enumeration of the keys is as long as the map. */
  lemma KeyOrderSize(order: seq<string>, actions: map<string, string>)
    requires KeyOrder(order, actions)
    ensures |order| == |actions|
  {
    var keys := set i | 0 <= i < |order| :: order[i];
    assert keys == actions.Keys;
    DistinctCard(order);
  }

  /** A sequence without repeats has as many distinct elements as it is long. */
  lemma {:induction false} DistinctCard(xs: seq<string>)
    requires forall i, j :: 0 <= i < j < |xs| ==> xs[i] != xs[j]
    ensures |set i | 0 <= i < |xs| :: xs[i]| == |xs|
    decreases |xs|
  {
    if xs != [] {
      var n := |xs| - 1;
      var front := xs[..n];
      DistinctCard(front);
      var a := set i | 0 <= i < |front| :: front[i];
      var b := set i | 0 <= i < |xs| :: xs[i];
      assert b == a + {xs[n]};
      assert xs[n] !in a;
    }
  }

  lemma {:induction false} ValuesInOrderSnoc(actions: map<string, string>, order: seq<string>, k: string)
    requires k in actions
    ensures ValuesInOrder(actions, order + [k]) == ValuesInOrder(actions, order) + [actions[k]]
    decreases |order|
  {
    if order == [] {
      assert order + [k] == [k];
    } else {
      var head := if order[0] in actions then [actions[order[0]]] else [];
      assert (order + [k])[0] == order[0];
      assert (order + [k])[1..] == order[1..] + [k];
      ValuesInOrderSnoc(actions, order[1..], k);
      assert ValuesInOrder(actions, order + [k]) == head + (ValuesInOrder(actions, order[1..]) + [actions[k]]);
      assert ValuesInOrder(actions, order) == head + ValuesInOrder(actions, order[1..]);
    }
  }
}
