/**
 * The observable events of a run: permits taken and given back, requests
 * sent and save_flag calls dispatched, each tagged with the task (the
 * position of the country code in the sorted list) it belongs to.
 */
module Trace {
  import opened FlagsCommon

  datatype Event =
    | Acquire(task: nat)
    | Request(task: nat, url: string)
    | Release(task: nat)
    | Save(task: nat, job: SaveJob)

  /** How an event changes the number of permits held. */
  function Delta(e: Event): int {
    match e
    case Acquire(_) => 1
    case Release(_) => -1
    case _ => 0
  }

  /** The number of permits held after the events of log. */
  function Held(log: seq<Event>): int {
    if log == [] then 0 else Held(log[..|log| - 1]) + Delta(log[|log| - 1])
  }

  /** After every prefix of log, between 0 and capacity permits are held. */
  predicate GateSafe(log: seq<Event>, capacity: nat) {
    log == [] || (GateSafe(log[..|log| - 1], capacity) && 0 <= Held(log) <= capacity)
  }

  lemma {:induction false} GateSafePrefixes(log: seq<Event>, capacity: nat)
    requires GateSafe(log, capacity)
    ensures forall k :: 0 <= k <= |log| ==> 0 <= Held(log[..k]) <= capacity
  {
    if log != [] {
      var init := log[..|log| - 1];
      GateSafePrefixes(init, capacity);
      forall k | 0 <= k <= |log|
        ensures 0 <= Held(log[..k]) <= capacity
      {
        if k < |log| {
          assert log[..k] == init[..k];
        } else {
          assert log[..k] == log;
        }
      }
    }
  }

  /** Appending one event keeps the gate safe when its effect stays in bounds. */
  lemma GateSafeAppend(log: seq<Event>, e: Event, capacity: nat)
    requires GateSafe(log, capacity)
    requires 0 <= Held(log) + Delta(e) <= capacity
    ensures Held(log + [e]) == Held(log) + Delta(e)
    ensures GateSafe(log + [e], capacity)
  {
    assert (log + [e])[..|log|] == log;
  }

  /** Events that move no permit keep the gate safe and the count unchanged. */
  lemma {:induction false} GateSafeNeutral(log: seq<Event>, more: seq<Event>, capacity: nat)
    requires GateSafe(log, capacity) && 0 <= Held(log) <= capacity
    requires forall k :: 0 <= k < |more| ==> Delta(more[k]) == 0
    ensures Held(log + more) == Held(log)
    ensures GateSafe(log + more, capacity)
    decreases |more|
  {
    if more == [] {
      assert log + more == log;
    } else {
      var init := more[..|more| - 1];
      GateSafeNeutral(log, init, capacity);
      assert log + more == (log + init) + [more[|more| - 1]];
      GateSafeAppend(log + init, more[|more| - 1], capacity);
    }
  }

  /** One event that moves the count within bounds, followed by events that
      do not move it. */
  lemma GateStep(log: seq<Event>, e: Event, rest: seq<Event>, capacity: nat)
    requires GateSafe(log, capacity)
    requires 0 <= Held(log) + Delta(e) <= capacity
    requires forall k :: 0 <= k < |rest| ==> Delta(rest[k]) == 0
    ensures GateSafe(log + ([e] + rest), capacity)
    ensures Held(log + ([e] + rest)) == Held(log) + Delta(e)
  {
    GateSafeAppend(log, e, capacity);
    GateSafeNeutral(log + [e], rest, capacity);
    assert log + [e] + rest == log + ([e] + rest);
  }

  /** The events of log that belong to one task, in order. */
  function Project(log: seq<Event>, task: nat): (r: seq<Event>)
    ensures forall k :: 0 <= k < |r| ==> r[k].task == task
  {
    if log == [] then []
    else Project(log[..|log| - 1], task) + (if log[|log| - 1].task == task then [log[|log| - 1]] else [])
  }

  lemma {:induction false} ProjectAppend(log: seq<Event>, more: seq<Event>, task: nat)
    ensures Project(log + more, task) == Project(log, task) + Project(more, task)
    decreases |more|
  {
    if more == [] {
      assert log + more == log;
    } else {
      var init := more[..|more| - 1];
      ProjectAppend(log, init, task);
      assert (log + more)[..|log + more| - 1] == log + init;
    }
  }

  /** Projecting a task's own events onto it keeps them all; onto any other
      task, none. */
  lemma {:induction false} ProjectSingleTask(events: seq<Event>, owner: nat, task: nat)
    requires forall k :: 0 <= k < |events| ==> events[k].task == owner
    ensures Project(events, task) == if task == owner then events else []
    decreases |events|
  {
    if events != [] {
      var init := events[..|events| - 1];
      ProjectSingleTask(init, owner, task);
      assert events == init + [events[|events| - 1]];
    }
  }
}
