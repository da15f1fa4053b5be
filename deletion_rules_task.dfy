/** The deletion-rules task, backend/tasks/DeletionRulesTask.js: a state machine over `TaskState`
    with one timer handle. The timers are modelled by their handles: `live` holds every timer that
    was armed and not cleared (and so keeps firing), and new handles are drawn from `next`. What
    a run of the rules does is DeletionProcessing's business; here only whether it threw matters. */
module DeletionRulesTask {
  import opened Wrappers
  import opened TaskStates

  /** The task's fields, with the timers. */
  datatype TaskView = TaskView(state: TaskState, interval: Option<nat>, live: set<nat>, next: nat)

  /** Handles already drawn are below `next`. */
  predicate Valid(v: TaskView)
  {
    (forall h :: h in v.live ==> h < v.next) && (v.interval.Some? ==> v.interval.value < v.next)
  }

  /** After `processRules()`: a throwing run sets ERROR and is not rethrown; a normal one leaves
      the state as it was. */
  function AfterProcess(v: TaskView, ok: bool): (r: TaskView)
    ensures r.interval == v.interval && r.live == v.live && r.next == v.next
    ensures ok ==> r.state == v.state
    ensures !ok ==> r.state == Error
  {
    if ok then v else v.(state := Error)
  }

  /** After `start()`: nothing in RUNNING; otherwise RUNNING, one run of the rules, then a new
      timer stored in `interval` without clearing the previous one. */
  function AfterStart(v: TaskView, ok: bool): TaskView
  {
    if v.state == Running then v
    else
      var ran := AfterProcess(v.(state := Running), ok);
      ran.(interval := Some(ran.next), live := ran.live + {ran.next}, next := ran.next + 1)
  }

  /** After `stop()`: the timer `interval` names (if any) is cleared and the state is STOPPED;
      `interval` itself keeps the old handle. */
  function AfterStop(v: TaskView): TaskView
  {
    v.(state := Stopped, live := if v.interval.Some? then v.live - {v.interval.value} else v.live)
  }

  class DeletionRulesTask {
    var state: TaskState
    var interval: Option<nat>
    var live: set<nat>
    var next: nat

    function View(): TaskView
      reads this
    {
      TaskView(state, interval, live, next)
    }

    /** A new task is STOPPED, with no timer. */
    constructor ()
      ensures View() == TaskView(Stopped, None, {}, 0)
    {
      state := Stopped;
      interval := None;
      live := {};
      next := 0;
    }

    /** `processRules()`; `ok` says whether the rules ran without throwing. */
    method ProcessRules(ok: bool)
      modifies this`state
      ensures View() == AfterProcess(old(View()), ok)
    {
      if !ok {
        state := Error;
      }
    }

    /** `start()`; `ok` is the outcome of the first run of the rules. */
    method Start(ok: bool)
      modifies this
      ensures View() == AfterStart(old(View()), ok)
    {
      if state == Running {
        return;
      }
      state := Running;
      ProcessRules(ok);
      interval := Some(next);
      live := live + {next};
      next := next + 1;
    }

    /** `stop()`. */
    method Stop()
      modifies this
      ensures View() == AfterStop(old(View()))
    {
      if interval.Some? {
        live := live - {interval.value};
      }
      state := Stopped;
    }

    /** `getState()`. */
    method GetState() returns (s: TaskState)
      ensures s == View().state
    {
      s := state;
    }
  }

  /** Every operation keeps the handles consistent. */
  lemma ValidPreserved(v: TaskView, ok: bool)
    requires Valid(v)
    ensures Valid(AfterStart(v, ok)) && Valid(AfterStop(v)) && Valid(AfterProcess(v, ok))
  {
  }

  /** Only RUNNING blocks `start`: it changes nothing exactly when the task is RUNNING. */
  lemma OnlyRunningBlocksStart(v: TaskView, ok: bool)
    ensures AfterStart(v, ok) == v <==> v.state == Running
  {
  }

  /** From any other state `start` arms a new timer and ends RUNNING, or ERROR when the first run
      threw; the timer is armed either way. */
  lemma StartArms(v: TaskView, ok: bool)
    requires Valid(v) && v.state != Running
    ensures var w := AfterStart(v, ok);
            && w.state == (if ok then Running else Error)
            && w.interval == Some(v.next) && v.next !in v.live && w.live == v.live + {v.next}
  {
  }

  /** `stop` always ends STOPPED with the timer `interval` names cleared, and stopping twice is
      stopping once. */
  lemma StopClears(v: TaskView)
    ensures AfterStop(v).state == Stopped
    ensures v.interval.Some? ==> v.interval.value !in AfterStop(v).live
    ensures AfterStop(AfterStop(v)) == AfterStop(v)
  {
  }

  /** A task started once and stopped leaves no timer behind. */
  lemma StartStopLeavesNoTimer(ok: bool)
    ensures AfterStop(AfterStart(TaskView(Stopped, None, {}, 0), ok)).live == {}
  {
  }

  /** A start whose first run throws leaves the task in ERROR with its timer armed; starting again
      arms a second timer over the first without clearing it, so after `stop` the first timer is
      still live and no field names it. */
  lemma RestartAfterErrorLeaksTimer()
    ensures var first := AfterStart(TaskView(Stopped, None, {}, 0), false);
            var again := AfterStart(first, true);
            var stopped := AfterStop(again);
            && first.state == Error && first.live == {0}
            && again.live == {0, 1} && again.interval == Some(1)
            && stopped.live == {0} && stopped.interval == Some(1)
  {
    var first := AfterStart(TaskView(Stopped, None, {}, 0), false);
    assert first == TaskView(Error, Some(0), {0}, 1);
    var again := AfterStart(first, true);
    assert again == TaskView(Running, Some(1), {0, 1}, 2);
    assert AfterStop(again).live == {0, 1} - {1} == {0};
  }
}
