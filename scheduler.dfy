/**
 * The simulation scheduler (src/services/graph/draw/simulation-scheduler.ts):
 * a debounce with a deadline. Every update re-arms a short debounce timer;
 * the first update after a run also arms a max-wait timer measured from the
 * start of the last run; whichever fires first starts a run, unless one is
 * in progress or nothing is pending.
 *
 * Time is a millisecond count passed to every operation (`Date.now()`), and
 * a timer is the handle held in its slot. A Node.js timeout handle stays
 * truthy after it has fired, so a slot is Cleared (`null`), Armed with a
 * deadline, or Fired. The run itself is split into `Trigger`, which starts
 * it, and `FinishRun`, the `finally` that ends it whether it succeeded or threw.
 */
module Scheduling {
  datatype TimerSlot = Cleared | Armed(deadline: int) | Fired

  /** The fields of one scheduler. */
  datatype Scheduler = Scheduler(
    isRunning: bool,
    receivedUpdates: bool,
    lastRun: int,
    debounceTimer: TimerSlot,
    maxTimer: TimerSlot,
    debounceMs: int,
    maxWaitMs: int)

  function MaxInt(a: int, b: int): (r: int)
    ensures r >= a && r >= b && (r == a || r == b)
  {
    if a >= b then a else b
  }

  /** A scheduler constructed at time `now`: idle, nothing pending, no timers. */
  function Initial(now: int, debounceMs: int, maxWaitMs: int): Scheduler
  {
    Scheduler(false, false, now, Cleared, Cleared, debounceMs, maxWaitMs)
  }

  /** `resetDebounceTimer`: whatever the slot held, it now holds a timer due `debounceMs` from now. */
  function ResetDebounce(s: Scheduler, now: int): Scheduler
  {
    s.(debounceTimer := Armed(now + s.debounceMs))
  }

  /** `scheduleMaxWaitTimer`: arms a timer for what is left of `maxWaitMs` since the last run, unless the slot is taken. */
  function ScheduleMaxWait(s: Scheduler, now: int): Scheduler
  {
    if s.maxTimer != Cleared then s
    else s.(maxTimer := Armed(now + MaxInt(0, s.maxWaitMs - (now - s.lastRun))))
  }

  /** `notifyUpdate`. */
  function Notified(s: Scheduler, now: int): Scheduler
  {
    ScheduleMaxWait(ResetDebounce(s.(receivedUpdates := true), now), now)
  }

  /** `clearTimers`. */
  function ClearedTimers(s: Scheduler): Scheduler
  {
    s.(debounceTimer := Cleared, maxTimer := Cleared)
  }

  /** Whether `trigger` starts a run. */
  predicate Starts(s: Scheduler)
  {
    !s.isRunning && s.receivedUpdates
  }

  /** `trigger` up to the awaited run. */
  function Triggered(s: Scheduler, now: int): Scheduler
  {
    if !Starts(s) then s
    else ClearedTimers(s).(isRunning := true, lastRun := now, receivedUpdates := false)
  }

  /** The `finally` of `trigger`. */
  function Finished(s: Scheduler): Scheduler
  {
    s.(isRunning := false)
  }

  /** The debounce timer calls `trigger`; its handle stays in the slot. */
  function DebounceFired(s: Scheduler, now: int): Scheduler
  {
    Triggered(s.(debounceTimer := Fired), now)
  }

  /** The max-wait timer calls `trigger`; its handle stays in the slot. */
  function MaxFired(s: Scheduler, now: int): Scheduler
  {
    Triggered(s.(maxTimer := Fired), now)
  }

  /** The max-wait callback as intended: a timer that has fired no longer occupies its slot. */
  function MaxFiredCorrected(s: Scheduler, now: int): Scheduler
  {
    Triggered(s.(maxTimer := Cleared), now)
  }

  /** The debounce callback as intended, likewise. */
  function DebounceFiredCorrected(s: Scheduler, now: int): Scheduler
  {
    Triggered(s.(debounceTimer := Cleared), now)
  }

  /** What can happen next: an update, a due timer, or the end of the run in progress. */
  datatype Event = Update(now: int) | DebounceDue(now: int) | MaxWaitDue(now: int) | RunEnds

  /** A timer fires only when armed and due. */
  predicate Due(slot: TimerSlot, now: int)
  {
    slot.Armed? && slot.deadline <= now
  }

  /** One event on the scheduler as written; an event that cannot happen changes nothing. */
  function Step(s: Scheduler, e: Event): Scheduler
  {
    match e
    case Update(now) => Notified(s, now)
    case DebounceDue(now) => if Due(s.debounceTimer, now) then DebounceFired(s, now) else s
    case MaxWaitDue(now) => if Due(s.maxTimer, now) then MaxFired(s, now) else s
    case RunEnds => if s.isRunning then Finished(s) else s
  }

  /** One event on the corrected scheduler. */
  function StepCorrected(s: Scheduler, e: Event): Scheduler
  {
    match e
    case Update(now) => Notified(s, now)
    case DebounceDue(now) => if Due(s.debounceTimer, now) then DebounceFiredCorrected(s, now) else s
    case MaxWaitDue(now) => if Due(s.maxTimer, now) then MaxFiredCorrected(s, now) else s
    case RunEnds => if s.isRunning then Finished(s) else s
  }

  function Run(s: Scheduler, events: seq<Event>): Scheduler
    decreases |events|
  {
    if |events| == 0 then s else Run(Step(s, events[0]), events[1..])
  }

  function RunCorrected(s: Scheduler, events: seq<Event>): Scheduler
    decreases |events|
  {
    if |events| == 0 then s else RunCorrected(StepCorrected(s, events[0]), events[1..])
  }

  /** No slot holds a handle that has already fired. */
  predicate NoStaleHandle(s: Scheduler)
  {
    s.debounceTimer != Fired && s.maxTimer != Fired
  }

  /**
   * An update marks work pending and re-arms the debounce timer to
   * `debounceMs` from now; nothing else but the max-wait slot changes.
   */
  lemma NotifyArmsDebounce(s: Scheduler, now: int)
    ensures Notified(s, now).receivedUpdates
    ensures Notified(s, now).debounceTimer == Armed(now + s.debounceMs)
    ensures Notified(s, now).isRunning == s.isRunning && Notified(s, now).lastRun == s.lastRun
  {
  }

  /**
   * The max-wait timer is armed only when its slot is empty, due
   * `maxWaitMs` after the last run started but never before now; later
   * updates leave it where it is.
   */
  lemma MaxWaitDeadline(s: Scheduler, now: int)
    ensures s.maxTimer == Cleared ==> Notified(s, now).maxTimer == Armed(MaxInt(now, s.lastRun + s.maxWaitMs))
    ensures s.maxTimer != Cleared ==> Notified(s, now).maxTimer == s.maxTimer
  {
    if s.maxTimer == Cleared {
      var remaining := MaxInt(0, s.maxWaitMs - (now - s.lastRun));
      assert now + remaining == MaxInt(now, s.lastRun + s.maxWaitMs);
    }
  }

  /**
   * `trigger` changes nothing while a run is in progress or nothing is
   * pending; otherwise it clears both timers and starts a run at `now`
   * with nothing pending.
   */
  lemma TriggerOutcome(s: Scheduler, now: int)
    ensures !Starts(s) ==> Triggered(s, now) == s
    ensures Starts(s) ==>
      && Triggered(s, now).isRunning && !Triggered(s, now).receivedUpdates
      && Triggered(s, now).lastRun == now
      && Triggered(s, now).debounceTimer == Cleared && Triggered(s, now).maxTimer == Cleared
    ensures Triggered(s, now).debounceMs == s.debounceMs && Triggered(s, now).maxWaitMs == s.maxWaitMs
  {
  }

  /**
   * While a run is in progress no event but its end starts or stops
   * anything, and an update received during it is still pending when it
   * ends.
   */
  lemma {:induction false} PendingSurvivesRun(s: Scheduler, events: seq<Event>)
    requires s.isRunning
    requires forall i | 0 <= i < |events| :: events[i] != RunEnds
    ensures Run(s, events).isRunning
    ensures Run(s, events).lastRun == s.lastRun
    ensures s.receivedUpdates ==> Run(s, events).receivedUpdates
    ensures (exists i | 0 <= i < |events| :: events[i].Update?) ==> Run(s, events).receivedUpdates
    ensures Finished(Run(s, events)).receivedUpdates == Run(s, events).receivedUpdates
    decreases |events|
  {
    if |events| > 0 {
      var next := Step(s, events[0]);
      assert next.isRunning && next.lastRun == s.lastRun;
      assert s.receivedUpdates || events[0].Update? ==> next.receivedUpdates;
      PendingSurvivesRun(next, events[1..]);
      if exists i | 0 <= i < |events| :: events[i].Update? {
        var i :| 0 <= i < |events| && events[i].Update?;
        if i > 0 {
          assert events[1..][i - 1].Update?;
        }
      }
    }
  }

  /** With the corrected callbacks no slot ever holds a fired handle. */
  lemma {:induction false} CorrectedKeepsNoStaleHandle(s: Scheduler, events: seq<Event>)
    requires NoStaleHandle(s)
    ensures NoStaleHandle(RunCorrected(s, events))
    decreases |events|
  {
    if |events| > 0 {
      var next := StepCorrected(s, events[0]);
      assert NoStaleHandle(next);
      CorrectedKeepsNoStaleHandle(next, events[1..]);
    }
  }

  /**
   * With the corrected callbacks, every update in any history leaves a
   * max-wait timer armed, so a steady stream of updates cannot postpone a
   * run past its deadline.
   */
  lemma CorrectedUpdateArmsMaxWait(now0: int, debounceMs: int, maxWaitMs: int, events: seq<Event>, now: int)
    ensures Notified(RunCorrected(Initial(now0, debounceMs, maxWaitMs), events), now).maxTimer.Armed?
  {
    CorrectedKeepsNoStaleHandle(Initial(now0, debounceMs, maxWaitMs), events);
  }

  /** The history of the scheduler as written that shows the stale max-wait handle. */
  function StaleHandleHistory(): seq<Event>
  {
    [ Update(0),        // debounce due at 10, max-wait due at 100
      DebounceDue(10),  // starts a run; lastRun = 10
      Update(20),       // debounce due at 30, max-wait due at 110
      DebounceDue(30),  // the run is still in progress: no effect
      MaxWaitDue(110),  // likewise; the fired handle stays in the slot
      RunEnds,
      Update(200) ]     // the max-wait slot looks taken: no deadline is armed
  }

  /**
   * As written: after this history an update is pending, no run is in
   * progress, and the max-wait slot holds a fired handle, so only the
   * debounce timer can start the next run, and each further update moves it.
   */
  lemma StaleHandleStarves()
    ensures Run(Initial(0, 10, 100), StaleHandleHistory()).receivedUpdates
    ensures !Run(Initial(0, 10, 100), StaleHandleHistory()).isRunning
    ensures Run(Initial(0, 10, 100), StaleHandleHistory()).maxTimer == Fired
    ensures !Notified(Run(Initial(0, 10, 100), StaleHandleHistory()), 205).maxTimer.Armed?
  {
    var s0 := Initial(0, 10, 100);
    var s1 := Step(s0, Update(0));
    assert s1.debounceTimer == Armed(10) && s1.maxTimer == Armed(100);
    var s2 := Step(s1, DebounceDue(10));
    assert s2.isRunning && s2.lastRun == 10 && s2.maxTimer == Cleared;
    var s3 := Step(s2, Update(20));
    assert s3.maxTimer == Armed(110);
    var s4 := Step(s3, DebounceDue(30));
    var s5 := Step(s4, MaxWaitDue(110));
    assert s5.maxTimer == Fired && s5.receivedUpdates;
    var s6 := Step(s5, RunEnds);
    var s7 := Step(s6, Update(200));
    assert s7.maxTimer == Fired && s7.receivedUpdates && !s7.isRunning;
    var h := StaleHandleHistory();
    assert Run(s0, h) == Run(s1, h[1..]);
    assert Run(s1, h[1..]) == Run(s2, h[2..]);
    assert Run(s2, h[2..]) == Run(s3, h[3..]);
    assert Run(s3, h[3..]) == Run(s4, h[4..]);
    assert Run(s4, h[4..]) == Run(s5, h[5..]);
    assert Run(s5, h[5..]) == Run(s6, h[6..]);
    assert Run(s6, h[6..]) == Run(s7, h[7..]);
  }

  /** The scheduler object; `run` is not part of it, its start and end are `Trigger` and `FinishRun`. */
  class SimulationScheduler {
    var isRunning: bool
    var receivedUpdates: bool
    var lastRun: int
    var debounceTimer: TimerSlot
    var maxTimer: TimerSlot
    const debounceMs: int
    const maxWaitMs: int

    function State(): Scheduler
      reads this
    {
      Scheduler(isRunning, receivedUpdates, lastRun, debounceTimer, maxTimer, debounceMs, maxWaitMs)
    }

    constructor(now: int, debounce: int, maxWait: int)
      ensures State() == Initial(now, debounce, maxWait)
    {
      isRunning := false;
      receivedUpdates := false;
      lastRun := now;
      debounceTimer := Cleared;
      maxTimer := Cleared;
      debounceMs := debounce;
      maxWaitMs := maxWait;
    }

    method NotifyUpdate(now: int)
      modifies this
      ensures State() == Notified(old(State()), now)
    {
      receivedUpdates := true;
      ResetDebounceTimer(now);
      ScheduleMaxWaitTimer(now);
    }

    method ResetDebounceTimer(now: int)
      modifies this
      ensures State() == ResetDebounce(old(State()), now)
    {
      if debounceTimer != Cleared {
        debounceTimer := Cleared;
      }
      debounceTimer := Armed(now + debounceMs);
    }

    method ScheduleMaxWaitTimer(now: int)
      modifies this
      ensures State() == ScheduleMaxWait(old(State()), now)
    {
      if maxTimer != Cleared {
        return;
      }
      var elapsed := now - lastRun;
      var remaining := MaxInt(0, maxWaitMs - elapsed);
      maxTimer := Armed(now + remaining);
    }

    method ClearTimers()
      modifies this
      ensures State() == ClearedTimers(old(State()))
    {
      if debounceTimer != Cleared {
        debounceTimer := Cleared;
      }
      if maxTimer != Cleared {
        maxTimer := Cleared;
      }
    }

    /** `trigger` up to `await this.run()`; `started` says whether the run is started. */
    method Trigger(now: int) returns (started: bool)
      modifies this
      ensures started == Starts(old(State()))
      ensures State() == Triggered(old(State()), now)
    {
      if isRunning || !receivedUpdates {
        return false;
      }
      ClearTimers();
      isRunning := true;
      lastRun := now;
      receivedUpdates := false;
      started := true;
    }

    /** The `finally` after the run resolves or rejects. */
    method FinishRun()
      modifies this
      ensures State() == Finished(old(State()))
    {
      isRunning := false;
    }

    /** The debounce timer's callback. */
    method DebounceTimerFires(now: int) returns (started: bool)
      modifies this
      ensures started == Starts(old(State()))
      ensures State() == DebounceFired(old(State()), now)
    {
      debounceTimer := Fired;
      started := Trigger(now);
    }

    /** The max-wait timer's callback. */
    method MaxTimerFires(now: int) returns (started: bool)
      modifies this
      ensures started == Starts(old(State()))
      ensures State() == MaxFired(old(State()), now)
    {
      maxTimer := Fired;
      started := Trigger(now);
    }

    /** The max-wait timer's callback as intended: it first releases its slot. */
    method MaxTimerFiresCorrected(now: int) returns (started: bool)
      modifies this
      ensures started == Starts(old(State()))
      ensures State() == MaxFiredCorrected(old(State()), now)
    {
      maxTimer := Cleared;
      started := Trigger(now);
    }

    /** The debounce timer's callback as intended. */
    method DebounceTimerFiresCorrected(now: int) returns (started: bool)
      modifies this
      ensures started == Starts(old(State()))
      ensures State() == DebounceFiredCorrected(old(State()), now)
    {
      debounceTimer := Cleared;
      started := Trigger(now);
    }
  }
}
