/**
 The automatic-sync scheduler: at most one sync in flight, the newest workbook waiting behind a
 timer, and the expected revision of a failed attempt carried over to its retry.
 */
module AutoSync {
  import opened Options

  /** The server revision an upload must replace: not fixed yet, or fixed, `None` meaning absence. */
  datatype Base = Unset | Fixed(revision: Option<nat>)

  datatype Target = Target(userId: string, workbookId: string)

  datatype Entry = Entry(target: Target, workbook: string, base: Base)

  datatype Phase = NoPhase | Waiting | Retrying

  datatype Result = Result(ok: bool, retry: bool, conflict: bool)

  datatype State = State(
    active: Option<Entry>,
    pending: Option<Entry>,
    timer: Option<nat>,
    phase: Phase,
    stopped: bool,
    nextTimer: nat,
    handed: seq<Entry>)

  datatype Event =
    | Enqueue(entry: Entry)
    | TimerFires(timer: nat)
    | FixBase(base: Option<nat>)
    | SyncEnds(result: Result)
    | CancelPending
    | Stop

  // ----- Steps -----

  function Start(): State {
    State(None, None, None, NoPhase, false, 0, [])
  }

  function Carried(source: Option<Entry>, target: Entry): Entry {
    if source.Some? && source.value.target == target.target && source.value.base.Fixed? && target.base.Unset?
    then target.(base := source.value.base)
    else target
  }

  function Schedule(s: State, phase: Phase): State {
    if s.stopped || s.pending.None? then s
    else s.(timer := Some(s.nextTimer), phase := phase, nextTimer := s.nextTimer + 1)
  }

  predicate Complete(e: Entry) {
    e.target.userId != "" && e.target.workbookId != "" && e.workbook != ""
  }

  function Enqueued(s: State, e: Entry): State {
    if s.stopped || !Complete(e) then s
    else Schedule(s.(pending := Some(Carried(s.pending, e))), Waiting)
  }

  function StartPending(s: State): State {
    if s.stopped || s.active.Some? || s.pending.None? then s
    else s.(timer := None, phase := NoPhase, active := s.pending, pending := None, handed := s.handed + [s.pending.value])
  }

  function Fired(s: State, timer: nat): State {
    if s.timer != Some(timer) then s else StartPending(s.(timer := None, phase := NoPhase))
  }

  /** The sync step fixes the revision to replace on its first attempt at an upload. */
  function BaseFixed(s: State, base: Option<nat>): State {
    if s.active.Some? && s.active.value.base.Unset? then s.(active := Some(s.active.value.(base := Fixed(base)))) else s
  }

  predicate Retries(r: Result) {
    !r.ok && r.retry && !r.conflict
  }

  function Ended(s: State, r: Result): State {
    if s.active.None? then s
    else
      var entry := s.active.value;
      var idle := s.(active := None);
      if s.stopped then idle
      else if Retries(r) then
        Schedule(idle.(pending := Some(if s.pending.Some? then Carried(Some(entry), s.pending.value) else entry)), Retrying)
      else if s.pending.Some? then Schedule(idle, Waiting)
      else idle
  }

  function Step(s: State, e: Event): State {
    match e
    case Enqueue(entry) => Enqueued(s, entry)
    case TimerFires(timer) => Fired(s, timer)
    case FixBase(base) => BaseFixed(s, base)
    case SyncEnds(result) => Ended(s, result)
    case CancelPending => s.(pending := None, timer := None, phase := if s.timer.Some? then NoPhase else s.phase)
    case Stop => s.(stopped := true, pending := None, timer := None, phase := if s.timer.Some? then NoPhase else s.phase)
  }

  function Run(s: State, events: seq<Event>): State
    decreases |events|
  {
    if events == [] then s else Run(Step(s, events[0]), events[1..])
  }

  // ----- Progress -----

  /** What waits has a timer or a running sync ahead of it, and a timer always has something to start. */
  ghost predicate Live(s: State) {
    && (s.stopped ==> s.pending.None? && s.timer.None?)
    && (s.pending.Some? ==> s.timer.Some? || s.active.Some?)
    && (s.timer.Some? ==> s.pending.Some? && s.timer.value < s.nextTimer)
    && (s.timer.Some? <==> !s.phase.NoPhase?)
    && (s.pending.Some? ==> Complete(s.pending.value))
    && (s.active.Some? ==> Complete(s.active.value))
  }

  lemma StepKeepsLive(s: State, e: Event)
    requires Live(s)
    ensures Live(Step(s, e))
  {
  }

  lemma {:induction false} RunKeepsLive(s: State, events: seq<Event>)
    requires Live(s)
    ensures Live(Run(s, events))
    decreases |events|
  {
    if events != [] {
      StepKeepsLive(s, events[0]);
      RunKeepsLive(Step(s, events[0]), events[1..]);
    }
  }

  /** How many syncs a run starts and how many it ends. */
  ghost function Started(s: State, events: seq<Event>): nat
    decreases |events|
  {
    if events == [] then 0
    else (if |Step(s, events[0]).handed| > |s.handed| then 1 else 0) + Started(Step(s, events[0]), events[1..])
  }

  ghost function Finished(s: State, events: seq<Event>): nat
    decreases |events|
  {
    if events == [] then 0
    else (if events[0].SyncEnds? && s.active.Some? then 1 else 0) + Finished(Step(s, events[0]), events[1..])
  }

  function InFlight(s: State): nat {
    if s.active.Some? then 1 else 0
  }

  /** Started minus finished is what is in flight, never more than one. */
  lemma {:induction false} SingleFlight(s: State, events: seq<Event>)
    ensures InFlight(s) + Started(s, events) - Finished(s, events) == InFlight(Run(s, events)) <= 1
    decreases |events|
  {
    if events != [] {
      SingleFlight(Step(s, events[0]), events[1..]);
    }
  }

  /** Ends the running sync, if there is one, and fires the timer that is then armed. */
  function Advance(s: State, r: Result): State {
    var s1 := Ended(s, r);
    if s1.timer.Some? then Fired(s1, s1.timer.value) else s1
  }

  /** A waiting entry is the next one handed over, whatever the running sync's result. */
  lemma PendingIsNext(s: State, r: Result)
    requires Live(s) && s.pending.Some?
    ensures var s' := Advance(s, r);
            && |s'.handed| == |s.handed| + 1 && s'.active == Some(s'.handed[|s.handed|])
            && s'.handed[|s.handed|].target == s.pending.value.target
            && s'.handed[|s.handed|].workbook == s.pending.value.workbook
  {
  }

  // ----- The fixed base -----

  /** While an attempt keeps failing retryably: every entry that can still be handed over carries its base. */
  ghost predicate HoldsBase(s: State, target: Target, base: Option<nat>) {
    && !s.stopped
    && (s.active.Some? ==> s.active.value.target == target && s.active.value.base == Fixed(base))
    && (s.active.None? ==> s.pending.Some? && s.pending.value.base == Fixed(base))
    && (s.pending.Some? ==>
          s.pending.value.target == target && (s.pending.value.base == Fixed(base) || s.pending.value.base.Unset?))
  }

  /** Retryable failures, further workbooks for the same target, and timers; nothing is cancelled or stopped. */
  predicate Persists(e: Event, target: Target) {
    match e
    case Enqueue(entry) => entry.target == target && entry.base.Unset?
    case TimerFires(_) => true
    case FixBase(_) => true
    case SyncEnds(result) => Retries(result)
    case CancelPending => false
    case Stop => false
  }

  predicate AllPersist(events: seq<Event>, target: Target) {
    forall i :: 0 <= i < |events| ==> Persists(events[i], target)
  }

  lemma StepHoldsBase(s: State, e: Event, target: Target, base: Option<nat>)
    requires Live(s) && HoldsBase(s, target, base) && Persists(e, target)
    ensures HoldsBase(Step(s, e), target, base)
    ensures Step(s, e).handed == s.handed
         || (|Step(s, e).handed| == |s.handed| + 1 && Step(s, e).handed[..|s.handed|] == s.handed
             && Step(s, e).handed[|s.handed|].target == target && Step(s, e).handed[|s.handed|].base == Fixed(base))
  {
  }

  /**
   However many newer workbooks are enqueued while attempts for one target keep failing retryably,
   every entry handed over is to replace the revision that the first attempt fixed.
   */
  lemma {:induction false} RetriesKeepBase(s: State, events: seq<Event>, target: Target, base: Option<nat>)
    requires Live(s) && HoldsBase(s, target, base) && AllPersist(events, target)
    ensures var end := Run(s, events);
            && HoldsBase(end, target, base)
            && s.handed <= end.handed
            && forall i :: |s.handed| <= i < |end.handed| ==> end.handed[i].target == target && end.handed[i].base == Fixed(base)
    decreases |events|
  {
    if events != [] {
      var s' := Step(s, events[0]);
      StepKeepsLive(s, events[0]);
      StepHoldsBase(s, events[0], target, base);
      RetriesKeepBase(s', events[1..], target, base);
      var end := Run(s, events);
      assert s'.handed <= end.handed;
      forall i | |s.handed| <= i < |end.handed| ensures end.handed[i].target == target && end.handed[i].base == Fixed(base) {
        if i < |s'.handed| {
          assert end.handed[i] == s'.handed[i];
        }
      }
    }
  }

  /** A result that is not retried drops the base: a workbook enqueued meanwhile starts without one. */
  lemma OtherResultsDropBase(s: State, r: Result)
    requires Live(s) && s.active.Some? && !s.stopped && !Retries(r)
    ensures Ended(s, r).pending == s.pending && Ended(s, r).active.None?
    ensures s.pending.Some? <==> Ended(s, r).timer.Some? && Ended(s, r).phase == Waiting
  {
  }

  // ----- The scheduler in place -----

  class Scheduler {
    var activeEntry: Option<Entry>
    var pendingEntry: Option<Entry>
    var scheduledTimer: Option<nat>
    var scheduledPhase: Phase
    var stopped: bool
    var timersMade: nat
    ghost var handed: seq<Entry>

    ghost function Value(): State
      reads this
    {
      State(activeEntry, pendingEntry, scheduledTimer, scheduledPhase, stopped, timersMade, handed)
    }

    constructor ()
      ensures Value() == Start() && Live(Value())
    {
      activeEntry, pendingEntry, scheduledTimer, scheduledPhase := None, None, None, NoPhase;
      stopped, timersMade, handed := false, 0, [];
    }

    method ClearTimer()
      modifies `scheduledTimer, `scheduledPhase
      ensures scheduledTimer.None?
      ensures scheduledPhase == if old(scheduledTimer).Some? then NoPhase else old(scheduledPhase)
    {
      if scheduledTimer.Some? {
        scheduledTimer, scheduledPhase := None, NoPhase;
      }
    }

    method ScheduleSync(phase: Phase)
      modifies this
      ensures Value() == Schedule(old(Value()), phase)
    {
      if stopped || pendingEntry.None? {
        return;
      }
      ClearTimer();
      scheduledPhase := phase;
      scheduledTimer := Some(timersMade);
      timersMade := timersMade + 1;
    }

    method StartPendingSync()
      requires scheduledTimer.None? && scheduledPhase.NoPhase?
      modifies this
      ensures Value() == StartPending(old(Value()))
    {
      if stopped || activeEntry.Some? || pendingEntry.None? {
        return;
      }
      ClearTimer();
      handed := handed + [pendingEntry.value];
      activeEntry := pendingEntry;
      pendingEntry := None;
    }

    method EnqueueEntry(e: Entry) returns (accepted: bool)
      requires Live(Value())
      modifies this
      ensures Value() == Enqueued(old(Value()), e) && Live(Value())
      ensures accepted <==> !old(stopped) && Complete(e)
    {
      StepKeepsLive(Value(), Enqueue(e));
      if stopped || !Complete(e) {
        return false;
      }
      pendingEntry := Some(Carried(pendingEntry, e));
      ScheduleSync(Waiting);
      return true;
    }

    method TimerFired(timer: nat)
      requires Live(Value())
      modifies this
      ensures Value() == Fired(old(Value()), timer) && Live(Value())
    {
      StepKeepsLive(Value(), TimerFires(timer));
      if scheduledTimer != Some(timer) {
        return;
      }
      scheduledTimer, scheduledPhase := None, NoPhase;
      StartPendingSync();
    }

    /** The sync step assigns the expected revision on the entry it was handed, once. */
    method FixExpectedRevision(base: Option<nat>)
      requires Live(Value())
      modifies `activeEntry
      ensures Value() == BaseFixed(old(Value()), base) && Live(Value())
    {
      if activeEntry.Some? && activeEntry.value.base.Unset? {
        activeEntry := Some(activeEntry.value.(base := Fixed(base)));
      }
    }

    method SyncEnded(r: Result)
      requires Live(Value())
      modifies this
      ensures Value() == Ended(old(Value()), r) && Live(Value())
    {
      StepKeepsLive(Value(), SyncEnds(r));
      if activeEntry.None? {
        return;
      }
      var entry := activeEntry.value;
      activeEntry := None;
      if stopped {
        return;
      }
      if Retries(r) {
        if pendingEntry.Some? {
          pendingEntry := Some(Carried(Some(entry), pendingEntry.value));
        } else {
          pendingEntry := Some(entry);
        }
        ScheduleSync(Retrying);
      } else if pendingEntry.Some? {
        ScheduleSync(Waiting);
      }
    }

    method Cancel()
      requires Live(Value())
      modifies this
      ensures Value() == Step(old(Value()), CancelPending) && Live(Value())
    {
      pendingEntry := None;
      ClearTimer();
    }

    method StopAll()
      requires Live(Value())
      modifies this
      ensures Value() == Step(old(Value()), Stop) && Live(Value())
    {
      stopped, pendingEntry := true, None;
      ClearTimer();
    }
  }
}
