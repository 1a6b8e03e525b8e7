/**
 The local save scheduler: requests to save the workbook are merged into one pending entry while a
 save runs or a debounce timer is armed. Only the newest workbook of an entry is saved.

 Requests are numbered in the order they arrive, entries in the order they are started; the
 promise a caller gets is the number of its entry.
 */
module SaveScheduler {
  import opened Options

  type Workbook = string

  datatype Operation = Default | Custom(name: string)

  datatype Request = Request(workbook: Workbook, automatic: bool, custom: Option<string>)

  /** A merged entry and the requests, `first` to `last`, that it answers. */
  datatype Entry = Entry(
    workbook: Workbook,
    hasAutomatic: bool,
    ready: bool,
    perform: Operation,
    preserveOperation: bool,
    first: nat,
    last: nat)

  datatype State = State(
    active: Option<Entry>,
    pending: Option<Entry>,
    timer: Option<nat>,
    nextTimer: nat,
    requests: seq<Request>,
    performed: seq<Entry>)

  datatype Event = Enqueue(request: Request) | TimerFires(timer: nat) | SaveEnds | Flush

  // ----- Steps -----

  function Start(): State {
    State(None, None, None, 0, [], [])
  }

  function StartPending(s: State): State {
    if s.active.Some? || s.pending.None? || !s.pending.value.ready then s
    else s.(timer := None, active := s.pending, pending := None)
  }

  function Fresh(r: Request, index: nat): Entry {
    var operation := if r.custom.Some? then Custom(r.custom.value) else Default;
    Entry(r.workbook, r.automatic, !r.automatic, operation, r.custom.Some?, index, index)
  }

  function Merged(e: Entry, r: Request, index: nat): Entry {
    Entry(
      r.workbook,
      e.hasAutomatic || r.automatic,
      e.ready || !r.automatic,
      if r.custom.Some? then Custom(r.custom.value) else if e.preserveOperation then e.perform else Default,
      e.preserveOperation || r.custom.Some?,
      e.first,
      index)
  }

  function Enqueued(s: State, r: Request): State {
    var index := |s.requests|;
    var e := if s.pending.Some? then Merged(s.pending.value, r, index) else Fresh(r, index);
    var s' := s.(pending := Some(e), requests := s.requests + [r]);
    if e.ready then StartPending(s'.(timer := None))
    else s'.(timer := Some(s.nextTimer), nextTimer := s.nextTimer + 1)
  }

  function Fired(s: State, timer: nat): State {
    if s.timer != Some(timer) then s
    else
      var s' := s.(timer := None);
      StartPending(if s.pending.Some? then s'.(pending := Some(s.pending.value.(ready := true))) else s')
  }

  function Ended(s: State): State {
    if s.active.None? then s
    else StartPending(s.(active := None, performed := s.performed + [s.active.value]))
  }

  function Flushed(s: State): State {
    if s.pending.None? then s
    else StartPending(s.(timer := None, pending := Some(s.pending.value.(ready := true))))
  }

  function Step(s: State, e: Event): State {
    match e
    case Enqueue(r) => Enqueued(s, r)
    case TimerFires(timer) => Fired(s, timer)
    case SaveEnds => Ended(s)
    case Flush => Flushed(s)
  }

  function Run(s: State, events: seq<Event>): State
    decreases |events|
  {
    if events == [] then s else Run(Step(s, events[0]), events[1..])
  }

  // ----- What an entry owes to its requests -----

  /** The operation of the last custom request between two positions, if there is one. */
  function LastCustom(requests: seq<Request>, first: nat, last: nat): Operation
    requires first <= last < |requests|
    decreases last - first
  {
    if requests[last].custom.Some? then Custom(requests[last].custom.value)
    else if first == last then Default
    else LastCustom(requests, first, last - 1)
  }

  ghost predicate Answers(e: Entry, requests: seq<Request>) {
    && e.first <= e.last < |requests|
    && e.workbook == requests[e.last].workbook
    && e.perform == LastCustom(requests, e.first, e.last)
    && (e.preserveOperation <==> exists i :: e.first <= i <= e.last && requests[i].custom.Some?)
    && (e.hasAutomatic <==> exists i :: e.first <= i <= e.last && requests[i].automatic)
    && ((exists i :: e.first <= i <= e.last && !requests[i].automatic) ==> e.ready)
  }

  lemma {:induction false} LastCustomIsStable(requests: seq<Request>, r: Request, first: nat, last: nat)
    requires first <= last < |requests|
    ensures LastCustom(requests + [r], first, last) == LastCustom(requests, first, last)
    decreases last - first
  {
    if first < last {
      LastCustomIsStable(requests, r, first, last - 1);
    }
  }

  lemma {:induction false} NoCustomMeansDefault(requests: seq<Request>, first: nat, last: nat)
    requires first <= last < |requests|
    ensures (forall i :: first <= i <= last ==> requests[i].custom.None?) ==> LastCustom(requests, first, last) == Default
    decreases last - first
  {
    if first < last {
      NoCustomMeansDefault(requests, first, last - 1);
    }
  }

  lemma AnswersIsStable(e: Entry, requests: seq<Request>, r: Request)
    requires Answers(e, requests)
    ensures Answers(e, requests + [r])
  {
    var later := requests + [r];
    LastCustomIsStable(requests, r, e.first, e.last);
    assert forall i :: e.first <= i <= e.last ==> later[i] == requests[i];
  }

  lemma FreshAnswers(requests: seq<Request>, r: Request)
    ensures Answers(Fresh(r, |requests|), requests + [r])
  {
  }

  lemma MergedAnswers(e: Entry, requests: seq<Request>, r: Request)
    requires Answers(e, requests) && e.last == |requests| - 1
    ensures Answers(Merged(e, r, |requests|), requests + [r])
  {
    var later := requests + [r];
    AnswersIsStable(e, requests, r);
    NoCustomMeansDefault(later, e.first, e.last);
    assert later[|requests|] == r;
    assert forall i :: e.first <= i <= |requests| ==> i <= e.last || later[i] == r;
    var m := Merged(e, r, |requests|);
    assert LastCustom(later, e.first, |requests|) ==
           if r.custom.Some? then Custom(r.custom.value) else LastCustom(later, e.first, e.last);
    assert m.hasAutomatic <==> exists i :: m.first <= i <= m.last && later[i].automatic;
    assert m.preserveOperation <==> exists i :: m.first <= i <= m.last && later[i].custom.Some?;
  }

  // ----- The invariant -----

  /** The performed entries take the requests in order, from `0` up to but not including `next`. */
  ghost predicate Consecutive(performed: seq<Entry>, next: nat)
    decreases |performed|
  {
    if performed == [] then next == 0
    else
      var e := performed[|performed| - 1];
      e.first <= e.last && e.last + 1 == next && Consecutive(performed[..|performed| - 1], e.first)
  }

  function AfterActive(s: State): nat {
    if s.active.Some? then s.active.value.last + 1
    else if s.performed != [] then s.performed[|s.performed| - 1].last + 1
    else 0
  }

  /** One save at a time; a ready entry waits only for the running save, an unready one only for its timer. */
  ghost predicate Busy(s: State) {
    && (s.pending.Some? && s.pending.value.ready ==> s.active.Some?)
    && (s.pending.Some? && !s.pending.value.ready <==> s.timer.Some?)
    && (s.timer.Some? ==> s.timer.value < s.nextTimer)
  }

  /** Every request is in exactly one entry, in order: performed, then active, then pending. */
  ghost predicate Partitioned(s: State) {
    && Consecutive(s.performed, if s.active.Some? then s.active.value.first else AfterActive(s))
    && (s.pending.Some? ==> s.pending.value.first == AfterActive(s) && s.pending.value.last + 1 == |s.requests|)
    && (s.pending.None? ==> AfterActive(s) == |s.requests|)
  }

  ghost predicate Answering(s: State) {
    && (forall e :: e in s.performed ==> Answers(e, s.requests))
    && (s.active.Some? ==> Answers(s.active.value, s.requests))
    && (s.pending.Some? ==> Answers(s.pending.value, s.requests))
  }

  ghost predicate Inv(s: State) {
    Busy(s) && Partitioned(s) && Answering(s)
  }

  lemma StartPendingKeepsInv(s: State)
    requires Partitioned(s) && Answering(s)
    requires s.pending.Some? && !s.pending.value.ready <==> s.timer.Some?
    requires s.timer.Some? ==> s.timer.value < s.nextTimer
    ensures Inv(StartPending(s))
  {
  }

  lemma EnqueueKeepsInv(s: State, r: Request)
    requires Inv(s)
    ensures Inv(Enqueued(s, r))
  {
    var later := s.requests + [r];
    forall e | e in s.performed ensures Answers(e, later) {
      AnswersIsStable(e, s.requests, r);
    }
    if s.active.Some? {
      AnswersIsStable(s.active.value, s.requests, r);
    }
    if s.pending.Some? {
      MergedAnswers(s.pending.value, s.requests, r);
    } else {
      FreshAnswers(s.requests, r);
    }
    var index := |s.requests|;
    var e := if s.pending.Some? then Merged(s.pending.value, r, index) else Fresh(r, index);
    if e.ready {
      StartPendingKeepsInv(s.(pending := Some(e), requests := later, timer := None));
    }
  }

  lemma EndKeepsInv(s: State)
    requires Inv(s)
    ensures Inv(Ended(s))
  {
  }

  lemma StepKeepsInv(s: State, e: Event)
    requires Inv(s)
    ensures Inv(Step(s, e))
  {
    match e
    case Enqueue(r) => EnqueueKeepsInv(s, r);
    case SaveEnds => EndKeepsInv(s);
    case TimerFires(timer) =>
      if s.timer == Some(timer) {
        StartPendingKeepsInv(s.(timer := None, pending := Some(s.pending.value.(ready := true))));
      }
    case Flush =>
      if s.pending.Some? {
        StartPendingKeepsInv(s.(timer := None, pending := Some(s.pending.value.(ready := true))));
      }
  }

  lemma {:induction false} RunKeepsInv(s: State, events: seq<Event>)
    requires Inv(s)
    ensures Inv(Run(s, events))
    decreases |events|
  {
    if events != [] {
      StepKeepsInv(s, events[0]);
      RunKeepsInv(Step(s, events[0]), events[1..]);
    }
  }

  // ----- Exactly once -----

  predicate Covers(e: Entry, i: nat) {
    e.first <= i <= e.last
  }

  lemma {:induction false} PerformedExactlyOnce(performed: seq<Entry>, next: nat, i: nat)
    requires Consecutive(performed, next) && i < next
    ensures exists k :: 0 <= k < |performed| && Covers(performed[k], i)
    ensures forall j, k :: 0 <= j < k < |performed| ==> !(Covers(performed[j], i) && Covers(performed[k], i))
    decreases |performed|
  {
    var n := |performed| - 1;
    var e, rest := performed[n], performed[..n];
    BelowNext(rest, e.first);
    if i < e.first {
      PerformedExactlyOnce(rest, e.first, i);
      var k :| 0 <= k < |rest| && Covers(rest[k], i);
      assert Covers(performed[k], i);
    } else {
      assert Covers(performed[n], i);
      assert forall k :: 0 <= k < n ==> performed[k] == rest[k];
    }
    forall j, k | 0 <= j < k < |performed| ensures !(Covers(performed[j], i) && Covers(performed[k], i)) {
      assert performed[j] == rest[j];
      if k < n {
        assert performed[k] == rest[k];
      }
    }
  }

  lemma {:induction false} BelowNext(performed: seq<Entry>, next: nat)
    requires Consecutive(performed, next)
    ensures forall k :: 0 <= k < |performed| ==> performed[k].last < next
    decreases |performed|
  {
    if performed != [] {
      var n := |performed| - 1;
      BelowNext(performed[..n], performed[n].first);
      forall k | 0 <= k < |performed| ensures performed[k].last < next {
        if k < n {
          assert performed[k] == performed[..n][k];
        }
      }
    }
  }

  /** When nothing is left to do, every request was answered by exactly one save, of a workbook at least as new as its own. */
  lemma IdleMeansAllSaved(s: State, i: nat)
    requires Inv(s) && s.active.None? && s.pending.None? && i < |s.requests|
    ensures exists k :: 0 <= k < |s.performed| && Covers(s.performed[k], i)
                        && s.performed[k].last < |s.requests|
                        && s.performed[k].workbook == s.requests[s.performed[k].last].workbook
    ensures forall j, k :: 0 <= j < k < |s.performed| ==> !(Covers(s.performed[j], i) && Covers(s.performed[k], i))
  {
    PerformedExactlyOnce(s.performed, |s.requests|, i);
    var k :| 0 <= k < |s.performed| && Covers(s.performed[k], i);
    assert s.performed[k] in s.performed;
  }

  // ----- Promises -----

  /** The promise a flush or a request gets: the number its entry will have among the performed ones. */
  function PendingPromise(s: State): nat {
    |s.performed| + if s.active.Some? then 1 else 0
  }

  /** What `Flush` answers with: the pending entry's promise, else the active one's, else at once. */
  function FlushPromise(s: State): Option<nat> {
    if s.pending.Some? then Some(PendingPromise(s))
    else if s.active.Some? then Some(|s.performed|)
    else None
  }

  /** The promise that `Enqueue` returned, read off the state after it. */
  function EnqueuePromise(s: State): nat {
    if s.pending.Some? then PendingPromise(s) else |s.performed|
  }

  /** Entry number `k`, wherever it is by now, saves request `target` or a newer one. */
  ghost predicate Serves(s: State, k: nat, target: nat) {
    if k < |s.performed| then s.performed[k].last >= target
    else if s.active.Some? && k == |s.performed| then s.active.value.last >= target
    else s.pending.Some? && k == PendingPromise(s) && s.pending.value.last >= target
  }

  lemma StepKeepsServing(s: State, e: Event, k: nat, target: nat)
    requires Inv(s) && Serves(s, k, target)
    ensures Serves(Step(s, e), k, target)
  {
  }

  lemma {:induction false} RunKeepsServing(s: State, events: seq<Event>, k: nat, target: nat)
    requires Inv(s) && Serves(s, k, target)
    ensures Serves(Run(s, events), k, target)
    decreases |events|
  {
    if events != [] {
      StepKeepsInv(s, events[0]);
      StepKeepsServing(s, events[0], k, target);
      RunKeepsServing(Step(s, events[0]), events[1..], k, target);
    }
  }

  /** A request's promise settles, whatever happens, with a save of its own workbook or a newer one. */
  lemma EnqueueSettlesWithNewest(s: State, r: Request, events: seq<Event>)
    requires Inv(s)
    ensures var s' := Enqueued(s, r);
            var k, end := EnqueuePromise(s'), Run(s', events);
            k < |end.performed| ==> |s.requests| <= end.performed[k].last < |end.requests|
                                    && end.performed[k].workbook == end.requests[end.performed[k].last].workbook
  {
    var s' := Enqueued(s, r);
    EnqueueKeepsInv(s, r);
    var k, end := EnqueuePromise(s'), Run(s', events);
    assert Serves(s', k, |s.requests|);
    RunKeepsServing(s', events, k, |s.requests|);
    RunKeepsInv(s', events);
    if k < |end.performed| {
      assert end.performed[k] in end.performed;
    }
  }

  /** A flush settles only once the newest workbook enqueued before it, or a newer one, was saved. */
  lemma FlushSettlesAfterNewest(s: State, events: seq<Event>)
    requires Inv(s) && s.requests != []
    ensures match FlushPromise(s)
            case Some(k) =>
              var end := Run(Flushed(s), events);
              k < |end.performed| ==> end.performed[k].last >= |s.requests| - 1
            case None =>
              s.performed != [] && s.performed[|s.performed| - 1].last == |s.requests| - 1
  {
    if FlushPromise(s).Some? {
      var k := FlushPromise(s).value;
      StepKeepsInv(s, Flush);
      assert Serves(Flushed(s), k, |s.requests| - 1);
      RunKeepsServing(Flushed(s), events, k, |s.requests| - 1);
    }
  }

  /** A flush and the end of at most two saves leave nothing undone. */
  lemma FlushDrains(s: State)
    requires Inv(s)
    ensures var end := Ended(Ended(Flushed(s)));
            end.active.None? && end.pending.None? && end.requests == s.requests
  {
  }

  // ----- The scheduler in place -----

  class Scheduler {
    var activeSave: Option<Entry>
    var pendingSave: Option<Entry>
    var debounceTimer: Option<nat>
    var timersMade: nat
    /** Every request so far; only its length and the merged entries matter to the scheduler. */
    var requests: seq<Request>
    ghost var performed: seq<Entry>

    ghost function Value(): State
      reads this
    {
      State(activeSave, pendingSave, debounceTimer, timersMade, requests, performed)
    }

    constructor ()
      ensures Value() == Start() && Inv(Value())
    {
      activeSave, pendingSave, debounceTimer, timersMade := None, None, None, 0;
      requests, performed := [], [];
    }

    method StartPendingSave()
      modifies this
      ensures Value() == StartPending(old(Value()))
    {
      if activeSave.Some? || pendingSave.None? || !pendingSave.value.ready {
        return;
      }
      debounceTimer := None;
      activeSave := pendingSave;
      pendingSave := None;
    }

    method ArmDebounceTimer()
      modifies `debounceTimer, `timersMade
      ensures debounceTimer == Some(old(timersMade)) && timersMade == old(timersMade) + 1
    {
      debounceTimer := Some(timersMade);
      timersMade := timersMade + 1;
    }

    method Enqueue(r: Request)
      requires Inv(Value())
      modifies this
      ensures Value() == Enqueued(old(Value()), r) && Inv(Value())
    {
      EnqueueKeepsInv(Value(), r);
      var index := |requests|;
      requests := requests + [r];
      if pendingSave.Some? {
        pendingSave := Some(Merged(pendingSave.value, r, index));
      } else {
        pendingSave := Some(Fresh(r, index));
      }
      if pendingSave.value.ready {
        debounceTimer := None;
        StartPendingSave();
      } else {
        ArmDebounceTimer();
      }
    }

    method TimerFired(timer: nat)
      requires Inv(Value())
      modifies this
      ensures Value() == Fired(old(Value()), timer) && Inv(Value())
    {
      StepKeepsInv(Value(), TimerFires(timer));
      if debounceTimer != Some(timer) {
        return;
      }
      debounceTimer := None;
      if pendingSave.Some? {
        pendingSave := Some(pendingSave.value.(ready := true));
      }
      StartPendingSave();
    }

    /** A perform settled, either way; the next ready entry starts at once. */
    method SaveEnded()
      requires Inv(Value())
      modifies this
      ensures Value() == Ended(old(Value())) && Inv(Value())
    {
      EndKeepsInv(Value());
      if activeSave.Some? {
        performed := performed + [activeSave.value];
        activeSave := None;
        StartPendingSave();
      }
    }

    method FlushPending()
      requires Inv(Value())
      modifies this
      ensures Value() == Flushed(old(Value())) && Inv(Value())
    {
      StepKeepsInv(Value(), Flush);
      if pendingSave.Some? {
        pendingSave := Some(pendingSave.value.(ready := true));
        debounceTimer := None;
        StartPendingSave();
      }
    }
  }
}
