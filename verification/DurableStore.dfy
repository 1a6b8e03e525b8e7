/**
 The write-behind store of sync anchors: one entry, kept in memory, saved to the host behind the
 caller's back. Writes made while the entry is ready queue one save each; the saves run one after
 another. A failed entry is brought back by `Hydrate`, which saves a dirty entry directly and
 otherwise loads it again, seeding old values where the host has none.
 */
module DurableStore {
  import opened Options

  /** What the entry's values render to: a payload for the host, or something unreadable. */
  datatype Values = Readable(payload: string) | Unreadable

  datatype Status = Untouched | Loading | Ready | Failing

  /** A save on its way to the host, with the change count at which its snapshot was taken. */
  datatype Save = Save(payload: string, sequence: nat)

  /** Saves queued behind the running one, and how the last finished one ended. */
  datatype Chain = Chain(waiting: nat, running: Option<Save>, last: Option<bool>)

  datatype Phase =
    | AtRest
    | Recovering(save: Save)
    | AwaitingLoad
    | Migrating(seeded: string)
    | Verifying(saved: string)

  /** What the host is known to hold or have held. */
  datatype Host = Host(acknowledged: seq<Save>, loaded: seq<string>)

  datatype Memory = Memory(values: Values, changes: nat, dirty: bool, lastReadyWrite: nat)

  datatype Entry = Entry(status: Status, memory: Memory, chain: Chain, phase: Phase, host: Host)

  datatype LoadReply =
    | Loaded(payload: string)
    | Corrupt
    | LoadFailed(legacy: Option<string>)
    | Missing(seeded: string)
    | MissingWithBadLegacy

  datatype Event =
    | Write(values: Values)
    | StartSave
    | SaveReply(ok: bool)
    | Hydrate
    | RecoverReply(ok: bool)
    | LoadReplied(reply: LoadReply)
    | MigrationSaved(envelope: Option<string>)
    | MigrationLoaded(envelope: Option<string>)

  // ----- Steps -----

  function Empty(): Entry {
    Entry(Untouched, Memory(Readable(""), 0, false, 0), Chain(0, None, None), AtRest, Host([], []))
  }

  predicate ChainIdle(c: Chain) {
    c.waiting == 0 && c.running.None?
  }

  function Written(e: Entry, values: Values): Entry {
    var m := e.memory;
    var n := m.changes + 1;
    if e.status.Ready? then
      e.(memory := Memory(values, n, true, n), chain := e.chain.(waiting := e.chain.waiting + 1))
    else
      e.(memory := Memory(values, n, true, m.lastReadyWrite))
  }

  function Snapshot(m: Memory): Option<Save> {
    if m.values.Readable? then Some(Save(m.values.payload, m.changes)) else None
  }

  /** An acknowledged save makes the entry ready, and clean unless something was written meanwhile. */
  function Acknowledged(e: Entry, save: Save): Entry {
    var m := e.memory;
    e.(status := Ready,
       memory := if m.changes == save.sequence then m.(dirty := false) else m,
       host := e.host.(acknowledged := e.host.acknowledged + [save]))
  }

  function SaveStarted(e: Entry): Entry {
    if e.chain.waiting == 0 || e.chain.running.Some? then e
    else
      var snapshot := Snapshot(e.memory);
      if snapshot.None? then
        e.(status := Failing, chain := Chain(e.chain.waiting - 1, None, Some(false)))
      else
        e.(chain := Chain(e.chain.waiting - 1, snapshot, e.chain.last))
  }

  function SaveReplied(e: Entry, ok: bool): Entry {
    if e.chain.running.None? then e
    else
      var e' := if ok then Acknowledged(e, e.chain.running.value) else e.(status := Failing);
      e'.(chain := Chain(e.chain.waiting, None, Some(ok)))
  }

  function Hydrated(e: Entry): Entry {
    if e.status.Ready? || !e.phase.AtRest? then e
    else if e.memory.dirty then
      var snapshot := Snapshot(e.memory);
      if snapshot.None? then e.(status := Failing) else e.(phase := Recovering(snapshot.value))
    else
      e.(status := Loading, phase := AwaitingLoad)
  }

  function RecoverReplied(e: Entry, ok: bool): Entry {
    if !e.phase.Recovering? then e
    else (if ok then Acknowledged(e, e.phase.save) else e.(status := Failing)).(phase := AtRest)
  }

  /** Replaces the values without counting a change. */
  function Seeded(e: Entry, payload: string): Entry {
    e.(memory := e.memory.(values := Readable(payload)))
  }

  function HostLoaded(e: Entry, payload: string): Entry {
    Seeded(e, payload).(status := Ready, phase := AtRest, host := e.host.(loaded := e.host.loaded + [payload]))
  }

  function LoadAnswered(e: Entry, reply: LoadReply): Entry {
    if !e.phase.AwaitingLoad? then e
    else
      match reply
      case Loaded(payload) => HostLoaded(e, payload)
      case Corrupt => e.(status := Failing, phase := AtRest)
      case LoadFailed(legacy) =>
        (if legacy.Some? then Seeded(e, legacy.value) else e).(status := Failing, phase := AtRest)
      case Missing(seeded) => Seeded(e, seeded).(phase := Migrating(seeded))
      case MissingWithBadLegacy => e.(status := Failing, phase := AtRest)
  }

  function Step(e: Entry, event: Event): Entry {
    match event
    case Write(values) => Written(e, values)
    case StartSave => SaveStarted(e)
    case SaveReply(ok) => SaveReplied(e, ok)
    case Hydrate => Hydrated(e)
    case RecoverReply(ok) => RecoverReplied(e, ok)
    case LoadReplied(reply) => LoadAnswered(e, reply)
    case MigrationSaved(envelope) =>
      if !e.phase.Migrating? then e
      else if envelope.None? then e.(status := Failing, phase := AtRest)
      else e.(phase := Verifying(envelope.value))
    case MigrationLoaded(envelope) =>
      if !e.phase.Verifying? then e
      else if envelope != Some(e.phase.saved) then e.(status := Failing, phase := AtRest)
      else HostLoaded(e, e.phase.saved)
  }

  function Run(e: Entry, events: seq<Event>): Entry
    decreases |events|
  {
    if events == [] then e else Run(Step(e, events[0]), events[1..])
  }

  // ----- Flush -----

  /** What holds when `Flush` answers ok: the chain has settled, its last save succeeded, and the entry is ready. */
  predicate FlushAnswersOk(e: Entry) {
    ChainIdle(e.chain) && e.chain.last != Some(false) && e.status.Ready?
  }

  ghost predicate AcknowledgedSince(h: Host, n: nat) {
    exists i :: 0 <= i < |h.acknowledged| && h.acknowledged[i].sequence >= n
  }

  /** The last write made while ready is in a queued, running or failed save, or reached the host. */
  ghost predicate WritesAreCovered(e: Entry) {
    var n := e.memory.lastReadyWrite;
    && n <= e.memory.changes
    && (n > 0 ==>
          || e.chain.waiting > 0
          || (e.chain.running.Some? && e.chain.running.value.sequence >= n)
          || (e.chain.running.None? && e.chain.last == Some(false))
          || AcknowledgedSince(e.host, n))
  }

  lemma AcknowledgementsGrow(h: Host, save: Save, n: nat)
    ensures AcknowledgedSince(h.(acknowledged := h.acknowledged + [save]), n) <==> AcknowledgedSince(h, n) || save.sequence >= n
  {
    var h' := h.(acknowledged := h.acknowledged + [save]);
    assert h'.acknowledged[|h.acknowledged|] == save;
    if AcknowledgedSince(h, n) {
      var i :| 0 <= i < |h.acknowledged| && h.acknowledged[i].sequence >= n;
      assert h'.acknowledged[i].sequence >= n;
    }
  }

  lemma StepKeepsCover(e: Entry, event: Event)
    requires WritesAreCovered(e)
    ensures WritesAreCovered(Step(e, event))
  {
    var n := e.memory.lastReadyWrite;
    if event == SaveReply(true) && e.chain.running.Some? {
      AcknowledgementsGrow(e.host, e.chain.running.value, n);
    } else if event == RecoverReply(true) && e.phase.Recovering? {
      AcknowledgementsGrow(e.host, e.phase.save, n);
    }
  }

  lemma {:induction false} RunKeepsCover(e: Entry, events: seq<Event>)
    requires WritesAreCovered(e)
    ensures WritesAreCovered(Run(e, events))
    decreases |events|
  {
    if events != [] {
      StepKeepsCover(e, events[0]);
      RunKeepsCover(Step(e, events[0]), events[1..]);
    }
  }

  lemma {:induction false} CountersGrow(e: Entry, events: seq<Event>)
    requires WritesAreCovered(e)
    ensures Run(e, events).memory.changes >= e.memory.changes
    ensures Run(e, events).memory.lastReadyWrite >= e.memory.lastReadyWrite
    decreases |events|
  {
    if events != [] {
      StepKeepsCover(e, events[0]);
      CountersGrow(Step(e, events[0]), events[1..]);
    }
  }

  /**
   A write made while the entry is ready, after any earlier events: if `Flush` answers ok after any
   later events, some acknowledged save carried a snapshot taken at that write or after it.
   */
  lemma FlushedWriteReachedHost(before: seq<Event>, values: Values, after: seq<Event>)
    requires Run(Empty(), before).status.Ready?
    requires FlushAnswersOk(Run(Step(Run(Empty(), before), Write(values)), after))
    ensures AcknowledgedSince(Run(Step(Run(Empty(), before), Write(values)), after).host, Run(Empty(), before).memory.changes + 1)
  {
    var e := Run(Empty(), before);
    RunKeepsCover(Empty(), before);
    var w := Step(e, Write(values));
    StepKeepsCover(e, Write(values));
    RunKeepsCover(w, after);
    CountersGrow(w, after);
    var end := Run(w, after);
    var i :| 0 <= i < |end.host.acknowledged| && end.host.acknowledged[i].sequence >= end.memory.lastReadyWrite;
    assert end.host.acknowledged[i].sequence >= e.memory.changes + 1;
  }

  /** How an event ends a save of the chain, if it ends one: by its reply, or at once over unreadable values. */
  function SaveEnded(e: Entry, event: Event): Option<bool> {
    match event
    case SaveReply(ok) => if e.chain.running.Some? then Some(ok) else None
    case StartSave =>
      if e.chain.waiting > 0 && e.chain.running.None? && e.memory.values.Unreadable? then Some(false) else None
    case _ => None
  }

  /** How the last save to end in a run ended. */
  function LastSaveEnded(e: Entry, events: seq<Event>): Option<bool>
    decreases |events|
  {
    if events == [] then None
    else
      var later := LastSaveEnded(Step(e, events[0]), events[1..]);
      if later.Some? then later else SaveEnded(e, events[0])
  }

  lemma {:induction false} LastIsLastSaveEnded(e: Entry, events: seq<Event>)
    ensures Run(e, events).chain.last ==
            if LastSaveEnded(e, events).Some? then LastSaveEnded(e, events) else e.chain.last
    decreases |events|
  {
    if events != [] {
      LastIsLastSaveEnded(Step(e, events[0]), events[1..]);
    }
  }

  /**
   After a failed last save, exactly these runs let `Flush` answer ok again: no save is left queued
   or running, the entry is ready, and the last queued save to end was acknowledged. A recovery does
   not count.
   */
  lemma FlushAnswersAgainIff(e: Entry, events: seq<Event>)
    requires e.chain.last == Some(false)
    ensures var end := Run(e, events);
            FlushAnswersOk(end) <==> ChainIdle(end.chain) && end.status.Ready? && LastSaveEnded(e, events) == Some(true)
  {
    LastIsLastSaveEnded(e, events);
    var ended := LastSaveEnded(e, events);
    if ended.Some? && ended.value {
      assert ended == Some(true);
    }
  }

  /** Whether some event of the run is a write made while the entry is ready. */
  predicate WritesWhileReady(e: Entry, events: seq<Event>)
    decreases |events|
  {
    events != [] && ((events[0].Write? && e.status.Ready?) || WritesWhileReady(Step(e, events[0]), events[1..]))
  }

  /** With nothing queued, that takes a write made while the entry is ready: without one the failure stays. */
  lemma {:induction false} FailureOutlivesRecovery(e: Entry, events: seq<Event>)
    requires ChainIdle(e.chain) && e.chain.last == Some(false) && !WritesWhileReady(e, events)
    ensures !FlushAnswersOk(Run(e, events))
    decreases |events|
  {
    if events != [] {
      FailureOutlivesRecovery(Step(e, events[0]), events[1..]);
    }
  }

  /** And one such write whose save is acknowledged is enough. */
  lemma AcknowledgedWriteEndsTheFailure(e: Entry, payload: string)
    requires ChainIdle(e.chain) && e.status.Ready?
    ensures FlushAnswersOk(Step(Step(Step(e, Write(Readable(payload))), StartSave), SaveReply(true)))
  {
  }

  /** A write whose save fails, and the recovery that then saves everything. */
  function RecoveredAfterFailure(loaded: string, payload: string): Entry {
    var ready := Step(Step(Empty(), Hydrate), LoadReplied(Loaded(loaded)));
    var failed := Step(Step(Step(ready, Write(Readable(payload))), StartSave), SaveReply(false));
    Step(Step(failed, Hydrate), RecoverReply(true))
  }

  /** So an entry can be ready and clean, with everything in memory acknowledged, and still not flush. */
  lemma RecoveredEntryDoesNotFlush(loaded: string, payload: string)
    ensures var e := RecoveredAfterFailure(loaded, payload);
            && e.status.Ready? && !e.memory.dirty && HostHolds(e) && ChainIdle(e.chain) && e.chain.last == Some(false)
            && !FlushAnswersOk(e)
  {
    var e := RecoveredAfterFailure(loaded, payload);
    assert e.host.acknowledged == [Save(payload, 1)];
    assert Save(payload, 1) in e.host.acknowledged;
  }

  // ----- Ready and clean -----

  /** The host has loaded or acknowledged exactly what memory holds. */
  ghost predicate HostHolds(e: Entry) {
    && e.memory.values.Readable?
    && (|| e.memory.values.payload in e.host.loaded
        || exists s :: s in e.host.acknowledged && s.payload == e.memory.values.payload)
  }

  ghost predicate Clean(e: Entry) {
    e.status.Ready? && !e.memory.dirty ==> HostHolds(e)
  }

  /** A save in flight whose count is current carries what memory holds. */
  predicate Current(save: Save, m: Memory) {
    && save.sequence <= m.changes
    && (save.sequence == m.changes ==> m.values == Readable(save.payload))
  }

  predicate Reloading(p: Phase) {
    p.AwaitingLoad? || p.Migrating? || p.Verifying?
  }

  ghost predicate Settled(e: Entry) {
    && (e.chain.running.Some? ==> Current(e.chain.running.value, e.memory))
    && (e.phase.Recovering? ==> Current(e.phase.save, e.memory))
    && (Reloading(e.phase) ==> ChainIdle(e.chain) && e.status.Loading?)
    && (!e.memory.dirty && (e.status.Ready? || !ChainIdle(e.chain) || e.phase.Recovering?) ==> HostHolds(e))
  }

  /** Whether the event would reload a clean entry while one of its saves is queued or running. */
  predicate ReloadsUnderSave(e: Entry, event: Event) {
    event.Hydrate? && !e.status.Ready? && e.phase.AtRest? && !e.memory.dirty && !ChainIdle(e.chain)
  }

  ghost predicate NeverReloadsUnderSave(e: Entry, events: seq<Event>)
    decreases |events|
  {
    events == [] || (!ReloadsUnderSave(e, events[0]) && NeverReloadsUnderSave(Step(e, events[0]), events[1..]))
  }

  lemma ChainStepKeepsSettled(e: Entry, event: Event)
    requires Settled(e) && (event.Write? || event.StartSave? || event.SaveReply?)
    ensures Settled(Step(e, event))
  {
  }

  lemma HydrateStepKeepsSettled(e: Entry, event: Event)
    requires Settled(e) && !ReloadsUnderSave(e, event) && !(event.Write? || event.StartSave? || event.SaveReply?)
    ensures Settled(Step(e, event))
  {
  }

  lemma StepKeepsSettled(e: Entry, event: Event)
    requires Settled(e) && !ReloadsUnderSave(e, event)
    ensures Settled(Step(e, event))
  {
    if event.Write? || event.StartSave? || event.SaveReply? {
      ChainStepKeepsSettled(e, event);
    } else {
      HydrateStepKeepsSettled(e, event);
    }
  }

  /** While clean entries are only reloaded when no save is queued or running, ready and clean means held by the host. */
  lemma {:induction false} ReadyAndCleanIsHeld(e: Entry, events: seq<Event>)
    requires Settled(e) && NeverReloadsUnderSave(e, events)
    ensures Settled(Run(e, events)) && Clean(Run(e, events))
    decreases |events|
  {
    if events != [] {
      StepKeepsSettled(e, events[0]);
      ReadyAndCleanIsHeld(Step(e, events[0]), events[1..]);
    }
  }

  /** In particular from a new entry on. */
  lemma ReadyAndCleanFromStart(events: seq<Event>)
    requires NeverReloadsUnderSave(Empty(), events)
    ensures Clean(Run(Empty(), events))
  {
    ReadyAndCleanIsHeld(Empty(), events);
  }

  // ----- What a flushed write's save carried -----

  /** The values written in a run, in order; the n-th write is element n - 1. */
  function WritesOf(events: seq<Event>): seq<Values>
    decreases |events|
  {
    if events == [] then [] else WrittenBy(events[0]) + WritesOf(events[1..])
  }

  function WrittenBy(event: Event): seq<Values> {
    if event.Write? then [event.values] else []
  }

  /** The save carries what the write with its number put into memory. */
  predicate Carries(save: Save, writes: seq<Values>) {
    1 <= save.sequence <= |writes| && writes[save.sequence - 1] == Readable(save.payload)
  }

  ghost predicate CarriedSince(h: Host, writes: seq<Values>, n: nat) {
    exists i :: 0 <= i < |h.acknowledged| && h.acknowledged[i].sequence >= n && Carries(h.acknowledged[i], writes)
  }

  /** As `WritesAreCovered`, of saves that carry what was written. */
  ghost predicate WritesAreCarried(e: Entry, writes: seq<Values>) {
    var n := e.memory.lastReadyWrite;
    && |writes| == e.memory.changes && n <= |writes|
    && (e.chain.waiting > 0 ==> writes != [] && e.memory.values == writes[|writes| - 1])
    && (e.chain.running.Some? ==> Carries(e.chain.running.value, writes))
    && (n > 0 ==>
          || e.chain.waiting > 0
          || (e.chain.running.Some? && e.chain.running.value.sequence >= n)
          || (e.chain.running.None? && e.chain.last == Some(false))
          || CarriedSince(e.host, writes, n))
  }

  lemma CarriedGrows(h: Host, save: Save, writes: seq<Values>, n: nat)
    ensures CarriedSince(h, writes, n) || (save.sequence >= n && Carries(save, writes))
            ==> CarriedSince(h.(acknowledged := h.acknowledged + [save]), writes, n)
  {
    var h' := h.(acknowledged := h.acknowledged + [save]);
    assert h'.acknowledged[|h.acknowledged|] == save;
    if CarriedSince(h, writes, n) {
      var i :| 0 <= i < |h.acknowledged| && h.acknowledged[i].sequence >= n && Carries(h.acknowledged[i], writes);
      assert h'.acknowledged[i] == h.acknowledged[i];
    }
  }

  lemma CarriedStays(h: Host, writes: seq<Values>, more: seq<Values>, n: nat)
    ensures CarriedSince(h, writes, n) ==> CarriedSince(h, writes + more, n)
  {
    if CarriedSince(h, writes, n) {
      var i :| 0 <= i < |h.acknowledged| && h.acknowledged[i].sequence >= n && Carries(h.acknowledged[i], writes);
      assert Carries(h.acknowledged[i], writes + more);
    }
  }

  lemma StepKeepsCarried(e: Entry, event: Event, writes: seq<Values>)
    requires Settled(e) && WritesAreCarried(e, writes)
    ensures WritesAreCarried(Step(e, event), writes + WrittenBy(event))
  {
    var n := e.memory.lastReadyWrite;
    assert writes + [] == writes;
    match event
    case SaveReply(ok) =>
      if ok && e.chain.running.Some? {
        CarriedGrows(e.host, e.chain.running.value, writes, n);
      }
    case RecoverReply(ok) =>
      if ok && e.phase.Recovering? {
        CarriedGrows(e.host, e.phase.save, writes, n);
      }
    case Write(values) => CarriedStays(e.host, writes, [values], n);
    case _ =>
  }

  lemma WritesUnfold(writes: seq<Values>, events: seq<Event>)
    ensures writes + WritesOf(events) ==
            if events == [] then writes else (writes + WrittenBy(events[0])) + WritesOf(events[1..])
  {
  }

  lemma {:induction false} RunKeepsCarried(e: Entry, events: seq<Event>, writes: seq<Values>)
    requires Settled(e) && NeverReloadsUnderSave(e, events) && WritesAreCarried(e, writes)
    ensures WritesAreCarried(Run(e, events), writes + WritesOf(events))
    decreases |events|
  {
    WritesUnfold(writes, events);
    if events != [] {
      var event := events[0];
      StepKeepsSettled(e, event);
      StepKeepsCarried(e, event, writes);
      RunKeepsCarried(Step(e, event), events[1..], writes + WrittenBy(event));
    }
  }

  lemma {:induction false} RunsJoin(e: Entry, first: seq<Event>, second: seq<Event>)
    ensures Run(e, first + second) == Run(Run(e, first), second)
    ensures NeverReloadsUnderSave(e, first + second) ==> NeverReloadsUnderSave(e, first)
    decreases |first|
  {
    if first == [] {
      assert first + second == second;
    } else {
      assert (first + second)[1..] == first[1..] + second;
      RunsJoin(Step(e, first[0]), first[1..], second);
    }
  }

  /**
   In a run of a new entry that never reloads under a save: if `Flush` answers ok some time after a
   write made while ready, an acknowledged save numbered at or after that write carried exactly what
   the write with its number put into memory.
   */
  lemma FlushedWriteIsCarried(before: seq<Event>, values: Values, after: seq<Event>)
    requires NeverReloadsUnderSave(Empty(), before + [Write(values)] + after)
    requires Run(Empty(), before).status.Ready?
    requires FlushAnswersOk(Run(Empty(), before + [Write(values)] + after))
    ensures CarriedSince(Run(Empty(), before + [Write(values)] + after).host, WritesOf(before + [Write(values)] + after),
                         Run(Empty(), before).memory.changes + 1)
  {
    var events := before + [Write(values)] + after;
    var e := Run(Empty(), before);
    var w := Step(e, Write(values));
    RunsJoin(Empty(), before + [Write(values)], after);
    RunsJoin(Empty(), before, [Write(values)]);
    assert Run(e, [Write(values)]) == Run(w, []);
    RunKeepsCover(Empty(), before);
    StepKeepsCover(e, Write(values));
    CountersGrow(w, after);
    RunKeepsCarried(Empty(), events, []);
    assert [] + WritesOf(events) == WritesOf(events);
    var end := Run(Empty(), events);
    var i :| 0 <= i < |end.host.acknowledged| && end.host.acknowledged[i].sequence >= end.memory.lastReadyWrite
             && Carries(end.host.acknowledged[i], WritesOf(events));
    assert end.host.acknowledged[i].sequence >= e.memory.changes + 1;
  }

  // ----- When a reload is safe -----

  /** The text is longer than any payload the host has seen, so none of them is it. */
  function Longer(h: Host): (r: string)
    ensures r !in h.loaded
    ensures forall s :: s in h.acknowledged ==> s.payload != r
  {
    var a := LongerThanSaves(h.acknowledged);
    var b := LongerThanTexts(h.loaded);
    a + b + "x"
  }

  function LongerThanSaves(saves: seq<Save>): (r: string)
    ensures forall s :: s in saves ==> |s.payload| <= |r|
  {
    if saves == [] then "" else LongerThanSaves(saves[1..]) + saves[0].payload
  }

  function LongerThanTexts(texts: seq<string>): (r: string)
    ensures forall t :: t in texts ==> |t| <= |r|
  {
    if texts == [] then "" else LongerThanTexts(texts[1..]) + texts[0]
  }

  /** The continuation that goes wrong: the load fails, old values are seeded, and then the save is acknowledged. */
  function Misfortune(e: Entry): seq<Event> {
    (if e.chain.running.None? then [StartSave] else [])
    + [LoadReplied(LoadFailed(Some(Longer(SnapshotHost(e))))), SaveReply(true)]
  }

  /** The host as it will be once the running or next save is acknowledged. */
  function SnapshotHost(e: Entry): Host {
    var save := if e.chain.running.Some? then e.chain.running else Snapshot(e.memory);
    if save.Some? then e.host.(acknowledged := e.host.acknowledged + [save.value]) else e.host
  }

  /** From any settled entry about to reload, every continuation stays clean exactly when no save is queued or running. */
  lemma ReloadIsSafeIff(e: Entry)
    requires Settled(e) && !e.status.Ready? && e.phase.AtRest? && !e.memory.dirty
    ensures (forall events :: NeverReloadsUnderSave(Step(e, Hydrate), events) ==> Clean(Run(Step(e, Hydrate), events))) <==> ChainIdle(e.chain)
  {
    var h := Step(e, Hydrate);
    if ChainIdle(e.chain) {
      HydrateStepKeepsSettled(e, Hydrate);
      forall events | NeverReloadsUnderSave(h, events) ensures Clean(Run(h, events)) {
        ReadyAndCleanIsHeld(h, events);
      }
    } else {
      MisfortuneLosesTheHost(e);
    }
  }

  lemma MisfortuneLosesTheHost(e: Entry)
    requires Settled(e) && !e.status.Ready? && e.phase.AtRest? && !e.memory.dirty && !ChainIdle(e.chain)
    ensures NeverReloadsUnderSave(Step(e, Hydrate), Misfortune(e))
    ensures !Clean(Run(Step(e, Hydrate), Misfortune(e)))
  {
    var h := Step(e, Hydrate);
    var text := Longer(SnapshotHost(e));
    var lost := LoadReplied(LoadFailed(Some(text)));
    var started := if e.chain.running.None? then Step(h, StartSave) else h;
    assert started.chain.running.Some? && started.phase.AwaitingLoad?;
    assert started.host.(acknowledged := started.host.acknowledged + [started.chain.running.value]) == SnapshotHost(e);
    var seeded := Step(started, lost);
    var end := Step(seeded, SaveReply(true));
    assert end.host == SnapshotHost(e);
    assert end.status.Ready? && !end.memory.dirty && end.memory.values == Readable(text);
    var tail := [lost, SaveReply(true)];
    assert tail[1..] == [SaveReply(true)] && tail[1..][1..] == [];
    assert NeverReloadsUnderSave(end, []);
    assert NeverReloadsUnderSave(seeded, tail[1..]);
    assert Run(end, []) == end && Run(seeded, tail[1..]) == end;
    assert Run(started, tail) == end;
    if e.chain.running.None? {
      assert Misfortune(e)[0] == StartSave && Misfortune(e)[1..] == tail;
    } else {
      assert Misfortune(e) == tail;
    }
  }

  /** Three writes to a freshly loaded entry, of which the first save succeeds and the second fails. */
  function ThirdSaveLeft(loaded: string, values: string): Entry {
    var ready := Step(Step(Empty(), Hydrate), LoadReplied(Loaded(loaded)));
    var w := Write(Readable(values));
    var written := Step(Step(Step(ready, w), w), w);
    var saved := Step(Step(written, StartSave), SaveReply(true));
    Step(Step(saved, StartSave), SaveReply(false))
  }

  /** So a clean entry about to reload can have a save queued: the condition of `ReloadIsSafeIff` can fail. */
  lemma CleanEntryCanHaveSaveQueued(loaded: string, values: string)
    ensures var e := ThirdSaveLeft(loaded, values);
            Settled(e) && !e.status.Ready? && e.phase.AtRest? && !e.memory.dirty && !ChainIdle(e.chain)
  {
  }

  /** From there a reload can drop a write made while ready: it lands before the load's answer, which replaces it. */
  function WriteDropped(loaded: string, values: string, written: string, reloaded: string): Entry {
    var reloading := Step(ThirdSaveLeft(loaded, values), Hydrate);
    var ready := Step(Step(reloading, StartSave), SaveReply(true));
    var replaced := Step(Step(ready, Write(Readable(written))), LoadReplied(Loaded(reloaded)));
    Step(Step(replaced, StartSave), SaveReply(true))
  }

  /** `Flush` then answers ok although no acknowledged save ever carried that write. */
  lemma ReloadUnderSaveCanDropAWrite(loaded: string, values: string, written: string, reloaded: string)
    requires written != values && written != reloaded
    ensures var reloading := Step(ThirdSaveLeft(loaded, values), Hydrate);
            Step(Step(reloading, StartSave), SaveReply(true)).status.Ready?
    ensures var e := WriteDropped(loaded, values, written, reloaded);
            FlushAnswersOk(e) && forall s :: s in e.host.acknowledged ==> s.payload != written
  {
    var e := WriteDropped(loaded, values, written, reloaded);
    assert e.host.acknowledged == [Save(values, 3), Save(values, 3), Save(reloaded, 4)];
  }

  // ----- The entry in place -----

  class StoredEntry {
    var status: Status
    var values: Values
    var changeSequence: nat
    var dirty: bool
    var waiting: nat
    var running: Option<Save>
    var last: Option<bool>
    var phase: Phase
    ghost var lastReadyWrite: nat
    ghost var host: Host

    ghost function State(): Entry
      reads this
    {
      Entry(status, Memory(values, changeSequence, dirty, lastReadyWrite), Chain(waiting, running, last), phase, host)
    }

    constructor ()
      ensures State() == Empty()
    {
      status, values, changeSequence, dirty := Untouched, Readable(""), 0, false;
      waiting, running, last, phase := 0, None, None, AtRest;
      lastReadyWrite, host := 0, Host([], []);
    }

    /** `setItem` and `removeItem`: change memory, and queue a save when ready. */
    method SetValues(v: Values)
      modifies this
      ensures State() == Step(old(State()), Write(v))
    {
      values := v;
      changeSequence := changeSequence + 1;
      dirty := true;
      if status.Ready? {
        waiting := waiting + 1;
        lastReadyWrite := changeSequence;
      }
    }

    function CurrentSave(): Option<Save>
      reads this
    {
      if values.Readable? then Some(Save(values.payload, changeSequence)) else None
    }

    method Acknowledge(save: Save)
      modifies this
      ensures State() == Acknowledged(old(State()), save)
    {
      status := Ready;
      if changeSequence == save.sequence {
        dirty := false;
      }
      host := host.(acknowledged := host.acknowledged + [save]);
    }

    method StartNextSave()
      modifies this
      ensures State() == Step(old(State()), StartSave)
    {
      if waiting == 0 || running.Some? {
        return;
      }
      waiting := waiting - 1;
      running := CurrentSave();
      if running.None? {
        status, last := Failing, Some(false);
      }
    }

    method FinishSave(ok: bool)
      modifies this
      ensures State() == Step(old(State()), SaveReply(ok))
    {
      if running.None? {
        return;
      }
      if ok {
        Acknowledge(running.value);
      } else {
        status := Failing;
      }
      running, last := None, Some(ok);
    }

    method BeginHydrate()
      modifies this
      ensures State() == Step(old(State()), Hydrate)
    {
      if status.Ready? || !phase.AtRest? {
        return;
      }
      if dirty {
        var save := CurrentSave();
        if save.None? {
          status := Failing;
        } else {
          phase := Recovering(save.value);
        }
      } else {
        status, phase := Loading, AwaitingLoad;
      }
    }

    method FinishRecovery(ok: bool)
      modifies this
      ensures State() == Step(old(State()), RecoverReply(ok))
    {
      if !phase.Recovering? {
        return;
      }
      if ok {
        Acknowledge(phase.save);
      } else {
        status := Failing;
      }
      phase := AtRest;
    }

    method AdoptLoaded(payload: string)
      modifies this
      ensures State() == HostLoaded(old(State()), payload)
    {
      values, status, phase := Readable(payload), Ready, AtRest;
      host := host.(loaded := host.loaded + [payload]);
    }

    method FinishLoad(reply: LoadReply)
      modifies this
      ensures State() == Step(old(State()), LoadReplied(reply))
    {
      if !phase.AwaitingLoad? {
        return;
      }
      match reply {
        case Loaded(payload) =>
          AdoptLoaded(payload);
        case Missing(seeded) =>
          values, phase := Readable(seeded), Migrating(seeded);
        case LoadFailed(legacy) =>
          if legacy.Some? {
            values := Readable(legacy.value);
          }
          status, phase := Failing, AtRest;
        case Corrupt =>
          status, phase := Failing, AtRest;
        case MissingWithBadLegacy =>
          status, phase := Failing, AtRest;
      }
    }

    method FinishMigrationSave(envelope: Option<string>)
      modifies this
      ensures State() == Step(old(State()), MigrationSaved(envelope))
    {
      if phase.Migrating? {
        if envelope.None? {
          status, phase := Failing, AtRest;
        } else {
          phase := Verifying(envelope.value);
        }
      }
    }

    method FinishMigrationLoad(envelope: Option<string>)
      modifies this
      ensures State() == Step(old(State()), MigrationLoaded(envelope))
    {
      if phase.Verifying? {
        if envelope == Some(phase.saved) {
          AdoptLoaded(phase.saved);
        } else {
          status, phase := Failing, AtRest;
        }
      }
    }
  }
}
