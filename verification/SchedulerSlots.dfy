/** The scheduler's slots. What every reachable state keeps of them, and exactly which steps cost an
    unfinished run its slot. */
module SchedulerSlots {
  import opened VersionedStore
  import opened Scheduler

  // ----- What every run keeps -----

  ghost predicate ReadOk(s: State, read: Versioned<Schedule>) {
    && read.version < s.next
    && (VersionOf(s.schedule) == Some(read.version) ==> s.schedule.value == read)
    && ScheduleOk(read.value)
  }

  ghost predicate RowOk(s: State, key: Key, row: Versioned<Stored>) {
    && row.version < s.next && row.value.run.key == key
    && (RunCurrent(s, key, row) ==> s.runs[key] == row)
  }

  /** At most 16 slots, one per run; a next time exactly while the schedule is active. */
  ghost predicate ScheduleOk(v: Schedule) {
    && Distinct(v.reservations) && |v.reservations| <= MAX_SLOTS
    && (forall r :: r in v.reservations ==> r.phase == Dispatching)
    && (v.status == Active <==> v.nextRunAt.Some?)
  }

  function ReadOf(task: Task): Option<Versioned<Schedule>> {
    match task
    case Reserving(_, _, read, _, _) => Some(read)
    case ReleaseSaving(_, _, read) => Some(read)
    case ChangeReady(_, read) => Some(read)
    case Saving(read, _) => Some(read)
    case DeleteSaving(read) => Some(read)
    case Recovering(read, _, _) => Some(read)
    case RecoverWriting(read, _, _, _) => Some(read)
    case RecoverSaving(read, _, _) => Some(read)
    case _ => None
  }

  /** The row of a dispatch on its way. */
  function RowOf(task: Task): Option<Versioned<Stored>> {
    match task
    case Dispatch(row) => Some(row)
    case Awaiting(row) => Some(row)
    case Recording(row, _) => Some(row)
    case RecordingUnknown(row) => Some(row)
    case _ => None
  }

  ghost predicate TaskOk(s: State, task: Task) {
    && (ReadOf(task).Some? ==> ReadOk(s, ReadOf(task).value))
    && (RowOf(task).Some? ==> RowOf(task).value.value.run.phase == Dispatching &&
                              RowOk(s, RowOf(task).value.value.run.key, RowOf(task).value))
    && match task
       case Reserving(run, auto, read, time, at) =>
         run.phase == Dispatching && time < at && Admits(read.value, run.key, run.scheduledFor, auto, time)
       case Creating(run) => run.phase == Dispatching
       case CompleteSaving(key, row) => RowOk(s, key, row)
       case Saving(read, update) => ScheduleOk(update) && update.reservations == read.value.reservations
       case DeleteSaving(read) => read.value.reservations == []
       case Sweeping => s.schedule.None?
       case RecoverWriting(read, i, _, found) =>
         && i < |read.value.reservations|
         && (found.Some? ==> RowOk(s, read.value.reservations[i].key, found.value) && found.value.value.run.phase == Dispatching)
       case RecoverSaving(read, _, nextRunAt) => read.value.status == Active <==> nextRunAt.Some?
       case _ => true
  }

  ghost predicate Rows(s: State) {
    && (s.schedule.Some? ==> s.schedule.value.version < s.next && ScheduleOk(s.schedule.value.value))
    && forall k :: k in s.runs ==> s.runs[k].version < s.next && s.runs[k].value.run.key == k
  }

  ghost predicate Tasks(s: State) {
    forall t :: t in s.tasks ==> TaskOk(s, s.tasks[t])
  }

  ghost predicate Inv(s: State) {
    Rows(s) && Tasks(s)
  }

  // ----- Frames -----

  ghost predicate Later(s: State, u: State) {
    && s.next <= u.next
    && (u.schedule == s.schedule || u.schedule.None? || u.schedule.value.version >= s.next)
    && (s.schedule.None? ==> u.schedule.None?)
    && (forall k :: k in u.runs ==> (k in s.runs && u.runs[k] == s.runs[k]) || u.runs[k].version >= s.next)
  }

  lemma TaskKept(s: State, u: State, task: Task)
    requires TaskOk(s, task) && Later(s, u)
    ensures TaskOk(u, task)
  {
  }

  ghost predicate OnlyTask(s: State, u: State, t: nat) {
    u.tasks == s.tasks || u.tasks == s.tasks - {t} || (t in u.tasks && u.tasks == s.tasks[t := u.tasks[t]])
  }

  lemma TasksKept(s: State, u: State, t: nat)
    requires Tasks(s) && Later(s, u) && OnlyTask(s, u, t)
    requires t in u.tasks && u.tasks != s.tasks ==> TaskOk(u, u.tasks[t])
    ensures Tasks(u)
  {
    forall c | c in u.tasks && (c != t || u.tasks == s.tasks) ensures TaskOk(u, u.tasks[c]) { TaskKept(s, u, s.tasks[c]); }
  }

  // ----- Steps by what they write -----

  /** Nothing: the task ended, or went on to a promise it can keep. */
  lemma NothingWritten(s: State, u: State, t: nat)
    requires Inv(s) && u == s.(now := u.now, tasks := u.tasks, log := u.log) && OnlyTask(s, u, t)
    requires t in u.tasks && u.tasks != s.tasks ==> TaskOk(s, u.tasks[t])
    ensures Inv(u)
  {
    if t in u.tasks && u.tasks != s.tasks { TaskKept(s, u, u.tasks[t]); }
    TasksKept(s, u, t);
  }

  /** The schedule, or its deletion; the task ended, or holds no snapshot any more. */
  lemma ScheduleWritten(s: State, u: State, t: nat)
    requires Inv(s) && s.schedule.Some? && u.runs == s.runs && u.next == s.next + 1 && OnlyTask(s, u, t)
    requires u.schedule.Some? ==> u.schedule.value.version == s.next && ScheduleOk(u.schedule.value.value)
    requires t in u.tasks && u.tasks != s.tasks ==>
      (u.tasks[t].Sweeping? && u.schedule.None?) || (u.tasks[t].Creating? && u.tasks[t].run.phase == Dispatching)
    ensures Inv(u)
  {
    TasksKept(s, u, t);
  }

  /** One run record, or the deletion of one. */
  lemma RunWritten(s: State, u: State, t: nat, key: Key)
    requires Inv(s) && u.schedule == s.schedule && u.next == s.next + 1 && OnlyTask(s, u, t)
    requires u.runs == s.runs - {key} ||
      (key in u.runs && u.runs == s.runs[key := u.runs[key]] && u.runs[key].version == s.next && u.runs[key].value.run.key == key)
    requires t in u.tasks && u.tasks != s.tasks ==> TaskOk(u, u.tasks[t])
    ensures Inv(u)
  {
    TasksKept(s, u, t);
  }

  // ----- Each step -----

  predicate Reads(task: Task) {
    task.Firing? || task.FireReading? || task.Dispatch? || task.Awaiting? || task.ReleaseReading? || task.Completing?
  }

  predicate Edits(task: Task) {
    task.Changing? || task.ChangeReady? || task.Deleting? || task.Sweeping?
  }

  lemma EditingStep(s: State, t: nat, at: int)
    requires Inv(s) && t in s.tasks && Edits(s.tasks[t])
    ensures Inv(Advance(s, t, at, false))
  {
    assert TaskOk(s, s.tasks[t]);
    NothingWritten(s, Advance(s, t, at, false), t);
  }

  /** The steps that write nothing. */
  lemma ReadingStep(s: State, t: nat, at: int)
    requires Inv(s) && t in s.tasks && Reads(s.tasks[t])
    ensures Inv(Advance(s, t, at, false))
  {
    assert TaskOk(s, s.tasks[t]);
    NothingWritten(s, Advance(s, t, at, false), t);
  }

  lemma TickStep(s: State, t: nat, at: int, saturated: bool)
    requires Inv(s) && t in s.tasks && s.tasks[t].TickReading?
    ensures Inv(Advance(s, t, at, saturated))
  {
    NothingWritten(s, Advance(s, t, at, saturated), t);
  }

  lemma RecoverStep(s: State, t: nat, at: int)
    requires Inv(s) && t in s.tasks && s.tasks[t].Recovering?
    ensures Inv(Advance(s, t, at, false))
  {
    assert TaskOk(s, s.tasks[t]);
    NothingWritten(s, Advance(s, t, at, false), t);
  }

  lemma ReserveOk(v: Schedule, run: Run, auto: bool, time: int, at: int)
    requires ScheduleOk(v) && run.phase == Dispatching && Admits(v, run.key, run.scheduledFor, auto, time)
    ensures ScheduleOk(Reserve(v, run, at))
  {
  }

  predicate Saves(task: Task) {
    task.Reserving? || task.ReleaseSaving? || task.Saving? || task.DeleteSaving? || task.RecoverSaving?
  }

  /** The compare and swaps of the schedule. */
  lemma SavingStep(s: State, t: nat, at: int)
    requires Inv(s) && t in s.tasks && Saves(s.tasks[t])
    ensures Inv(Advance(s, t, at, false))
  {
    var u := Advance(s, t, at, false);
    assert TaskOk(s, s.tasks[t]);
    if s.tasks[t].Reserving? {
      var Reserving(run, auto, read, time, next) := s.tasks[t];
      ReserveOk(read.value, run, auto, time, next);
    }
    if u.next == s.next { NothingWritten(s, u, t); } else { ScheduleWritten(s, u, t); }
  }

  /** The writes of run records. */
  lemma RecordingStep(s: State, t: nat, at: int)
    requires Inv(s) && t in s.tasks && (s.tasks[t].Creating? || s.tasks[t].Recording? || s.tasks[t].RecordingUnknown? || s.tasks[t].CompleteSaving?)
    ensures Inv(Advance(s, t, at, false))
  {
    var u, task := Advance(s, t, at, false), s.tasks[t];
    assert TaskOk(s, task);
    if u.next == s.next { NothingWritten(s, u, t); }
    else {
      RunWritten(s, u, t, if task.Creating? then task.run.key else if task.CompleteSaving? then task.key else task.row.value.run.key);
    }
  }

  lemma RecoverWriteStep(s: State, t: nat, at: int)
    requires Inv(s) && t in s.tasks && s.tasks[t].RecoverWriting?
    ensures Inv(Advance(s, t, at, false))
  {
    var RecoverWriting(read, i, dropped, found) := s.tasks[t];
    var u := Advance(s, t, at, false);
    assert TaskOk(s, s.tasks[t]);
    if u.next == s.next { NothingWritten(s, u, t); } else { RunWritten(s, u, t, read.value.reservations[i].key); }
  }

  lemma AdvanceKeepsInv(s: State, t: nat, at: int, saturated: bool)
    requires Inv(s) && t in s.tasks
    ensures Inv(Advance(s, t, at, saturated))
  {
    var task := s.tasks[t];
    if task.TickReading? { TickStep(s, t, at, saturated); }
    else if Reads(task) { ReadingStep(s, t, at); }
    else if Edits(task) { EditingStep(s, t, at); }
    else if Saves(task) { SavingStep(s, t, at); }
    else if task.Recovering? { RecoverStep(s, t, at); }
    else if task.RecoverWriting? { RecoverWriteStep(s, t, at); }
    else { RecordingStep(s, t, at); }
  }

  lemma ThrowStep(s: State, t: nat, applied: bool)
    requires Inv(s) && t in s.tasks
    ensures Inv(Apply(s, Throw(t, applied)))
  {
    var u := Apply(s, Throw(t, applied));
    assert TaskOk(s, s.tasks[t]);
    if u.next == s.next { NothingWritten(s, u, t); } else { RunWritten(s, u, t, s.tasks[t].row.value.run.key); }
  }

  predicate Starts(action: Action) {
    action.StartFire? || action.StartTick? || action.StartChange? || action.StartDelete? || action.StartComplete? ||
    action.StartRecover?
  }

  lemma StartStep(s: State, action: Action)
    requires Inv(s) && Starts(action)
    ensures Inv(Apply(s, action))
  {
    NothingWritten(s, Apply(s, action), action.t);
  }

  lemma StepKeepsInv(s: State, action: Action)
    requires Inv(s)
    ensures Inv(Apply(s, action))
  {
    var u := Apply(s, action);
    match action
    case Step(t, at, saturated) => if t in s.tasks { AdvanceKeepsInv(s, t, at, saturated); }
    case Throw(t, applied) => if t in s.tasks { ThrowStep(s, t, applied); }
    case Prune(key, _) => if u != s { RunWritten(s, u, 0, key); }
    case Sweep(_, key) => if u != s { RunWritten(s, u, 0, key); }
    case Tick(_) => NothingWritten(s, u, 0);
    case Reply(t, _) => if t in s.tasks { assert TaskOk(s, s.tasks[t]); NothingWritten(s, u, t); }
    case Lose(t) => NothingWritten(s, u, t);
    case _ => StartStep(s, action);
  }

  lemma {:induction false} RunKeepsInv(s: State, actions: seq<Action>)
    requires Inv(s)
    ensures Inv(RunAll(s, actions))
    decreases |actions|
  {
    if actions != [] {
      StepKeepsInv(s, actions[0]);
      RunKeepsInv(Apply(s, actions[0]), actions[1..]);
    }
  }

  /** The schedule is active exactly while it has a next run time. */
  lemma ActiveHasNextRun(now: int, schedule: Schedule, actions: seq<Action>)
    requires Fresh(schedule)
    ensures var s := RunAll(Init(now, schedule), actions);
      s.schedule.Some? ==> (s.schedule.value.value.status == Active <==> s.schedule.value.value.nextRunAt.Some?)
  {
    RunKeepsInv(Init(now, schedule), actions);
  }

  /** There are at most sixteen slots, and no run has two of them. */
  lemma SlotsAreFewAndDistinct(now: int, schedule: Schedule, actions: seq<Action>)
    requires Fresh(schedule)
    ensures var s := RunAll(Init(now, schedule), actions);
      s.schedule.Some? ==>
        && |s.schedule.value.value.reservations| <= 16
        && forall i, j :: 0 <= i < j < |s.schedule.value.value.reservations| ==>
             s.schedule.value.value.reservations[i].key != s.schedule.value.value.reservations[j].key
  {
    RunKeepsInv(Init(now, schedule), actions);
  }

  // ----- The promise to an unfinished run -----

  ghost predicate Slot(s: State, key: Key) {
    s.schedule.Some? && HasSlot(s.schedule.value.value.reservations, key)
  }

  ghost predicate Unfinished(s: State, key: Key) {
    key in s.runs && s.runs[key].value.run.phase != Finished
  }

  /** A run record that is dispatching, running or unknown has its slot. */
  ghost predicate Promise(s: State, key: Key) {
    Unfinished(s, key) ==> Slot(s, key)
  }

  ghost predicate Current(s: State, read: Versioned<Schedule>) {
    VersionOf(s.schedule) == Some(read.version)
  }

  /** The steps that cost the run its slot. A release, or the save of a recovery, gives up the slot
      of a run that is not finished; a fire, or a recovery, creates the record of a run without one. */
  ghost predicate Costs(s: State, action: Action, key: Key) {
    && action.Step? && action.t in s.tasks
    && match s.tasks[action.t]
       case ReleaseSaving(released, _, read) => Current(s, read) && released == key && Unfinished(s, key)
       case RecoverSaving(read, dropped, _) => Current(s, read) && key in dropped && Unfinished(s, key)
       case Creating(run) => run.key == key && key !in s.runs && !Slot(s, key)
       case RecoverWriting(read, i, _, found) =>
         i < |read.value.reservations| && read.value.reservations[i].key == key && found.None? && key !in s.runs && !Slot(s, key)
       case _ => false
  }

  /** Slots of every key but those in `dropped` are as they were, and those are gone. */
  lemma SlotsWithout(rs: seq<Run>, dropped: set<Key>, key: Key)
    ensures HasSlot(Without(rs, dropped), key) <==> HasSlot(rs, key) && key !in dropped
  {
    if HasSlot(rs, key) && key !in dropped {
      var r :| r in rs && r.key == key;
      assert r in Without(rs, dropped);
    }
  }

  lemma SlotsWith(v: Schedule, run: Run, at: int, key: Key)
    ensures HasSlot(Reserve(v, run, at).reservations, key) <==> HasSlot(v.reservations, key) || run.key == key
  {
    var more := v.reservations + [run];
    assert run in more && forall r :: r in more <==> r in v.reservations || r == run;
  }

  /** A task that gives up slots, or is about to. */
  predicate GivesUp(task: Task) {
    task.ReleaseSaving? || task.RecoverSaving?
  }

  lemma GivingUpIff(s: State, t: nat, at: int, key: Key)
    requires Inv(s) && Promise(s, key) && t in s.tasks && GivesUp(s.tasks[t])
    ensures Promise(Advance(s, t, at, false), key) <==> !Costs(s, Step(t, at, false), key)
  {
    assert TaskOk(s, s.tasks[t]);
    match s.tasks[t]
    case ReleaseSaving(released, _, read) => SlotsWithout(read.value.reservations, {released}, key);
    case RecoverSaving(read, dropped, _) => SlotsWithout(read.value.reservations, dropped, key);
  }

  lemma CreatingIff(s: State, t: nat, at: int, key: Key)
    requires Inv(s) && Promise(s, key) && t in s.tasks && s.tasks[t].Creating?
    ensures Promise(Advance(s, t, at, false), key) <==> !Costs(s, Step(t, at, false), key)
  {
    assert TaskOk(s, s.tasks[t]);
  }

  lemma RecoveringIff(s: State, t: nat, at: int, key: Key)
    requires Inv(s) && Promise(s, key) && t in s.tasks && s.tasks[t].RecoverWriting?
    ensures Promise(Advance(s, t, at, false), key) <==> !Costs(s, Step(t, at, false), key)
  {
    assert TaskOk(s, s.tasks[t]);
  }

  lemma ReservingKeeps(s: State, t: nat, at: int, key: Key)
    requires Inv(s) && Promise(s, key) && t in s.tasks && s.tasks[t].Reserving?
    ensures Promise(Advance(s, t, at, false), key)
  {
    assert TaskOk(s, s.tasks[t]);
    var Reserving(run, _, read, _, next) := s.tasks[t];
    SlotsWith(read.value, run, next, key);
  }

  lemma RecordingKeeps(s: State, t: nat, at: int, key: Key)
    requires Inv(s) && Promise(s, key) && t in s.tasks
    requires s.tasks[t].Recording? || s.tasks[t].RecordingUnknown? || s.tasks[t].CompleteSaving?
    ensures Promise(Advance(s, t, at, false), key)
  {
    assert TaskOk(s, s.tasks[t]);
  }

  lemma EditingKeeps(s: State, t: nat, at: int, key: Key)
    requires Inv(s) && Promise(s, key) && t in s.tasks && (s.tasks[t].Saving? || s.tasks[t].DeleteSaving?)
    ensures Promise(Advance(s, t, at, false), key)
  {
    assert TaskOk(s, s.tasks[t]);
  }

  predicate Writes(task: Task) {
    GivesUp(task) || task.Creating? || task.RecoverWriting? || task.Reserving? || task.Recording? || task.RecordingUnknown? ||
    task.CompleteSaving? || task.Saving? || task.DeleteSaving?
  }

  lemma ReadingWritesNothing(s: State, t: nat, at: int, saturated: bool)
    requires t in s.tasks && !Writes(s.tasks[t])
    ensures var u := Advance(s, t, at, saturated); u.schedule == s.schedule && u.runs == s.runs
  {
  }

  /** One step of anybody: an unfinished run keeps its slot exactly when the step is none of the four. */
  lemma StepKeepsPromiseIff(s: State, action: Action, key: Key)
    requires Inv(s) && Promise(s, key)
    ensures Promise(Apply(s, action), key) <==> !Costs(s, action, key)
  {
    if action.Step? && action.t in s.tasks {
      var t, at, task := action.t, action.at, s.tasks[action.t];
      if GivesUp(task) { GivingUpIff(s, t, at, key); }
      else if task.Creating? { CreatingIff(s, t, at, key); }
      else if task.RecoverWriting? { RecoveringIff(s, t, at, key); }
      else if task.Reserving? { ReservingKeeps(s, t, at, key); }
      else if task.Saving? || task.DeleteSaving? { EditingKeeps(s, t, at, key); }
      else if Writes(task) { RecordingKeeps(s, t, at, key); }
      else { ReadingWritesNothing(s, t, at, action.saturated); }
    } else if action.Throw? && action.t in s.tasks {
      assert TaskOk(s, s.tasks[action.t]);
    } else if action.Sweep? && action.t in s.tasks {
      assert TaskOk(s, s.tasks[action.t]);
    }
  }

  // ----- Every run -----

  ghost predicate OneSlot(rs: seq<Run>, key: Key) {
    exists i :: 0 <= i < |rs| && rs[i].key == key && forall j :: 0 <= j < |rs| && rs[j].key == key ==> j == i
  }

  ghost predicate UnfinishedHoldsOne(s: State, key: Key) {
    key in s.runs && s.runs[key].value.run.phase != Finished ==>
      s.schedule.Some? && OneSlot(s.schedule.value.value.reservations, key)
  }

  /** At every point of the run, the promise holds. */
  ghost predicate AlwaysHolds(s: State, actions: seq<Action>, key: Key)
    decreases |actions|
  {
    UnfinishedHoldsOne(s, key) && (actions != [] ==> AlwaysHolds(Apply(s, actions[0]), actions[1..], key))
  }

  /** No step of the run is one of the four. */
  ghost predicate NeverCosts(s: State, actions: seq<Action>, key: Key)
    decreases |actions|
  {
    actions != [] ==> !Costs(s, actions[0], key) && NeverCosts(Apply(s, actions[0]), actions[1..], key)
  }

  lemma PromiseIsOneSlot(s: State, key: Key)
    requires Inv(s)
    ensures Promise(s, key) <==> UnfinishedHoldsOne(s, key)
  {
    if Unfinished(s, key) && Slot(s, key) {
      var rs := s.schedule.value.value.reservations;
      var r :| r in rs && r.key == key;
      var i :| 0 <= i < |rs| && rs[i] == r;
    }
  }

  lemma {:induction false} RunHoldsIff(s: State, actions: seq<Action>, key: Key)
    requires Inv(s) && Promise(s, key)
    ensures AlwaysHolds(s, actions, key) <==> NeverCosts(s, actions, key)
    decreases |actions|
  {
    PromiseIsOneSlot(s, key);
    if actions != [] {
      var u := Apply(s, actions[0]);
      StepKeepsInv(s, actions[0]);
      StepKeepsPromiseIff(s, actions[0], key);
      PromiseIsOneSlot(u, key);
      if Promise(u, key) { RunHoldsIff(u, actions[1..], key); }
    }
  }

  /** Over every run of a schedule from its creation: at every point the run's record, while it is
      dispatching, running or unknown, has exactly one reservation, if and only if no step of the run
      gives up the slot of an unfinished run or creates a record without one. */
  lemma UnfinishedRunsHoldOneSlotIff(now: int, schedule: Schedule, actions: seq<Action>, key: Key)
    requires Fresh(schedule)
    ensures AlwaysHolds(Init(now, schedule), actions, key) <==> NeverCosts(Init(now, schedule), actions, key)
  {
    RunHoldsIff(Init(now, schedule), actions, key);
  }
}
