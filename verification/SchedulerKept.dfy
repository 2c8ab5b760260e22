/** Where the promise of one slot does hold: for every run whose record is deleted, if at all, only
    when no task relies on it any more, and so for every run whose record is kept. */
module SchedulerKept {
  import opened VersionedStore
  import opened Scheduler
  import opened SchedulerSlots

  ghost predicate FinishedRun(s: State, key: Key) {
    key in s.runs && s.runs[key].value.run.phase == Finished
  }

  ghost predicate Known(s: State, key: Key) {
    key in s.runs || Slot(s, key)
  }

  /** What a task takes for granted of the run. */
  ghost predicate Relied(s: State, task: Task, key: Key) {
    match task
    case Creating(run) => run.key == key ==> Known(s, key)
    case ReleaseReading(released, _) => released == key ==> FinishedRun(s, key)
    case ReleaseSaving(released, _, _) => released == key ==> FinishedRun(s, key)
    case Recovering(read, _, dropped) => (key in dropped ==> FinishedRun(s, key)) && (HasSlot(read.value.reservations, key) ==> Known(s, key))
    case RecoverWriting(read, _, dropped, _) =>
      (key in dropped ==> FinishedRun(s, key)) && (HasSlot(read.value.reservations, key) ==> Known(s, key))
    case RecoverSaving(_, dropped, _) => key in dropped ==> FinishedRun(s, key)
    case _ => true
  }

  /** The task does take something for granted of it. */
  predicate Relies(task: Task, key: Key) {
    match task
    case Creating(run) => run.key == key
    case ReleaseReading(released, _) => released == key
    case ReleaseSaving(released, _, _) => released == key
    case Recovering(read, _, dropped) => key in dropped || HasSlot(read.value.reservations, key)
    case RecoverWriting(read, _, dropped, _) => key in dropped || HasSlot(read.value.reservations, key)
    case RecoverSaving(_, dropped, _) => key in dropped
    case _ => false
  }

  ghost predicate AllRelied(s: State, key: Key) {
    forall t :: t in s.tasks ==> Relied(s, s.tasks[t], key)
  }

  /** What is known of the run stays known, and a finished run stays finished. */
  ghost predicate Stays(s: State, u: State, key: Key) {
    (Known(s, key) ==> Known(u, key)) && (FinishedRun(s, key) ==> FinishedRun(u, key))
  }

  lemma AllStay(s: State, u: State, t: nat, key: Key)
    requires AllRelied(s, key) && Stays(s, u, key) && OnlyTask(s, u, t)
    requires t in u.tasks && u.tasks != s.tasks ==> Relied(u, u.tasks[t], key)
    ensures AllRelied(u, key)
  {
    forall c | c in u.tasks && (c != t || u.tasks == s.tasks) ensures Relied(u, u.tasks[c], key) {
      assert Relied(s, s.tasks[c], key);
    }
  }

  /** A promise relied on is not broken. */
  lemma ReliedCostsNothing(s: State, action: Action, key: Key)
    requires Inv(s) && AllRelied(s, key)
    ensures !Costs(s, action, key)
  {
    if action.Step? && action.t in s.tasks {
      assert TaskOk(s, s.tasks[action.t]) && Relied(s, s.tasks[action.t], key);
      if s.tasks[action.t].RecoverWriting? {
        var RecoverWriting(read, i, _, _) := s.tasks[action.t];
        assert read.value.reservations[i] in read.value.reservations;
      }
    }
  }

  lemma GivingUpStays(s: State, t: nat, at: int, key: Key)
    requires Inv(s) && AllRelied(s, key) && t in s.tasks && GivesUp(s.tasks[t])
    ensures Stays(s, Advance(s, t, at, false), key)
  {
    var task := s.tasks[t];
    assert TaskOk(s, task) && Relied(s, task, key);
    match task
    case ReleaseSaving(released, _, read) => SlotsWithout(read.value.reservations, {released}, key);
    case RecoverSaving(read, dropped, _) => SlotsWithout(read.value.reservations, dropped, key);
  }

  lemma SavingStays(s: State, t: nat, at: int, key: Key)
    requires Inv(s) && t in s.tasks && Saves(s.tasks[t]) && !GivesUp(s.tasks[t])
    ensures Stays(s, Advance(s, t, at, false), key)
  {
    assert TaskOk(s, s.tasks[t]);
    if s.tasks[t].Reserving? { SlotsWith(s.tasks[t].read.value, s.tasks[t].run, s.tasks[t].at, key); }
  }

  lemma RecoverWritingStays(s: State, t: nat, at: int, key: Key)
    requires Inv(s) && t in s.tasks && s.tasks[t].RecoverWriting?
    ensures Stays(s, Advance(s, t, at, false), key)
  {
    assert TaskOk(s, s.tasks[t]);
  }

  lemma WritingStays(s: State, t: nat, at: int, key: Key)
    requires Inv(s) && t in s.tasks && Writes(s.tasks[t]) && !Saves(s.tasks[t])
    ensures Stays(s, Advance(s, t, at, false), key)
  {
    assert TaskOk(s, s.tasks[t]);
    if s.tasks[t].RecoverWriting? { RecoverWritingStays(s, t, at, key); }
  }

  lemma StepStays(s: State, t: nat, at: int, saturated: bool, key: Key)
    requires Inv(s) && Promise(s, key) && AllRelied(s, key) && t in s.tasks
    ensures Stays(s, Advance(s, t, at, saturated), key)
  {
    if GivesUp(s.tasks[t]) { GivingUpStays(s, t, at, key); }
    else if Saves(s.tasks[t]) { SavingStays(s, t, at, key); }
    else if Writes(s.tasks[t]) { WritingStays(s, t, at, key); }
    else { ReadingWritesNothing(s, t, at, saturated); }
  }

  /** What the task takes for granted after its step. */
  lemma FireNext(s: State, t: nat, at: int, key: Key)
    requires Inv(s) && Promise(s, key) && AllRelied(s, key) && t in s.tasks
    requires s.tasks[t].Firing? || s.tasks[t].FireReading? || s.tasks[t].Reserving? || s.tasks[t].Creating? || s.tasks[t].Dispatch? || s.tasks[t].Awaiting?
    ensures var u := Advance(s, t, at, false); OnlyTask(s, u, t) && (t in u.tasks && u.tasks != s.tasks ==> Relied(u, u.tasks[t], key))
  {
    assert TaskOk(s, s.tasks[t]);
    if s.tasks[t].Reserving? {
      var Reserving(run, _, read, _, next) := s.tasks[t];
      SlotsWith(read.value, run, next, run.key);
    }
  }

  lemma RecordNext(s: State, t: nat, at: int, key: Key)
    requires Inv(s) && AllRelied(s, key) && t in s.tasks
    requires s.tasks[t].Recording? || s.tasks[t].RecordingUnknown? || s.tasks[t].Completing? || s.tasks[t].CompleteSaving?
    ensures var u := Advance(s, t, at, false); OnlyTask(s, u, t) && (t in u.tasks && u.tasks != s.tasks ==> Relied(u, u.tasks[t], key))
  {
    assert TaskOk(s, s.tasks[t]);
  }

  lemma RecoverWriteNext(s: State, t: nat, at: int, key: Key)
    requires Inv(s) && Promise(s, key) && AllRelied(s, key) && t in s.tasks && s.tasks[t].RecoverWriting?
    ensures var u := Advance(s, t, at, false); OnlyTask(s, u, t) && (t in u.tasks && u.tasks != s.tasks ==> Relied(u, u.tasks[t], key))
  {
    assert TaskOk(s, s.tasks[t]) && Relied(s, s.tasks[t], key);
    StepStays(s, t, at, false, key);
  }

  lemma RecoverNext(s: State, t: nat, at: int, key: Key)
    requires Inv(s) && AllRelied(s, key) && t in s.tasks && s.tasks[t].Recovering?
    ensures var u := Advance(s, t, at, false); OnlyTask(s, u, t) && (t in u.tasks && u.tasks != s.tasks ==> Relied(u, u.tasks[t], key))
  {
    assert TaskOk(s, s.tasks[t]) && Relied(s, s.tasks[t], key);
  }

  predicate Edits(task: Task) {
    task.Changing? || task.ChangeReady? || task.Saving? || task.Deleting? || task.DeleteSaving? || task.Sweeping? ||
    task.ReleaseReading? || task.ReleaseSaving? || task.RecoverSaving?
  }

  lemma EditNext(s: State, t: nat, at: int, key: Key)
    requires Inv(s) && AllRelied(s, key) && t in s.tasks && Edits(s.tasks[t])
    ensures var u := Advance(s, t, at, false); OnlyTask(s, u, t) && (t in u.tasks && u.tasks != s.tasks ==> Relied(u, u.tasks[t], key))
  {
    assert TaskOk(s, s.tasks[t]) && Relied(s, s.tasks[t], key);
  }

  lemma TickNext(s: State, t: nat, at: int, saturated: bool, key: Key)
    requires t in s.tasks && s.tasks[t].TickReading?
    ensures var u := Advance(s, t, at, saturated); OnlyTask(s, u, t) && (t in u.tasks && u.tasks != s.tasks ==> Relied(u, u.tasks[t], key))
  {
  }

  lemma AdvanceKeeps(s: State, t: nat, at: int, saturated: bool, key: Key)
    requires Inv(s) && Promise(s, key) && AllRelied(s, key) && t in s.tasks
    ensures AllRelied(Advance(s, t, at, saturated), key)
  {
    var task := s.tasks[t];
    if task.TickReading? { TickNext(s, t, at, saturated, key); }
    else if task.Recovering? { RecoverNext(s, t, at, key); }
    else if task.RecoverWriting? { RecoverWriteNext(s, t, at, key); }
    else if Edits(task) { EditNext(s, t, at, key); }
    else if task.Recording? || task.RecordingUnknown? || task.Completing? || task.CompleteSaving? { RecordNext(s, t, at, key); }
    else { FireNext(s, t, at, key); }
    StepStays(s, t, at, saturated, key);
    AllStay(s, Advance(s, t, at, saturated), t, key);
  }

  lemma ThrowKeeps(s: State, t: nat, applied: bool, key: Key)
    requires Inv(s) && AllRelied(s, key) && t in s.tasks
    ensures AllRelied(Apply(s, Throw(t, applied)), key)
  {
    assert TaskOk(s, s.tasks[t]);
    AllStay(s, Apply(s, Throw(t, applied)), t, key);
  }

  lemma StartKeeps(s: State, action: Action, key: Key)
    requires AllRelied(s, key) && Starts(action)
    ensures AllRelied(Apply(s, action), key)
  {
    AllStay(s, Apply(s, action), action.t, key);
  }

  /** The run's record is deleted only when no task relies on it. */
  ghost predicate Quiet(s: State, action: Action, key: Key) {
    (action.Prune? || action.Sweep?) && action.key == key && Apply(s, action) != s ==>
      forall c :: c in s.tasks ==> !Relies(s.tasks[c], key)
  }

  lemma RemovalKeeps(s: State, action: Action, key: Key)
    requires Inv(s) && AllRelied(s, key) && (action.Prune? || action.Sweep?) && Quiet(s, action, key)
    ensures AllRelied(Apply(s, action), key)
  {
    forall c | c in Apply(s, action).tasks ensures Relied(Apply(s, action), s.tasks[c], key) {
      assert Relied(s, s.tasks[c], key);
    }
  }

  lemma StepKeepsRelied(s: State, action: Action, key: Key)
    requires Inv(s) && Promise(s, key) && AllRelied(s, key) && Quiet(s, action, key)
    ensures AllRelied(Apply(s, action), key)
  {
    match action
    case Step(t, at, saturated) => if t in s.tasks { AdvanceKeeps(s, t, at, saturated, key); }
    case Throw(t, applied) => if t in s.tasks { ThrowKeeps(s, t, applied, key); }
    case Prune(_, _) => RemovalKeeps(s, action, key);
    case Sweep(_, _) => RemovalKeeps(s, action, key);
    case Tick(_) => AllStay(s, Apply(s, action), 0, key);
    case Reply(t, _) => AllStay(s, Apply(s, action), t, key);
    case Lose(t) => AllStay(s, Apply(s, action), t, key);
    case _ => StartKeeps(s, action, key);
  }

  ghost predicate QuietRun(s: State, actions: seq<Action>, key: Key)
    decreases |actions|
  {
    actions != [] ==> Quiet(s, actions[0], key) && QuietRun(Apply(s, actions[0]), actions[1..], key)
  }

  lemma {:induction false} QuietRunHolds(s: State, actions: seq<Action>, key: Key)
    requires Inv(s) && Promise(s, key) && AllRelied(s, key) && QuietRun(s, actions, key)
    ensures NeverCosts(s, actions, key)
    decreases |actions|
  {
    if actions != [] {
      ReliedCostsNothing(s, actions[0], key);
      StepKeepsPromiseIff(s, actions[0], key);
      StepKeepsInv(s, actions[0]);
      StepKeepsRelied(s, actions[0], key);
      QuietRunHolds(Apply(s, actions[0]), actions[1..], key);
    }
  }

  /** A run whose record is deleted only when no task relies on it has, while it is dispatching, running
      or unknown, exactly one reservation, at every point. */
  lemma UnfinishedRunsHoldOneSlot(now: int, schedule: Schedule, actions: seq<Action>, key: Key)
    requires Fresh(schedule) && QuietRun(Init(now, schedule), actions, key)
    ensures AlwaysHolds(Init(now, schedule), actions, key)
  {
    QuietRunHolds(Init(now, schedule), actions, key);
    UnfinishedRunsHoldOneSlotIff(now, schedule, actions, key);
  }

  ghost predicate Kept(log: seq<Event>, key: Key) {
    forall e :: e in log && e.Removed? ==> e.key != key
  }

  lemma StepLogs(s: State, action: Action)
    ensures s.log <= Apply(s, action).log
    ensures (action.Prune? || action.Sweep?) && Apply(s, action) != s ==> !Kept(Apply(s, action).log, action.key)
  {
    if action.Step? && action.t in s.tasks { AdvanceLogs(s, action.t, action.at, action.saturated); }
    if (action.Prune? || action.Sweep?) && Apply(s, action) != s {
      assert Removed(action.key, s.runs[action.key].value.uid) in Apply(s, action).log;
    }
  }

  lemma AdvanceLogs(s: State, t: nat, at: int, saturated: bool)
    requires t in s.tasks
    ensures s.log <= Advance(s, t, at, saturated).log
  {
  }

  lemma {:induction false} KeptIsQuiet(s: State, actions: seq<Action>, key: Key)
    requires Kept(RunAll(s, actions).log, key)
    ensures QuietRun(s, actions, key) && s.log <= RunAll(s, actions).log
    decreases |actions|
  {
    if actions != [] {
      KeptIsQuiet(Apply(s, actions[0]), actions[1..], key);
      StepLogs(s, actions[0]);
    }
  }

  /** While no record of the run was deleted, it has exactly one reservation until it is finished. */
  lemma KeptRunsHoldOneSlot(now: int, schedule: Schedule, actions: seq<Action>, key: Key)
    requires Fresh(schedule) && Kept(RunAll(Init(now, schedule), actions).log, key)
    ensures AlwaysHolds(Init(now, schedule), actions, key)
  {
    KeptIsQuiet(Init(now, schedule), actions, key);
    UnfinishedRunsHoldOneSlot(now, schedule, actions, key);
  }
}
