/** What a committed reservation means: it was admitted under the limits in force, it is the
    next to be counted, automatic due times only move forward, and dispatches never outnumber
    reservations. All of it over every interleaving, loss and deletion of run records. */
module SchedulerAdmission {
  import opened VersionedStore
  import opened Scheduler

  // ----- Reading the log -----

  function Reservations(log: seq<Event>): nat {
    if log == [] then 0
    else Reservations(log[..|log| - 1]) + if log[|log| - 1].Reserved? then 1 else 0
  }

  function Dispatches(log: seq<Event>): nat {
    if log == [] then 0
    else Dispatches(log[..|log| - 1]) + if log[|log| - 1].Dispatched? then 1 else 0
  }

  lemma CountsGrow(log: seq<Event>, e: Event)
    ensures Reservations(log + [e]) == Reservations(log) + if e.Reserved? then 1 else 0
    ensures Dispatches(log + [e]) == Dispatches(log) + if e.Dispatched? then 1 else 0
  {
    assert (log + [e])[..|log|] == log;
  }

  ghost predicate DuesBelow(log: seq<Event>, time: int) {
    forall e :: e in log && e.Reserved? && e.auto ==> e.due < time
  }

  /** The reservation found a free slot, a run left to count and, if automatic, its own due time. */
  predicate Admitted(e: Event)
    requires e.Reserved?
  {
    Admits(e.before, e.key, e.due, e.auto, e.time)
  }

  ghost predicate LogOk(log: seq<Event>) {
    forall i :: 0 <= i < |log| && log[i].Reserved? ==>
      && Admitted(log[i]) && log[i].before.totalRuns == Reservations(log[..i])
      && (log[i].auto ==> DuesBelow(log[..i], log[i].due))
  }

  // ----- What every run keeps -----

  function ReadOf(task: Task): Option<Versioned<Schedule>> {
    match task
    case Reserving(_, _, read, _, _) => Some(read)
    case ReleaseSaving(_, _, read) => Some(read)
    case ChangeReady(_, read) => Some(read)
    case Saving(read, _) => Some(read)
    case DeleteSaving(read) => Some(read)
    case Recovering(read, _, _) => Some(read)
    case RecoverWriting(read, _, _, _) => Some(read)
    case RecoverSaving(read, _, _) => Some(read)
    case _ => None
  }

  predicate Current(s: State, read: Versioned<Schedule>) {
    VersionOf(s.schedule) == Some(read.version)
  }

  predicate SnapOk(s: State, read: Versioned<Schedule>) {
    read.version < s.next && (Current(s, read) ==> s.schedule.value == read)
  }

  ghost predicate Ahead(s: State, read: Versioned<Schedule>, nextRunAt: Option<int>) {
    Current(s, read) && nextRunAt.Some? ==> DuesBelow(s.log, nextRunAt.value)
  }

  ghost predicate TaskOk(s: State, task: Task) {
    && (ReadOf(task).Some? ==> SnapOk(s, ReadOf(task).value))
    && match task
       case Firing(_, due, auto) => auto ==> due <= s.now
       case FireReading(_, due, auto) => auto ==> due <= s.now
       case Reserving(run, auto, read, time, at) =>
         && Admits(read.value, run.key, run.scheduledFor, auto, time) && time <= s.now && time < at
         && (auto ==> run.scheduledFor <= time) && Ahead(s, read, Some(at))
       case TickReading(time) => time <= s.now
       case Saving(read, update) => update.totalRuns == read.value.totalRuns && Ahead(s, read, update.nextRunAt)
       case RecoverSaving(read, _, nextRunAt) => Ahead(s, read, nextRunAt)
       case _ => true
  }

  ghost predicate ScheduleOk(s: State) {
    s.schedule.Some? ==>
      && s.schedule.value.version < s.next
      && s.schedule.value.value.totalRuns == Reservations(s.log)
      && Ahead(s, s.schedule.value, s.schedule.value.value.nextRunAt)
  }

  ghost predicate Tasks(s: State) {
    forall t :: t in s.tasks ==> TaskOk(s, s.tasks[t])
  }

  predicate IsPending(task: Task) {
    task.Creating? || task.Dispatch?
  }

  function Pending(tasks: map<nat, Task>): set<nat> {
    set t | t in tasks && IsPending(tasks[t])
  }

  ghost predicate Inv(s: State) {
    && LogOk(s.log) && ScheduleOk(s) && Tasks(s) && DuesBelow(s.log, s.now + 1)
    && Dispatches(s.log) + |Pending(s.tasks)| <= Reservations(s.log)
  }

  // ----- Frames -----

  ghost predicate Later(s: State, u: State) {
    && s.next <= u.next && s.now <= u.now
    && ((u.schedule == s.schedule && forall e :: e in u.log && e.Reserved? ==> e in s.log)
        || u.schedule.None? || u.schedule.value.version >= s.next)
  }

  lemma TaskKept(s: State, u: State, task: Task)
    requires TaskOk(s, task) && Later(s, u)
    ensures TaskOk(u, task)
  {
  }

  ghost predicate OnlyTask(s: State, u: State, t: nat) {
    u.tasks == s.tasks || u.tasks == s.tasks - {t} || (t in u.tasks && u.tasks == s.tasks[t := u.tasks[t]])
  }

  function Weight(tasks: map<nat, Task>, t: nat): nat {
    if t in tasks && IsPending(tasks[t]) then 1 else 0
  }

  lemma PendingStep(s: State, u: State, t: nat)
    requires OnlyTask(s, u, t)
    ensures |Pending(u.tasks)| + Weight(s.tasks, t) == |Pending(s.tasks)| + Weight(u.tasks, t)
  {
    var rest := Pending(s.tasks) - {t};
    assert Pending(s.tasks) == if Weight(s.tasks, t) == 1 then rest + {t} else rest;
    assert Pending(u.tasks) == if Weight(u.tasks, t) == 1 then rest + {t} else rest;
  }

  lemma TasksKept(s: State, u: State, t: nat)
    requires Tasks(s) && Later(s, u) && OnlyTask(s, u, t)
    requires t in u.tasks && u.tasks != s.tasks ==> TaskOk(u, u.tasks[t])
    ensures Tasks(u)
  {
    forall c | c in u.tasks && (c != t || u.tasks == s.tasks) ensures TaskOk(u, u.tasks[c]) { TaskKept(s, u, s.tasks[c]); }
  }

  // ----- Steps by what they write -----

  /** Neither the schedule nor the log moved. */
  lemma NothingLogged(s: State, u: State, t: nat)
    requires Inv(s) && u.log == s.log && u.schedule == s.schedule && u.next >= s.next && u.now >= s.now
    requires OnlyTask(s, u, t) && Weight(u.tasks, t) <= Weight(s.tasks, t)
    requires t in u.tasks && u.tasks != s.tasks ==> TaskOk(s, u.tasks[t])
    ensures Inv(u)
  {
    if t in u.tasks && u.tasks != s.tasks { TaskKept(s, u, u.tasks[t]); }
    TasksKept(s, u, t);
    PendingStep(s, u, t);
  }

  /** A run record was created, dispatched or removed. */
  lemma RunLogged(s: State, u: State, t: nat, e: Event)
    requires Inv(s) && u.log == s.log + [e] && !e.Reserved?
    requires u.schedule == s.schedule && u.next >= s.next && u.now == s.now
    requires OnlyTask(s, u, t)
    requires t in u.tasks && u.tasks != s.tasks ==> TaskOk(s, u.tasks[t])
    requires Weight(u.tasks, t) + (if e.Dispatched? then 1 else 0) <= Weight(s.tasks, t)
    ensures Inv(u)
  {
    CountsGrow(s.log, e);
    forall i | 0 <= i < |u.log| && u.log[i].Reserved?
      ensures Admitted(u.log[i]) && u.log[i].before.totalRuns == Reservations(u.log[..i]) &&
              (u.log[i].auto ==> DuesBelow(u.log[..i], u.log[i].due))
    {
      assert u.log[..i] == s.log[..i];
    }
    if t in u.tasks && u.tasks != s.tasks { TaskKept(s, u, u.tasks[t]); }
    TasksKept(s, u, t);
    PendingStep(s, u, t);
  }

  /** The schedule that was read was saved without a reservation, or deleted. */
  lemma ScheduleSaved(s: State, u: State, t: nat, value: Option<Schedule>)
    requires Inv(s) && s.schedule.Some? && u.log == s.log && u.next == s.next + 1 && u.now == s.now
    requires u.schedule == if value.Some? then Some(Versioned(s.next, value.value)) else None
    requires value.Some? ==> value.value.totalRuns == s.schedule.value.value.totalRuns &&
                             Ahead(s, s.schedule.value, value.value.nextRunAt)
    requires OnlyTask(s, u, t) && Weight(u.tasks, t) == 0
    requires t in u.tasks && u.tasks != s.tasks ==> u.tasks[t].Sweeping?
    ensures Inv(u)
  {
    TasksKept(s, u, t);
    PendingStep(s, u, t);
  }

  lemma ReservationLogged(s: State, u: State, t: nat, e: Event, run: Run, at: int)
    requires Inv(s) && s.schedule.Some? && e.Reserved? && e.before == s.schedule.value.value && Admitted(e)
    requires e.auto ==> e.due <= e.time
    requires e.time <= s.now && e.time < at && DuesBelow(s.log, at)
    requires u == s.(schedule := Some(Versioned(s.next, Reserve(e.before, run, at))), next := s.next + 1,
                     log := s.log + [e], tasks := s.tasks[t := Creating(run)])
    ensures Inv(u)
  {
    CountsGrow(s.log, e);
    forall i | 0 <= i < |u.log| && u.log[i].Reserved?
      ensures Admitted(u.log[i]) && u.log[i].before.totalRuns == Reservations(u.log[..i]) &&
              (u.log[i].auto ==> DuesBelow(u.log[..i], u.log[i].due))
    {
      if i < |s.log| { assert u.log[..i] == s.log[..i]; } else { assert u.log[..i] == s.log; }
    }
    TasksKept(s, u, t);
    PendingStep(s, u, t);
    assert Reserve(e.before, run, at).totalRuns == e.before.totalRuns + 1;
  }

  // ----- Each step -----

  lemma ReserveStep(s: State, t: nat)
    requires Inv(s) && t in s.tasks && s.tasks[t].Reserving?
    ensures Inv(Advance(s, t, 0, false))
  {
    var Reserving(run, auto, read, time, at) := s.tasks[t];
    var u := Advance(s, t, 0, false);
    assert TaskOk(s, s.tasks[t]);
    if u.next == s.next { NothingLogged(s, u, t); }
    else { ReservationLogged(s, u, t, Reserved(run.key, run.scheduledFor, auto, read.value, time), run, at); }
  }

  predicate WritesSchedule(task: Task) {
    task.ReleaseSaving? || task.Saving? || task.DeleteSaving? || task.RecoverSaving?
  }

  lemma SaveStep(s: State, t: nat)
    requires Inv(s) && t in s.tasks && WritesSchedule(s.tasks[t])
    ensures Inv(Advance(s, t, 0, false))
  {
    var u := Advance(s, t, 0, false);
    assert TaskOk(s, s.tasks[t]);
    if u.next == s.next { NothingLogged(s, u, t); }
    else { ScheduleSaved(s, u, t, if u.schedule.Some? then Some(u.schedule.value.value) else None); }
  }

  predicate LogsRun(task: Task) {
    task.Creating? || task.Dispatch? || task.RecoverWriting?
  }

  lemma RunStep(s: State, t: nat)
    requires Inv(s) && t in s.tasks && LogsRun(s.tasks[t])
    ensures Inv(Advance(s, t, 0, false))
  {
    var u := Advance(s, t, 0, false);
    assert TaskOk(s, s.tasks[t]);
    if u.log == s.log { NothingLogged(s, u, t); }
    else { RunLogged(s, u, t, u.log[|s.log|]); }
  }

  predicate ReadsSchedule(task: Task) {
    task.FireReading? || task.TickReading? || task.ChangeReady? || task.Recovering?
  }

  lemma TickPromise(s: State, t: nat, time: int, at: int, saturated: bool)
    requires Inv(s) && time <= s.now && t in TickRead(s, t, time, at, saturated).tasks
    requires t in s.tasks && s.tasks[t] == TickReading(time)
    ensures TaskOk(s, TickRead(s, t, time, at, saturated).tasks[t])
  {
  }

  lemma ReadingPromise(s: State, t: nat, at: int, saturated: bool)
    requires Inv(s) && t in s.tasks && ReadsSchedule(s.tasks[t])
    requires t in Advance(s, t, at, saturated).tasks
    ensures TaskOk(s, Advance(s, t, at, saturated).tasks[t])
  {
    var task := s.tasks[t];
    assert TaskOk(s, task);
    if task.TickReading? { TickPromise(s, t, task.time, at, saturated); }
  }

  lemma ReadingStep(s: State, t: nat, at: int, saturated: bool)
    requires t in s.tasks && ReadsSchedule(s.tasks[t])
    ensures var u := Advance(s, t, at, saturated);
      u == s.(tasks := u.tasks) && OnlyTask(s, u, t) && Weight(u.tasks, t) == 0
  {
  }

  lemma OtherStep(s: State, t: nat, at: int, saturated: bool)
    requires Inv(s) && t in s.tasks
    requires !s.tasks[t].Reserving? && !WritesSchedule(s.tasks[t]) && !LogsRun(s.tasks[t]) && !ReadsSchedule(s.tasks[t])
    ensures Inv(Advance(s, t, at, saturated))
  {
    assert TaskOk(s, s.tasks[t]);
    NothingLogged(s, Advance(s, t, at, saturated), t);
  }

  lemma AdvanceKeepsInv(s: State, t: nat, at: int, saturated: bool)
    requires Inv(s) && t in s.tasks
    ensures Inv(Advance(s, t, at, saturated))
  {
    var task := s.tasks[t];
    if task.Reserving? { ReserveStep(s, t); }
    else if WritesSchedule(task) { SaveStep(s, t); }
    else if LogsRun(task) { RunStep(s, t); }
    else if ReadsSchedule(task) {
      var u := Advance(s, t, at, saturated);
      ReadingStep(s, t, at, saturated);
      if t in u.tasks { ReadingPromise(s, t, at, saturated); }
      NothingLogged(s, u, t);
    }
    else { OtherStep(s, t, at, saturated); }
  }

  lemma StartStep(s: State, action: Action)
    requires Inv(s)
    requires action.StartFire? || action.StartTick? || action.StartChange? || action.StartDelete? ||
             action.StartComplete? || action.StartRecover?
    ensures Inv(Apply(s, action))
  {
    NothingLogged(s, Apply(s, action), action.t);
  }

  lemma RemovalStep(s: State, key: Key)
    requires Inv(s) && key in s.runs
    ensures Inv(Remove(s, key))
  {
    RunLogged(s, Remove(s, key), 0, Removed(key, s.runs[key].value.uid));
  }

  lemma ThrowStep(s: State, t: nat, applied: bool)
    requires Inv(s)
    ensures Inv(Apply(s, Throw(t, applied)))
  {
    NothingLogged(s, Apply(s, Throw(t, applied)), t);
  }

  lemma StepKeepsInv(s: State, action: Action)
    requires Inv(s)
    ensures Inv(Apply(s, action))
  {
    var u := Apply(s, action);
    match action
    case Step(t, at, saturated) => if t in s.tasks { AdvanceKeepsInv(s, t, at, saturated); }
    case Throw(t, applied) => ThrowStep(s, t, applied);
    case Prune(key, _) => if u != s { RemovalStep(s, key); }
    case Sweep(_, key) => if u != s { RemovalStep(s, key); }
    case Tick(_) => NothingLogged(s, u, 0);
    case Reply(t, _) => NothingLogged(s, u, t);
    case Lose(t) => NothingLogged(s, u, t);
    case _ => StartStep(s, action);
  }

  lemma {:induction false} RunKeepsInv(s: State, actions: seq<Action>)
    requires Inv(s)
    ensures Inv(RunAll(s, actions))
    decreases |actions|
  {
    if actions != [] {
      StepKeepsInv(s, actions[0]);
      RunKeepsInv(Apply(s, actions[0]), actions[1..]);
    }
  }

  // ----- Theorems, over every run of a schedule from its creation -----

  /** Every committed reservation replaced a schedule with a slot free under its own policy,
      not expired, and with a run left to count: it is reservation number totalRuns + 1. */
  lemma ReservationsAreAdmitted(now: int, schedule: Schedule, actions: seq<Action>, i: nat)
    requires Fresh(schedule)
    requires var log := RunAll(Init(now, schedule), actions).log; i < |log| && log[i].Reserved?
    ensures var log := RunAll(Init(now, schedule), actions).log; var before := log[i].before;
      && before.totalRuns == Reservations(log[..i])
      && (before.maxRuns.Some? && before.maxRuns.value != 0 ==> Reservations(log[..i]) < before.maxRuns.value)
      && |before.reservations| < MAX_SLOTS && (!before.allow ==> before.reservations == [])
      && (forall r :: r in before.reservations ==> r.key != log[i].key)
      && !Expired(before, log[i].time)
      && (log[i].auto ==> before.status == Active && before.nextRunAt == Some(log[i].due))
  {
    RunKeepsInv(Init(now, schedule), actions);
    var log := RunAll(Init(now, schedule), actions).log;
    assert Admitted(log[i]);
  }

  /** totalRuns is the number of reservations ever committed. */
  lemma TotalRunsCountsReservations(now: int, schedule: Schedule, actions: seq<Action>)
    requires Fresh(schedule)
    ensures var s := RunAll(Init(now, schedule), actions);
      s.schedule.Some? ==> s.schedule.value.value.totalRuns == Reservations(s.log)
  {
    RunKeepsInv(Init(now, schedule), actions);
  }

  /** The due times of committed automatic fires strictly increase. */
  lemma DueTimesIncrease(now: int, schedule: Schedule, actions: seq<Action>, i: nat, j: nat)
    requires Fresh(schedule)
    requires var log := RunAll(Init(now, schedule), actions).log;
      i < j < |log| && log[i].Reserved? && log[j].Reserved? && log[i].auto && log[j].auto
    ensures var log := RunAll(Init(now, schedule), actions).log; log[i].due < log[j].due
  {
    RunKeepsInv(Init(now, schedule), actions);
    var log := RunAll(Init(now, schedule), actions).log;
    assert log[..j][i] == log[i];
  }

  lemma {:induction false} CountBelowLimit(log: seq<Event>, limit: nat)
    requires LogOk(log)
    requires forall i :: 0 <= i < |log| && log[i].Reserved? ==> log[i].before.maxRuns == Some(limit)
    requires limit != 0
    ensures Reservations(log) <= limit
  {
    if log != [] {
      var rest := log[..|log| - 1];
      forall i | 0 <= i < |rest| ensures rest[..i] == log[..i] {}
      CountBelowLimit(rest, limit);
    }
  }

  /** Dispatches never outnumber reservations, so a limit that stayed in force bounds them too. */
  lemma DispatchesAreLimited(now: int, schedule: Schedule, actions: seq<Action>, limit: nat)
    requires Fresh(schedule)
    ensures var log := RunAll(Init(now, schedule), actions).log;
      && Dispatches(log) <= Reservations(log)
      && (limit != 0 && (forall i :: 0 <= i < |log| && log[i].Reserved? ==> log[i].before.maxRuns == Some(limit)) ==>
           Dispatches(log) <= limit)
  {
    RunKeepsInv(Init(now, schedule), actions);
    var log := RunAll(Init(now, schedule), actions).log;
    if limit != 0 && forall i :: 0 <= i < |log| && log[i].Reserved? ==> log[i].before.maxRuns == Some(limit) {
      CountBelowLimit(log, limit);
    }
  }
}
