/** The durable scheduler's protocol, for one schedule.

    A fire reserves a slot in the schedule record by compare and swap, creates its run
    record, and only then dispatches. Outcomes are recorded, slots released, and a restart
    recovers what was left. Every await is one step; any number of tasks of any number of
    gateway processes take steps in any order, and any of them may be lost at any point.
    Run ids hash the schedule and the request or due time, so they are the keys here. */
module Scheduler {
  import opened VersionedStore

  const MAX_SLOTS := 16
  const MAX_LATE_MS := 1000
  const RELEASE_ATTEMPTS := 4

  datatype Key = Manual(request: nat) | Due(at: int)
  datatype Phase = Dispatching | Running | Finished | Unknown
  datatype Run = Run(key: Key, scheduledFor: int, startedAt: int, phase: Phase)

  /** A stored run record; `uid` tells one incarnation of the record from the next. */
  datatype Stored = Stored(uid: nat, run: Run)

  datatype Status = Active | Paused | Completed
  datatype Schedule = Schedule(status: Status, nextRunAt: Option<int>, expiresAt: Option<int>, maxRuns: Option<nat>,
                               allow: bool, totalRuns: nat, reservations: seq<Run>)

  datatype Change =
    | Pause
    | Resume
    | Update(maxRuns: Option<Option<nat>>, expiresAt: Option<Option<int>>, cadence: bool)
    | SetConcurrency(allow: bool)

  datatype Answer = Accepted | Rejected | Failed

  datatype Task =
    | Firing(key: Key, due: int, auto: bool)
    | FireReading(key: Key, due: int, auto: bool)
    | Reserving(run: Run, auto: bool, read: Versioned<Schedule>, time: int, at: int)
    | Creating(run: Run)
    | Dispatch(row: Versioned<Stored>)
    | Awaiting(row: Versioned<Stored>)
    | Recording(row: Versioned<Stored>, answer: Answer)
    | RecordingUnknown(row: Versioned<Stored>)
    | ReleaseReading(key: Key, attempt: nat)
    | ReleaseSaving(key: Key, attempt: nat, read: Versioned<Schedule>)
    | Completing(key: Key)
    | CompleteSaving(key: Key, row: Versioned<Stored>)
    | TickReading(time: int)
    | Changing(change: Change)
    | ChangeReady(change: Change, read: Versioned<Schedule>)
    | Saving(read: Versioned<Schedule>, update: Schedule)
    | Deleting
    | DeleteSaving(read: Versioned<Schedule>)
    | Sweeping
    | Recovering(read: Versioned<Schedule>, i: nat, dropped: set<Key>)
    | RecoverWriting(read: Versioned<Schedule>, i: nat, dropped: set<Key>, found: Option<Versioned<Stored>>)
    | RecoverSaving(read: Versioned<Schedule>, dropped: set<Key>, nextRunAt: Option<int>)

  /** What was committed or sent, in order. A reservation records the schedule it replaced,
      and when that schedule was read. */
  datatype Event =
    | Reserved(key: Key, due: int, auto: bool, before: Schedule, time: int)
    | Created(key: Key, uid: nat)
    | Dispatched(key: Key, uid: nat)
    | Removed(key: Key, uid: nat)

  datatype State = State(now: int, next: nat, schedule: Option<Versioned<Schedule>>, runs: map<Key, Versioned<Stored>>,
                         tasks: map<nat, Task>, log: seq<Event>)

  datatype Action =
    | StartFire(t: nat, request: nat)
    | StartTick(t: nat)
    | StartChange(t: nat, change: Change)
    | StartDelete(t: nat)
    | StartComplete(t: nat, key: Key)
    | StartRecover(t: nat)
    | Step(t: nat, at: int, saturated: bool)   // `at`: the cadence's next time, if the step asks for it
    | Reply(t: nat, answer: Answer)
    | Throw(t: nat, applied: bool)             // the update of an accepted dispatch fails
    | Lose(t: nat)
    | Prune(key: Key, limit: nat)              // by a gateway that keeps `limit` finished runs
    | Sweep(t: nat, key: Key)
    | Tick(ms: nat)

  function Init(now: int, schedule: Schedule): State {
    State(now, 1, Some(Versioned(0, schedule)), map[], map[], [])
  }

  /** A schedule as `schedule/create` stores it. */
  predicate Fresh(schedule: Schedule) {
    schedule.status == Active && schedule.nextRunAt.Some? && schedule.totalRuns == 0 && schedule.reservations == []
  }

  // ----- Schedules -----

  predicate Distinct(rs: seq<Run>) {
    forall i, j :: 0 <= i < j < |rs| ==> rs[i].key != rs[j].key
  }

  predicate HasSlot(rs: seq<Run>, key: Key) {
    exists r :: r in rs && r.key == key
  }

  /** The reservations whose keys are not in `dropped`, in order. */
  function Without(rs: seq<Run>, dropped: set<Key>): (kept: seq<Run>)
    ensures |kept| <= |rs|
    ensures forall r :: r in kept <==> r in rs && r.key !in dropped
    ensures Distinct(rs) ==> Distinct(kept)
  {
    if rs == [] then []
    else
      var rest := Without(rs[1..], dropped);
      assert rs == [rs[0]] + rs[1..];
      if rs[0].key in dropped then rest else [rs[0]] + rest
  }

  predicate Expired(s: Schedule, time: int) {
    s.expiresAt.Some? && s.expiresAt.value <= time
  }

  /** maxRuns 0 reads as no limit. */
  predicate Exhausted(s: Schedule) {
    s.maxRuns.Some? && s.maxRuns.value != 0 && s.totalRuns >= s.maxRuns.value
  }

  predicate SlotsBusy(s: Schedule) {
    |s.reservations| >= MAX_SLOTS || (!s.allow && s.reservations != [])
  }

  /** executeFire's checks on the schedule it read. */
  predicate Admits(s: Schedule, key: Key, due: int, auto: bool, time: int) {
    && (auto ==> s.status == Active && s.nextRunAt == Some(due))
    && !HasSlot(s.reservations, key)
    && !Expired(s, time) && !Exhausted(s) && !SlotsBusy(s)
  }

  function Reserve(s: Schedule, run: Run, at: int): Schedule {
    var counted := s.(reservations := s.reservations + [run], totalRuns := s.totalRuns + 1,
                      nextRunAt := if s.status == Active then Some(at) else s.nextRunAt);
    if Exhausted(counted) then counted.(status := Completed, nextRunAt := None) else counted
  }

  function Changed(s: Schedule, change: Change, at: int): Schedule {
    match change
    case Pause => s.(status := Paused, nextRunAt := None)
    case Resume => s.(status := Active, nextRunAt := Some(at))
    case SetConcurrency(allow) => s.(allow := allow)
    case Update(maxRuns, expiresAt, cadence) =>
      s.(maxRuns := if maxRuns.Some? then maxRuns.value else s.maxRuns,
         expiresAt := if expiresAt.Some? then expiresAt.value else s.expiresAt,
         nextRunAt := if s.status == Active && cadence then Some(at) else s.nextRunAt)
  }

  predicate AsksNext(s: Schedule, change: Change) {
    change.Resume? || (change.Update? && change.cadence && s.status == Active)
  }

  // ----- Tasks -----

  function Go(s: State, t: nat, task: Task): State {
    s.(tasks := s.tasks[t := task])
  }

  function End(s: State, t: nat): State {
    s.(tasks := s.tasks - {t})
  }

  /** Compare and swap of the schedule record; the task ends on a conflict. */
  function SaveSchedule(s: State, t: nat, read: Versioned<Schedule>, value: Schedule): State {
    if VersionOf(s.schedule) == Some(read.version)
    then End(s, t).(schedule := Some(Versioned(s.next, value)), next := s.next + 1) else End(s, t)
  }

  function Row(s: State, key: Key): Option<Versioned<Stored>> {
    if key in s.runs then Some(s.runs[key]) else None
  }

  function PutRun(s: State, key: Key, stored: Stored): State {
    s.(runs := s.runs[key := Versioned(s.next, stored)], next := s.next + 1)
  }

  predicate RunCurrent(s: State, key: Key, row: Versioned<Stored>) {
    VersionOf(Row(s, key)) == Some(row.version)
  }

  function ReadToFire(s: State, t: nat, key: Key, due: int, auto: bool, at: int): State {
    if s.schedule.None? || !Admits(s.schedule.value.value, key, due, auto, s.now) then End(s, t)
    else if at <= s.now then s
    else Go(s, t, Reserving(Run(key, due, s.now, Dispatching), auto, s.schedule.value, s.now, at))
  }

  function CommitReservation(s: State, t: nat, run: Run, auto: bool, read: Versioned<Schedule>, time: int, at: int): State {
    var u := SaveSchedule(s, t, read, Reserve(read.value, run, at));
    if u.next == s.next then u
    else Go(u, t, Creating(run)).(log := s.log + [Reserved(run.key, run.scheduledFor, auto, read.value, time)])
  }

  function CreateRun(s: State, t: nat, run: Run): State {
    if run.key in s.runs then End(s, t)
    else
      var u := PutRun(s, run.key, Stored(s.next, run));
      Go(u, t, Dispatch(u.runs[run.key])).(log := s.log + [Created(run.key, s.next)])
  }

  function WithPhase(stored: Stored, phase: Phase): Stored {
    stored.(run := stored.run.(phase := phase))
  }

  function PhaseOf(answer: Answer): Phase {
    match answer case Accepted => Running case Rejected => Finished case Failed => Unknown
  }

  function Record(s: State, t: nat, row: Versioned<Stored>, answer: Answer): State {
    var key := row.value.run.key;
    if !RunCurrent(s, key, row) then
      if answer.Accepted? then Go(s, t, RecordingUnknown(row)) else End(s, t)
    else
      var u := PutRun(s, key, WithPhase(row.value, PhaseOf(answer)));
      if answer.Rejected? then Go(u, t, ReleaseReading(key, 0)) else End(u, t)
  }

  function RecordUnknown(s: State, t: nat, row: Versioned<Stored>): State {
    var key := row.value.run.key;
    if !RunCurrent(s, key, row) then End(s, t) else End(PutRun(s, key, WithPhase(row.value, Unknown)), t)
  }

  function Release(s: State, t: nat, key: Key, attempt: nat, read: Versioned<Schedule>): State {
    if VersionOf(s.schedule) != Some(read.version) && attempt + 1 < RELEASE_ATTEMPTS
    then Go(s, t, ReleaseReading(key, attempt + 1))
    else SaveSchedule(s, t, read, read.value.(reservations := Without(read.value.reservations, {key})))
  }

  function Complete(s: State, t: nat, key: Key): State {
    if key !in s.runs then End(s, t)
    else if s.runs[key].value.run.phase == Finished then Go(s, t, ReleaseReading(key, 0))
    else Go(s, t, CompleteSaving(key, s.runs[key]))
  }

  function CompleteSave(s: State, t: nat, key: Key, row: Versioned<Stored>): State {
    if !RunCurrent(s, key, row) then End(s, t)
    else Go(PutRun(s, key, WithPhase(row.value, Finished)), t, ReleaseReading(key, 0))
  }

  /** One pass of tickOnce over this schedule. */
  function TickRead(s: State, t: nat, time: int, at: int, saturated: bool): State {
    if s.schedule.None? then End(s, t)
    else
      var read := s.schedule.value;
      var v := read.value;
      if v.status != Active || v.nextRunAt.None? || v.nextRunAt.value > time then End(s, t)
      else if Expired(v, time) || Exhausted(v) then
        Go(s, t, Saving(read, v.(status := Completed, nextRunAt := None)))
      else if time - v.nextRunAt.value > MAX_LATE_MS || SlotsBusy(v) || saturated then
        if at <= time then s else Go(s, t, Saving(read, v.(nextRunAt := Some(at))))
      else Go(s, t, Firing(Due(v.nextRunAt.value), v.nextRunAt.value, true))
  }

  /** The phase a reservation's run is found in: that of its record, or else of the reservation. */
  function Found(s: State, r: Run): Phase {
    if r.key in s.runs then s.runs[r.key].value.run.phase else r.phase
  }

  function Recover(s: State, t: nat, read: Versioned<Schedule>, i: nat, dropped: set<Key>, at: int): State {
    if i < |read.value.reservations| then
      var reservation := read.value.reservations[i];
      if Found(s, reservation) == Dispatching then Go(s, t, RecoverWriting(read, i, dropped, Row(s, reservation.key)))
      else Go(s, t, Recovering(read, i + 1, dropped + if Found(s, reservation) == Finished then {reservation.key} else {}))
    else
      var v := read.value;
      if v.status == Active && v.nextRunAt.Some? && v.nextRunAt.value < s.now then
        if at <= s.now then s else Go(s, t, RecoverSaving(read, dropped, Some(at)))
      else Go(s, t, RecoverSaving(read, dropped, v.nextRunAt))
  }

  /** An intent without an outcome is recorded as unknown, never dispatched again. */
  function RecoverWrite(s: State, t: nat, read: Versioned<Schedule>, i: nat, dropped: set<Key>,
                        found: Option<Versioned<Stored>>): State
    requires i < |read.value.reservations|
  {
    var reservation := read.value.reservations[i];
    if VersionOf(Row(s, reservation.key)) != VersionOf(found) then End(s, t)
    else if found.Some? then
      Go(PutRun(s, reservation.key, WithPhase(found.value.value, Unknown)), t, Recovering(read, i + 1, dropped))
    else
      Go(PutRun(s, reservation.key, Stored(s.next, reservation.(phase := Unknown))), t, Recovering(read, i + 1, dropped))
        .(log := s.log + [Created(reservation.key, s.next)])
  }

  function Remove(s: State, key: Key): State
    requires key in s.runs
  {
    s.(runs := s.runs - {key}, next := s.next + 1, log := s.log + [Removed(key, s.runs[key].value.uid)])
  }

  /** The other finished runs that may be listed before this one: those not started earlier. */
  function FinishedBefore(s: State, key: Key): set<Key>
    requires key in s.runs
  {
    set k | k in s.runs && k != key && s.runs[k].value.run.phase == Finished &&
            s.runs[k].value.run.startedAt >= s.runs[key].value.run.startedAt
  }

  /** `prune` deletes finished runs beyond the newest `limit`, which is at least one. */
  predicate Prunable(s: State, key: Key, limit: nat)
    requires key in s.runs
  {
    s.runs[key].value.run.phase == Finished && 0 < limit <= |FinishedBefore(s, key)|
  }

  /** The next await of task `t` completes. */
  function Advance(s: State, t: nat, at: int, saturated: bool): State
    requires t in s.tasks
  {
    match s.tasks[t]
    case Firing(key, due, auto) => if key in s.runs then End(s, t) else Go(s, t, FireReading(key, due, auto))
    case FireReading(key, due, auto) => ReadToFire(s, t, key, due, auto, at)
    case Reserving(run, auto, read, time, next) => CommitReservation(s, t, run, auto, read, time, next)
    case Creating(run) => CreateRun(s, t, run)
    case Dispatch(row) => Go(s, t, Awaiting(row)).(log := s.log + [Dispatched(row.value.run.key, row.value.uid)])
    case Awaiting(_) => s
    case Recording(row, answer) => Record(s, t, row, answer)
    case RecordingUnknown(row) => RecordUnknown(s, t, row)
    case ReleaseReading(key, attempt) =>
      if s.schedule.None? then End(s, t) else Go(s, t, ReleaseSaving(key, attempt, s.schedule.value))
    case ReleaseSaving(key, attempt, read) => Release(s, t, key, attempt, read)
    case Completing(key) => Complete(s, t, key)
    case CompleteSaving(key, row) => CompleteSave(s, t, key, row)
    case TickReading(time) => TickRead(s, t, time, at, saturated)
    case Changing(change) =>
      if s.schedule.None? then End(s, t) else Go(s, t, ChangeReady(change, s.schedule.value))
    case ChangeReady(change, read) =>
      if AsksNext(read.value, change) && at <= s.now then s
      else Go(s, t, Saving(read, Changed(read.value, change, at)))
    case Saving(read, update) => SaveSchedule(s, t, read, update)
    case Deleting =>
      if s.schedule.None? || s.schedule.value.value.reservations != [] then End(s, t)
      else Go(s, t, DeleteSaving(s.schedule.value))
    case DeleteSaving(read) =>
      if VersionOf(s.schedule) == Some(read.version) then Go(s, t, Sweeping).(schedule := None, next := s.next + 1)
      else End(s, t)
    case Sweeping => End(s, t)
    case Recovering(read, i, dropped) => Recover(s, t, read, i, dropped, at)
    case RecoverWriting(read, i, dropped, found) =>
      if i < |read.value.reservations| then RecoverWrite(s, t, read, i, dropped, found) else s
    case RecoverSaving(read, dropped, nextRunAt) =>
      SaveSchedule(s, t, read, read.value.(reservations := Without(read.value.reservations, dropped), nextRunAt := nextRunAt))
  }

  function Apply(s: State, action: Action): State {
    match action
    case StartFire(t, request) => if t in s.tasks then s else Go(s, t, Firing(Manual(request), s.now, false))
    case StartTick(t) => if t in s.tasks then s else Go(s, t, TickReading(s.now))
    case StartChange(t, change) => if t in s.tasks then s else Go(s, t, Changing(change))
    case StartDelete(t) => if t in s.tasks then s else Go(s, t, Deleting)
    case StartComplete(t, key) => if t in s.tasks then s else Go(s, t, Completing(key))
    case StartRecover(t) =>
      if t in s.tasks || s.schedule.None? then s else Go(s, t, Recovering(s.schedule.value, 0, {}))
    case Step(t, at, saturated) => if t in s.tasks then Advance(s, t, at, saturated) else s
    case Reply(t, answer) =>
      if t in s.tasks && s.tasks[t].Awaiting? then Go(s, t, Recording(s.tasks[t].row, answer)) else s
    case Throw(t, applied) =>
      if t in s.tasks && s.tasks[t].Recording? && s.tasks[t].answer == Accepted then
        var row := s.tasks[t].row;
        Go(if applied then Record(s, t, row, Accepted) else s, t, RecordingUnknown(row))
      else s
    case Lose(t) => End(s, t)
    case Prune(key, limit) => if key in s.runs && Prunable(s, key, limit) then Remove(s, key) else s
    case Sweep(t, key) => if t in s.tasks && s.tasks[t].Sweeping? && key in s.runs then Remove(s, key) else s
    case Tick(ms) => s.(now := s.now + ms)
  }

  function RunAll(s: State, actions: seq<Action>): State
    decreases |actions|
  {
    if actions == [] then s else RunAll(Apply(s, actions[0]), actions[1..])
  }
}
