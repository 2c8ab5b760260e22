/** Dispatches: sent at most once for a kept run record, and only behind a committed
    reservation and a committed record, over every interleaving and every loss. */
module SchedulerDispatch {
  import opened VersionedStore
  import opened Scheduler
  import Slots = SchedulerSlots

  // ----- The log -----

  ghost predicate ReservedKey(log: seq<Event>, key: Key) {
    exists e :: e in log && e.Reserved? && e.key == key
  }

  /** The run record was created after a reservation of the run. */
  ghost predicate CreatedBehind(log: seq<Event>, key: Key, uid: nat) {
    exists i :: 0 <= i < |log| && log[i] == Created(key, uid) && ReservedKey(log[..i], key)
  }

  ghost predicate Gone(log: seq<Event>, key: Key, uid: nat) {
    Removed(key, uid) in log
  }

  ghost predicate EventOk(before: seq<Event>, e: Event) {
    match e
    case Reserved(_, _, _, _, _) => true
    case Created(key, uid) =>
      forall d :: d in before && d.Created? ==> d.uid != uid && (d.key == key ==> Gone(before, key, d.uid))
    case Dispatched(key, uid) => CreatedBehind(before, key, uid) && e !in before
    case Removed(_, _) => true
  }

  ghost predicate LogOk(log: seq<Event>) {
    forall i {:trigger log[..i]} :: 0 <= i < |log| ==> EventOk(log[..i], log[i])
  }

  // ----- What every run keeps -----

  function RowOf(task: Task): Option<Versioned<Stored>> {
    match task
    case Dispatch(row) => Some(row)
    case Awaiting(row) => Some(row)
    case Recording(row, _) => Some(row)
    case RecordingUnknown(row) => Some(row)
    case CompleteSaving(_, row) => Some(row)
    case RecoverWriting(_, _, _, found) => found
    case _ => None
  }

  ghost predicate TaskOk(s: State, task: Task) {
    && (RowOf(task).Some? ==> Slots.RowOk(s, RowOf(task).value.value.run.key, RowOf(task).value))
    && (task.Creating? ==> ReservedKey(s.log, task.run.key))
    && (task.Dispatch? ==> Ready(s, task.row.value))
    && (task.CompleteSaving? ==> task.key == task.row.value.run.key)
    && (task.RecoverWriting? && task.found.Some? ==>
          task.i < |task.read.value.reservations| &&
          task.found.value.value.run.key == task.read.value.reservations[task.i].key)
  }

  ghost predicate Ready(s: State, stored: Stored) {
    && stored.uid < s.next && CreatedBehind(s.log, stored.run.key, stored.uid)
    && forall e :: e in s.log && e.Dispatched? ==> e.uid != stored.uid
  }

  ghost predicate Uids(s: State) {
    forall e :: e in s.log && !e.Reserved? ==> e.uid < s.next
  }

  /** Every record ever created is still there or was removed. */
  ghost predicate Accounted(s: State) {
    forall e :: e in s.log && e.Created? ==>
      Gone(s.log, e.key, e.uid) || (e.key in s.runs && s.runs[e.key].value.uid == e.uid)
  }

  ghost predicate Keyed(s: State) {
    forall k :: k in s.runs ==>
      s.runs[k].version < s.next && s.runs[k].value.uid < s.next && s.runs[k].value.run.key == k
  }

  ghost predicate Tasks(s: State) {
    forall t :: t in s.tasks ==> TaskOk(s, s.tasks[t])
  }

  /** No two tasks are about to dispatch the same record. */
  ghost predicate OneDispatcher(s: State) {
    forall t, w :: t in s.tasks && w in s.tasks && t != w && s.tasks[t].Dispatch? && s.tasks[w].Dispatch? ==>
      s.tasks[t].row.value.uid != s.tasks[w].row.value.uid
  }

  ghost predicate Inv(s: State) {
    LogOk(s.log) && Uids(s) && Accounted(s) && Keyed(s) && Tasks(s) && OneDispatcher(s)
  }

  // ----- What a task may rely on -----

  /** From s to u the store moved on and the log grew by `more`. */
  ghost predicate Later(s: State, u: State, more: seq<Event>) {
    && s.next <= u.next && u.log == s.log + more
    && (forall k :: k in u.runs ==> (k in s.runs && u.runs[k] == s.runs[k]) || u.runs[k].version >= s.next)
  }

  lemma LogGrows(log: seq<Event>, e: Event, key: Key, uid: nat)
    ensures ReservedKey(log, key) ==> ReservedKey(log + [e], key)
    ensures CreatedBehind(log, key, uid) ==> CreatedBehind(log + [e], key, uid)
    ensures forall d :: d in log ==> d in log + [e]
  {
    if CreatedBehind(log, key, uid) {
      var i :| 0 <= i < |log| && log[i] == Created(key, uid) && ReservedKey(log[..i], key);
      assert (log + [e])[..i] == log[..i] && (log + [e])[i] == Created(key, uid);
    }
  }

  lemma LogOkGrows(log: seq<Event>, e: Event)
    requires LogOk(log) && EventOk(log, e)
    ensures LogOk(log + [e])
  {
    forall i | 0 <= i < |log + [e]| ensures EventOk((log + [e])[..i], (log + [e])[i]) {
      if i < |log| { assert (log + [e])[..i] == log[..i]; } else { assert (log + [e])[..i] == log; }
    }
  }

  /** Another task's step leaves a task's promises alone, unless it dispatches the same record. */
  lemma TaskKept(s: State, u: State, task: Task, more: seq<Event>)
    requires TaskOk(s, task) && Later(s, u, more) && |more| <= 1
    requires more != [] && more[0].Dispatched? && task.Dispatch? ==> more[0].uid != task.row.value.uid
    ensures TaskOk(u, task)
  {
    if more != [] {
      assert more == [more[0]];
      if task.Creating? { LogGrows(s.log, more[0], task.run.key, 0); }
      if task.Dispatch? { LogGrows(s.log, more[0], task.row.value.run.key, task.row.value.uid); }
    } else {
      assert u.log == s.log;
    }
  }

  ghost predicate OnlyTask(s: State, u: State, t: nat) {
    u.tasks == s.tasks || u.tasks == s.tasks - {t} || (t in u.tasks && u.tasks == s.tasks[t := u.tasks[t]])
  }

  // ----- Steps by what they write -----

  /** No event and no run record written. */
  lemma NothingLogged(s: State, u: State, t: nat)
    requires Inv(s) && u.log == s.log && u.runs == s.runs && u.next >= s.next && OnlyTask(s, u, t)
    requires t in u.tasks && u.tasks != s.tasks ==> TaskOk(s, u.tasks[t]) && !u.tasks[t].Dispatch?
    ensures Inv(u)
  {
    assert u.log == s.log + [];
    forall c | c in u.tasks ensures TaskOk(u, u.tasks[c]) {
      TaskKept(s, u, u.tasks[c], []);
    }
  }

  /** A run record was rewritten under its own uid. */
  lemma RunRewritten(s: State, u: State, t: nat, key: Key, stored: Stored)
    requires Inv(s) && key in s.runs && stored.run.key == key && stored.uid == s.runs[key].value.uid
    requires u == PutRun(s, key, stored).(tasks := u.tasks) && OnlyTask(s, u, t)
    requires t in u.tasks ==> (RowOf(u.tasks[t]).None? && !u.tasks[t].Creating?) || (t in s.tasks && u.tasks[t] == s.tasks[t])
    ensures Inv(u)
  {
    assert u.log == s.log + [];
    forall c | c in u.tasks ensures TaskOk(u, u.tasks[c]) {
      if c in s.tasks && u.tasks[c] == s.tasks[c] { TaskKept(s, u, s.tasks[c], []); }
    }
  }

  /** An event that neither creates nor removes a record. */
  lemma AccountedKept(s: State, u: State, e: Event)
    requires Accounted(s) && u.log == s.log + [e] && u.runs == s.runs && !e.Created?
    ensures Accounted(u)
  {
    forall d | d in u.log && d.Created?
      ensures Gone(u.log, d.key, d.uid) || (d.key in u.runs && u.runs[d.key].value.uid == d.uid)
    {
      assert d in s.log;
      if Gone(s.log, d.key, d.uid) { assert Removed(d.key, d.uid) in u.log; }
    }
  }

  /** A new record is accounted for, and no earlier one was under the key. */
  lemma CreationAccounted(s: State, u: State, run: Run)
    requires LogOk(s.log) && Uids(s) && Accounted(s) && run.key !in s.runs
    requires u.log == s.log + [Created(run.key, s.next)]
    requires u.runs == s.runs[run.key := Versioned(s.next, Stored(s.next, run))]
    ensures LogOk(u.log) && Accounted(u)
  {
    var e := Created(run.key, s.next);
    LogOkGrows(s.log, e);
    forall d | d in u.log && d.Created?
      ensures Gone(u.log, d.key, d.uid) || (d.key in u.runs && u.runs[d.key].value.uid == d.uid)
    {
      if d != e {
        assert d in s.log;
        if Gone(s.log, d.key, d.uid) { assert Removed(d.key, d.uid) in u.log; }
      }
    }
  }

  /** A reservation was committed. */
  lemma ReservationLogged(s: State, u: State, t: nat, e: Event, run: Run)
    requires Inv(s) && e.Reserved? && e.key == run.key && u.log == s.log + [e]
    requires u == s.(schedule := u.schedule, next := s.next + 1, log := u.log, tasks := s.tasks[t := Creating(run)])
    ensures Inv(u)
  {
    LogOkGrows(s.log, e);
    AccountedKept(s, u, e);
    assert e in u.log;
    forall c | c in u.tasks ensures TaskOk(u, u.tasks[c]) {
      if c != t { TaskKept(s, u, s.tasks[c], [e]); }
    }
  }

  /** A record created behind a reservation is ready to be dispatched. */
  lemma NewRecordReady(s: State, u: State, run: Run)
    requires Uids(s) && ReservedKey(s.log, run.key) && u.log == s.log + [Created(run.key, s.next)] && u.next == s.next + 1
    ensures Ready(u, Stored(s.next, run))
  {
    assert u.log[|s.log|] == Created(run.key, s.next) && u.log[..|s.log|] == s.log;
  }

  /** A run record was created; if by a fire, the fire is now ready to dispatch it. */
  lemma CreationLogged(s: State, u: State, t: nat, run: Run)
    requires Inv(s) && run.key !in s.runs
    requires u == PutRun(s, run.key, Stored(s.next, run)).(log := s.log + [Created(run.key, s.next)], tasks := u.tasks)
    requires t in u.tasks && u.tasks == s.tasks[t := u.tasks[t]]
    requires u.tasks[t].Recovering? || (u.tasks[t] == Dispatch(u.runs[run.key]) && ReservedKey(s.log, run.key))
    ensures Inv(u)
  {
    CreationAccounted(s, u, run);
    if u.tasks[t].Dispatch? { NewRecordReady(s, u, run); }
    CreationTasks(s, u, t, run);
  }

  lemma CreationTasks(s: State, u: State, t: nat, run: Run)
    requires Uids(s) && Tasks(s) && OneDispatcher(s) && run.key !in s.runs
    requires u == PutRun(s, run.key, Stored(s.next, run)).(log := s.log + [Created(run.key, s.next)], tasks := u.tasks)
    requires t in u.tasks && u.tasks == s.tasks[t := u.tasks[t]]
    requires u.tasks[t].Recovering? || (u.tasks[t] == Dispatch(u.runs[run.key]) && Ready(u, Stored(s.next, run)))
    ensures Tasks(u) && OneDispatcher(u)
  {
    forall c | c in u.tasks ensures TaskOk(u, u.tasks[c]) {
      if c != t { TaskKept(s, u, s.tasks[c], [Created(run.key, s.next)]); }
    }
    CreationDispatchers(s, u, t);
  }

  /** The new record's uid is nobody else's. */
  lemma CreationDispatchers(s: State, u: State, t: nat)
    requires Tasks(s) && OneDispatcher(s) && t in u.tasks && u.tasks == s.tasks[t := u.tasks[t]]
    requires u.tasks[t].Dispatch? ==> u.tasks[t].row.value.uid == s.next
    ensures OneDispatcher(u)
  {
    forall c | c in s.tasks && c != t && s.tasks[c].Dispatch? ensures s.tasks[c].row.value.uid < s.next {
      assert TaskOk(s, s.tasks[c]);
    }
  }

  lemma DispatchLogged(s: State, t: nat)
    requires Inv(s) && t in s.tasks && s.tasks[t].Dispatch?
    ensures Inv(Advance(s, t, 0, false))
  {
    var row, u := s.tasks[t].row, Advance(s, t, 0, false);
    var e := Dispatched(row.value.run.key, row.value.uid);
    assert TaskOk(s, s.tasks[t]);
    LogOkGrows(s.log, e);
    AccountedKept(s, u, e);
    forall c | c in u.tasks ensures TaskOk(u, u.tasks[c]) {
      if c != t { TaskKept(s, u, s.tasks[c], [e]); }
    }
    LogGrows(s.log, e, row.value.run.key, 0);
  }

  lemma RemovalLogged(s: State, key: Key)
    requires Inv(s) && key in s.runs
    ensures Inv(Remove(s, key))
  {
    var e, u := Removed(key, s.runs[key].value.uid), Remove(s, key);
    LogOkGrows(s.log, e);
    assert e in u.log;
    forall c | c in u.tasks ensures TaskOk(u, u.tasks[c]) { TaskKept(s, u, s.tasks[c], [e]); }
    forall d | d in u.log && d.Created?
      ensures Gone(u.log, d.key, d.uid) || (d.key in u.runs && u.runs[d.key].value.uid == d.uid)
    {
      assert d in s.log;
      if Gone(s.log, d.key, d.uid) { assert Removed(d.key, d.uid) in u.log; }
    }
  }

  // ----- Each step -----

  lemma RecordStep(s: State, t: nat, u: State, row: Versioned<Stored>, answer: Answer)
    requires Inv(s) && Slots.RowOk(s, row.value.run.key, row) && t in s.tasks
    requires u == Record(s, t, row, answer) || u == RecordUnknown(s, t, row)
    ensures Inv(u)
  {
    if u.next == s.next { NothingLogged(s, u, t); }
    else { RunRewritten(s, u, t, row.value.run.key, u.runs[row.value.run.key].value); }
  }

  lemma CompleteSaveStep(s: State, t: nat)
    requires Inv(s) && t in s.tasks && s.tasks[t].CompleteSaving?
    ensures Inv(Advance(s, t, 0, false))
  {
    assert TaskOk(s, s.tasks[t]);
    var row, u := s.tasks[t].row, Advance(s, t, 0, false);
    if u.next == s.next { NothingLogged(s, u, t); }
    else { RunRewritten(s, u, t, row.value.run.key, u.runs[row.value.run.key].value); }
  }

  lemma RecoverWriteStep(s: State, t: nat)
    requires Inv(s) && t in s.tasks && s.tasks[t].RecoverWriting?
    ensures Inv(Advance(s, t, 0, false))
  {
    var RecoverWriting(read, i, dropped, found) := s.tasks[t];
    var u := Advance(s, t, 0, false);
    assert TaskOk(s, s.tasks[t]);
    if u.next == s.next { NothingLogged(s, u, t); }
    else if u.log != s.log { CreationLogged(s, u, t, read.value.reservations[i].(phase := Unknown)); }
    else { RunRewritten(s, u, t, found.value.value.run.key, u.runs[found.value.value.run.key].value); }
  }

  lemma FireStep(s: State, t: nat)
    requires Inv(s) && t in s.tasks && (s.tasks[t].Reserving? || s.tasks[t].Creating?)
    ensures Inv(Advance(s, t, 0, false))
  {
    var u := Advance(s, t, 0, false);
    assert TaskOk(s, s.tasks[t]);
    if u.next == s.next { NothingLogged(s, u, t); }
    else if s.tasks[t].Reserving? { ReservationLogged(s, u, t, u.log[|s.log|], s.tasks[t].run); }
    else { CreationLogged(s, u, t, s.tasks[t].run); }
  }

  predicate Writes(task: Task) {
    task.Reserving? || task.Creating? || task.Dispatch? || task.Recording? || task.RecordingUnknown? ||
    task.CompleteSaving? || task.RecoverWriting?
  }

  predicate WritesSchedule(task: Task) {
    task.ReleaseSaving? || task.Saving? || task.DeleteSaving? || task.RecoverSaving?
  }

  /** The step leaves the run records and the log alone, and `t` does not come to dispatch. */
  ghost predicate Harmless(s: State, u: State, t: nat) {
    && u.log == s.log && u.runs == s.runs && u.next >= s.next && OnlyTask(s, u, t)
    && (t in u.tasks && u.tasks != s.tasks ==> !u.tasks[t].Creating? && !u.tasks[t].Dispatch? && RowStored(s, u.tasks[t]))
  }

  lemma ScheduleStep(s: State, t: nat, at: int, saturated: bool)
    requires t in s.tasks && WritesSchedule(s.tasks[t])
    ensures Harmless(s, Advance(s, t, at, saturated), t)
  {
  }

  predicate Decides(task: Task) {
    task.FireReading? || task.TickReading? || task.Recovering? || task.ChangeReady?
  }

  lemma DecidingStep(s: State, t: nat, at: int, saturated: bool)
    requires t in s.tasks && Decides(s.tasks[t])
    ensures Harmless(s, Advance(s, t, at, saturated), t)
  {
  }

  lemma ReadingStep(s: State, t: nat, at: int, saturated: bool)
    requires t in s.tasks && !Writes(s.tasks[t]) && !WritesSchedule(s.tasks[t])
    ensures Harmless(s, Advance(s, t, at, saturated), t)
  {
    if Decides(s.tasks[t]) { DecidingStep(s, t, at, saturated); }
  }

  /** The row the task holds, if any, is the stored one. */
  predicate RowStored(s: State, task: Task) {
    match task
    case CompleteSaving(key, row) => key in s.runs && row == s.runs[key]
    case RecoverWriting(read, i, _, found) =>
      i < |read.value.reservations| && found == Row(s, read.value.reservations[i].key)
    case _ => RowOf(task).None?
  }

  lemma StoredRowOk(s: State, task: Task)
    requires Keyed(s) && RowStored(s, task) && !task.Creating? && !task.Dispatch?
    ensures TaskOk(s, task)
  {
  }

  lemma AdvanceKeepsInv(s: State, t: nat, at: int, saturated: bool)
    requires Inv(s) && t in s.tasks
    ensures Inv(Advance(s, t, at, saturated))
  {
    var task := s.tasks[t];
    assert TaskOk(s, task);
    if !Writes(task) {
      if WritesSchedule(task) { ScheduleStep(s, t, at, saturated); } else { ReadingStep(s, t, at, saturated); }
      var u := Advance(s, t, at, saturated);
      if t in u.tasks && u.tasks != s.tasks { StoredRowOk(s, u.tasks[t]); }
      NothingLogged(s, u, t);
    }
    else if task.Dispatch? { DispatchLogged(s, t); }
    else if task.RecoverWriting? { RecoverWriteStep(s, t); }
    else if task.Reserving? || task.Creating? { FireStep(s, t); }
    else if task.CompleteSaving? { CompleteSaveStep(s, t); }
    else { RecordStep(s, t, Advance(s, t, 0, false), task.row, if task.Recording? then task.answer else Failed); }
  }

  lemma ThrowStep(s: State, t: nat, applied: bool)
    requires Inv(s)
    ensures Inv(Apply(s, Throw(t, applied)))
  {
    var u := Apply(s, Throw(t, applied));
    if u != s {
      assert TaskOk(s, s.tasks[t]);
      var v := Record(s, t, s.tasks[t].row, Accepted);
      if applied {
        RecordStep(s, t, v, s.tasks[t].row, Accepted);
        NothingLogged(v, u, t);
      } else {
        NothingLogged(s, u, t);
      }
    }
  }

  lemma StartStep(s: State, action: Action)
    requires Inv(s)
    requires action.StartFire? || action.StartTick? || action.StartChange? || action.StartDelete? ||
             action.StartComplete? || action.StartRecover?
    ensures Inv(Apply(s, action))
  {
    NothingLogged(s, Apply(s, action), action.t);
  }

  lemma StepKeepsInv(s: State, action: Action)
    requires Inv(s)
    ensures Inv(Apply(s, action))
  {
    var u := Apply(s, action);
    match action
    case Step(t, at, saturated) => if t in s.tasks { AdvanceKeepsInv(s, t, at, saturated); }
    case Throw(t, applied) => ThrowStep(s, t, applied);
    case Prune(key, _) => if u != s { RemovalLogged(s, key); }
    case Sweep(_, key) => if u != s { RemovalLogged(s, key); }
    case Tick(_) => NothingLogged(s, u, 0);
    case Reply(t, _) => if t in s.tasks { assert TaskOk(s, s.tasks[t]); NothingLogged(s, u, t); }
    case Lose(t) => NothingLogged(s, u, t);
    case _ => StartStep(s, action);
  }

  lemma {:induction false} RunKeepsInv(s: State, actions: seq<Action>)
    requires Inv(s)
    ensures Inv(RunAll(s, actions))
    decreases |actions|
  {
    if actions != [] {
      StepKeepsInv(s, actions[0]);
      RunKeepsInv(Apply(s, actions[0]), actions[1..]);
    }
  }

  // ----- Theorems, over every run -----

  /** A dispatch is sent only after the reservation and then the run record committed. */
  lemma DispatchesAreBacked(now: int, schedule: Schedule, actions: seq<Action>, d: nat)
    requires var log := RunAll(Init(now, schedule), actions).log; d < |log| && log[d].Dispatched?
    ensures var log := RunAll(Init(now, schedule), actions).log;
      exists r, c :: 0 <= r < c < d && log[r].Reserved? && log[r].key == log[d].key &&
                     log[c] == Created(log[d].key, log[d].uid)
  {
    RunKeepsInv(Init(now, schedule), actions);
    var log := RunAll(Init(now, schedule), actions).log;
    assert EventOk(log[..d], log[d]);
    var c :| 0 <= c < d && log[..d][c] == Created(log[d].key, log[d].uid) && ReservedKey(log[..d][..c], log[d].key);
    var e :| e in log[..d][..c] && e.Reserved? && e.key == log[d].key;
    var r :| 0 <= r < c && log[..d][..c][r] == e;
    assert log[r] == e && log[c] == Created(log[d].key, log[d].uid);
  }

  lemma CreationOf(log: seq<Event>, d: nat) returns (c: nat)
    requires LogOk(log) && d < |log| && log[d].Dispatched?
    ensures c < d && log[c] == Created(log[d].key, log[d].uid)
    ensures log[d] !in log[..d]
  {
    assert EventOk(log[..d], log[d]);
    var i :| 0 <= i < d && log[..d][i] == Created(log[d].key, log[d].uid);
    c := i;
  }

  /** A second creation under the key comes after the first record was removed. */
  lemma RemovalBetween(log: seq<Event>, c: nat, d: nat) returns (g: nat)
    requires LogOk(log) && c < d < |log| && log[c].Created? && log[d].Created? && log[c].key == log[d].key
    ensures g < d && log[g] == Removed(log[c].key, log[c].uid) && log[c].uid != log[d].uid
  {
    assert EventOk(log[..d], log[d]) && log[..d][c] == log[c];
    var i :| 0 <= i < d && log[..d][i] == Removed(log[c].key, log[c].uid);
    g := i;
  }

  /** Before n the key's record `first` was created, removed, and the record `second` created behind that. */
  ghost predicate Recreated(log: seq<Event>, n: nat, key: Key, first: nat, second: nat) {
    exists c, g, d :: 0 <= c < d < |log| && d < n && 0 <= g < d &&
                      log[c] == Created(key, first) && log[g] == Removed(key, first) && log[d] == Created(key, second)
  }

  /** No replay: two dispatches of the same run id are for two records, of which the one created first
      was deleted before the other was created. While a record is kept, its run is dispatched at most once. */
  lemma DispatchedOncePerKeptRecord(now: int, schedule: Schedule, actions: seq<Action>, a: nat, b: nat)
    requires var log := RunAll(Init(now, schedule), actions).log;
      a < b < |log| && log[a].Dispatched? && log[b].Dispatched? && log[a].key == log[b].key
    ensures var log := RunAll(Init(now, schedule), actions).log;
      log[a].uid != log[b].uid &&
      (Recreated(log, b, log[a].key, log[a].uid, log[b].uid) || Recreated(log, b, log[a].key, log[b].uid, log[a].uid))
  {
    RunKeepsInv(Init(now, schedule), actions);
    var log := RunAll(Init(now, schedule), actions).log;
    var i := CreationOf(log, a);
    var j := CreationOf(log, b);
    assert log[..b][a] == log[a];
    if i != j {
      var c, d := if i < j then i else j, if i < j then j else i;
      var g := RemovalBetween(log, c, d);
      assert Recreated(log, b, log[a].key, log[c].uid, log[d].uid);
    }
  }
}
