/** The service's methods as the program text has them, run among any other work on the
    cluster: each makes only the moves of the protocol, and alone it makes progress. */
module SchedulerService {
  import opened VersionedStore
  import opened Scheduler
  import Slots = SchedulerSlots

  predicate Other(action: Action, t: nat) {
    match action
    case StartFire(c, _) => c != t
    case StartTick(c) => c != t
    case StartChange(c, _) => c != t
    case StartDelete(c) => c != t
    case StartComplete(c, _) => c != t
    case StartRecover(c) => c != t
    case Step(c, _, _) => c != t
    case Reply(c, _) => c != t
    case Throw(c, _) => c != t
    case Lose(c) => c != t
    case _ => true
  }

  predicate Others(actions: seq<Action>, t: nat) {
    forall a :: a in actions ==> Other(a, t)
  }

  lemma {:induction false} RunConcat(s: State, first: seq<Action>, second: seq<Action>)
    ensures RunAll(s, first + second) == RunAll(RunAll(s, first), second)
    decreases |first|
  {
    if first == [] {
      assert first + second == second;
    } else {
      assert (first + second)[1..] == first[1..] + second;
      RunConcat(Apply(s, first[0]), first[1..], second);
    }
  }

  /** Only task `c` moves, and what happened stays. */
  ghost predicate MovesOne(s: State, u: State, c: nat) {
    s.log <= u.log &&
    (u.tasks == s.tasks || u.tasks == s.tasks - {c} || (c in u.tasks && u.tasks == s.tasks[c := u.tasks[c]]))
  }

  predicate IsSaving(task: Task) {
    task.Reserving? || task.ReleaseSaving? || task.Saving? || task.DeleteSaving? || task.RecoverSaving?
  }

  lemma SavingMovesOne(s: State, c: nat)
    requires c in s.tasks && IsSaving(s.tasks[c])
    ensures MovesOne(s, Advance(s, c, 0, false), c)
  {
  }

  predicate IsRunWriting(task: Task) {
    task.Creating? || task.Recording? || task.RecordingUnknown? || task.CompleteSaving? || task.RecoverWriting?
  }

  lemma RunWritingMovesOne(s: State, c: nat)
    requires c in s.tasks && IsRunWriting(s.tasks[c])
    ensures MovesOne(s, Advance(s, c, 0, false), c)
  {
  }

  lemma ReadingMovesOne(s: State, c: nat, at: int, saturated: bool)
    requires c in s.tasks && !IsSaving(s.tasks[c]) && !IsRunWriting(s.tasks[c])
    ensures MovesOne(s, Advance(s, c, at, saturated), c)
  {
  }

  lemma AdvanceMovesOne(s: State, c: nat, at: int, saturated: bool)
    requires c in s.tasks
    ensures MovesOne(s, Advance(s, c, at, saturated), c)
  {
    if IsSaving(s.tasks[c]) { SavingMovesOne(s, c); }
    else if IsRunWriting(s.tasks[c]) { RunWritingMovesOne(s, c); }
    else { ReadingMovesOne(s, c, at, saturated); }
  }

  ghost predicate SameTask(s: State, u: State, t: nat) {
    (t in u.tasks <==> t in s.tasks) && (t in s.tasks ==> u.tasks[t] == s.tasks[t])
  }

  lemma StartKeepsTask(s: State, action: Action, t: nat)
    requires Other(action, t)
    requires action.StartFire? || action.StartTick? || action.StartChange? || action.StartDelete? ||
             action.StartComplete? || action.StartRecover?
    ensures SameTask(s, Apply(s, action), t) && s.log <= Apply(s, action).log
  {
  }

  lemma ApplyKeepsTask(s: State, action: Action, t: nat)
    requires Other(action, t)
    ensures SameTask(s, Apply(s, action), t) && s.log <= Apply(s, action).log
  {
    if action.Step? {
      if action.t in s.tasks { AdvanceMovesOne(s, action.t, action.at, action.saturated); }
    } else if action.StartFire? || action.StartTick? || action.StartChange? || action.StartDelete? ||
              action.StartComplete? || action.StartRecover? {
      StartKeepsTask(s, action, t);
    }
  }

  lemma LogStays(s: State, action: Action)
    ensures s.log <= Apply(s, action).log
  {
    if action.Step? && action.t in s.tasks { AdvanceMovesOne(s, action.t, action.at, action.saturated); }
  }

  lemma {:induction false} OthersKeepTask(s: State, actions: seq<Action>, t: nat)
    requires Others(actions, t)
    ensures SameTask(s, RunAll(s, actions), t) && s.log <= RunAll(s, actions).log
    decreases |actions|
  {
    if actions != [] {
      ApplyKeepsTask(s, actions[0], t);
      OthersKeepTask(Apply(s, actions[0]), actions[1..], t);
    }
  }

  /** The API server and everybody working on it, or nobody else if `quiet`. `trace` is what happened
      since `start`. */
  class Cluster {
    const quiet: bool
    var s: State
    ghost const start: State
    ghost var trace: seq<Action>

    constructor (s: State, quiet: bool)
      ensures Valid() && this.s == s && trace == [] && start == s && this.quiet == quiet
    {
      this.s, this.quiet := s, quiet;
      start := s;
      trace := [];
    }

    ghost predicate Valid()
      reads this
    {
      s == RunAll(start, trace)
    }

    /** Everybody but task `t` does what they like while `t` awaits. */
    method Await(t: nat)
      requires Valid()
      modifies this
      ensures Valid() && old(trace) <= trace && SameTask(old(s), s, t) && old(s.log) <= s.log
      ensures quiet ==> s == old(s)
    {
      var actions: seq<Action> :| Others(actions, t) && (quiet ==> actions == []) by { assert Others([], t); }
      s := RunAll(s, actions);
      trace := trace + actions;
      OthersKeepTask(old(s), actions, t);
      RunConcat(start, old(trace), actions);
    }

    method Do(action: Action)
      requires Valid()
      modifies this
      ensures Valid() && trace == old(trace) + [action] && s == Apply(old(s), action) && old(s.log) <= s.log
    {
      LogStays(s, action);
      s := Apply(s, action);
      trace := trace + [action];
      RunConcat(start, old(trace), [action]);
    }

    /** A read of the run record. */
    method ReadRun(t: nat, key: Key) returns (row: Option<Versioned<Stored>>)
      requires Valid() && t in s.tasks
      modifies this
      ensures Valid() && old(trace) <= trace && old(s.log) <= s.log && s == Advance(old(s), t, 0, false) && row == Row(old(s), key)
    {
      row := Row(s, key);
      Do(Step(t, 0, false));
    }

    /** A read of the schedule; the code up to the next await may ask for the next time. */
    method ReadSchedule(t: nat, at: int) returns (row: Option<Versioned<Schedule>>)
      requires Valid() && t in s.tasks
      modifies this
      ensures Valid() && old(trace) <= trace && old(s.log) <= s.log && s == Advance(old(s), t, at, false) && row == old(s).schedule
    {
      row := s.schedule;
      Do(Step(t, at, false));
    }

    /** The compare and swap of the schedule is the one the protocol has task `t` make. */
    method SaveSchedule(t: nat, version: nat, value: Schedule) returns (saved: bool)
      requires Valid() && t in s.tasks
      requires match s.tasks[t]
        case Reserving(run, _, read, _, at) => version == read.version && value == Reserve(read.value, run, at)
        case ReleaseSaving(key, _, read) =>
          version == read.version && value == read.value.(reservations := Without(read.value.reservations, {key}))
        case RecoverSaving(read, dropped, nextRunAt) =>
          version == read.version &&
          value == read.value.(reservations := Without(read.value.reservations, dropped), nextRunAt := nextRunAt)
        case _ => false
      modifies this
      ensures Valid() && old(trace) <= trace && old(s.log) <= s.log && s == Advance(old(s), t, 0, false)
      ensures saved <==> VersionOf(old(s).schedule) == Some(version)
      ensures s.schedule == if saved then Some(Versioned(old(s).next, value)) else old(s).schedule
    {
      saved := VersionOf(s.schedule) == Some(version);
      Do(Step(t, 0, false));
    }

    /** A write of a run record: a create, or a compare and swap of the row that was read. */
    method WriteRun(t: nat, key: Key, expected: Option<nat>, run: Run) returns (written: bool)
      requires Valid() && t in s.tasks
      requires match s.tasks[t]
        case Creating(r) => key == r.key && expected == None && run == r
        case Recording(row, answer) =>
          key == row.value.run.key && expected == Some(row.version) && run == row.value.run.(phase := PhaseOf(answer))
        case RecordingUnknown(row) =>
          key == row.value.run.key && expected == Some(row.version) && run == row.value.run.(phase := Unknown)
        case CompleteSaving(k, row) =>
          key == k && expected == Some(row.version) && run == row.value.run.(phase := Finished)
        case RecoverWriting(read, i, _, found) =>
          i < |read.value.reservations| && key == read.value.reservations[i].key && expected == VersionOf(found) &&
          run == (if found.Some? then found.value.value.run else read.value.reservations[i]).(phase := Unknown)
        case _ => false
      modifies this
      ensures Valid() && trace == old(trace) + [Step(t, 0, false)] && old(s.log) <= s.log && s == Advance(old(s), t, 0, false)
      ensures written <==> VersionOf(Row(old(s), key)) == expected
      ensures written ==> key in s.runs && s.runs[key].value.run == run && s.runs[key].version == old(s).next
      ensures !written ==> s.runs == old(s).runs
    {
      written := VersionOf(Row(s, key)) == expected;
      Do(Step(t, 0, false));
    }

    /** The dispatch leaves, and any answer may come back. */
    method Send(t: nat) returns (answer: Answer)
      requires Valid() && t in s.tasks && s.tasks[t].Dispatch?
      modifies this
      ensures Valid() && old(trace) <= trace && old(s.log) <= s.log
      ensures t in s.tasks && s.tasks[t] == Recording(old(s).tasks[t].row, answer)
      ensures var row := old(s).tasks[t].row; Dispatched(row.value.run.key, row.value.uid) in s.log
      ensures quiet ==> s.schedule == old(s).schedule && s.runs == old(s).runs
    {
      ghost var row := s.tasks[t].row;
      Do(Step(t, 0, false));
      assert s.log[|s.log| - 1] == Dispatched(row.value.run.key, row.value.uid);
      Await(t);
      answer := *;
      Do(Reply(t, answer));
    }
  }

  /** `release`: four attempts to give the slot back. */
  method Release(w: Cluster, t: nat, key: Key) returns (released: bool)
    requires w.Valid() && t in w.s.tasks && w.s.tasks[t] == ReleaseReading(key, 0)
    modifies w
    ensures w.Valid() && old(w.trace) <= w.trace && t !in w.s.tasks && old(w.s.log) <= w.s.log
    ensures released ==> w.s.schedule.Some? && !HasSlot(w.s.schedule.value.value.reservations, key)
    ensures w.quiet ==> (released <==> old(w.s).schedule.Some?) && w.s.runs == old(w.s).runs
  {
    var attempt := 0;
    while attempt < RELEASE_ATTEMPTS
      invariant w.quiet ==> attempt == 0 && w.s.schedule == old(w.s).schedule && w.s.runs == old(w.s).runs
      invariant 0 <= attempt < RELEASE_ATTEMPTS && w.Valid() && old(w.trace) <= w.trace && old(w.s.log) <= w.s.log
      invariant t in w.s.tasks && w.s.tasks[t] == ReleaseReading(key, attempt)
    {
      w.Await(t);
      var row := w.ReadSchedule(t, 0);
      if row.None? { return false; }
      w.Await(t);
      var read := row.value;
      var saved := w.SaveSchedule(t, read.version, read.value.(reservations := Without(read.value.reservations, {key})));
      if saved { return true; }
      if attempt == RELEASE_ATTEMPTS - 1 { return false; }
      attempt := attempt + 1;
    }
    released := false;
  }

  /** The fire's reservation, its run record and its dispatch have all happened. */
  ghost predicate SentBehind(log: seq<Event>, key: Key, due: int, auto: bool) {
    exists before: Schedule, time: int, uid: nat ::
      Reserved(key, due, auto, before, time) in log && Created(key, uid) in log && Dispatched(key, uid) in log
  }

  /** `executeFire`, from the check of the run record on: it says it sent the dispatch only when it did,
      behind its own reservation and its own run record. */
  method ExecuteFire(w: Cluster, t: nat, key: Key, due: int, auto: bool) returns (sent: bool)
    requires w.Valid() && t in w.s.tasks && w.s.tasks[t] == Firing(key, due, auto)
    modifies w
    ensures w.Valid() && old(w.trace) <= w.trace && t !in w.s.tasks
    ensures sent ==> SentBehind(w.s.log, key, due, auto)
    ensures w.quiet ==> (sent <==> var s := old(w.s);
      key !in s.runs && s.schedule.Some? && Admits(s.schedule.value.value, key, due, auto, s.now))
  {
    w.Await(t);
    var existing := w.ReadRun(t, key);
    if existing.Some? { return false; }
    w.Await(t);
    var at: int :| at > w.s.now;
    var row := w.ReadSchedule(t, at);
    if row.None? { return false; }
    var read := row.value;
    var state := read.value;
    if auto && (state.status != Active || state.nextRunAt != Some(due)) { return false; }
    if HasSlot(state.reservations, key) { return false; }
    if (state.expiresAt.Some? && state.expiresAt.value <= w.s.now) ||
       (state.maxRuns.Some? && state.maxRuns.value != 0 && state.totalRuns >= state.maxRuns.value) { return false; }
    if |state.reservations| >= 16 || (!state.allow && |state.reservations| != 0) { return false; }
    sent := ReserveAndSend(w, t, Run(key, due, w.s.now, Dispatching), auto, read, at);
  }

  /** The slot is reserved, then the record created, and only then the dispatch sent. */
  method ReserveAndSend(w: Cluster, t: nat, run: Run, auto: bool, read: Versioned<Schedule>, at: int) returns (sent: bool)
    requires w.Valid() && t in w.s.tasks && w.s.tasks[t] == Reserving(run, auto, read, w.s.now, at)
    modifies w
    ensures w.Valid() && old(w.trace) <= w.trace && t !in w.s.tasks
    ensures sent ==> SentBehind(w.s.log, run.key, run.scheduledFor, auto)
    ensures w.quiet ==> (sent <==> VersionOf(old(w.s).schedule) == Some(read.version) && run.key !in old(w.s).runs)
  {
    ghost var time := w.s.now;
    w.Await(t);
    var reserved := w.SaveSchedule(t, read.version, Reserve(read.value, run, at));
    if !reserved { return false; }
    ghost var reservation := Reserved(run.key, run.scheduledFor, auto, read.value, time);
    assert w.s.log[|w.s.log| - 1] == reservation;
    ghost var uid;
    sent, uid := CreateAndSend(w, t, run);
    assert reservation in w.s.log;
  }

  method CreateAndSend(w: Cluster, t: nat, run: Run) returns (sent: bool, ghost uid: nat)
    requires w.Valid() && t in w.s.tasks && w.s.tasks[t] == Creating(run)
    modifies w
    ensures w.Valid() && old(w.trace) <= w.trace && t !in w.s.tasks && old(w.s.log) <= w.s.log
    ensures sent ==> Created(run.key, uid) in w.s.log && Dispatched(run.key, uid) in w.s.log
    ensures w.quiet ==> (sent <==> run.key !in old(w.s).runs)
  {
    w.Await(t);
    var created := w.WriteRun(t, run.key, None, run);
    if !created { return false, 0; }
    uid := w.s.runs[run.key].value.uid;
    ghost var creation := Created(run.key, uid);
    assert w.s.log[|w.s.log| - 1] == creation;
    w.Await(t);
    var _ := Deliver(w, t);
    sent := true;
    assert creation in w.s.log;
  }

  /** The answer was recorded over the row that was dispatched, or, if that is not there any more, not at all. */
  ghost predicate Recorded(before: map<Key, Versioned<Stored>>, after: map<Key, Versioned<Stored>>, row: Versioned<Stored>, answer: Answer) {
    var key := row.value.run.key;
    if key in before && before[key].version == row.version then
      && key in after && after == before[key := after[key]] && after[key].value.uid == row.value.uid
      && after[key].value.run == row.value.run.(phase :=
           match answer case Accepted => Running case Rejected => Finished case Failed => Unknown)
    else after == before
  }

  /** At this step the task recorded the outcome as it then stood. */
  ghost predicate RecordedAt(start: State, trace: seq<Action>, n: nat, t: nat, row: Versioned<Stored>, answer: Answer)
    requires n < |trace|
  {
    trace[n] == Step(t, 0, false) && Recorded(RunAll(start, trace[..n]).runs, RunAll(start, trace[..n + 1]).runs, row, answer)
  }

  ghost predicate RecordedIn(start: State, trace: seq<Action>, from: nat, t: nat, row: Versioned<Stored>, answer: Answer) {
    exists n :: from <= n < |trace| && RecordedAt(start, trace, n, t, row, answer)
  }

  lemma StaysRecorded(start: State, trace: seq<Action>, more: seq<Action>, from: nat, t: nat, row: Versioned<Stored>, answer: Answer)
    requires trace <= more && RecordedIn(start, trace, from, t, row, answer)
    ensures RecordedIn(start, more, from, t, row, answer)
  {
    var n :| from <= n < |trace| && RecordedAt(start, trace, n, t, row, answer);
    assert more[..n] == trace[..n] && more[..n + 1] == trace[..n + 1];
    assert RecordedAt(start, more, n, t, row, answer);
  }

  method RecordOutcome(w: Cluster, t: nat, row: Versioned<Stored>, answer: Answer, ghost from: nat) returns (recorded: bool)
    requires w.Valid() && t in w.s.tasks && w.s.tasks[t] == Recording(row, answer) && from <= |w.trace|
    modifies w
    ensures w.Valid() && old(w.trace) <= w.trace && old(w.s.log) <= w.s.log && w.s == Advance(old(w.s), t, 0, false)
    ensures recorded <==> RunCurrent(old(w.s), row.value.run.key, row)
    ensures RecordedIn(w.start, w.trace, from, t, row, answer) && Recorded(old(w.s).runs, w.s.runs, row, answer)
  {
    ghost var n := |w.trace|;
    var run := row.value.run;
    recorded := w.WriteRun(t, run.key, Some(row.version), run.(phase := PhaseOf(answer)));
    assert w.trace[..n] == old(w.trace) && w.trace[..n + 1] == w.trace;
    assert RecordedAt(w.start, w.trace, n, t, row, answer);
  }

  /** The dispatch and the record of its outcome: made over the row that was dispatched, if that is
      current at that step, and else given up. */
  method Deliver(w: Cluster, t: nat) returns (answer: Answer)
    requires w.Valid() && t in w.s.tasks && w.s.tasks[t].Dispatch?
    modifies w
    ensures w.Valid() && old(w.trace) <= w.trace && t !in w.s.tasks && old(w.s.log) <= w.s.log
    ensures var row := old(w.s).tasks[t].row; Dispatched(row.value.run.key, row.value.uid) in w.s.log
    ensures RecordedIn(w.start, w.trace, |old(w.trace)|, t, old(w.s).tasks[t].row, answer)
    ensures w.quiet ==> Recorded(old(w.s).runs, w.s.runs, old(w.s).tasks[t].row, answer)
  {
    var row := w.s.tasks[t].row;
    var run := row.value.run;
    answer := w.Send(t);
    w.Await(t);
    var recorded := RecordOutcome(w, t, row, answer, |old(w.trace)|);
    ghost var trace := w.trace;
    if recorded && answer.Rejected? {
      var _ := Release(w, t, run.key);
    } else if !recorded && answer.Accepted? {
      w.Await(t);
      var _ := w.WriteRun(t, run.key, Some(row.version), run.(phase := Unknown));
    }
    StaysRecorded(w.start, trace, w.trace, |old(w.trace)|, t, row, answer);
  }

  /** A run that was not finished is; one that was is not written again. */
  ghost predicate FinishedOnce(before: map<Key, Versioned<Stored>>, after: map<Key, Versioned<Stored>>, key: Key) {
    if key !in before || before[key].value.run.phase == Finished then after == before
    else
      && key in after && after == before[key := after[key]]
      && after[key].value == before[key].value.(run := before[key].value.run.(phase := Finished))
  }

  /** At some point from `from` on the run's record said that it is finished. */
  ghost predicate FinishedIn(start: State, trace: seq<Action>, from: nat, key: Key) {
    exists n {:trigger trace[..n]} :: from <= n <= |trace| && FinishedNow(RunAll(start, trace[..n]), key)
  }

  predicate FinishedNow(s: State, key: Key) {
    key in s.runs && s.runs[key].value.run.phase == Finished
  }

  lemma StaysFinished(start: State, trace: seq<Action>, more: seq<Action>, from: nat, key: Key)
    requires trace <= more && from <= |trace| && FinishedNow(RunAll(start, trace), key)
    ensures FinishedIn(start, more, from, key)
  {
    assert more[..|trace|] == trace;
  }

  /** `completeRun`: the outcome is recorded once, and the slot given back. */
  method CompleteRun(w: Cluster, t: nat, key: Key) returns (released: bool)
    requires w.Valid() && t in w.s.tasks && w.s.tasks[t] == Completing(key)
    modifies w
    ensures w.Valid() && old(w.trace) <= w.trace && t !in w.s.tasks && old(w.s.log) <= w.s.log
    ensures released ==> w.s.schedule.Some? && !HasSlot(w.s.schedule.value.value.reservations, key)
    ensures released ==> FinishedIn(w.start, w.trace, |old(w.trace)|, key)
    ensures w.quiet ==> (released <==> key in old(w.s).runs && old(w.s).schedule.Some?)
    ensures w.quiet ==> FinishedOnce(old(w.s).runs, w.s.runs, key)
  {
    var found := w.ReadRun(t, key);
    if found.None? { return false; }
    if found.value.value.run.phase != Finished {
      w.Await(t);
      var recorded := w.WriteRun(t, key, Some(found.value.version), found.value.value.run.(phase := Finished));
      if !recorded { return false; }
    }
    ghost var trace := w.trace;
    released := Release(w, t, key);
    StaysFinished(w.start, trace, w.trace, |old(w.trace)|, key);
  }

  // ----- Recovery -----

  lemma {:induction false} WithoutMore(rs: seq<Run>, dropped: set<Key>, key: Key)
    ensures Without(Without(rs, dropped), {key}) == Without(rs, dropped + {key})
  {
    if rs != [] {
      WithoutMore(rs[1..], dropped, key);
      assert Without(rs[1..], dropped) == ([rs[0]] + Without(rs[1..], dropped))[1..];
    }
  }

  /** One reservation of the recovery: an intent without an outcome becomes unknown. */
  method Visit(w: Cluster, t: nat, read: Versioned<Schedule>, i: nat, ghost dropped: set<Key>)
    returns (ok: bool, finished: bool)
    requires w.Valid() && t in w.s.tasks && w.s.tasks[t] == Recovering(read, i, dropped) && i < |read.value.reservations|
    modifies w
    ensures w.Valid() && old(w.trace) <= w.trace && (ok <==> t in w.s.tasks)
    ensures ok ==> (
      w.s.tasks[t] == Recovering(read, i + 1, if finished then dropped + {read.value.reservations[i].key} else dropped))
    ensures w.quiet ==> ok && w.s.schedule == old(w.s).schedule
    ensures w.quiet ==> (finished <==> Found(old(w.s), read.value.reservations[i]) == Finished)
    ensures w.quiet ==> forall k :: k != read.value.reservations[i].key ==> Row(w.s, k) == Row(old(w.s), k)
  {
    var reservation := read.value.reservations[i];
    w.Await(t);
    var stored := w.ReadRun(t, reservation.key);
    var phase := if stored.Some? then stored.value.value.run.phase else reservation.phase;
    if phase != Dispatching { return true, phase == Finished; }
    w.Await(t);
    var run := if stored.Some? then stored.value.value.run else reservation;
    ok := w.WriteRun(t, reservation.key, VersionOf(stored), run.(phase := Unknown));
    finished := false;
  }

  /** `recover`, for a schedule as it was read: every reservation is looked up, and those of
      finished runs are dropped. */
  method Recover(w: Cluster, t: nat, read: Versioned<Schedule>) returns (saved: bool, ghost dropped: set<Key>)
    requires w.Valid() && t in w.s.tasks && w.s.tasks[t] == Recovering(read, 0, {})
    modifies w
    ensures w.Valid() && old(w.trace) <= w.trace && t !in w.s.tasks
    ensures saved ==> w.s.schedule.Some? && w.s.schedule.value.value.reservations == Without(read.value.reservations, dropped)
    ensures w.quiet ==> (saved <==> VersionOf(old(w.s).schedule) == Some(read.version))
    ensures w.quiet && Distinct(read.value.reservations) ==>
      FoundFinished(old(w.s), read.value.reservations, |read.value.reservations|, dropped)
  {
    var ok, kept;
    ok, kept, dropped := VisitAll(w, t, read);
    if !ok { return false, dropped; }
    saved := SaveRecovered(w, t, read, kept, dropped);
  }

  ghost predicate Keeps(kept: seq<Run>, rs: seq<Run>, dropped: set<Key>) {
    kept == Without(rs, dropped)
  }

  lemma KeepsLess(kept: seq<Run>, rs: seq<Run>, dropped: set<Key>, key: Key)
    requires Keeps(kept, rs, dropped)
    ensures Keeps(Without(kept, {key}), rs, dropped + {key})
  {
    WithoutMore(rs, dropped, key);
  }

  lemma KeepsAll(rs: seq<Run>)
    ensures Keeps(rs, rs, {})
  {
    WithoutNone(rs);
  }

  /** The keys dropped are those of the first `n` reservations whose runs were found finished. */
  ghost predicate FoundFinished(s: State, rs: seq<Run>, n: nat, dropped: set<Key>)
    requires n <= |rs|
  {
    forall k :: k in dropped <==> exists i :: 0 <= i < n && rs[i].key == k && Found(s, rs[i]) == Finished
  }

  /** One more was looked up, by a step that touched no other run. */
  lemma OneMoreFound(s: State, v: State, u: State, rs: seq<Run>, i: nat, dropped: set<Key>, finished: bool)
    requires Distinct(rs) && i < |rs| && FoundFinished(s, rs, i, dropped) && SameFrom(s, v, rs, i)
    requires (finished <==> Found(v, rs[i]) == Finished) && forall k :: k != rs[i].key ==> Row(u, k) == Row(v, k)
    ensures FoundFinished(s, rs, i + 1, if finished then dropped + {rs[i].key} else dropped) && SameFrom(s, u, rs, i + 1)
  {
    assert Row(v, rs[i].key) == Row(s, rs[i].key);
    assert Found(v, rs[i]) == Found(s, rs[i]);
  }

  ghost predicate SameFrom(s: State, u: State, rs: seq<Run>, n: nat)
    requires n <= |rs|
  {
    forall i :: n <= i < |rs| ==> Row(u, rs[i].key) == Row(s, rs[i].key)
  }

  /** What is left of the reservations once every one was looked up. */
  method VisitAll(w: Cluster, t: nat, read: Versioned<Schedule>) returns (ok: bool, kept: seq<Run>, ghost dropped: set<Key>)
    requires w.Valid() && t in w.s.tasks && w.s.tasks[t] == Recovering(read, 0, {})
    modifies w
    ensures w.Valid() && old(w.trace) <= w.trace && (ok <==> t in w.s.tasks)
    ensures ok ==> w.s.tasks[t] == Recovering(read, |read.value.reservations|, dropped) && Keeps(kept, read.value.reservations, dropped)
    ensures w.quiet ==> ok && w.s.schedule == old(w.s).schedule
    ensures w.quiet && Distinct(read.value.reservations) ==>
      FoundFinished(old(w.s), read.value.reservations, |read.value.reservations|, dropped)
  {
    ok, kept, dropped := true, read.value.reservations, {};
    KeepsAll(kept);
    for i := 0 to |read.value.reservations|
      invariant ok && w.Valid() && old(w.trace) <= w.trace
      invariant t in w.s.tasks && w.s.tasks[t] == Recovering(read, i, dropped)
      invariant Keeps(kept, read.value.reservations, dropped)
      invariant w.quiet ==> w.s.schedule == old(w.s).schedule
      invariant w.quiet && Distinct(read.value.reservations) ==> FoundFinished(old(w.s), read.value.reservations, i, dropped)
      invariant w.quiet && Distinct(read.value.reservations) ==> SameFrom(old(w.s), w.s, read.value.reservations, i)
    {
      var finished;
      ghost var before := w.s;
      ok, finished := Visit(w, t, read, i, dropped);
      if !ok { return; }
      if w.quiet && Distinct(read.value.reservations) {
        OneMoreFound(old(w.s), before, w.s, read.value.reservations, i, dropped, finished);
      }
      if finished {
        var key := read.value.reservations[i].key;
        KeepsLess(kept, read.value.reservations, dropped, key);
        kept, dropped := Without(kept, {key}), dropped + {key};
      }
    }
  }

  /** A next time that passed meanwhile is moved on; then the schedule is saved. */
  method SaveRecovered(w: Cluster, t: nat, read: Versioned<Schedule>, kept: seq<Run>, ghost dropped: set<Key>)
    returns (saved: bool)
    requires w.Valid() && t in w.s.tasks && w.s.tasks[t] == Recovering(read, |read.value.reservations|, dropped)
    requires kept == Without(read.value.reservations, dropped)
    modifies w
    ensures w.Valid() && old(w.trace) <= w.trace && t !in w.s.tasks
    ensures saved ==> w.s.schedule.Some? && w.s.schedule.value.value.reservations == kept
    ensures w.quiet ==> (saved <==> VersionOf(old(w.s).schedule) == Some(read.version))
  {
    var schedule := read.value;
    var nextRunAt := AskNext(w, t, read, dropped);
    w.Await(t);
    saved := w.SaveSchedule(t, read.version, schedule.(reservations := kept, nextRunAt := nextRunAt));
  }

  method AskNext(w: Cluster, t: nat, read: Versioned<Schedule>, ghost dropped: set<Key>) returns (nextRunAt: Option<int>)
    requires w.Valid() && t in w.s.tasks && w.s.tasks[t] == Recovering(read, |read.value.reservations|, dropped)
    modifies w
    ensures w.Valid() && old(w.trace) <= w.trace && t in w.s.tasks && w.s.tasks[t] == RecoverSaving(read, dropped, nextRunAt)
    ensures w.s.schedule == old(w.s).schedule
  {
    var at: int :| at > w.s.now;
    var schedule := read.value;
    var late := schedule.status == Active && schedule.nextRunAt.Some? && schedule.nextRunAt.value < w.s.now;
    nextRunAt := if late then Some(at) else schedule.nextRunAt;
    w.Do(Step(t, at, false));
  }

  lemma {:induction false} WithoutNone(rs: seq<Run>)
    ensures Without(rs, {}) == rs
  {
    if rs != [] {
      WithoutNone(rs[1..]);
    }
  }
}
