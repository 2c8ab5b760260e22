/** Two runs that cost an unfinished run its slot, at whatever number of finished runs is kept: its
    record is deleted while a task still relies on it. */
module SchedulerOrphans {
  import opened VersionedStore
  import opened Scheduler
  import opened Scenarios = SchedulerScenarios
  import Service = SchedulerService
  import Slots = SchedulerSlots

  const NEW := Schedule(Active, Some(1), None, None, false, 0, [])

  /** Nothing is reserved, and any request is admitted. */
  predicate Idle(v: Schedule) {
    v == NEW.(nextRunAt := v.nextRunAt, totalRuns := v.totalRuns) && v.nextRunAt.Some?
  }

  predicate FinishedAt(s: State, key: Key, time: int) {
    key in s.runs && s.runs[key].value.run.phase == Finished && s.runs[key].value.run.startedAt == time
  }

  // ----- A request that is rejected -----

  function Rejection(t: nat, request: nat, at: int): seq<Action> {
    Fired(t, request, at) + ToOutcome(t, Rejected)
  }

  /** Its dispatch was rejected, its release is still to come. */
  lemma SoloRejects(s: State, t: nat, request: nat, at: int) returns (u: State)
    requires t !in s.tasks && s.schedule.Some? && Idle(s.schedule.value.value) && Manual(request) !in s.runs && at > s.now
    ensures u == RunAll(s, Rejection(t, request, at))
    ensures u.now == s.now && u.tasks == s.tasks[t := ReleaseReading(Manual(request), 0)]
    ensures FinishedAt(u, Manual(request), s.now) && u.runs == s.runs[Manual(request) := u.runs[Manual(request)]]
    ensures u.schedule.Some? && Idle(u.schedule.value.value.(reservations := []))
    ensures |u.schedule.value.value.reservations| == 1 && u.schedule.value.value.reservations[0].key == Manual(request)
  {
    var s1 := SoloCreates(s, t, request, at);
    u := SoloSettles(s1, t, s1.runs[Manual(request)], Rejected);
    Service.RunConcat(s, Fired(t, request, at), ToOutcome(t, Rejected));
  }

  lemma ReleasedIsIdle(v: Schedule, key: Key)
    requires Idle(v.(reservations := [])) && |v.reservations| == 1 && v.reservations[0].key == key
    ensures Idle(v.(reservations := Without(v.reservations, {key})))
  {
    assert v.reservations == [v.reservations[0]];
  }

  /** Rejected and released. */
  lemma SoloPasses(s: State, t: nat, request: nat, at: int) returns (u: State)
    requires t !in s.tasks && s.schedule.Some? && Idle(s.schedule.value.value) && Manual(request) !in s.runs && at > s.now
    ensures u == RunAll(s, Rejection(t, request, at) + TwoSteps(t, 0))
    ensures u.now == s.now && u.tasks == s.tasks && u.schedule.Some? && Idle(u.schedule.value.value)
    ensures FinishedAt(u, Manual(request), s.now) && u.runs == s.runs[Manual(request) := u.runs[Manual(request)]]
  {
    var s1 := SoloRejects(s, t, request, at);
    u := SoloReleases(s1, t, Manual(request));
    ReleasedIsIdle(s1.schedule.value.value, Manual(request));
    assert u.tasks == s.tasks;
    Service.RunConcat(s, Rejection(t, request, at), TwoSteps(t, 0));
  }

  /** Every deletion in the run is by a gateway that keeps `limit` finished runs. */
  predicate PrunesAt(actions: seq<Action>, limit: nat) {
    forall a :: a in actions && a.Prune? ==> a.limit == limit
  }

  predicate NoPrune(actions: seq<Action>) {
    forall a :: a in actions ==> !a.Prune?
  }

  // ----- Enough later runs that the first is beyond the limit -----

  /** Request 7 finished at time 0, a task `task` relies on it, and `n` later requests finished at 1. */
  ghost predicate Waiting(s: State, task: Task, n: nat) {
    && s.now == 1 && s.tasks == map[1 := task] && s.schedule.Some? && Idle(s.schedule.value.value)
    && FinishedAt(s, Manual(7), 0)
    && (forall i :: 8 <= i < 8 + n ==> FinishedAt(s, Manual(i), 1))
    && (forall i :: i >= 8 + n ==> Manual(i) !in s.runs)
  }

  lemma {:induction false} LaterRuns(s: State, task: Task, n: nat, limit: nat) returns (actions: seq<Action>, u: State)
    requires Waiting(s, task, 0)
    ensures u == RunAll(s, actions) && Waiting(u, task, n) && PrunesAt(actions, limit)
    decreases n
  {
    if n == 0 {
      actions, u := [], s;
    } else {
      var first, s1 := LaterRuns(s, task, n - 1, limit);
      u := SoloPasses(s1, 2, 8 + (n - 1), 2);
      var last := Rejection(2, 8 + (n - 1), 2) + TwoSteps(2, 0);
      Service.RunConcat(s, first, last);
      actions := first + last;
    }
  }

  function Requests(n: nat): set<Key> {
    if n == 0 then {} else Requests(n - 1) + {Manual(8 + (n - 1))}
  }

  lemma {:induction false} RequestsAre(n: nat)
    ensures |Requests(n)| == n && forall k :: k in Requests(n) <==> k.Manual? && 8 <= k.request < 8 + n
  {
    if n > 0 { RequestsAre(n - 1); }
  }

  lemma {:induction false} SubsetIsSmaller<T>(a: set<T>, b: set<T>)
    requires a <= b
    ensures |a| <= |b|
  {
    if a != {} {
      var x :| x in a;
      SubsetIsSmaller(a - {x}, b - {x});
    }
  }

  /** The gateway that keeps `limit` finished runs deletes request 7. */
  lemma PrunedAtLast(s: State, task: Task, limit: nat)
    requires Waiting(s, task, limit) && limit > 0
    ensures Apply(s, Prune(Manual(7), limit)) == Remove(s, Manual(7))
  {
    RequestsAre(limit);
    forall k | k in Requests(limit) ensures k in FinishedBefore(s, Manual(7)) {
      assert FinishedAt(s, Manual(k.request), 1);
    }
    SubsetIsSmaller(Requests(limit), FinishedBefore(s, Manual(7)));
  }

  /** Time passes, later requests come and go, and the record of request 7 is deleted. */
  lemma Pruned(s: State, task: Task, limit: nat) returns (actions: seq<Action>, u: State)
    requires s.now == 0 && s.tasks == map[1 := task] && s.schedule.Some? && Idle(s.schedule.value.value) && limit > 0
    requires FinishedAt(s, Manual(7), 0) && forall k :: k in s.runs ==> k == Manual(7)
    ensures u == RunAll(s, actions) && u.now == 1 && u.tasks == s.tasks && Manual(7) !in u.runs
    ensures u.schedule.Some? && Idle(u.schedule.value.value) && PrunesAt(actions, limit)
  {
    var s1 := Apply(s, Tick(1));
    Run1(s, [Tick(1)]);
    var later, s2 := LaterRuns(s1, task, limit, limit);
    PrunedAtLast(s2, task, limit);
    var prune := [Prune(Manual(7), limit)];
    u := Apply(s2, prune[0]);
    Run1(s2, prune);
    Service.RunConcat(s, [Tick(1)], later);
    Service.RunConcat(s, [Tick(1)] + later, prune);
    actions := [Tick(1)] + later + prune;
  }

  // ----- The late release -----

  ghost predicate Orphaned(s: State, key: Key) {
    && key in s.runs && s.runs[key].value.run.phase != Finished
    && s.schedule.Some? && s.schedule.value.value.reservations == []
  }

  /** Request 7 was rejected and released, and a second release of it has still to read the schedule. */
  lemma SecondRelease() returns (actions: seq<Action>, s: State)
    ensures s == RunAll(Init(0, NEW), actions) && NoPrune(actions)
    ensures s.now == 0 && s.tasks == map[1 := ReleaseReading(Manual(7), 0)] && s.schedule.Some? && Idle(s.schedule.value.value)
    ensures FinishedAt(s, Manual(7), 0) && forall k :: k in s.runs ==> k == Manual(7)
  {
    var s2 := SoloRejects(Init(0, NEW), 0, 7, 1);
    var complete := [StartComplete(1, Manual(7)), Step(1, 0, false)];
    var s3 := SoloCompletesAgain(s2, 1, Manual(7));
    s := SoloReleases(s3, 0, Manual(7));
    ReleasedIsIdle(s3.schedule.value.value, Manual(7));
    Service.RunConcat(Init(0, NEW), Rejection(0, 7, 1), complete);
    Service.RunConcat(Init(0, NEW), Rejection(0, 7, 1) + complete, TwoSteps(0, 0));
    actions := Rejection(0, 7, 1) + complete + TwoSteps(0, 0);
  }

  /** A finished run is completed once more: another release of it begins. */
  lemma SoloCompletesAgain(s: State, t: nat, key: Key) returns (u: State)
    requires t !in s.tasks && key in s.runs && s.runs[key].value.run.phase == Finished
    ensures u == RunAll(s, [StartComplete(t, key), Step(t, 0, false)])
    ensures u == s.(tasks := s.tasks[t := ReleaseReading(key, 0)])
  {
    var s1 := Apply(s, StartComplete(t, key));
    u := Apply(s1, Step(t, 0, false));
    Run2(s, [StartComplete(t, key), Step(t, 0, false)]);
  }

  lemma OnlySlotGoes(v: Schedule, key: Key)
    requires |v.reservations| == 1 && v.reservations[0].key == key
    ensures Without(v.reservations, {key}) == []
  {
    assert v.reservations == [v.reservations[0]];
  }

  /** Up to the deletion of the record. */
  lemma ReleaseAfterPrune(limit: nat) returns (actions: seq<Action>, s: State)
    requires limit > 0
    ensures s == RunAll(Init(0, NEW), actions) && PrunesAt(actions, limit)
    ensures s.now == 1 && s.tasks == map[1 := ReleaseReading(Manual(7), 0)] && Manual(7) !in s.runs
    ensures s.schedule.Some? && Idle(s.schedule.value.value)
  {
    var first, s1 := SecondRelease();
    var prune;
    prune, s := Pruned(s1, ReleaseReading(Manual(7), 0), limit);
    Service.RunConcat(Init(0, NEW), first, prune);
    actions := first + prune;
  }

  /** The record is pruned, the same request fires again, and the second release, late, takes the new
      run's slot: it is dispatching and nothing holds the schedule for it. */
  lemma LateReleaseTakesNewSlot(limit: nat) returns (actions: seq<Action>)
    requires limit > 0
    ensures Fresh(NEW) && PrunesAt(actions, limit) && Orphaned(RunAll(Init(0, NEW), actions), Manual(7))
  {
    var first, s2 := ReleaseAfterPrune(limit);
    var s3 := SoloCreates(s2, 2, 7, 2);
    assert s3.tasks[1] == ReleaseReading(Manual(7), 0);
    var s4 := SoloReleases(s3, 1, Manual(7));
    OnlySlotGoes(s3.schedule.value.value, Manual(7));
    Service.RunConcat(Init(0, NEW), first, Fired(2, 7, 2));
    Service.RunConcat(Init(0, NEW), first + Fired(2, 7, 2), TwoSteps(1, 0));
    actions := first + Fired(2, 7, 2) + TwoSteps(1, 0);
  }

  // ----- The late recovery -----

  predicate Reserved7(v: Schedule) {
    Idle(v.(reservations := [])) && v.reservations == [Run(Manual(7), 0, 0, Dispatching)]
  }

  /** Request 7 is reserved, its record still to be created. */
  lemma Reserved() returns (actions: seq<Action>, s: State)
    ensures s == RunAll(Init(0, NEW), actions) && NoPrune(actions)
    ensures s.now == 0 && s.tasks == map[0 := Creating(Run(Manual(7), 0, 0, Dispatching))] && s.runs == map[]
    ensures s.schedule.Some? && Reserved7(s.schedule.value.value)
  {
    var s0, run := Init(0, NEW), Run(Manual(7), 0, 0, Dispatching);
    var s1 := Apply(s0, StartFire(0, 7));
    Run1(s0, [StartFire(0, 7)]);
    var s3 := SoloReserves(s1, 0, run, false, 1);
    s := Apply(s3, Step(0, 1, false));
    Run1(s3, [Step(0, 1, false)]);
    Service.RunConcat(s0, [StartFire(0, 7)], TwoSteps(0, 1));
    Service.RunConcat(s0, [StartFire(0, 7)] + TwoSteps(0, 1), [Step(0, 1, false)]);
    actions := [StartFire(0, 7)] + TwoSteps(0, 1) + [Step(0, 1, false)];
  }

  /** A recovery reads the schedule and finds no record of its run; then the fire goes on. */
  lemma RecoveryLooks() returns (actions: seq<Action>, s: State, read: Versioned<Schedule>)
    ensures s == RunAll(Init(0, NEW), actions) && NoPrune(actions)
    ensures Reserved7(read.value) && s.now == 0 && Manual(7) in s.runs && s.runs.Keys == {Manual(7)}
    ensures s.tasks == map[0 := Dispatch(s.runs[Manual(7)]), 1 := RecoverWriting(read, 0, {}, None)]
    ensures s.runs[Manual(7)].value.run == Run(Manual(7), 0, 0, Dispatching)
    ensures s.schedule == Some(read)
  {
    var first, s1 := Reserved();
    read := s1.schedule.value;
    var look := [StartRecover(1), Step(1, 0, false), Step(0, 0, false)];
    Run3(s1, look);
    var s2 := Apply(s1, look[0]);
    var s3 := Apply(s2, look[1]);
    assert s3.tasks == s1.tasks[1 := RecoverWriting(read, 0, {}, None)];
    s := Apply(s3, look[2]);
    Service.RunConcat(Init(0, NEW), first, look);
    actions := first + look;
  }

  /** The fire is rejected and releases its slot, with the recovery still about to write. */
  lemma RecoveryWaits() returns (actions: seq<Action>, s: State, read: Versioned<Schedule>)
    ensures s == RunAll(Init(0, NEW), actions) && NoPrune(actions)
    ensures Reserved7(read.value) && s.now == 0 && s.tasks == map[1 := RecoverWriting(read, 0, {}, None)]
    ensures FinishedAt(s, Manual(7), 0) && s.runs.Keys == {Manual(7)}
    ensures s.schedule.Some? && Idle(s.schedule.value.value)
  {
    var first, s1;
    first, s1, read := RecoveryLooks();
    var s2 := SoloSettles(s1, 0, s1.runs[Manual(7)], Rejected);
    s := SoloReleases(s2, 0, Manual(7));
    ReleasedIsIdle(s2.schedule.value.value, Manual(7));
    assert s.tasks == map[1 := RecoverWriting(read, 0, {}, None)];
    Service.RunConcat(Init(0, NEW), first, ToOutcome(0, Rejected));
    Service.RunConcat(Init(0, NEW), first + ToOutcome(0, Rejected), TwoSteps(0, 0));
    actions := first + ToOutcome(0, Rejected) + TwoSteps(0, 0);
  }

  /** The record is pruned, and the recovery, late, records as unknown a run that is long over and
      holds no slot. */
  lemma LateRecoveryRecordsOldRun(limit: nat) returns (actions: seq<Action>)
    requires limit > 0
    ensures Fresh(NEW) && PrunesAt(actions, limit) && Orphaned(RunAll(Init(0, NEW), actions), Manual(7))
  {
    var first, s1, read := RecoveryWaits();
    var prune, s2 := Pruned(s1, RecoverWriting(read, 0, {}, None), limit);
    var s3 := Apply(s2, Step(1, 0, false));
    Run1(s2, [Step(1, 0, false)]);
    Service.RunConcat(Init(0, NEW), first, prune);
    Service.RunConcat(Init(0, NEW), first + prune, [Step(1, 0, false)]);
    actions := first + prune + [Step(1, 0, false)];
  }
}
