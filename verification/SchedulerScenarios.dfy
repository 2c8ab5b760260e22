/** Runs of the scheduler spelled out: what a fire and a tick do alone. */
module SchedulerScenarios {
  import opened VersionedStore
  import opened Scheduler
  import Service = SchedulerService

  lemma Run1(s: State, p: seq<Action>)
    requires |p| > 0
    ensures RunAll(s, p) == RunAll(Apply(s, p[0]), p[1..])
  {
  }

  lemma Run2(s: State, p: seq<Action>)
    requires |p| == 2
    ensures RunAll(s, p) == Apply(Apply(s, p[0]), p[1])
  {
    Run1(s, p);
    Run1(Apply(s, p[0]), p[1..]);
  }

  lemma Run3(s: State, p: seq<Action>)
    requires |p| == 3
    ensures RunAll(s, p) == Apply(Apply(Apply(s, p[0]), p[1]), p[2])
  {
    Run1(s, p);
    Run2(Apply(s, p[0]), p[1..]);
  }

  // ----- One task alone -----

  function TwoSteps(t: nat, at: int): seq<Action> {
    [Step(t, at, false), Step(t, at, false)]
  }

  function FourSteps(t: nat, at: int): seq<Action> {
    TwoSteps(t, at) + TwoSteps(t, at)
  }

  function ToOutcome(t: nat, answer: Answer): seq<Action> {
    [Step(t, 0, false), Reply(t, answer), Step(t, 0, false)]
  }

  /** What a committed reservation makes of the schedule: one more slot and one more run counted;
      the run that uses up the limit completes it, any other moves an active one to its next time. */
  predicate ReservedBy(v: Schedule, u: Schedule, run: Run, at: int) {
    && u == v.(reservations := v.reservations + [run], totalRuns := v.totalRuns + 1, status := u.status, nextRunAt := u.nextRunAt)
    && if v.maxRuns.Some? && 0 < v.maxRuns.value <= v.totalRuns + 1 then u.status == Completed && u.nextRunAt == None
       else u.status == v.status && u.nextRunAt == if v.status == Active then Some(at) else v.nextRunAt
  }

  /** Task `t` is about to fire a run the schedule admits. */
  ghost predicate AboutToFire(s: State, t: nat, run: Run, auto: bool) {
    && t in s.tasks && s.tasks[t] == Firing(run.key, run.scheduledFor, auto) && run.phase == Dispatching && run.startedAt == s.now
    && s.schedule.Some? && run.key !in s.runs
    && Admits(s.schedule.value.value, run.key, run.scheduledFor, auto, s.now)
  }

  /** The reservation and the run record are committed, in that order; the dispatch comes next. */
  ghost predicate Prepared(s: State, u: State, t: nat, run: Run, auto: bool, at: int) {
    && s.schedule.Some? && u.schedule.Some? && ReservedBy(s.schedule.value.value, u.schedule.value.value, run, at)
    && run.key in u.runs && u.runs[run.key].value == Stored(s.next + 1, run)
    && u == s.(schedule := Some(Versioned(s.next, u.schedule.value.value)), next := s.next + 2,
               runs := s.runs[run.key := u.runs[run.key]], tasks := s.tasks[t := Dispatch(u.runs[run.key])],
               log := s.log + [Reserved(run.key, run.scheduledFor, auto, s.schedule.value.value, s.now), Created(run.key, s.next + 1)])
  }

  /** Alone, a fire comes to its reservation... */
  lemma SoloReserves(s: State, t: nat, run: Run, auto: bool, at: int) returns (u: State)
    requires AboutToFire(s, t, run, auto) && at > s.now
    ensures u == RunAll(s, TwoSteps(t, at))
    ensures u == s.(tasks := s.tasks[t := Reserving(run, auto, s.schedule.value, s.now, at)])
  {
    var s1 := Apply(s, Step(t, at, false));
    assert s1 == s.(tasks := s.tasks[t := FireReading(run.key, run.scheduledFor, auto)]);
    u := Apply(s1, Step(t, at, false));
    Run2(s, TwoSteps(t, at));
  }

  /** ...and commits it, the run record after it. */
  lemma SoloPrepares(s: State, t: nat, run: Run, auto: bool, at: int) returns (u: State)
    requires AboutToFire(s, t, run, auto) && at > s.now
    ensures u == RunAll(s, FourSteps(t, at)) && Prepared(s, u, t, run, auto, at)
  {
    var s2 := SoloReserves(s, t, run, auto, at);
    var s3 := Apply(s2, Step(t, at, false));
    var read := s.schedule.value;
    assert s3 == s.(schedule := Some(Versioned(s.next, Reserve(read.value, run, at))), next := s.next + 1,
                    tasks := s.tasks[t := Creating(run)],
                    log := s.log + [Reserved(run.key, run.scheduledFor, auto, read.value, s.now)]);
    u := Apply(s3, Step(t, at, false));
    Run2(s2, TwoSteps(t, at));
    Service.RunConcat(s, TwoSteps(t, at), TwoSteps(t, at));
  }

  function Fired(t: nat, request: nat, at: int): seq<Action> {
    [StartFire(t, request)] + FourSteps(t, at)
  }

  /** Alone, an admitted request leaves its reservation and its run record, and nothing else. */
  lemma SoloCreates(s: State, t: nat, request: nat, at: int) returns (u: State)
    requires t !in s.tasks && s.schedule.Some? && Manual(request) !in s.runs && at > s.now
    requires Admits(s.schedule.value.value, Manual(request), s.now, false, s.now)
    ensures u == RunAll(s, Fired(t, request, at)) && Prepared(s, u, t, Run(Manual(request), s.now, s.now, Dispatching), false, at)
  {
    var s1 := Apply(s, StartFire(t, request));
    Run1(s, Fired(t, request, at));
    u := SoloPrepares(s1, t, Run(Manual(request), s.now, s.now, Dispatching), false, at);
    PreparedBefore(s, s1, u, t, Run(Manual(request), s.now, s.now, Dispatching), false, at);
  }

  function Ticked(t: nat, at: int, saturated: bool): seq<Action> {
    [StartTick(t), Step(t, at, saturated)] + FourSteps(t, at)
  }

  /** A tick that has saved what it decided. */
  lemma SoloSaves(s: State, t: nat, read: Versioned<Schedule>, update: Schedule, at: int) returns (u: State)
    requires t in s.tasks && s.tasks[t] == Saving(read, update) && s.schedule == Some(read)
    ensures u == RunAll(s, FourSteps(t, at))
    ensures u == s.(schedule := Some(Versioned(s.next, update)), next := s.next + 1, tasks := s.tasks - {t})
  {
    u := Apply(s, Step(t, at, false));
    Run2(s, TwoSteps(t, at));
    Run2(u, TwoSteps(t, at));
    Service.RunConcat(s, TwoSteps(t, at), TwoSteps(t, at));
  }

  /** It has expired or used up its limit. */
  predicate Spent(v: Schedule, now: int) {
    (v.expiresAt.Some? && v.expiresAt.value <= now) || (v.maxRuns.Some? && 0 < v.maxRuns.value <= v.totalRuns)
  }

  /** It is more than a second late, has no slot free, or the gateway has no capacity. */
  predicate Skips(v: Schedule, now: int, due: int, saturated: bool) {
    now > due + 1000 || |v.reservations| >= 16 || (!v.allow && |v.reservations| > 0) || saturated
  }

  /** Alone, what a tick decides of a schedule that is due. */
  lemma SoloDecides(s: State, t: nat, due: int, at: int, saturated: bool) returns (u: State)
    requires t !in s.tasks && s.schedule.Some? && at > s.now && due <= s.now
    requires s.schedule.value.value.status == Active && s.schedule.value.value.nextRunAt == Some(due)
    ensures u == RunAll(s, [StartTick(t), Step(t, at, saturated)])
    ensures var read := s.schedule.value;
      u == s.(tasks := s.tasks[t :=
        if Spent(read.value, s.now) then Saving(read, read.value.(status := Completed, nextRunAt := None))
        else if Skips(read.value, s.now, due, saturated) then Saving(read, read.value.(nextRunAt := Some(at)))
        else Firing(Due(due), due, true)])
  {
    u := Apply(Apply(s, StartTick(t)), Step(t, at, saturated));
    Run2(s, [StartTick(t), Step(t, at, saturated)]);
  }

  /** The run has a record, or holds a slot. */
  predicate Known(s: State, key: Key)
    requires s.schedule.Some?
  {
    key in s.runs || HasSlot(s.schedule.value.value.reservations, key)
  }

  /** Alone, the fire of a run that is known ends without a trace. */
  lemma SoloLeaves(s: State, t: nat, due: int, at: int) returns (u: State)
    requires t in s.tasks && s.tasks[t] == Firing(Due(due), due, true) && s.schedule.Some? && Known(s, Due(due))
    ensures u == RunAll(s, FourSteps(t, at)) && u == s.(tasks := s.tasks - {t})
  {
    var s1 := Apply(s, Step(t, at, false));
    u := Apply(s1, Step(t, at, false));
    Run2(s, TwoSteps(t, at));
    Run2(u, TwoSteps(t, at));
    Service.RunConcat(s, TwoSteps(t, at), TwoSteps(t, at));
  }

  /** What a tick makes of a schedule that is due: spent, it is completed; skipped, it is moved
      past this tick without a run; otherwise it is fired, under its due time, unless that run is
      known already. */
  lemma SoloTick(s: State, t: nat, due: int, at: int, saturated: bool) returns (u: State)
    requires t !in s.tasks && s.schedule.Some? && at > s.now && due <= s.now
    requires s.schedule.value.value.status == Active && s.schedule.value.value.nextRunAt == Some(due)
    ensures u == RunAll(s, Ticked(t, at, saturated))
    ensures var v := s.schedule.value.value;
      if Spent(v, s.now) then
        u == s.(next := s.next + 1, schedule := Some(Versioned(s.next, v.(status := Completed, nextRunAt := None))))
      else if Skips(v, s.now, due, saturated) then
        u == s.(next := s.next + 1, schedule := Some(Versioned(s.next, v.(nextRunAt := Some(at)))))
      else if Known(s, Due(due)) then u == s
      else Prepared(s, u, t, Run(Due(due), due, s.now, Dispatching), true, at)
  {
    var v := s.schedule.value.value;
    var s2 := SoloDecides(s, t, due, at, saturated);
    Service.RunConcat(s, [StartTick(t), Step(t, at, saturated)], FourSteps(t, at));
    if Spent(v, s.now) || Skips(v, s.now, due, saturated) {
      u := SoloSaves(s2, t, s.schedule.value, s2.tasks[t].update, at);
    } else if Known(s, Due(due)) {
      u := SoloLeaves(s2, t, due, at);
    } else {
      u := SoloPrepares(s2, t, Run(Due(due), due, s.now, Dispatching), true, at);
      PreparedBefore(s, s2, u, t, Run(Due(due), due, s.now, Dispatching), true, at);
    }
  }

  lemma PreparedBefore(s: State, s2: State, u: State, t: nat, run: Run, auto: bool, at: int)
    requires Prepared(s2, u, t, run, auto, at) && t in s2.tasks && s2 == s.(tasks := s.tasks[t := s2.tasks[t]])
    ensures Prepared(s, u, t, run, auto, at)
  {
    assert u.tasks == s.tasks[t := u.tasks[t]];
  }

  /** Alone, a fire dispatches once and records what came of it: running, rejected with its slot
      still to be released, or, for a reply that told nothing, unknown and never sent again. */
  lemma SoloSettles(s: State, t: nat, row: Versioned<Stored>, answer: Answer) returns (u: State)
    requires t in s.tasks && s.tasks[t] == Dispatch(row)
    requires row.value.run.key in s.runs && s.runs[row.value.run.key] == row
    ensures u == RunAll(s, ToOutcome(t, answer))
    ensures var Stored(uid, run) := row.value;
      var phase := if answer == Accepted then Running else if answer == Rejected then Finished else Unknown;
      u == s.(runs := s.runs[run.key := Versioned(s.next, Stored(uid, run.(phase := phase)))], next := s.next + 1,
              tasks := if phase == Finished then s.tasks[t := ReleaseReading(run.key, 0)] else s.tasks - {t},
              log := s.log + [Dispatched(run.key, uid)])
  {
    var s1 := Apply(s, Step(t, 0, false));
    var s2 := Apply(s1, Reply(t, answer));
    assert s2 == s.(tasks := s.tasks[t := Recording(row, answer)], log := s.log + [Dispatched(row.value.run.key, row.value.uid)]);
    u := Apply(s2, Step(t, 0, false));
    Run3(s, ToOutcome(t, answer));
  }

  /** Alone, a release gives up the slot of its run and no other. */
  lemma SoloReleases(s: State, t: nat, key: Key) returns (u: State)
    requires t in s.tasks && s.tasks[t] == ReleaseReading(key, 0) && s.schedule.Some?
    ensures u == RunAll(s, TwoSteps(t, 0))
    ensures var v := s.schedule.value.value;
      u == s.(schedule := Some(Versioned(s.next, v.(reservations := Without(v.reservations, {key})))),
              next := s.next + 1, tasks := s.tasks - {t})
  {
    var s1 := Apply(s, Step(t, 0, false));
    u := Apply(s1, Step(t, 0, false));
    Run2(s, TwoSteps(t, 0));
  }
}
