/** A restart, and an operator's resolution of a run, as they come out when nothing interferes. */
module SchedulerRestart {
  import opened VersionedStore
  import opened Scheduler
  import Service = SchedulerService
  import Scenarios = SchedulerScenarios

  /** An intent without an outcome has become a run of unknown outcome; anything else is as it was. */
  ghost predicate Resolved(s: State, u: State, r: Run) {
    if Found(s, r) == Dispatching then
      && r.key in u.runs
      && (r.key in s.runs ==> u.runs[r.key].value == s.runs[r.key].value.(run := s.runs[r.key].value.run.(phase := Unknown)))
      && (r.key !in s.runs ==> u.runs[r.key].value.run == r.(phase := Unknown))
    else Row(u, r.key) == Row(s, r.key)
  }

  /** Nothing but the reserved runs from `i` on has changed, and nothing was sent. */
  ghost predicate OnlyReserved(s: State, u: State, rs: seq<Run>, i: nat)
    requires i <= |rs|
  {
    && u.now == s.now
    && (forall k :: (forall j :: i <= j < |rs| ==> rs[j].key != k) ==> Row(u, k) == Row(s, k))
    && (forall e :: e in u.log && !e.Created? ==> e in s.log)
  }

  ghost predicate Finishes(s: State, rs: seq<Run>, i: nat, key: Key) {
    exists j :: i <= j < |rs| && rs[j].key == key && Found(s, rs[j]) == Finished
  }

  /** One reservation is dealt with, in one step or two. */
  lemma SoloResolves(s: State, t: nat, read: Versioned<Schedule>, i: nat, dropped: set<Key>, at: int) returns (actions: seq<Action>, u: State)
    requires t in s.tasks && s.tasks[t] == Recovering(read, i, dropped) && i < |read.value.reservations|
    ensures u == RunAll(s, actions) && u.schedule == s.schedule && Resolved(s, u, read.value.reservations[i])
    ensures u.tasks == s.tasks[t := Recovering(read, i + 1, dropped +
              if Found(s, read.value.reservations[i]) == Finished then {read.value.reservations[i].key} else {})]
    ensures u.now == s.now && forall k :: k != read.value.reservations[i].key ==> Row(u, k) == Row(s, k)
    ensures forall e :: e in u.log && !e.Created? ==> e in s.log
  {
    var step := Step(t, at, false);
    var s1 := Apply(s, step);
    if Found(s, read.value.reservations[i]) == Dispatching {
      assert s1 == s.(tasks := s.tasks[t := RecoverWriting(read, i, dropped, Row(s, read.value.reservations[i].key))]);
      actions, u := [step, step], Apply(s1, step);
      Scenarios.Run2(s, actions);
      assert dropped + {} == dropped;
    } else {
      actions, u := [step], s1;
      Scenarios.Run1(s, actions);
    }
  }

  /** What is left of a schedule after a restart. */
  ghost predicate Restarted(v: Schedule, u: Schedule, dropped: set<Key>, now: int, at: int) {
    u == v.(reservations := Without(v.reservations, dropped),
            nextRunAt := if v.status == Active && v.nextRunAt.Some? && v.nextRunAt.value < now then Some(at) else v.nextRunAt)
  }

  lemma SoloSavesRestart(s: State, t: nat, read: Versioned<Schedule>, dropped: set<Key>, at: int) returns (actions: seq<Action>, u: State)
    requires t in s.tasks && s.tasks[t] == Recovering(read, |read.value.reservations|, dropped) && s.schedule == Some(read) && at > s.now
    ensures u == RunAll(s, actions) && u.schedule.Some? && Restarted(read.value, u.schedule.value.value, dropped, s.now, at)
    ensures u.tasks == s.tasks - {t} && u.runs == s.runs && u.log == s.log && u.now == s.now
  {
    actions := [Step(t, at, false), Step(t, at, false)];
    var s1 := Apply(s, actions[0]);
    u := Apply(s1, actions[1]);
    Scenarios.Run2(s, actions);
  }

  predicate DistinctFrom(rs: seq<Run>, i: nat) {
    forall j, k :: i <= j < k < |rs| ==> rs[j].key != rs[k].key
  }

  /** The loop of a recovery from reservation `i` on. */
  lemma {:induction false} SoloRecoversFrom(s: State, t: nat, read: Versioned<Schedule>, i: nat, dropped: set<Key>, at: int)
    returns (actions: seq<Action>, u: State, gone: set<Key>)
    requires t in s.tasks && s.tasks[t] == Recovering(read, i, dropped) && i <= |read.value.reservations|
    requires s.schedule == Some(read) && DistinctFrom(read.value.reservations, i) && at > s.now
    ensures u == RunAll(s, actions) && u.tasks == s.tasks - {t}
    ensures u.schedule.Some? && Restarted(read.value, u.schedule.value.value, gone, s.now, at)
    ensures OnlyReserved(s, u, read.value.reservations, i)
    ensures forall j :: i <= j < |read.value.reservations| ==> Resolved(s, u, read.value.reservations[j])
    ensures forall k :: k in gone <==> k in dropped || Finishes(s, read.value.reservations, i, k)
    decreases |read.value.reservations| - i
  {
    var rs := read.value.reservations;
    if i == |rs| {
      actions, u := SoloSavesRestart(s, t, read, dropped, at);
      gone := dropped;
    } else {
      var first, s1 := SoloResolves(s, t, read, i, dropped, at);
      var rest;
      rest, u, gone := SoloRecoversFrom(s1, t, read, i + 1, s1.tasks[t].dropped, at);
      Service.RunConcat(s, first, rest);
      actions := first + rest;
      FoundLater(s, s1, rs, i);
      ResolvedLater(s, s1, u, rs, i);
    }
  }

  /** Dealing with one reservation leaves what the later ones find. */
  lemma FoundLater(s: State, s1: State, rs: seq<Run>, i: nat)
    requires i < |rs| && DistinctFrom(rs, i) && forall k :: k != rs[i].key ==> Row(s1, k) == Row(s, k)
    ensures forall j :: i < j < |rs| ==> Found(s1, rs[j]) == Found(s, rs[j]) && Row(s1, rs[j].key) == Row(s, rs[j].key)
    ensures forall k :: Finishes(s, rs, i, k) <==> Finishes(s1, rs, i + 1, k) || (Found(s, rs[i]) == Finished && k == rs[i].key)
  {
    forall j | i < j < |rs| ensures Found(s1, rs[j]) == Found(s, rs[j]) && Row(s1, rs[j].key) == Row(s, rs[j].key) {
      assert Row(s1, rs[j].key) == Row(s, rs[j].key);
    }
  }

  lemma ResolvedLater(s: State, s1: State, u: State, rs: seq<Run>, i: nat)
    requires i < |rs| && DistinctFrom(rs, i) && forall k :: k != rs[i].key ==> Row(s1, k) == Row(s, k)
    requires forall j :: i < j < |rs| ==> Found(s1, rs[j]) == Found(s, rs[j]) && Row(s1, rs[j].key) == Row(s, rs[j].key)
    requires Resolved(s, s1, rs[i]) && OnlyReserved(s1, u, rs, i + 1)
    requires forall j :: i < j < |rs| ==> Resolved(s1, u, rs[j])
    ensures forall j :: i <= j < |rs| ==> Resolved(s, u, rs[j])
  {
    forall j | i <= j < |rs| ensures Resolved(s, u, rs[j]) {
      if j == i { assert Row(u, rs[i].key) == Row(s1, rs[i].key); }
      else { assert Resolved(s1, u, rs[j]) && Row(s1, rs[j].key) == Row(s, rs[j].key); }
    }
  }

  /** A restart nobody disturbs: every reserved run still on its way is recorded as unknown, none
      is sent again, exactly the finished ones lose their slot, and a time missed is not made up
      for but moved past now. */
  lemma SoloRecovers(s: State, t: nat, at: int) returns (actions: seq<Action>, u: State)
    requires t !in s.tasks && s.schedule.Some? && Distinct(s.schedule.value.value.reservations) && at > s.now
    ensures u == RunAll(s, actions) && u.tasks == s.tasks && u.schedule.Some?
    ensures var v, w := s.schedule.value.value, u.schedule.value.value;
      && w == v.(reservations := w.reservations, nextRunAt := w.nextRunAt)
      && (forall r :: r in w.reservations <==> r in v.reservations && Found(s, r) != Finished)
      && (forall r :: r in v.reservations ==> Resolved(s, u, r))
      && (forall r :: r in w.reservations && r.key in u.runs ==> u.runs[r.key].value.run.phase in {Running, Unknown})
      && (if v.status == Active && v.nextRunAt.Some? && v.nextRunAt.value < s.now then w.nextRunAt == Some(at)
          else w.nextRunAt == v.nextRunAt)
    ensures forall e :: e in u.log && !e.Created? ==> e in s.log
  {
    var v := s.schedule.value.value;
    var s1 := Apply(s, StartRecover(t));
    var rest, gone;
    rest, u, gone := SoloRecoversFrom(s1, t, s.schedule.value, 0, {}, at);
    actions := [StartRecover(t)] + rest;
    Scenarios.Run1(s, actions);
    assert actions[1..] == rest;
    assert u.tasks == s.tasks;
    EachResolved(s, s1, u, v.reservations, gone);
  }

  /** The same of the reservations as a set. */
  lemma EachResolved(s: State, s1: State, u: State, rs: seq<Run>, gone: set<Key>)
    requires Distinct(rs) && s1.runs == s.runs && forall j :: 0 <= j < |rs| ==> Resolved(s1, u, rs[j])
    requires forall k :: k in gone <==> Finishes(s1, rs, 0, k)
    ensures forall r :: r in rs ==> Resolved(s, u, r) && (r.key in gone <==> Found(s, r) == Finished)
  {
    forall r | r in rs ensures Resolved(s, u, r) && (r.key in gone <==> Found(s, r) == Finished) {
      var j :| 0 <= j < |rs| && rs[j] == r;
      assert Resolved(s1, u, rs[j]);
      if Found(s, r) == Finished { assert Finishes(s1, rs, 0, r.key); }
    }
  }

  function Resolution(t: nat, key: Key): seq<Action> {
    [StartComplete(t, key)] + Scenarios.FourSteps(t, 0)
  }

  lemma SoloFinishes(s: State, t: nat, key: Key) returns (u: State)
    requires t in s.tasks && s.tasks[t] == Completing(key) && key in s.runs && s.runs[key].value.run.phase != Finished
    ensures u == RunAll(s, Scenarios.TwoSteps(t, 0))
    ensures var row := s.runs[key].value;
      u == s.(runs := s.runs[key := Versioned(s.next, row.(run := row.run.(phase := Finished)))], next := s.next + 1,
              tasks := s.tasks[t := ReleaseReading(key, 0)])
  {
    var s1 := Apply(s, Step(t, 0, false));
    assert s1 == s.(tasks := s.tasks[t := CompleteSaving(key, s.runs[key])]);
    u := Apply(s1, Step(t, 0, false));
    Scenarios.Run2(s, Scenarios.TwoSteps(t, 0));
  }

  /** An operator's resolution of an open run nobody disturbs: the run is finished and its slot, no
      other, is free again. */
  lemma SoloCompletes(s: State, t: nat, key: Key) returns (u: State)
    requires t !in s.tasks && s.schedule.Some? && key in s.runs && s.runs[key].value.run.phase != Finished
    ensures u == RunAll(s, Resolution(t, key))
    ensures var row, v := s.runs[key].value, s.schedule.value.value;
      u == s.(runs := s.runs[key := Versioned(s.next, row.(run := row.run.(phase := Finished)))],
              schedule := Some(Versioned(s.next + 1, v.(reservations := Without(v.reservations, {key})))), next := s.next + 2)
  {
    var s1 := Apply(s, StartComplete(t, key));
    Scenarios.Run1(s, Resolution(t, key));
    var s3 := SoloFinishes(s1, t, key);
    Service.RunConcat(s1, Scenarios.TwoSteps(t, 0), Scenarios.TwoSteps(t, 0));
    u := Scenarios.SoloReleases(s3, t, key);
    assert u.tasks == s.tasks;
  }

  /** What an operator's change makes of a schedule, at the next time its cadence gives. */
  ghost predicate ChangedBy(v: Schedule, u: Schedule, change: Change, at: int) {
    match change
    case Pause => u == v.(status := Paused, nextRunAt := None)
    case Resume => u == v.(status := Active, nextRunAt := Some(at))
    case SetConcurrency(allow) => u == v.(allow := allow)
    case Update(maxRuns, expiresAt, cadence) =>
      && u == v.(maxRuns := u.maxRuns, expiresAt := u.expiresAt, nextRunAt := u.nextRunAt)
      && (if maxRuns.Some? then u.maxRuns == maxRuns.value else u.maxRuns == v.maxRuns)
      && (if expiresAt.Some? then u.expiresAt == expiresAt.value else u.expiresAt == v.expiresAt)
      && (if v.status == Active && cadence then u.nextRunAt == Some(at) else u.nextRunAt == v.nextRunAt)
  }

  lemma ChangedIs(v: Schedule, change: Change, at: int)
    ensures ChangedBy(v, Changed(v, change, at), change, at)
  {
  }

  /** An operator's change nobody disturbs: just what was asked for, counts and slots kept. */
  lemma SoloChanges(s: State, t: nat, change: Change, at: int)
    requires t !in s.tasks && s.schedule.Some? && at > s.now
    ensures var u := RunAll(s, ChangeSteps(t, change, at));
      && u.schedule.Some? && ChangedBy(s.schedule.value.value, u.schedule.value.value, change, at)
      && u == s.(schedule := u.schedule, next := s.next + 1)
  {
    ChangedIs(s.schedule.value.value, change, at);
    ChangeLands(s, t, change, at);
  }

  function ChangeSteps(t: nat, change: Change, at: int): seq<Action> {
    [StartChange(t, change), Step(t, at, false), Step(t, at, false), Step(t, at, false)]
  }

  /** The update a change comes to, ready to be saved. */
  lemma SoloReadsToChange(s: State, t: nat, change: Change, at: int) returns (u: State)
    requires t !in s.tasks && s.schedule.Some? && at > s.now
    ensures u == Apply(Apply(Apply(s, StartChange(t, change)), Step(t, at, false)), Step(t, at, false))
    ensures u == s.(tasks := s.tasks[t := Saving(s.schedule.value, Changed(s.schedule.value.value, change, at))])
  {
    var s1 := Apply(s, StartChange(t, change));
    var s2 := Apply(s1, Step(t, at, false));
    assert s2 == s.(tasks := s.tasks[t := ChangeReady(change, s.schedule.value)]);
    u := Apply(s2, Step(t, at, false));
  }

  lemma ChangeLands(s: State, t: nat, change: Change, at: int)
    requires t !in s.tasks && s.schedule.Some? && at > s.now
    ensures RunAll(s, ChangeSteps(t, change, at)) ==
      s.(schedule := Some(Versioned(s.next, Changed(s.schedule.value.value, change, at))), next := s.next + 1)
  {
    var s3 := SoloReadsToChange(s, t, change, at);
    Scenarios.Run1(s, ChangeSteps(t, change, at));
    Scenarios.Run3(Apply(s, StartChange(t, change)), [Step(t, at, false), Step(t, at, false), Step(t, at, false)]);
    assert s3.tasks - {t} == s.tasks;
  }
}
