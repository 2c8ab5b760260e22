/** How a schedule ends: while nobody resumes it or changes its limits, it fires no more often
    than its run limit says, is not active once the limit is used up, and is completed only then
    or once it has expired. Over every interleaving, conflict and lost task. */
module SchedulerLimits {
  import opened VersionedStore
  import opened Scheduler
  import Admission = SchedulerAdmission

  predicate KeepsLimits(change: Change) {
    match change
    case Pause => true
    case Resume => false
    case SetConcurrency(_) => true
    case Update(maxRuns, expiresAt, _) => maxRuns.None? && expiresAt.None?
  }

  predicate LeavesLimits(action: Action) {
    action.StartChange? ==> KeepsLimits(action.change)
  }

  /** The limits are those of the creation; used up, the schedule is not active, and it is
      completed for a reason. */
  predicate Settled(v: Schedule, first: Schedule, now: int) {
    && v.maxRuns == first.maxRuns && v.expiresAt == first.expiresAt
    && (Exhausted(v) ==> v.status != Active)
    && (v.status == Completed ==> Exhausted(v) || Expired(v, now))
  }

  predicate TaskOk(task: Task, first: Schedule, now: int) {
    && (Admission.ReadOf(task).Some? ==> Settled(Admission.ReadOf(task).value.value, first, now))
    && match task
       case Saving(_, update) => Settled(update, first, now)
       case Changing(change) => KeepsLimits(change)
       case ChangeReady(change, _) => KeepsLimits(change)
       case TickReading(time) => time <= now
       case _ => true
  }

  ghost predicate Tasks(s: State, first: Schedule) {
    forall t :: t in s.tasks ==> TaskOk(s.tasks[t], first, s.now)
  }

  predicate ScheduleOk(s: State, first: Schedule) {
    s.schedule.Some? ==> Settled(s.schedule.value.value, first, s.now)
  }

  ghost predicate LogOk(log: seq<Event>, first: Schedule) {
    forall e :: e in log && e.Reserved? ==> e.before.maxRuns == first.maxRuns
  }

  ghost predicate Inv(s: State, first: Schedule) {
    Tasks(s, first) && ScheduleOk(s, first) && LogOk(s.log, first)
  }

  /** The reservation that uses up the limit completes the schedule. */
  lemma ReserveSettles(v: Schedule, first: Schedule, now: int, run: Run, at: int)
    requires Settled(v, first, now)
    ensures Settled(Reserve(v, run, at), first, now)
  {
  }

  lemma ChangeSettles(v: Schedule, first: Schedule, now: int, change: Change, at: int)
    requires Settled(v, first, now) && KeepsLimits(change)
    ensures Settled(Changed(v, change, at), first, now)
  {
  }

  /** What task `t` leaves of itself, of the schedule and of the log. */
  ghost predicate StepOk(s: State, u: State, t: nat, first: Schedule) {
    && u.now == s.now
    && (u.tasks == s.tasks || u.tasks == s.tasks - {t} || (t in u.tasks && u.tasks == s.tasks[t := u.tasks[t]]))
    && (t in u.tasks ==> TaskOk(u.tasks[t], first, s.now))
    && (u.schedule == s.schedule || ScheduleOk(u, first))
    && (u.log == s.log || exists e :: u.log == s.log + [e] && (e.Reserved? ==> e.before.maxRuns == first.maxRuns))
  }

  lemma StepKeeps(s: State, u: State, t: nat, first: Schedule)
    requires Inv(s, first) && StepOk(s, u, t, first)
    ensures Inv(u, first)
  {
  }

  lemma TickStep(s: State, t: nat, first: Schedule, at: int, saturated: bool)
    requires Inv(s, first) && t in s.tasks && s.tasks[t].TickReading?
    ensures StepOk(s, Advance(s, t, at, saturated), t, first)
  {
    assert TaskOk(s.tasks[t], first, s.now);
  }

  lemma FireStep(s: State, t: nat, first: Schedule, at: int)
    requires Inv(s, first) && t in s.tasks && (s.tasks[t].FireReading? || s.tasks[t].Reserving?)
    ensures StepOk(s, Advance(s, t, at, false), t, first)
  {
    assert TaskOk(s.tasks[t], first, s.now);
    if s.tasks[t].Reserving? {
      ReserveSettles(s.tasks[t].read.value, first, s.now, s.tasks[t].run, s.tasks[t].at);
    }
  }

  lemma ChangeStep(s: State, t: nat, first: Schedule, at: int)
    requires Inv(s, first) && t in s.tasks && (s.tasks[t].Changing? || s.tasks[t].ChangeReady? || s.tasks[t].Saving?)
    ensures StepOk(s, Advance(s, t, at, false), t, first)
  {
    assert TaskOk(s.tasks[t], first, s.now);
    if s.tasks[t].ChangeReady? { ChangeSettles(s.tasks[t].read.value, first, s.now, s.tasks[t].change, at); }
  }

  predicate Recovers(task: Task) {
    task.Recovering? || task.RecoverWriting? || task.RecoverSaving?
  }

  lemma RecoverStep(s: State, t: nat, first: Schedule, at: int)
    requires Inv(s, first) && t in s.tasks && Recovers(s.tasks[t])
    ensures StepOk(s, Advance(s, t, at, false), t, first)
  {
    assert TaskOk(s.tasks[t], first, s.now);
  }

  predicate Sends(task: Task) {
    task.Creating? || task.Dispatch? || task.Awaiting?
  }

  lemma SendStep(s: State, t: nat, first: Schedule, at: int)
    requires Inv(s, first) && t in s.tasks && Sends(s.tasks[t])
    ensures StepOk(s, Advance(s, t, at, false), t, first)
  {
  }

  predicate Records(task: Task) {
    task.Recording? || task.RecordingUnknown? || task.Completing? || task.CompleteSaving?
  }

  lemma RecordStep(s: State, t: nat, first: Schedule, at: int)
    requires Inv(s, first) && t in s.tasks && Records(s.tasks[t])
    ensures StepOk(s, Advance(s, t, at, false), t, first)
  {
  }

  predicate Rest(task: Task) {
    task.Firing? || task.ReleaseReading? || task.ReleaseSaving? || task.Deleting? || task.DeleteSaving? ||
    task.Sweeping?
  }

  lemma RestStep(s: State, t: nat, first: Schedule, at: int)
    requires Inv(s, first) && t in s.tasks && Rest(s.tasks[t])
    ensures StepOk(s, Advance(s, t, at, false), t, first)
  {
    assert TaskOk(s.tasks[t], first, s.now);
  }

  lemma AdvanceKeepsInv(s: State, t: nat, first: Schedule, at: int, saturated: bool)
    requires Inv(s, first) && t in s.tasks
    ensures Inv(Advance(s, t, at, saturated), first)
  {
    var task := s.tasks[t];
    if task.TickReading? { TickStep(s, t, first, at, saturated); }
    else if task.FireReading? || task.Reserving? { FireStep(s, t, first, at); }
    else if task.Changing? || task.ChangeReady? || task.Saving? { ChangeStep(s, t, first, at); }
    else if Recovers(task) { RecoverStep(s, t, first, at); }
    else if Sends(task) { SendStep(s, t, first, at); }
    else if Records(task) { RecordStep(s, t, first, at); }
    else { RestStep(s, t, first, at); }
    StepKeeps(s, Advance(s, t, at, saturated), t, first);
  }

  /** Time passes: what is expired stays expired. */
  lemma TimeKeepsInv(s: State, first: Schedule, ms: nat)
    requires Inv(s, first)
    ensures Inv(s.(now := s.now + ms), first)
  {
  }

  predicate Starts(action: Action) {
    action.StartFire? || action.StartTick? || action.StartChange? || action.StartDelete? || action.StartComplete? ||
    action.StartRecover?
  }

  lemma OutsideStep(s: State, first: Schedule, action: Action, t: nat)
    requires Inv(s, first) && LeavesLimits(action)
    requires match action
      case Reply(c, _) => c == t
      case Throw(c, _) => c == t
      case Lose(c) => c == t
      case Prune(_, _) => true
      case Sweep(_, _) => true
      case _ => Starts(action) && action.t == t
    ensures Inv(Apply(s, action), first)
  {
    StepKeeps(s, Apply(s, action), t, first);
  }

  lemma ActionKeepsInv(s: State, first: Schedule, action: Action)
    requires Inv(s, first) && LeavesLimits(action)
    ensures Inv(Apply(s, action), first)
  {
    match action
    case Step(t, at, saturated) => if t in s.tasks { AdvanceKeepsInv(s, t, first, at, saturated); }
    case Tick(ms) => TimeKeepsInv(s, first, ms);
    case Prune(_, _) => OutsideStep(s, first, action, 0);
    case Sweep(_, _) => OutsideStep(s, first, action, 0);
    case _ => OutsideStep(s, first, action, action.t);
  }

  lemma {:induction false} RunKeepsInv(s: State, first: Schedule, actions: seq<Action>)
    requires Inv(s, first) && forall a :: a in actions ==> LeavesLimits(a)
    ensures Inv(RunAll(s, actions), first)
    decreases |actions|
  {
    if actions != [] {
      ActionKeepsInv(s, first, actions[0]);
      RunKeepsInv(Apply(s, actions[0]), first, actions[1..]);
    }
  }

  /** With nobody resuming it or changing its limits, a schedule never commits more reservations
      than its run limit, is not active once it has committed that many, and is completed only
      then or once it has expired. */
  lemma LimitEndsSchedule(now: int, first: Schedule, actions: seq<Action>, limit: nat)
    requires Fresh(first) && first.maxRuns == Some(limit) && limit != 0
    requires forall a :: a in actions ==> LeavesLimits(a)
    ensures var s := RunAll(Init(now, first), actions);
      && Admission.Reservations(s.log) <= limit
      && (s.schedule.Some? && Admission.Reservations(s.log) == limit ==> s.schedule.value.value.status != Active)
      && (s.schedule.Some? && s.schedule.value.value.status == Completed ==>
            Admission.Reservations(s.log) == limit || (first.expiresAt.Some? && first.expiresAt.value <= s.now))
  {
    RunKeepsInv(Init(now, first), first, actions);
    Admission.RunKeepsInv(Init(now, first), actions);
    Admission.CountBelowLimit(RunAll(Init(now, first), actions).log, limit);
  }

  /** A schedule without a limit is completed only once it has expired. */
  lemma UnlimitedEndsByExpiry(now: int, first: Schedule, actions: seq<Action>)
    requires Fresh(first) && (first.maxRuns.None? || first.maxRuns.value == 0)
    requires forall a :: a in actions ==> LeavesLimits(a)
    ensures var s := RunAll(Init(now, first), actions);
      s.schedule.Some? && s.schedule.value.value.status == Completed ==>
        first.expiresAt.Some? && first.expiresAt.value <= s.now
  {
    RunKeepsInv(Init(now, first), first, actions);
  }
}
