/** What a pause is for: from the moment it is committed until somebody resumes the schedule, no
    automatic fire is committed, not even one already on its way. */
module SchedulerPause {
  import opened VersionedStore
  import opened Scheduler
  import Admission = SchedulerAdmission

  predicate Resumes(task: Task) {
    (task.Changing? || task.ChangeReady?) && task.change.Resume?
  }

  ghost predicate NobodyResumes(s: State) {
    forall t :: t in s.tasks ==> !Resumes(s.tasks[t])
  }

  /** A save over the schedule that is there leaves it inactive. */
  predicate SavesInactive(s: State, task: Task) {
    task.Saving? && Admission.Current(s, task.read) ==> task.update.status != Active
  }

  /** The schedule is not active, and nobody is about to make it so. */
  ghost predicate Dormant(s: State) {
    && (s.schedule.Some? ==> s.schedule.value.value.status != Active)
    && NobodyResumes(s) && (forall t :: t in s.tasks ==> SavesInactive(s, s.tasks[t]))
  }

  predicate NoResume(action: Action) {
    action.StartChange? ==> !action.change.Resume?
  }

  ghost predicate NoAutomatic(before: seq<Event>, after: seq<Event>) {
    forall e :: e in after && e.Reserved? && e.auto ==> e in before
  }

  /** Task `t` may have moved, and may have committed a schedule that is not active. */
  ghost predicate StepOk(s: State, u: State, t: nat) {
    && (u.tasks == s.tasks || u.tasks == s.tasks - {t} || (t in u.tasks && u.tasks == s.tasks[t := u.tasks[t]]))
    && (t in u.tasks ==> !Resumes(u.tasks[t]) && SavesInactive(u, u.tasks[t]))
    && (u.schedule == s.schedule || u.schedule.None? ||
          (u.schedule.value.value.status != Active && u.schedule.value.version == s.next))
    && (u.log == s.log || exists e :: u.log == s.log + [e] && !(e.Reserved? && e.auto))
  }

  lemma StepKeeps(s: State, u: State, t: nat)
    requires Admission.Inv(s) && Dormant(s) && StepOk(s, u, t)
    ensures Dormant(u) && NoAutomatic(s.log, u.log)
  {
    forall c | c in u.tasks && c != t ensures SavesInactive(u, u.tasks[c]) {
      assert Admission.TaskOk(s, s.tasks[c]);
    }
  }

  lemma TickStep(s: State, t: nat, at: int, saturated: bool)
    requires Admission.Inv(s) && Dormant(s) && t in s.tasks && s.tasks[t].TickReading?
    ensures StepOk(s, Advance(s, t, at, saturated), t)
  {
  }

  /** An automatic fire on its way read an older schedule: its reservation conflicts. */
  lemma FireStep(s: State, t: nat, at: int)
    requires Admission.Inv(s) && Dormant(s) && t in s.tasks && (s.tasks[t].FireReading? || s.tasks[t].Reserving?)
    ensures StepOk(s, Advance(s, t, at, false), t)
  {
    assert Admission.TaskOk(s, s.tasks[t]);
  }

  lemma ChangeStep(s: State, t: nat, at: int)
    requires Admission.Inv(s) && Dormant(s) && t in s.tasks && (s.tasks[t].Changing? || s.tasks[t].ChangeReady? || s.tasks[t].Saving?)
    ensures StepOk(s, Advance(s, t, at, false), t)
  {
    assert Admission.TaskOk(s, s.tasks[t]);
  }

  lemma RecoverStep(s: State, t: nat, at: int)
    requires Admission.Inv(s) && Dormant(s) && t in s.tasks && (s.tasks[t].Recovering? || s.tasks[t].RecoverWriting?)
    ensures StepOk(s, Advance(s, t, at, false), t)
  {
  }

  lemma RecoveredStep(s: State, t: nat, at: int)
    requires Admission.Inv(s) && Dormant(s) && t in s.tasks && s.tasks[t].RecoverSaving?
    ensures StepOk(s, Advance(s, t, at, false), t)
  {
    assert Admission.TaskOk(s, s.tasks[t]);
  }

  predicate Sends(task: Task) {
    task.Creating? || task.Dispatch? || task.Awaiting?
  }

  lemma SendStep(s: State, t: nat, at: int)
    requires Dormant(s) && t in s.tasks && Sends(s.tasks[t])
    ensures StepOk(s, Advance(s, t, at, false), t)
  {
  }

  predicate Records(task: Task) {
    task.Recording? || task.RecordingUnknown? || task.Completing? || task.CompleteSaving?
  }

  lemma RecordStep(s: State, t: nat, at: int)
    requires Dormant(s) && t in s.tasks && Records(s.tasks[t])
    ensures StepOk(s, Advance(s, t, at, false), t)
  {
  }

  lemma RestStep(s: State, t: nat, at: int)
    requires Admission.Inv(s) && Dormant(s) && t in s.tasks
    requires s.tasks[t].Firing? || s.tasks[t].ReleaseReading? || s.tasks[t].ReleaseSaving? || s.tasks[t].Deleting? ||
             s.tasks[t].DeleteSaving? || s.tasks[t].Sweeping?
    ensures StepOk(s, Advance(s, t, at, false), t)
  {
    assert Admission.TaskOk(s, s.tasks[t]);
  }

  lemma AdvanceKeeps(s: State, t: nat, at: int, saturated: bool)
    requires Admission.Inv(s) && Dormant(s) && t in s.tasks
    ensures Dormant(Advance(s, t, at, saturated)) && NoAutomatic(s.log, Advance(s, t, at, saturated).log)
  {
    var task := s.tasks[t];
    if task.TickReading? { TickStep(s, t, at, saturated); }
    else if task.FireReading? || task.Reserving? { FireStep(s, t, at); }
    else if task.Changing? || task.ChangeReady? || task.Saving? { ChangeStep(s, t, at); }
    else if task.Recovering? || task.RecoverWriting? { RecoverStep(s, t, at); }
    else if task.RecoverSaving? { RecoveredStep(s, t, at); }
    else if Sends(task) { SendStep(s, t, at); }
    else if Records(task) { RecordStep(s, t, at); }
    else { RestStep(s, t, at); }
    StepKeeps(s, Advance(s, t, at, saturated), t);
  }

  lemma OutsideStep(s: State, action: Action, t: nat)
    requires Admission.Inv(s) && Dormant(s) && NoResume(action) && !action.Step? && !action.Tick?
    requires action.Prune? || action.Sweep? || action.t == t
    ensures Dormant(Apply(s, action)) && NoAutomatic(s.log, Apply(s, action).log)
  {
    StepKeeps(s, Apply(s, action), t);
  }

  lemma ActionKeeps(s: State, action: Action)
    requires Admission.Inv(s) && Dormant(s) && NoResume(action)
    ensures Dormant(Apply(s, action)) && NoAutomatic(s.log, Apply(s, action).log)
  {
    match action
    case Step(t, at, saturated) => if t in s.tasks { AdvanceKeeps(s, t, at, saturated); }
    case Tick(_) =>
    case Prune(_, _) => OutsideStep(s, action, 0);
    case Sweep(_, _) => OutsideStep(s, action, 0);
    case _ => OutsideStep(s, action, action.t);
  }

  lemma {:induction false} DormantNeverFires(s: State, actions: seq<Action>)
    requires Admission.Inv(s) && Dormant(s) && forall a :: a in actions ==> NoResume(a)
    ensures NoAutomatic(s.log, RunAll(s, actions).log)
    decreases |actions|
  {
    if actions != [] {
      ActionKeeps(s, actions[0]);
      Admission.StepKeepsInv(s, actions[0]);
      DormantNeverFires(Apply(s, actions[0]), actions[1..]);
    }
  }

  /** Task `t` commits a pause: the schedule it read is still the one there. */
  ghost predicate CommitsPause(s: State, t: nat) {
    && t in s.tasks && s.tasks[t].Saving? && Admission.Current(s, s.tasks[t].read)
    && s.tasks[t].update == Changed(s.tasks[t].read.value, Pause, 0)
  }

  lemma PauseMakesDormant(s: State, t: nat)
    requires Admission.Inv(s) && NobodyResumes(s) && CommitsPause(s, t)
    ensures Dormant(Apply(s, Step(t, 0, false)))
  {
    var u := Apply(s, Step(t, 0, false));
    assert u.tasks == s.tasks - {t};
    forall c | c in u.tasks ensures SavesInactive(u, u.tasks[c]) { assert Admission.TaskOk(s, s.tasks[c]); }
  }

  lemma PauseStops(s: State, t: nat, later: seq<Action>)
    requires Admission.Inv(s) && NobodyResumes(s) && CommitsPause(s, t) && forall a :: a in later ==> NoResume(a)
    ensures NoAutomatic(s.log, RunAll(Apply(s, Step(t, 0, false)), later).log)
  {
    var u := Apply(s, Step(t, 0, false));
    Admission.StepKeepsInv(s, Step(t, 0, false));
    PauseMakesDormant(s, t);
    assert u.log == s.log;
    DormantNeverFires(u, later);
  }

  /** From any reachable state in which a pause is committed, whatever fires were on their way, no
      automatic fire is committed until somebody resumes the schedule. */
  lemma PausedNeverFires(now: int, first: Schedule, earlier: seq<Action>, t: nat, later: seq<Action>)
    requires Fresh(first) && CommitsPause(RunAll(Init(now, first), earlier), t)
    requires NobodyResumes(RunAll(Init(now, first), earlier))
    requires forall a :: a in later ==> NoResume(a)
    ensures var s := RunAll(Init(now, first), earlier);
      NoAutomatic(s.log, RunAll(Apply(s, Step(t, 0, false)), later).log)
  {
    Admission.RunKeepsInv(Init(now, first), earlier);
    PauseStops(RunAll(Init(now, first), earlier), t, later);
  }
}
