/** What the journal promises over every interleaving of instances, crashes and lost replies:
    one execution per kept record, a revision that only grows, a terminal phase that stays. */
module CreationJournalProof {
  import opened VersionedStore
  import opened CreationJournal

  function Rank(phase: Phase): nat {
    match phase
    case Accepted => 0
    case WorkspaceReady => 1
    case AgentReady => 2
    case PromptStarted => 3
    case Completed => 4
    case Failed => 4
  }

  // ----- The log -----

  /** The last value written for the record. */
  function LastWrite(log: seq<Event>, uid: nat): Option<Value> {
    if log == [] then None
    else
      var e := log[|log| - 1];
      if e.Wrote? && e.uid == uid then Some(e.value) else LastWrite(log[..|log| - 1], uid)
  }

  predicate Gone(log: seq<Event>, uid: nat) {
    Removed(uid) in log
  }

  /** A report may follow `w`: same record and request, next revision, and the phase never goes back
      nor on from a terminal one. */
  predicate Succeeds(w: Value, v: Value) {
    && v.uid == w.uid && v.fingerprint == w.fingerprint && v.revision == w.revision + 1
    && !Terminal(w.phase) && Rank(w.phase) <= Rank(v.phase)
  }

  predicate First(v: Value) {
    v.revision == 0 && v.phase == Accepted && !v.dispatching
  }

  /** A failure is known as one only if no create was out, or the backend said no. */
  predicate Honest(before: seq<Event>, w: Value, v: Value) {
    v.phase == Failed && !v.unknown ==> !w.dispatching || Answered(v.uid, false) in before
  }

  ghost predicate EventOk(before: seq<Event>, e: Event) {
    match e
    case Wrote(uid, v) =>
      v.uid == uid && !Gone(before, uid) && (
        if LastWrite(before, uid).Some? then
          Succeeds(LastWrite(before, uid).value, v) && Honest(before, LastWrite(before, uid).value, v)
        else First(v) && forall d :: d in before && d.Wrote? ==> Gone(before, d.uid))
    case Executed(uid) =>
      LastWrite(before, uid).Some? && First(LastWrite(before, uid).value) && !Gone(before, uid) && e !in before
    case Sent(uid, _) => Executed(uid) in before && LastWrite(before, uid).Some? && LastWrite(before, uid).value.dispatching
    case Answered(uid, _) => Executed(uid) in before
    case Removed(_) => true
  }

  ghost predicate LogOk(log: seq<Event>) {
    forall i {:trigger log[..i]} :: 0 <= i < |log| ==> EventOk(log[..i], log[i])
  }

  lemma LogOkGrows(log: seq<Event>, e: Event)
    requires LogOk(log) && EventOk(log, e)
    ensures LogOk(log + [e])
  {
    forall i | 0 <= i < |log + [e]| ensures EventOk((log + [e])[..i], (log + [e])[i]) {
      if i < |log| { assert (log + [e])[..i] == log[..i]; } else { assert (log + [e])[..i] == log; }
    }
  }

  lemma LastWriteGrows(log: seq<Event>, e: Event, uid: nat)
    ensures LastWrite(log + [e], uid) == if e.Wrote? && e.uid == uid then Some(e.value) else LastWrite(log, uid)
  {
    assert (log + [e])[..|log|] == log;
  }

  // ----- What every run keeps -----

  predicate IsExecutor(task: Task) {
    task.Executing? || task.Reporting? || task.Failing? || task.Finishing?
  }

  predicate HasRow(task: Task) {
    task.Checked? || task.Closing? || IsExecutor(task)
  }

  /** The report leaves the phase where it is, or moves it on. */
  predicate Forward(row: Value, patch: Patch) {
    !Terminal(row.phase) && (patch.phase.Some? ==> Rank(row.phase) <= Rank(patch.phase.value))
  }

  /** How far the phase may have come at each stage. */
  predicate StageOk(phase: Phase, stage: Stage) {
    match stage
    case Starting => phase == Accepted
    case CreatingWorkspace => phase == Accepted
    case AwaitingReady => phase == Accepted
    case SelectingWorkspace => Rank(phase) <= 1
    case CreatingAgentWorkspace => Rank(phase) <= 1
    case AwaitingAgentWorkspace => Rank(phase) <= 1
    case PreparingAgent => Rank(phase) <= 1
    case SendingAgent => Rank(phase) <= 1
    case AgentReply(_) => Rank(phase) <= 1
    case Prompting => phase == AgentReady
    case Ended => true
  }

  ghost predicate TaskOk(s: State, task: Task) {
    && (HasRow(task) ==> task.row.version < s.next && task.row.value.uid < s.next && (Current(s, task.row) ==> s.cell.value == task.row))
    && (IsExecutor(task) ==> Executed(task.row.value.uid) in s.log)
    && match task
       case Closing(_, row) => !Terminal(row.value.phase)
       case Failing(_, row) => !Terminal(row.value.phase)
       case Finishing(_, row) => !Terminal(row.value.phase)
       case Executing(_, row, _, stage) =>
         StageOk(row.value.phase, stage) && (stage == AgentReply(false) ==> Answered(row.value.uid, false) in s.log)
       case Reporting(_, row, _, patch, resume) =>
         && (patch.phase == Some(Failed) ==> Answered(row.value.uid, false) in s.log)
         && Forward(row.value, patch) && StageOk(Patched(row.value, patch).phase, resume)
         && (IsSend(resume) ==> patch.dispatching == Some(true)) && !resume.AgentReply?
       case _ => true
  }

  /** Every record ever written is the one that is there, or was removed. */
  ghost predicate Accounted(log: seq<Event>, cell: Option<Versioned<Value>>) {
    forall e :: e in log && e.Wrote? ==> Gone(log, e.uid) || (cell.Some? && cell.value.value.uid == e.uid)
  }

  ghost predicate UidsBelow(log: seq<Event>, next: nat) {
    forall e :: e in log ==> e.uid < next
  }

  /** The cell holds the last value written for its record. */
  ghost predicate Traced(log: seq<Event>, cell: Option<Versioned<Value>>) {
    cell.Some? ==> !Gone(log, cell.value.value.uid) && LastWrite(log, cell.value.value.uid) == Some(cell.value.value)
  }

  ghost predicate CellOk(s: State) {
    && Accounted(s.log, s.cell) && UidsBelow(s.log, s.next) && Traced(s.log, s.cell)
    && (s.cell.Some? ==> s.cell.value.version < s.next && s.cell.value.value.uid < s.next)
  }

  ghost predicate Tasks(s: State) {
    forall t :: t in s.tasks ==> TaskOk(s, s.tasks[t])
  }

  ghost predicate Inv(s: State) {
    LogOk(s.log) && CellOk(s) && Tasks(s)
  }

  // ----- Frames -----

  ghost predicate Later(s: State, u: State) {
    && s.next <= u.next && (forall e :: e in s.log ==> e in u.log)
    && (u.cell == s.cell || u.cell.None? || u.cell.value.version >= s.next)
  }

  lemma TaskKept(s: State, u: State, task: Task)
    requires TaskOk(s, task) && Later(s, u)
    ensures TaskOk(u, task)
  {
  }

  lemma TasksKept(s: State, u: State, t: nat)
    requires Tasks(s) && Later(s, u)
    requires forall c :: c in u.tasks && c != t ==> c in s.tasks && u.tasks[c] == s.tasks[c]
    requires t in u.tasks ==> TaskOk(u, u.tasks[t])
    ensures Tasks(u)
  {
    forall c | c in u.tasks ensures TaskOk(u, u.tasks[c]) {
      if c != t { TaskKept(s, u, s.tasks[c]); }
    }
  }

  lemma TasksLater(s: State, u: State)
    requires Tasks(s) && Later(s, u) && forall c :: c in u.tasks ==> c in s.tasks && u.tasks[c] == s.tasks[c]
    ensures Tasks(u)
  {
    forall c | c in u.tasks ensures TaskOk(u, u.tasks[c]) { TaskKept(s, u, s.tasks[c]); }
  }

  // ----- Writes -----

  /** How the accounts change with one more event. */
  lemma AccountsGrow(log: seq<Event>, e: Event, before: Option<Versioned<Value>>, after: Option<Versioned<Value>>, next: nat)
    requires Accounted(log, before) && UidsBelow(log, next) && e.uid <= next
    requires before.Some? && !(after.Some? && after.value.value.uid == before.value.value.uid) ==>
             e == Removed(before.value.value.uid)
    requires e.Wrote? ==> after.Some? && after.value.value.uid == e.uid
    ensures Accounted(log + [e], after) && UidsBelow(log + [e], next + 1)
    ensures e.uid < next ==> UidsBelow(log + [e], next)
    ensures forall d :: d in log ==> d in log + [e]
    ensures after.Some? && !Gone(log, after.value.value.uid) && !e.Removed? ==> !Gone(log + [e], after.value.value.uid)
  {
    assert forall d :: d in log + [e] <==> d in log || d == e;
    forall d | d in log + [e] && d.Wrote?
      ensures Gone(log + [e], d.uid) || (after.Some? && after.value.value.uid == d.uid)
    {
      if d in log && Gone(log, d.uid) { assert Removed(d.uid) in log + [e]; }
    }
  }

  /** A write over the current row, by someone entitled to it. */
  lemma WriteKeeps(s: State, row: Versioned<Value>, v: Value)
    requires LogOk(s.log) && CellOk(s) && s.cell == Some(row) && Succeeds(row.value, v) && Honest(s.log, row.value, v) && v.uid < s.next
    ensures LogOk(Write(s, v).log) && CellOk(Write(s, v)) && Later(s, Write(s, v))
  {
    var e := Wrote(v.uid, v);
    LogOkGrows(s.log, e);
    LastWriteGrows(s.log, e, v.uid);
    AccountsGrow(s.log, e, s.cell, Some(Versioned(s.next, v)), s.next);
  }

  lemma {:induction false} LastWriteIn(log: seq<Event>, uid: nat)
    ensures LastWrite(log, uid).Some? ==> Wrote(uid, LastWrite(log, uid).value) in log
    ensures LastWrite(log, uid).None? ==> forall e :: e in log && e.Wrote? ==> e.uid != uid
  {
    if log != [] {
      LastWriteIn(log[..|log| - 1], uid);
      assert log == log[..|log| - 1] + [log[|log| - 1]];
    }
  }

  lemma CreateKeeps(s: State, request: Request)
    requires LogOk(s.log) && CellOk(s) && s.cell.None?
    ensures var u := Write(s, NewValue(s.next, request)); LogOk(u.log) && CellOk(u) && Later(s, u)
  {
    var v := NewValue(s.next, request);
    var e := Wrote(s.next, v);
    LastWriteIn(s.log, s.next);
    LogOkGrows(s.log, e);
    LastWriteGrows(s.log, e, s.next);
    AccountsGrow(s.log, e, None, Some(Versioned(s.next, v)), s.next);
  }

  /** An event other than a write or a removal. */
  lemma NoteKeeps(s: State, e: Event)
    requires LogOk(s.log) && CellOk(s) && EventOk(s.log, e) && (e.Executed? || e.Sent? || e.Answered?) && e.uid < s.next
    ensures var u := s.(log := s.log + [e]); LogOk(u.log) && CellOk(u) && Later(s, u)
  {
    LogOkGrows(s.log, e);
    AccountsGrow(s.log, e, s.cell, s.cell, s.next);
    if s.cell.Some? { LastWriteGrows(s.log, e, s.cell.value.value.uid); }
  }

  lemma RemoveKeeps(s: State)
    requires Inv(s) && s.cell.Some?
    ensures Inv(Apply(s, Action.Remove))
  {
    var e, u := Removed(s.cell.value.value.uid), Apply(s, Action.Remove);
    LogOkGrows(s.log, e);
    AccountsGrow(s.log, e, s.cell, None, s.next);
    TasksLater(s, u);
  }

  // ----- Steps -----

  lemma NothingWritten(s: State, u: State, t: nat)
    requires Inv(s) && u == s.(tasks := u.tasks, active := u.active)
    requires forall c :: c in u.tasks && c != t ==> c in s.tasks && u.tasks[c] == s.tasks[c]
    requires t in u.tasks ==> TaskOk(s, u.tasks[t])
    ensures Inv(u)
  {
    if t in u.tasks { TaskKept(s, u, u.tasks[t]); }
    TasksKept(s, u, t);
  }

  lemma ClaimKeeps(s: State, t: nat)
    requires Inv(s) && t in s.tasks && s.tasks[t].Claiming?
    ensures Inv(Advance(s, t, Proceed))
  {
    var u, request := Advance(s, t, Proceed), s.tasks[t].request;
    if s.cell.Some? { NothingWritten(s, u, t); }
    else {
      CreateKeeps(s, request);
      var v := Write(s, NewValue(s.next, request));
      LastWriteGrows(s.log, Wrote(s.next, NewValue(s.next, request)), s.next);
      assert forall d :: d in v.log ==> d in s.log || d == Wrote(s.next, NewValue(s.next, request));
      NoteKeeps(v, Executed(s.next));
      assert Executed(s.next) in u.log;
      TasksKept(s, u, t);
    }
  }

  /** A write that ends its task. */
  lemma LastWordKeeps(s: State, t: nat, v: Value)
    requires Inv(s) && t in s.tasks && HasRow(s.tasks[t]) && Current(s, s.tasks[t].row)
    requires Succeeds(s.tasks[t].row.value, v) && Honest(s.log, s.tasks[t].row.value, v)
    ensures Inv(End(Write(s, v), t))
  {
    assert TaskOk(s, s.tasks[t]);
    WriteKeeps(s, s.tasks[t].row, v);
    TasksKept(s, End(Write(s, v), t), t);
  }

  lemma ReportKeeps(s: State, t: nat)
    requires Inv(s) && t in s.tasks && s.tasks[t].Reporting? && Current(s, s.tasks[t].row)
    ensures Inv(Reported(s, t, s.tasks[t]))
  {
    var task := s.tasks[t];
    assert TaskOk(s, task);
    var v := Patched(task.row.value, task.patch);
    var u, w := Write(s, v), Reported(s, t, task);
    WriteKeeps(s, task.row, v);
    assert u.log[|s.log|] == Wrote(v.uid, v);
    if IsSend(task.resume) {
      assert v.dispatching && LastWrite(u.log, v.uid) == Some(v) && Executed(v.uid) in u.log;
      NoteKeeps(u, Sent(v.uid, task.resume));
    }
    assert forall d :: d in u.log ==> d in w.log;
    TasksKept(s, w, t);
  }

  predicate BeforeAgent(stage: Stage) {
    stage.Starting? || stage.CreatingWorkspace? || stage.AwaitingReady?
  }

  predicate BeforePreparation(stage: Stage) {
    stage.SelectingWorkspace? || stage.CreatingAgentWorkspace? || stage.AwaitingAgentWorkspace?
  }

  lemma WorkspacePromise(s: State, t: nat, outcome: Outcome)
    requires t in s.tasks && s.tasks[t].Executing? && TaskOk(s, s.tasks[t]) && BeforeAgent(s.tasks[t].stage)
    ensures TaskOk(s, Continue(s, t, s.tasks[t], outcome).tasks[t])
  {
  }

  lemma SelectionPromise(s: State, t: nat, outcome: Outcome)
    requires t in s.tasks && s.tasks[t].Executing? && TaskOk(s, s.tasks[t]) && BeforePreparation(s.tasks[t].stage)
    ensures TaskOk(s, Continue(s, t, s.tasks[t], outcome).tasks[t])
  {
  }

  /** The callback hears an answer. */
  predicate Hears(stage: Stage, outcome: Outcome) {
    (stage.PreparingAgent? || stage.SendingAgent?) && outcome.Answer?
  }

  lemma HearKeeps(s: State, t: nat, outcome: Outcome)
    requires Inv(s) && t in s.tasks && s.tasks[t].Executing? && Hears(s.tasks[t].stage, outcome)
    ensures Inv(Continue(s, t, s.tasks[t], outcome))
  {
    var task, u := s.tasks[t], Continue(s, t, s.tasks[t], outcome);
    assert TaskOk(s, task);
    var e := Answered(task.row.value.uid, outcome.ok);
    NoteKeeps(s, e);
    assert u.log[|s.log|] == e;
    TasksKept(s, u, t);
  }

  lemma AgentPromise(s: State, t: nat, outcome: Outcome)
    requires t in s.tasks && s.tasks[t].Executing? && TaskOk(s, s.tasks[t])
    requires s.tasks[t].stage.PreparingAgent? || s.tasks[t].stage.SendingAgent? || s.tasks[t].stage.Prompting?
    requires !Hears(s.tasks[t].stage, outcome)
    ensures TaskOk(s, Continue(s, t, s.tasks[t], outcome).tasks[t])
  {
  }

  lemma ContinuePromise(s: State, t: nat, outcome: Outcome)
    requires t in s.tasks && s.tasks[t].Executing? && TaskOk(s, s.tasks[t])
    requires !Hears(s.tasks[t].stage, outcome) && t in Continue(s, t, s.tasks[t], outcome).tasks
    ensures TaskOk(s, Continue(s, t, s.tasks[t], outcome).tasks[t])
  {
    var stage := s.tasks[t].stage;
    if BeforeAgent(stage) { WorkspacePromise(s, t, outcome); }
    else if BeforePreparation(stage) { SelectionPromise(s, t, outcome); }
    else if stage.PreparingAgent? || stage.SendingAgent? || stage.Prompting? { AgentPromise(s, t, outcome); }
  }

  /** Between answers the callback touches nothing but its own task. */
  lemma ContinueFrame(s: State, t: nat, outcome: Outcome)
    requires t in s.tasks && s.tasks[t].Executing? && !Hears(s.tasks[t].stage, outcome)
    ensures var u := Continue(s, t, s.tasks[t], outcome);
      && u == s.(tasks := u.tasks, active := u.active)
      && (u.tasks == s.tasks - {t} || (t in u.tasks && u.tasks == s.tasks[t := u.tasks[t]]))
  {
  }

  lemma ContinueKeeps(s: State, t: nat, outcome: Outcome)
    requires Inv(s) && t in s.tasks && s.tasks[t].Executing?
    ensures Inv(Continue(s, t, s.tasks[t], outcome))
  {
    var u := Continue(s, t, s.tasks[t], outcome);
    assert TaskOk(s, s.tasks[t]);
    if Hears(s.tasks[t].stage, outcome) { HearKeeps(s, t, outcome); }
    else {
      ContinueFrame(s, t, outcome);
      if t in u.tasks { ContinuePromise(s, t, outcome); }
      NothingWritten(s, u, t);
    }
  }

  lemma OwnWriteKeeps(s: State, t: nat)
    requires Inv(s) && t in s.tasks && HasRow(s.tasks[t]) && Current(s, s.tasks[t].row)
    requires s.tasks[t].Closing? || s.tasks[t].Failing? || s.tasks[t].Finishing?
    ensures Inv(Advance(s, t, Proceed))
  {
    var task := s.tasks[t];
    assert TaskOk(s, task);
    LastWordKeeps(s, t,
      if task.Closing? then ClosedAs(task.row.value)
      else if task.Failing? then FailedAs(task.row.value)
      else Patched(task.row.value, Patch(Some(Completed), None, false)));
  }

  lemma AdvanceKeeps(s: State, t: nat, outcome: Outcome)
    requires Inv(s) && t in s.tasks
    ensures Inv(Advance(s, t, outcome))
  {
    var task, u := s.tasks[t], Advance(s, t, outcome);
    assert TaskOk(s, task);
    if task.Claiming? { ClaimKeeps(s, t); }
    else if task.Executing? && !(outcome.Raise? && !task.stage.Starting? && !task.stage.Ended?) { ContinueKeeps(s, t, outcome); }
    else if task.Reporting? && Current(s, task.row) { ReportKeeps(s, t); }
    else if (task.Closing? || task.Failing? || task.Finishing?) && Current(s, task.row) { OwnWriteKeeps(s, t); }
    else { NothingWritten(s, u, t); }
  }

  lemma ThrowKeeps(s: State, t: nat, applied: bool)
    requires Inv(s) && t in s.tasks
    ensures Inv(ReportThrows(s, t, applied))
  {
    var task, u := s.tasks[t], ReportThrows(s, t, applied);
    assert TaskOk(s, task);
    if task.Claiming? && applied && s.cell.None? {
      CreateKeeps(s, task.request);
      TasksKept(s, u, t);
    } else if HasRow(task) && u.next != s.next {
      WriteKeeps(s, task.row, u.cell.value.value);
      TasksKept(s, u, t);
    } else {
      NothingWritten(s, u, t);
    }
  }

  lemma StepKeepsInv(s: State, action: Action)
    requires Inv(s)
    ensures Inv(Apply(s, action))
  {
    var u := Apply(s, action);
    match action
    case Step(t, outcome) => if t in s.tasks { AdvanceKeeps(s, t, outcome); }
    case Throw(t, applied) => if t in s.tasks { ThrowKeeps(s, t, applied); }
    case Remove => if s.cell.Some? { RemoveKeeps(s); }
    case StartRun(t, _, _) => if u != s { NothingWritten(s, u, t); }
    case StartSubscribe(t, _) => if u != s { NothingWritten(s, u, t); }
    case Leave(t) => if u != s { NothingWritten(s, u, t); }
    case Crash(_) => TasksLater(s, u);
  }

  lemma {:induction false} RunKeepsInv(s: State, actions: seq<Action>)
    requires Inv(s)
    ensures Inv(Run(s, actions))
    decreases |actions|
  {
    if actions != [] {
      StepKeepsInv(s, actions[0]);
      RunKeepsInv(Apply(s, actions[0]), actions[1..]);
    }
  }

  // ----- Theorems, over every run -----

  /** Two writes of one record: the later has the larger revision and no earlier phase, and the
      earlier was not terminal. A stale recovery cannot turn a completed creation into a failed one. */
  lemma {:induction false} WritesAdvance(log: seq<Event>, i: nat, j: nat)
    requires LogOk(log) && i < j < |log| && log[i].Wrote? && log[j].Wrote? && log[i].uid == log[j].uid
    ensures log[i].value.revision < log[j].value.revision && !Terminal(log[i].value.phase)
    ensures Rank(log[i].value.phase) <= Rank(log[j].value.phase)
    ensures log[i].value.fingerprint == log[j].value.fingerprint
    decreases j
  {
    var uid := log[i].uid;
    assert EventOk(log[..j], log[j]) && log[..j][i] == log[i];
    LastWriteIn(log[..j], uid);
    var k := LastWriteIndex(log[..j], uid);
    assert k >= i;
    assert log[k] == log[..j][k];
    if k > i { WritesAdvance(log, i, k); }
  }

  lemma {:induction false} LastWriteIndex(log: seq<Event>, uid: nat) returns (k: nat)
    requires LastWrite(log, uid).Some?
    ensures k < |log| && log[k] == Wrote(uid, LastWrite(log, uid).value)
    ensures forall i :: k < i < |log| && log[i].Wrote? ==> log[i].uid != uid
  {
    k := |log| - 1;
    if !(log[k].Wrote? && log[k].uid == uid) {
      k := LastWriteIndex(log[..|log| - 1], uid);
    }
  }

  /** The durable revision grows with every write, and a terminal phase is never replaced. */
  lemma JournalOnlyAdvances(actions: seq<Action>, i: nat, j: nat)
    requires var log := Run(Init(), actions).log;
      i < j < |log| && log[i].Wrote? && log[j].Wrote? && log[i].uid == log[j].uid
    ensures var log := Run(Init(), actions).log;
      && log[i].value.revision < log[j].value.revision
      && !Terminal(log[i].value.phase) && Rank(log[i].value.phase) <= Rank(log[j].value.phase)
  {
    RunKeepsInv(Init(), actions);
    WritesAdvance(Run(Init(), actions).log, i, j);
  }

  /** While its record is kept, the callback runs at most once, across instances and restarts:
      two executions are of two records, and the first record was removed before the second. */
  lemma ExecutesOncePerKeptRecord(actions: seq<Action>, i: nat, j: nat)
    requires var log := Run(Init(), actions).log; i < j < |log| && log[i].Executed? && log[j].Executed?
    ensures var log := Run(Init(), actions).log; log[i].uid != log[j].uid && Removed(log[i].uid) in log[..j]
  {
    RunKeepsInv(Init(), actions);
    var log := Run(Init(), actions).log;
    assert log[..j][i] == log[i] && EventOk(log[..j], log[j]);
    var a := FirstWrite(log, i);
    var b := FirstWrite(log, j);
    FirstWriteRemoved(log, a, b, j);
  }

  /** An execution is announced by the first write of its record. */
  lemma FirstWrite(log: seq<Event>, i: nat) returns (a: nat)
    requires LogOk(log) && i < |log| && log[i].Executed?
    ensures a < i && log[a].Wrote? && log[a].uid == log[i].uid && First(log[a].value)
  {
    assert EventOk(log[..i], log[i]);
    a := LastWriteIndex(log[..i], log[i].uid);
    assert log[..i][a] == log[a];
  }

  /** Of two records' first writes, the later comes after the removal of the earlier record. */
  lemma FirstWriteRemoved(log: seq<Event>, a: nat, b: nat, j: nat)
    requires LogOk(log) && a < j <= |log| && b < j && log[a].Wrote? && log[b].Wrote? && log[a].uid != log[b].uid
    requires First(log[a].value) && First(log[b].value) && !Gone(log[..j], log[b].uid)
    ensures Gone(log[..j], log[a].uid)
  {
    var lo, hi := if a < b then a else b, if a < b then b else a;
    OlderGone(log, lo, hi);
    assert forall e :: e in log[..hi] ==> e in log[..j] by { assert log[..hi] == log[..j][..hi]; }
  }

  lemma OlderGone(log: seq<Event>, lo: nat, hi: nat)
    requires LogOk(log) && lo < hi < |log| && log[lo].Wrote? && log[hi].Wrote? && First(log[hi].value)
    ensures Gone(log[..hi], log[lo].uid)
  {
    assert EventOk(log[..hi], log[hi]) && log[..hi][lo] == log[lo];
  }

  /** A workspace or agent create leaves the gateway only from the one execution of a record, and
      only after the record says durably that it may have left. */
  lemma SendsAreAnnounced(actions: seq<Action>, i: nat)
    requires var log := Run(Init(), actions).log; i < |log| && log[i].Sent?
    ensures var log := Run(Init(), actions).log;
      Executed(log[i].uid) in log[..i] && LastWrite(log[..i], log[i].uid).Some? && LastWrite(log[..i], log[i].uid).value.dispatching
  {
    RunKeepsInv(Init(), actions);
    var log := Run(Init(), actions).log;
    assert EventOk(log[..i], log[i]);
  }

  /** A write after `k` and before `i` says that no create of the record is out. */
  ghost predicate Cleared(log: seq<Event>, k: nat, i: nat, uid: nat)
    requires i <= |log|
  {
    exists j :: k < j < i && log[j].Wrote? && log[j].uid == uid && !log[j].value.dispatching
  }

  lemma KnownFailure(log: seq<Event>, k: nat, i: nat)
    requires LogOk(log) && k < i < |log| && log[k].Sent? && log[i].Wrote? && log[i].uid == log[k].uid
    requires log[i].value.phase == Failed && !log[i].value.unknown
    ensures Answered(log[k].uid, false) in log[..i] || Cleared(log, k, i, log[k].uid)
  {
    var uid := log[k].uid;
    assert EventOk(log[..k], log[k]);
    assert EventOk(log[..i], log[i]);
    var a := LastWriteIndex(log[..k], uid);
    assert log[..i][a] == log[..k][a];
    LastWriteIn(log[..i], uid);
    var j := LastWriteIndex(log[..i], uid);
    assert log[..i][j] == log[j];
    if j < k { assert log[..k][j] == log[j] && log[..i][a] == log[a]; }
  }

  /** A creation recorded as failed with its outcome known: every create sent for it before either
      came back, as a later write that says no create is out tells, or was answered with a no. */
  lemma KnownFailuresAreKnown(actions: seq<Action>, k: nat, i: nat)
    requires var log := Run(Init(), actions).log;
      k < i < |log| && log[k].Sent? && log[i].Wrote? && log[i].uid == log[k].uid
    requires var log := Run(Init(), actions).log; log[i].value.phase == Failed && !log[i].value.unknown
    ensures var log := Run(Init(), actions).log;
      Answered(log[k].uid, false) in log[..i] || Cleared(log, k, i, log[k].uid)
  {
    RunKeepsInv(Init(), actions);
    KnownFailure(Run(Init(), actions).log, k, i);
  }
}
