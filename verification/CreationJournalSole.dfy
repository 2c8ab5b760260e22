/** The deployed case, one gateway instance at a time: subscribers and replays never interrupt
    the instance's own live execution, so a report fails only when the record is deleted. */
module CreationJournalSole {
  import opened VersionedStore
  import opened CreationJournal
  import opened CreationJournalProof

  /** A task whose promise its instance has published as active. */
  predicate IsRun(task: Task) {
    task.Claiming? || task.Finding? || (task.Checked? && task.interrupted) || IsExecutor(task)
  }

  ghost predicate Owned(s: State) {
    forall t :: t in s.tasks && IsRun(s.tasks[t]) ==> s.tasks[t].g in s.active && s.active[s.tasks[t].g] == t
  }

  /** What an instance is closing is not what it is executing. */
  ghost predicate Apart(s: State) {
    forall t, w :: t in s.tasks && w in s.tasks && s.tasks[t].Closing? && IsExecutor(s.tasks[w]) && s.tasks[t].g == s.tasks[w].g ==>
      s.tasks[t].row.value.uid != s.tasks[w].row.value.uid
  }

  ghost predicate Inv2(s: State) {
    Inv(s) && Owned(s) && Apart(s)
  }

  /** Task `t` moved; it executes only what it executed, or a record created just now. */
  ghost predicate Moved(s: State, u: State, t: nat)
    requires t in s.tasks
  {
    && (u.tasks == s.tasks - {t} || (t in u.tasks && u.tasks == s.tasks[t := u.tasks[t]]))
    && (t in u.tasks ==> u.active == s.active && MayBecome(s, s.tasks[t], u.tasks[t]))
    && (t !in u.tasks ==> u.active == End(s, t).active)
  }

  predicate MayBecome(s: State, task: Task, after: Task) {
    && after.g == task.g && (IsRun(after) ==> IsRun(task))
    && (IsExecutor(after) ==>
          (IsExecutor(task) && after.row.value.uid == task.row.value.uid) || after.row.value.uid >= s.next)
    && (after.Closing? ==> after == task || IsRun(task) || after.g !in s.active)
  }

  lemma MoveKeeps(s: State, u: State, t: nat)
    requires Inv2(s) && Inv(u) && t in s.tasks && Moved(s, u, t)
    ensures Inv2(u)
  {
    forall c, w | c in u.tasks && w in u.tasks && u.tasks[c].Closing? && IsExecutor(u.tasks[w]) && u.tasks[c].g == u.tasks[w].g
      ensures u.tasks[c].row.value.uid != u.tasks[w].row.value.uid
    {
      if w == t {
        assert TaskOk(s, s.tasks[c]);
      }
    }
  }

  /** The callback going on touches nothing but its own task. */
  ghost predicate OnlyContinues(s: State, u: State, t: nat)
    requires t in s.tasks && s.tasks[t].Executing?
  {
    && Moved(s, u, t) && u.cell == s.cell && s.log <= u.log && u.next == s.next
    && (t in u.tasks ==> IsExecutor(u.tasks[t]) && u.tasks[t].row == s.tasks[t].row && u.tasks[t].g == s.tasks[t].g)
  }

  lemma EarlyContinues(s: State, t: nat, outcome: Outcome)
    requires t in s.tasks && s.tasks[t].Executing? && (BeforeAgent(s.tasks[t].stage) || BeforePreparation(s.tasks[t].stage))
    ensures OnlyContinues(s, Continue(s, t, s.tasks[t], outcome), t)
  {
  }

  lemma LateContinues(s: State, t: nat, outcome: Outcome)
    requires t in s.tasks && s.tasks[t].Executing? && !BeforeAgent(s.tasks[t].stage) && !BeforePreparation(s.tasks[t].stage)
    ensures OnlyContinues(s, Continue(s, t, s.tasks[t], outcome), t)
  {
  }

  lemma ContinueMoves(s: State, t: nat, outcome: Outcome)
    requires t in s.tasks && s.tasks[t].Executing?
    ensures OnlyContinues(s, Continue(s, t, s.tasks[t], outcome), t)
  {
    if BeforeAgent(s.tasks[t].stage) || BeforePreparation(s.tasks[t].stage) { EarlyContinues(s, t, outcome); }
    else { LateContinues(s, t, outcome); }
  }

  lemma WriterMoves(s: State, t: nat, outcome: Outcome)
    requires t in s.tasks && (s.tasks[t].Claiming? || s.tasks[t].Closing? || IsExecutor(s.tasks[t])) && !s.tasks[t].Executing?
    ensures Moved(s, Advance(s, t, outcome), t)
  {
  }

  lemma ReaderMoves(s: State, t: nat, outcome: Outcome)
    requires t in s.tasks && (s.tasks[t].Finding? || s.tasks[t].Checked? || s.tasks[t].Subscribing? || s.tasks[t].Executing?)
    ensures Moved(s, Advance(s, t, outcome), t)
  {
    if s.tasks[t].Executing? { ContinueMoves(s, t, outcome); }
  }

  lemma StepMoves(s: State, t: nat, outcome: Outcome)
    requires Inv2(s) && t in s.tasks
    ensures Inv2(Advance(s, t, outcome))
  {
    var task := s.tasks[t];
    AdvanceKeeps(s, t, outcome);
    if task.Finding? || task.Checked? || task.Subscribing? || task.Executing? { ReaderMoves(s, t, outcome); }
    else { WriterMoves(s, t, outcome); }
    MoveKeeps(s, Advance(s, t, outcome), t);
  }

  lemma ThrowShape(s: State, t: nat, applied: bool)
    requires t in s.tasks
    ensures Moved(s, ReportThrows(s, t, applied), t)
  {
  }

  lemma ThrowMoves(s: State, t: nat, applied: bool)
    requires Inv2(s) && t in s.tasks
    ensures Inv2(ReportThrows(s, t, applied))
  {
    ThrowKeeps(s, t, applied);
    ThrowShape(s, t, applied);
    MoveKeeps(s, ReportThrows(s, t, applied), t);
  }

  lemma StepKeepsInv2(s: State, action: Action)
    requires Inv2(s)
    ensures Inv2(Apply(s, action))
  {
    StepKeepsInv(s, action);
    match action
    case Step(t, outcome) => if t in s.tasks { StepMoves(s, t, outcome); }
    case Throw(t, applied) => if t in s.tasks { ThrowMoves(s, t, applied); }
    case Leave(t) => if Apply(s, action) != s { MoveKeeps(s, Apply(s, action), t); }
    case _ =>
  }

  /** A subscriber's recovery, or a replay's, never closes what its own instance is executing. */
  lemma {:induction false} OwnExecutionIsLeftAlone(s: State, actions: seq<Action>, t: nat, w: nat)
    requires Inv2(s)
    ensures Inv2(Run(s, actions))
    ensures var tasks := Run(s, actions).tasks;
      t in tasks && w in tasks && tasks[t].Closing? && IsExecutor(tasks[w]) && tasks[t].g == tasks[w].g ==>
        tasks[t].row.value.uid != tasks[w].row.value.uid
    decreases |actions|
  {
    if actions != [] {
      StepKeepsInv2(s, actions[0]);
      OwnExecutionIsLeftAlone(Apply(s, actions[0]), actions[1..], t, w);
    }
  }

  // ----- One instance -----

  predicate StartsAt(action: Action, g: nat) {
    (action.StartRun? || action.StartSubscribe? || action.Crash?) ==> action.g == g
  }

  ghost predicate AllAt(s: State, g: nat) {
    forall t :: t in s.tasks ==> s.tasks[t].g == g
  }

  predicate Reports(task: Task) {
    task.Executing? || task.Reporting? || task.Finishing?
  }

  /** An execution that has not failed holds the stored record, unless that was deleted. */
  ghost predicate Live(s: State) {
    forall t :: t in s.tasks && Reports(s.tasks[t]) ==> Gone(s.log, s.tasks[t].row.value.uid) || s.cell == Some(s.tasks[t].row)
  }

  ghost predicate Sole(s: State, g: nat) {
    Inv2(s) && AllAt(s, g) && Live(s)
  }

  /** Task `t` wrote the record of its row, or created a record where there was none. */
  lemma WriteKeepsLive(s: State, u: State, g: nat, t: nat)
    requires Sole(s, g) && t in s.tasks && Inv2(u) && AllAt(u, g)
    requires (HasRow(s.tasks[t]) && Current(s, s.tasks[t].row) && (IsExecutor(s.tasks[t]) || s.tasks[t].Closing?)) || s.cell.None?
    requires forall e :: e in s.log ==> e in u.log
    requires forall c :: c in u.tasks && c != t ==> c in s.tasks && u.tasks[c] == s.tasks[c]
    requires t in u.tasks && Reports(u.tasks[t]) ==> u.cell == Some(u.tasks[t].row)
    ensures Live(u)
  {
    assert TaskOk(s, s.tasks[t]);
    forall c | c in u.tasks && Reports(u.tasks[c])
      ensures Gone(u.log, u.tasks[c].row.value.uid) || u.cell == Some(u.tasks[c].row)
    {
      if c != t { assert s.tasks[c] == u.tasks[c]; }
    }
  }

  /** What a step that wrote came to: the task ended, or holds what it wrote. */
  lemma WriteShape(s: State, t: nat, outcome: Outcome)
    requires t in s.tasks && Advance(s, t, outcome).next != s.next
    ensures var u := Advance(s, t, outcome);
      && ((HasRow(s.tasks[t]) && Current(s, s.tasks[t].row) && (IsExecutor(s.tasks[t]) || s.tasks[t].Closing?)) || s.cell.None?)
      && (t in u.tasks && Reports(u.tasks[t]) ==> u.cell == Some(u.tasks[t].row))
      && s.log <= u.log
  {
    if s.tasks[t].Executing? { ContinueMoves(s, t, outcome); }
  }

  lemma QuietShape(s: State, t: nat, outcome: Outcome)
    requires t in s.tasks && Advance(s, t, outcome).next == s.next
    ensures var u := Advance(s, t, outcome);
      && u.cell == s.cell && s.log <= u.log
      && (t in u.tasks && Reports(u.tasks[t]) ==> Reports(s.tasks[t]) && u.tasks[t].row == s.tasks[t].row)
  {
    if s.tasks[t].Executing? { ContinueMoves(s, t, outcome); }
  }

  lemma AdvanceKeepsLive(s: State, g: nat, t: nat, outcome: Outcome)
    requires Sole(s, g) && t in s.tasks
    ensures AllAt(Advance(s, t, outcome), g) && Live(Advance(s, t, outcome))
  {
    var u := Advance(s, t, outcome);
    StepMoves(s, t, outcome);
    if s.tasks[t].Finding? || s.tasks[t].Checked? || s.tasks[t].Subscribing? || s.tasks[t].Executing? { ReaderMoves(s, t, outcome); }
    else { WriterMoves(s, t, outcome); }
    if u.next != s.next {
      WriteShape(s, t, outcome);
      WriteKeepsLive(s, u, g, t);
    } else {
      QuietShape(s, t, outcome);
    }
  }

  lemma ThrowKeepsLive(s: State, g: nat, t: nat, applied: bool)
    requires Sole(s, g) && t in s.tasks
    ensures AllAt(ReportThrows(s, t, applied), g) && Live(ReportThrows(s, t, applied))
  {
    ThrowMoves(s, t, applied);
    var u := ReportThrows(s, t, applied);
    if u.next != s.next { WriteKeepsLive(s, u, g, t); }
  }

  lemma StepKeepsSole(s: State, g: nat, action: Action)
    requires Sole(s, g) && StartsAt(action, g)
    ensures Sole(Apply(s, action), g)
  {
    StepKeepsInv2(s, action);
    match action
    case Step(t, outcome) => if t in s.tasks { AdvanceKeepsLive(s, g, t, outcome); }
    case Throw(t, applied) => if t in s.tasks { ThrowKeepsLive(s, g, t, applied); }
    case Remove =>
      var u := Apply(s, action);
      assert forall e :: e in s.log ==> e in u.log;
      if s.cell.Some? { assert Removed(s.cell.value.value.uid) in u.log; }
    case _ =>
  }

  /** With one instance at a time, across its crashes and restarts, a live execution's next report
      commits unless the record was deleted: nothing else moves the record under it. */
  lemma {:induction false} ReportsCommit(s: State, g: nat, actions: seq<Action>, t: nat)
    requires Sole(s, g) && forall a :: a in actions ==> StartsAt(a, g)
    ensures Sole(Run(s, actions), g)
    ensures var u := Run(s, actions);
      t in u.tasks && Reports(u.tasks[t]) ==> Gone(u.log, u.tasks[t].row.value.uid) || Current(u, u.tasks[t].row)
    decreases |actions|
  {
    if actions != [] {
      StepKeepsSole(s, g, actions[0]);
      ReportsCommit(Apply(s, actions[0]), g, actions[1..], t);
    }
  }

  /** So it is in every run of that instance from the beginning. */
  lemma ReportsCommitFromTheStart(g: nat, actions: seq<Action>, t: nat)
    requires forall a :: a in actions ==> StartsAt(a, g)
    ensures var u := Run(Init(), actions);
      t in u.tasks && Reports(u.tasks[t]) ==> Gone(u.log, u.tasks[t].row.value.uid) || Current(u, u.tasks[t].row)
  {
    InitIsSole(g);
    ReportsCommit(Init(), g, actions, t);
  }

  lemma InitIsSole(g: nat)
    ensures Sole(Init(), g)
  {
    assert LogOk([]);
  }
}
