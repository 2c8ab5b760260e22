/** The durable journal of one creation: a workspace or agent create under one idempotency key.

    Whoever creates the journal record executes the creation and reports its progress by
    compare and swap; whoever finds the record neither executes nor waits, but closes what an
    earlier gateway left open as failed, outcome unknown. Any number of gateway instances run
    and subscribe; a crash drops an instance's tasks and its table of active creations. */
module CreationJournal {
  import opened VersionedStore

  datatype Phase = Accepted | WorkspaceReady | AgentReady | PromptStarted | Completed | Failed

  predicate Terminal(phase: Phase) {
    phase.Completed? || phase.Failed?
  }

  /** `uid` tells one incarnation of the record from the next; `named`: the workspace is known. */
  datatype Value = Value(uid: nat, fingerprint: nat, dispatching: bool, named: bool, revision: nat, phase: Phase, unknown: bool)

  datatype Request = Request(workspace: bool, agent: bool, prompt: bool, fingerprint: nat)

  /** Where the executing callback stands between its reports. */
  datatype Stage =
    | Starting | CreatingWorkspace | AwaitingReady                              // a workspace create
    | SelectingWorkspace | CreatingAgentWorkspace | AwaitingAgentWorkspace      // createAgent, up to its workspace
    | PreparingAgent | SendingAgent | AgentReply(ok: bool) | Prompting | Ended

  /** The stages that begin with a create leaving the gateway. */
  predicate IsSend(stage: Stage) {
    stage.CreatingWorkspace? || stage.CreatingAgentWorkspace? || stage.SendingAgent?
  }

  datatype Patch = Patch(phase: Option<Phase>, dispatching: Option<bool>, named: bool)

  /** What the callback's own awaits come to: they return, they find that the agent needs a workspace of
      its own, they yield the backend's answer, or they throw. */
  datatype Outcome = Proceed | NeedsWorkspace | Answer(ok: bool) | Raise

  datatype Task =
    | Claiming(g: nat, request: Request)
    | Finding(g: nat, request: Request)
    | Checked(g: nat, row: Versioned<Value>, interrupted: bool)
    | Closing(g: nat, row: Versioned<Value>)
    | Executing(g: nat, row: Versioned<Value>, request: Request, stage: Stage)
    | Reporting(g: nat, row: Versioned<Value>, request: Request, patch: Patch, resume: Stage)
    | Failing(g: nat, row: Versioned<Value>)
    | Finishing(g: nat, row: Versioned<Value>)
    | Subscribing(g: nat)

  /** What the journal's writers did, in order; `Answered`: the backend's answer, or a stored one, came back. */
  datatype Event =
    | Executed(uid: nat)
    | Sent(uid: nat, stage: Stage)
    | Answered(uid: nat, ok: bool)
    | Wrote(uid: nat, value: Value)
    | Removed(uid: nat)

  /** `active`: the run each instance has promised the result of. */
  datatype State = State(next: nat, cell: Option<Versioned<Value>>, tasks: map<nat, Task>, active: map<nat, nat>, log: seq<Event>)

  datatype Action =
    | StartRun(t: nat, g: nat, request: Request)
    | StartSubscribe(t: nat, g: nat)
    | Step(t: nat, outcome: Outcome)
    | Throw(t: nat, applied: bool)     // the store fails a write, having applied it or not
    | Leave(t: nat)                    // a read fails, or the caller is not authorized
    | Crash(g: nat)
    | Remove

  function Init(): State {
    State(0, None, map[], map[], [])
  }

  // ----- Transitions -----

  function Go(s: State, t: nat, task: Task): State {
    s.(tasks := s.tasks[t := task])
  }

  /** The promise of task `t` settles. */
  function End(s: State, t: nat): State
    requires t in s.tasks
  {
    var g := s.tasks[t].g;
    s.(tasks := s.tasks - {t}, active := if g in s.active && s.active[g] == t then s.active - {g} else s.active)
  }

  predicate Current(s: State, row: Versioned<Value>) {
    VersionOf(s.cell) == Some(row.version)
  }

  function Write(s: State, value: Value): State {
    s.(cell := Some(Versioned(s.next, value)), next := s.next + 1, log := s.log + [Wrote(value.uid, value)])
  }

  function Patched(value: Value, patch: Patch): Value {
    value.(revision := value.revision + 1,
           phase := if patch.phase.Some? then patch.phase.value else value.phase,
           dispatching := if patch.dispatching.Some? then patch.dispatching.value else value.dispatching,
           named := value.named || patch.named)
  }

  function ClosedAs(value: Value): Value {
    value.(revision := value.revision + 1, phase := Failed, unknown := true)
  }

  function FailedAs(value: Value): Value {
    value.(revision := value.revision + 1, phase := Failed, unknown := value.dispatching)
  }

  function Report(s: State, t: nat, task: Task, phase: Option<Phase>, dispatching: Option<bool>, named: bool, resume: Stage): State
    requires task.Executing?
  {
    Go(s, t, Reporting(task.g, task.row, task.request, Patch(phase, dispatching, named), resume))
  }

  function Hear(s: State, t: nat, task: Task, ok: bool): State
    requires task.Executing?
  {
    Go(s, t, task.(stage := AgentReply(ok))).(log := s.log + [Answered(task.row.value.uid, ok)])
  }

  /** The callback goes on to its next report, or returns. */
  function Continue(s: State, t: nat, task: Task, outcome: Outcome): State
    requires t in s.tasks && task.Executing? && s.tasks[t] == task
  {
    var request := task.request;
    match task.stage
    case Starting =>
      if request.workspace then Report(s, t, task, None, Some(true), false, CreatingWorkspace)
      else Go(s, t, task.(stage := SelectingWorkspace))
    case CreatingWorkspace => Report(s, t, task, None, Some(false), true, AwaitingReady)
    case AwaitingReady =>
      Report(s, t, task, Some(WorkspaceReady), None, false, if request.agent then SelectingWorkspace else Ended)
    case SelectingWorkspace =>
      if outcome.NeedsWorkspace? then Report(s, t, task, None, Some(true), false, CreatingAgentWorkspace)
      else Report(s, t, task, None, Some(false), true, AwaitingAgentWorkspace)
    case CreatingAgentWorkspace => Report(s, t, task, None, Some(false), true, AwaitingAgentWorkspace)
    case AwaitingAgentWorkspace => Report(s, t, task, Some(WorkspaceReady), None, false, PreparingAgent)
    case PreparingAgent =>
      if outcome.Answer? then Hear(s, t, task, outcome.ok)
      else Report(s, t, task, None, Some(true), false, SendingAgent)
    case SendingAgent => if outcome.Answer? then Hear(s, t, task, outcome.ok) else s
    case AgentReply(ok) =>
      if ok then Report(s, t, task, Some(AgentReady), None, false, if request.prompt then Prompting else Ended)
      else Report(s, t, task, Some(Failed), None, false, Ended)
    case Prompting => Report(s, t, task, Some(PromptStarted), None, false, Ended)
    case Ended => if Terminal(task.row.value.phase) then End(s, t) else Go(s, t, Finishing(task.g, task.row))
  }

  /** A report committed; the callback resumes, sending what the report announced. */
  function Reported(s: State, t: nat, task: Task): State
    requires task.Reporting?
  {
    var u := Write(s, Patched(task.row.value, task.patch));
    var v := Go(u, t, Executing(task.g, u.cell.value, task.request, task.resume));
    if IsSend(task.resume) then v.(log := v.log + [Sent(task.row.value.uid, task.resume)]) else v
  }

  function NewValue(uid: nat, request: Request): Value {
    Value(uid, request.fingerprint, false, false, 0, Accepted, false)
  }

  function Claim(s: State, t: nat, g: nat, request: Request): State {
    if s.cell.Some? then Go(s, t, Finding(g, request))
    else
      var u := Write(s, NewValue(s.next, request));
      Go(u, t, Executing(g, u.cell.value, request, Starting)).(log := u.log + [Executed(s.next)])
  }

  function Advance(s: State, t: nat, outcome: Outcome): State
    requires t in s.tasks
  {
    match s.tasks[t]
    case Claiming(g, request) => Claim(s, t, g, request)
    case Finding(g, request) =>
      if s.cell.None? || s.cell.value.value.fingerprint != request.fingerprint then End(s, t)
      else Go(s, t, Checked(g, s.cell.value, true))
    case Subscribing(g) => if s.cell.None? then End(s, t) else Go(s, t, Checked(g, s.cell.value, false))
    case Checked(g, row, interrupted) =>
      if !Terminal(row.value.phase) && (interrupted || g !in s.active) then Go(s, t, Closing(g, row)) else End(s, t)
    case Closing(g, row) =>
      if Current(s, row) then End(Write(s, ClosedAs(row.value)), t) else End(s, t)
    case Executing(g, row, request, stage) =>
      if outcome.Raise? && !stage.Starting? && !stage.Ended? then Go(s, t, Failing(g, row))
      else Continue(s, t, s.tasks[t], outcome)
    case Reporting(g, row, request, patch, resume) =>
      if Current(s, row) then Reported(s, t, s.tasks[t]) else Go(s, t, Failing(g, row))
    case Failing(g, row) => if Current(s, row) then End(Write(s, FailedAs(row.value)), t) else End(s, t)
    case Finishing(g, row) =>
      if Current(s, row) then End(Write(s, Patched(row.value, Patch(Some(Completed), None, false))), t) else End(s, t)
  }

  /** The create or a report of task `t` fails, whether or not it was applied. */
  function ReportThrows(s: State, t: nat, applied: bool): State
    requires t in s.tasks
  {
    var task := s.tasks[t];
    if task.Reporting? then
      Go(if applied && Current(s, task.row) then Write(s, Patched(task.row.value, task.patch)) else s, t, Failing(task.g, task.row))
    else if task.Failing? then
      End(if applied && Current(s, task.row) then Write(s, FailedAs(task.row.value)) else s, t)
    else if task.Finishing? then
      End(if applied && Current(s, task.row) then Write(s, Patched(task.row.value, Patch(Some(Completed), None, false))) else s, t)
    else if task.Closing? then
      End(if applied && Current(s, task.row) then Write(s, ClosedAs(task.row.value)) else s, t)
    else if task.Claiming? then
      End(if applied && s.cell.None? then Write(s, NewValue(s.next, task.request)) else s, t)
    else s
  }

  function Apply(s: State, action: Action): State {
    match action
    case StartRun(t, g, request) =>
      if t in s.tasks || g in s.active then s else Go(s, t, Claiming(g, request)).(active := s.active[g := t])
    case StartSubscribe(t, g) => if t in s.tasks then s else Go(s, t, Subscribing(g))
    case Step(t, outcome) => if t in s.tasks then Advance(s, t, outcome) else s
    case Throw(t, applied) => if t in s.tasks then ReportThrows(s, t, applied) else s
    case Leave(t) =>
      if t in s.tasks && (s.tasks[t].Claiming? || s.tasks[t].Finding? || s.tasks[t].Checked? || s.tasks[t].Subscribing?)
      then End(s, t) else s
    case Crash(g) => s.(tasks := map t | t in s.tasks && s.tasks[t].g != g :: s.tasks[t], active := s.active - {g})
    case Remove =>
      if s.cell.None? then s
      else s.(cell := None, next := s.next + 1, log := s.log + [Removed(s.cell.value.value.uid)])
  }

  function Run(s: State, actions: seq<Action>): State
    decreases |actions|
  {
    if actions == [] then s else Run(Apply(s, actions[0]), actions[1..])
  }
}
