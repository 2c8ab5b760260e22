/** `run`, `progress`, `recover` and the executing callback as the program text has them, run
    among any other work, and the one run of a creation nobody disturbs. */
module CreationJournalService {
  import opened VersionedStore
  import opened CreationJournal

  predicate Other(action: Action, t: nat, g: nat) {
    match action
    case StartRun(c, _, _) => c != t
    case StartSubscribe(c, _) => c != t
    case Step(c, _) => c != t
    case Throw(c, _) => c != t
    case Leave(c) => c != t
    case Crash(h) => h != g
    case Remove => true
  }

  predicate Others(actions: seq<Action>, t: nat, g: nat) {
    forall a :: a in actions ==> Other(a, t, g)
  }

  lemma {:induction false} RunConcat(s: State, first: seq<Action>, second: seq<Action>)
    ensures Run(s, first + second) == Run(Run(s, first), second)
    decreases |first|
  {
    if first == [] {
      assert first + second == second;
    } else {
      assert (first + second)[1..] == first[1..] + second;
      RunConcat(Apply(s, first[0]), first[1..], second);
    }
  }

  ghost predicate SameTask(s: State, u: State, t: nat) {
    t in s.tasks && t in u.tasks && u.tasks[t] == s.tasks[t]
  }

  lemma ContinueKeepsTask(s: State, c: nat, outcome: Outcome, t: nat)
    requires c in s.tasks && s.tasks[c].Executing? && c != t && t in s.tasks
    ensures SameTask(s, Continue(s, c, s.tasks[c], outcome), t)
  {
  }

  lemma ApplyKeepsTask(s: State, action: Action, t: nat)
    requires t in s.tasks && Other(action, t, s.tasks[t].g)
    ensures SameTask(s, Apply(s, action), t)
  {
    match action
    case Step(c, outcome) =>
      if c in s.tasks && s.tasks[c].Executing? { ContinueKeepsTask(s, c, outcome, t); }
    case _ =>
  }

  lemma {:induction false} OthersKeepTask(s: State, actions: seq<Action>, t: nat)
    requires t in s.tasks && Others(actions, t, s.tasks[t].g)
    ensures SameTask(s, Run(s, actions), t)
    decreases |actions|
  {
    if actions != [] {
      ApplyKeepsTask(s, actions[0], t);
      OthersKeepTask(Apply(s, actions[0]), actions[1..], t);
    }
  }

  lemma ApplyGrowsLog(s: State, action: Action)
    ensures s.log <= Apply(s, action).log
  {
  }

  lemma {:induction false} LogGrows(s: State, actions: seq<Action>)
    ensures s.log <= Run(s, actions).log
    decreases |actions|
  {
    if actions != [] {
      ApplyGrowsLog(s, actions[0]);
      LogGrows(Apply(s, actions[0]), actions[1..]);
    }
  }

  /** The store accepted this value at some time. */
  predicate Stored(log: seq<Event>, value: Value) {
    Wrote(value.uid, value) in log
  }

  /** The value was stored, and the create it announces left right behind it. */
  ghost predicate AnnouncedSend(before: seq<Event>, after: seq<Event>, value: Value, stage: Stage) {
    exists i :: |before| <= i < |after| - 1 && after[i] == Wrote(value.uid, value) && after[i + 1] == Sent(value.uid, stage)
  }

  lemma AnnouncedGrows(before: seq<Event>, after: seq<Event>, later: seq<Event>, value: Value, stage: Stage)
    requires AnnouncedSend(before, after, value, stage) && after <= later
    ensures AnnouncedSend(before, later, value, stage)
  {
    var i :| |before| <= i < |after| - 1 && after[i] == Wrote(value.uid, value) && after[i + 1] == Sent(value.uid, stage);
    assert later[i] == after[i] && later[i + 1] == after[i + 1];
  }

  lemma AnnouncedEarlier(before: seq<Event>, since: seq<Event>, later: seq<Event>, value: Value, stage: Stage)
    requires before <= since <= later && AnnouncedSend(since, later, value, stage)
    ensures AnnouncedSend(before, later, value, stage)
  {
  }

  /** The record store and everybody working on it. */
  class Cluster {
    var s: State
    ghost const start: State
    ghost var trace: seq<Action>

    constructor (s: State)
      ensures Valid() && this.s == s && trace == [] && start == s
    {
      this.s := s;
      start := s;
      trace := [];
    }

    ghost predicate Valid()
      reads this
    {
      s == Run(start, trace)
    }

    method Await(t: nat)
      requires Valid() && t in s.tasks
      modifies this
      ensures Valid() && old(trace) <= trace && SameTask(old(s), s, t) && old(s.log) <= s.log
    {
      var actions: seq<Action> :| Others(actions, t, s.tasks[t].g) by { assert Others([], t, s.tasks[t].g); }
      OthersKeepTask(s, actions, t);
      LogGrows(s, actions);
      s := Run(s, actions);
      trace := trace + actions;
      RunConcat(start, old(trace), actions);
    }

    method Do(action: Action)
      requires Valid()
      modifies this
      ensures Valid() && trace == old(trace) + [action] && s == Apply(old(s), action) && old(s.log) <= s.log
    {
      ApplyGrowsLog(s, action);
      s := Apply(s, action);
      trace := trace + [action];
      RunConcat(start, old(trace), [action]);
    }

    /** The update task `t` makes is the one the program asks for. */
    method UpdateRecord(t: nat, expected: nat, value: Value) returns (ok: bool)
      requires Valid() && t in s.tasks
      requires match s.tasks[t]
        case Reporting(_, row, _, patch, _) => expected == row.version && value == Patched(row.value, patch)
        case Failing(_, row) => expected == row.version && value == FailedAs(row.value)
        case Finishing(_, row) => expected == row.version && value == Patched(row.value, Patch(Some(Completed), None, false))
        case Closing(_, row) => expected == row.version && value == ClosedAs(row.value)
        case _ => false
      modifies this
      ensures Valid() && old(trace) <= trace && s == Advance(old(s), t, Proceed) && old(s.log) <= s.log
      ensures ok <==> VersionOf(old(s).cell) == Some(expected)
      ensures s.cell == if ok then Some(Versioned(old(s).next, value)) else old(s).cell
    {
      ok := VersionOf(s.cell) == Some(expected);
      Do(Step(t, Proceed));
    }
  }

  /** The closure `run` hands to the callback: `record` is the row it holds, before and after. */
  method Progress(w: Cluster, t: nat, g: nat, record: Versioned<Value>, request: Request, patch: Patch, resume: Stage)
    returns (ok: bool, after: Versioned<Value>)
    requires Stored(w.s.log, record.value) && w.Valid() && t in w.s.tasks && w.s.tasks[t] == Reporting(g, record, request, patch, resume)
    modifies w
    ensures Stored(w.s.log, after.value) && old(w.s.log) <= w.s.log
    ensures w.Valid() && old(w.trace) <= w.trace && t in w.s.tasks
    ensures w.s.tasks[t] == if ok then Executing(g, after, request, resume) else Failing(g, record)
    ensures if ok then after.value == Patched(record.value, patch) && w.s.cell == Some(after) else after == record
    ensures ok && IsSend(resume) ==> AnnouncedSend(old(w.s.log), w.s.log, after.value, resume)
  {
    w.Await(t);
    ok := w.UpdateRecord(t, record.version, Patched(record.value, patch));
    after := if ok then w.s.cell.value else record;
    if ok && IsSend(resume) {
      var i := |w.s.log| - 2;
      assert w.s.log[i] == Wrote(after.value.uid, after.value) && w.s.log[i + 1] == Sent(after.value.uid, resume);
    }
  }

  /** A workspace of the agent's own is created, behind a report that it may be out. */
  method CreateOwnWorkspace(w: Cluster, t: nat, g: nat, record: Versioned<Value>, request: Request)
    returns (ok: bool, after: Versioned<Value>)
    requires Stored(w.s.log, record.value) && w.Valid() && t in w.s.tasks
    requires w.s.tasks[t] == Reporting(g, record, request, Patch(None, Some(true), false), CreatingAgentWorkspace)
    modifies w
    ensures Stored(w.s.log, after.value) && old(w.s.log) <= w.s.log
    ensures w.Valid() && old(w.trace) <= w.trace && t in w.s.tasks
    ensures w.s.tasks[t] == if ok then Reporting(g, after, request, Patch(None, Some(false), true), AwaitingAgentWorkspace) else Failing(g, after)
    ensures after == record || AnnouncedSend(old(w.s.log), w.s.log, after.value, CreatingAgentWorkspace)
  {
    ok, after := Progress(w, t, g, record, request, Patch(None, Some(true), false), CreatingAgentWorkspace);
    if !ok { return; }
    ghost var sent := w.s.log;
    var created: Outcome := *;
    w.Await(t);
    w.Do(Step(t, created));
    AnnouncedGrows(old(w.s.log), sent, w.s.log, after.value, CreatingAgentWorkspace);
    ok := !created.Raise?;
  }

  /** `createAgent` up to its workspace: one is created if the agent needs its own, and it is named,
      awaited and reported ready. */
  method SelectWorkspace(w: Cluster, t: nat, g: nat, record: Versioned<Value>, request: Request)
    returns (ok: bool, after: Versioned<Value>)
    requires Stored(w.s.log, record.value) && w.Valid() && t in w.s.tasks && w.s.tasks[t] == Executing(g, record, request, SelectingWorkspace)
    modifies w
    ensures Stored(w.s.log, after.value) && old(w.s.log) <= w.s.log
    ensures w.Valid() && old(w.trace) <= w.trace && t in w.s.tasks
    ensures w.s.tasks[t] == if ok then Executing(g, after, request, AwaitingAgentWorkspace) else Failing(g, after)
    ensures ok ==> after.value.named && !after.value.dispatching
  {
    after := record;
    var found: Outcome := *;
    w.Await(t);
    w.Do(Step(t, found));
    if found.Raise? { return false, after; }
    if found.NeedsWorkspace? {
      ok, after := CreateOwnWorkspace(w, t, g, after, request);
      if !ok { return; }
    }
    ok, after := Progress(w, t, g, after, request, Patch(None, Some(false), true), AwaitingAgentWorkspace);
  }

  method AwaitAgentWorkspace(w: Cluster, t: nat, g: nat, record: Versioned<Value>, request: Request)
    returns (ok: bool, after: Versioned<Value>)
    requires Stored(w.s.log, record.value) && w.Valid() && t in w.s.tasks && w.s.tasks[t] == Executing(g, record, request, AwaitingAgentWorkspace)
    modifies w
    ensures Stored(w.s.log, after.value) && old(w.s.log) <= w.s.log
    ensures w.Valid() && old(w.trace) <= w.trace && t in w.s.tasks
    ensures w.s.tasks[t] == if ok then Executing(g, after, request, PreparingAgent) else Failing(g, after)
    ensures ok ==> after.value.phase == WorkspaceReady
  {
    after := record;
    var ready: Outcome := *;
    w.Await(t);
    w.Do(Step(t, ready));
    if ready.Raise? { return false, after; }
    ok, after := Progress(w, t, g, after, request, Patch(Some(WorkspaceReady), None, false), PreparingAgent);
  }

  /** The rest of `createAgent`, as far as the journal sees it: a stored answer is replayed, or the
      intent is reported before the backend is asked. */
  method SendAgent(w: Cluster, t: nat, g: nat, record: Versioned<Value>, request: Request)
    returns (returned: bool, reply: bool, after: Versioned<Value>)
    requires Stored(w.s.log, record.value) && w.Valid() && t in w.s.tasks && w.s.tasks[t] == Executing(g, record, request, PreparingAgent)
    modifies w
    ensures Stored(w.s.log, after.value) && old(w.s.log) <= w.s.log
    ensures w.Valid() && old(w.trace) <= w.trace && t in w.s.tasks
    ensures w.s.tasks[t] == if returned then Executing(g, after, request, AgentReply(reply)) else Failing(g, after)
    ensures after == record || (after.value.dispatching && AnnouncedSend(old(w.s.log), w.s.log, after.value, SendingAgent))
  {
    reply, after := false, record;
    var prepared: Outcome := *;
    w.Await(t);
    w.Do(Step(t, prepared));
    if prepared.Answer? { return true, prepared.ok, after; }
    if prepared.Raise? { return false, false, after; }
    ghost var before := w.s.log;
    returned, reply, after := AskBackend(w, t, g, after, request);
    if after != record { AnnouncedEarlier(old(w.s.log), before, w.s.log, after.value, SendingAgent); }
  }

  /** The intent is reported, and the backend asked. */
  method AskBackend(w: Cluster, t: nat, g: nat, record: Versioned<Value>, request: Request)
    returns (returned: bool, reply: bool, after: Versioned<Value>)
    requires Stored(w.s.log, record.value) && w.Valid() && t in w.s.tasks
    requires w.s.tasks[t] == Reporting(g, record, request, Patch(None, Some(true), false), SendingAgent)
    modifies w
    ensures Stored(w.s.log, after.value) && old(w.s.log) <= w.s.log
    ensures w.Valid() && old(w.trace) <= w.trace && t in w.s.tasks
    ensures w.s.tasks[t] == if returned then Executing(g, after, request, AgentReply(reply)) else Failing(g, after)
    ensures after == record || (after.value.dispatching && AnnouncedSend(old(w.s.log), w.s.log, after.value, SendingAgent))
  {
    reply := false;
    returned, after := Progress(w, t, g, record, request, Patch(None, Some(true), false), SendingAgent);
    if !returned { return; }
    ghost var sent := w.s.log;
    var answer: Outcome :| answer.Answer? || answer.Raise?;
    w.Await(t);
    w.Do(Step(t, answer));
    AnnouncedGrows(old(w.s.log), sent, w.s.log, after.value, SendingAgent);
    return answer.Answer?, answer.Answer? && answer.ok, after;
  }

  method CreateAgent(w: Cluster, t: nat, g: nat, record: Versioned<Value>, request: Request)
    returns (returned: bool, reply: bool, after: Versioned<Value>)
    requires Stored(w.s.log, record.value) && w.Valid() && t in w.s.tasks && w.s.tasks[t] == Executing(g, record, request, SelectingWorkspace)
    modifies w
    ensures Stored(w.s.log, after.value) && old(w.s.log) <= w.s.log
    ensures w.Valid() && old(w.trace) <= w.trace && t in w.s.tasks
    ensures w.s.tasks[t] == if returned then Executing(g, after, request, AgentReply(reply)) else Failing(g, after)
  {
    reply := false;
    returned, after := SelectWorkspace(w, t, g, record, request);
    if !returned { return; }
    returned, after := AwaitAgentWorkspace(w, t, g, after, request);
    if !returned { return; }
    returned, reply, after := SendAgent(w, t, g, after, request);
  }

  /** `finishAgent`: what it reports of the answer. */
  method FinishAgent(w: Cluster, t: nat, g: nat, record: Versioned<Value>, request: Request)
    returns (ok: bool, after: Versioned<Value>)
    requires Stored(w.s.log, record.value) && w.Valid() && t in w.s.tasks && w.s.tasks[t] == Executing(g, record, request, SelectingWorkspace)
    modifies w
    ensures Stored(w.s.log, after.value) && old(w.s.log) <= w.s.log
    ensures w.Valid() && old(w.trace) <= w.trace && t in w.s.tasks
    ensures w.s.tasks[t] == if ok then Executing(g, after, request, Ended) else Failing(g, after)
    ensures ok ==> after.value.phase in {AgentReady, PromptStarted, Failed}
  {
    var reply: bool;
    ok, reply, after := CreateAgent(w, t, g, record, request);
    if !ok { return; }
    ok, after := ReportAnswer(w, t, g, after, request, reply);
  }

  /** The answer is reported as ready, then prompted if the request has a prompt, or as failed. */
  method ReportAnswer(w: Cluster, t: nat, g: nat, record: Versioned<Value>, request: Request, reply: bool)
    returns (ok: bool, after: Versioned<Value>)
    requires Stored(w.s.log, record.value) && w.Valid() && t in w.s.tasks && w.s.tasks[t] == Executing(g, record, request, AgentReply(reply))
    modifies w
    ensures Stored(w.s.log, after.value) && old(w.s.log) <= w.s.log
    ensures w.Valid() && old(w.trace) <= w.trace && t in w.s.tasks
    ensures w.s.tasks[t] == if ok then Executing(g, after, request, Ended) else Failing(g, after)
    ensures ok ==> after.value.phase == if !reply then Failed else if request.prompt then PromptStarted else AgentReady
    ensures ok ==> after.value.unknown == record.value.unknown
  {
    after := record;
    w.Do(Step(t, Proceed));
    var phase := if reply then AgentReady else Failed;
    var prompt := reply && request.prompt;
    ok, after := Progress(w, t, g, after, request, Patch(Some(phase), None, false), if prompt then Prompting else Ended);
    if !ok || !prompt { return; }
    w.Do(Step(t, Proceed));
    ok, after := Progress(w, t, g, after, request, Patch(Some(PromptStarted), None, false), Ended);
  }

  /** The create of a workspace leaves behind a report that it may be out. */
  method SendCreate(w: Cluster, t: nat, g: nat, record: Versioned<Value>, request: Request)
    returns (ok: bool, after: Versioned<Value>)
    requires Stored(w.s.log, record.value) && w.Valid() && t in w.s.tasks
    requires w.s.tasks[t] == Executing(g, record, request, Starting) && request.workspace
    modifies w
    ensures Stored(w.s.log, after.value) && old(w.s.log) <= w.s.log
    ensures w.Valid() && old(w.trace) <= w.trace && t in w.s.tasks
    ensures w.s.tasks[t] == if ok then Reporting(g, after, request, Patch(None, Some(false), true), AwaitingReady) else Failing(g, after)
    ensures after == record || AnnouncedSend(old(w.s.log), w.s.log, after.value, CreatingWorkspace)
  {
    w.Do(Step(t, Proceed));
    ok, after := Progress(w, t, g, record, request, Patch(None, Some(true), false), CreatingWorkspace);
    if !ok { return; }
    ghost var sent := w.s.log;
    var created: Outcome := *;
    w.Await(t);
    w.Do(Step(t, created));
    AnnouncedGrows(old(w.s.log), sent, w.s.log, after.value, CreatingWorkspace);
    ok := !created.Raise?;
  }

  /** The callback of `workspace.create.request` up to the agent. */
  method CreateWorkspace(w: Cluster, t: nat, g: nat, record: Versioned<Value>, request: Request)
    returns (ok: bool, after: Versioned<Value>)
    requires Stored(w.s.log, record.value) && w.Valid() && t in w.s.tasks && w.s.tasks[t] == Executing(g, record, request, Starting) && request.workspace
    modifies w
    ensures Stored(w.s.log, after.value) && old(w.s.log) <= w.s.log
    ensures w.Valid() && old(w.trace) <= w.trace && t in w.s.tasks
    ensures w.s.tasks[t] ==
      if ok then Executing(g, after, request, if request.agent then SelectingWorkspace else Ended) else Failing(g, after)
    ensures ok ==> after.value.phase == WorkspaceReady && after.value.named
  {
    ok, after := SendCreate(w, t, g, record, request);
    if !ok { return; }
    ok, after := Progress(w, t, g, after, request, Patch(None, Some(false), true), AwaitingReady);
    if !ok { return; }
    ok, after := AwaitWorkspace(w, t, g, after, request);
  }

  /** The created workspace is named; now it must become ready. */
  method AwaitWorkspace(w: Cluster, t: nat, g: nat, record: Versioned<Value>, request: Request)
    returns (ok: bool, after: Versioned<Value>)
    requires Stored(w.s.log, record.value) && w.Valid() && t in w.s.tasks && w.s.tasks[t] == Executing(g, record, request, AwaitingReady) && record.value.named
    modifies w
    ensures Stored(w.s.log, after.value) && old(w.s.log) <= w.s.log
    ensures w.Valid() && old(w.trace) <= w.trace && t in w.s.tasks
    ensures w.s.tasks[t] ==
      if ok then Executing(g, after, request, if request.agent then SelectingWorkspace else Ended) else Failing(g, after)
    ensures ok ==> after.value.phase == WorkspaceReady && after.value.named
  {
    after := record;
    var ready: Outcome := *;
    w.Await(t);
    w.Do(Step(t, ready));
    if ready.Raise? { return false, after; }
    ok, after := Progress(w, t, g, after, request, Patch(Some(WorkspaceReady), None, false),
                          if request.agent then SelectingWorkspace else Ended);
  }

  /** The callback the journal is given. */
  method Execute(w: Cluster, t: nat, g: nat, record: Versioned<Value>, request: Request)
    returns (ok: bool, after: Versioned<Value>)
    requires Stored(w.s.log, record.value) && w.Valid() && t in w.s.tasks && w.s.tasks[t] == Executing(g, record, request, Starting)
    modifies w
    ensures Stored(w.s.log, after.value) && old(w.s.log) <= w.s.log
    ensures w.Valid() && old(w.trace) <= w.trace && t in w.s.tasks
    ensures w.s.tasks[t] == if ok then Executing(g, after, request, Ended) else Failing(g, after)
  {
    after := record;
    if request.workspace {
      ok, after := CreateWorkspace(w, t, g, after, request);
      if !ok || !request.agent { return; }
    } else {
      w.Do(Step(t, Proceed));
    }
    ok, after := FinishAgent(w, t, g, after, request);
  }

  /** `recover`: an open record nobody here executes is closed; a conflict leaves it to whoever wrote. */
  method Recover(w: Cluster, t: nat, g: nat, record: Versioned<Value>, interrupted: bool)
    returns (result: Option<Versioned<Value>>, closed: bool)
    requires w.Valid() && t in w.s.tasks && w.s.tasks[t] == Checked(g, record, interrupted)
    modifies w
    ensures w.Valid() && old(w.trace) <= w.trace && t !in w.s.tasks
    ensures closed ==> result == w.s.cell && result.Some? && result.value.value == ClosedAs(record.value) && !Terminal(record.value.phase)
    ensures closed ==> Stored(w.s.log, ClosedAs(record.value))
    ensures !closed ==> result == Some(record) || (result == w.s.cell && VersionOf(result) != Some(record.version))
    ensures interrupted && !Terminal(record.value.phase) ==> closed || (result == w.s.cell && VersionOf(result) != Some(record.version))
  {
    w.Await(t);
    var open := !Terminal(record.value.phase) && (interrupted || g !in w.s.active);
    w.Do(Step(t, Proceed));
    if !open { return Some(record), false; }
    w.Await(t);
    closed := w.UpdateRecord(t, record.version, ClosedAs(record.value));
    result := w.s.cell;
  }

  /** `run`, for an instance that has no run of this key. The promise settles with a snapshot, or
      fails (None). An executed creation settles with the terminal snapshot it stored last. */
  method RunCreation(w: Cluster, t: nat, g: nat, request: Request) returns (result: Option<Versioned<Value>>, executed: bool)
    requires w.Valid() && t !in w.s.tasks && g !in w.s.active
    modifies w
    ensures w.Valid() && old(w.trace) <= w.trace && t !in w.s.tasks
    ensures executed && result.Some? ==> Terminal(result.value.value.phase) && Stored(w.s.log, result.value.value)
    ensures !executed && result.Some? ==> result == w.s.cell || Terminal(result.value.value.phase)
  {
    w.Do(StartRun(t, g, request));
    w.Await(t);
    executed := w.s.cell.None?;
    w.Do(Step(t, Proceed));
    if !executed {
      w.Await(t);
      var raw := w.s.cell;
      w.Do(Step(t, Proceed));
      if raw.None? || raw.value.value.fingerprint != request.fingerprint { return None, false; }
      var closed;
      result, closed := Recover(w, t, g, raw.value, true);
      return;
    }
    var ok, record := Execute(w, t, g, w.s.cell.value, request);
    result := Settle(w, t, g, record, request, ok);
  }

  /** The end of `run`: a throw is reported as failed, a callback that returned as completed. */
  method Settle(w: Cluster, t: nat, g: nat, record: Versioned<Value>, request: Request, returned: bool) returns (result: Option<Versioned<Value>>)
    requires Stored(w.s.log, record.value) && w.Valid() && t in w.s.tasks
    requires w.s.tasks[t] == if returned then Executing(g, record, request, Ended) else Failing(g, record)
    modifies w
    ensures old(w.s.log) <= w.s.log && (result.Some? ==> Stored(w.s.log, result.value.value))
    ensures w.Valid() && old(w.trace) <= w.trace && t !in w.s.tasks
    ensures result.Some? && returned && Terminal(record.value.phase) ==> result == Some(record)
    ensures result.Some? && !(returned && Terminal(record.value.phase)) ==>
      result == w.s.cell && result.value.value.phase == (if returned then Completed else Failed)
    ensures result.Some? && !returned ==> result.value.value.unknown == record.value.dispatching
    ensures result.None? ==> !(returned && Terminal(record.value.phase)) && VersionOf(w.s.cell) != Some(record.version)
  {
    if returned {
      w.Do(Step(t, Proceed));
      if Terminal(record.value.phase) { return Some(record); }
    }
    w.Await(t);
    var value := if returned then Patched(record.value, Patch(Some(Completed), None, false)) else FailedAs(record.value);
    var ok := w.UpdateRecord(t, record.version, value);
    result := if ok then w.s.cell else None;
  }

  // ----- Nobody in the way -----

  lemma Run2(s: State, p: seq<Action>)
    requires |p| == 2
    ensures Run(s, p) == Apply(Apply(s, p[0]), p[1])
  {
    assert Run(Apply(s, p[0]), p[1..]) == Run(Apply(Apply(s, p[0]), p[1]), p[1..][1..]);
  }

  function Two(t: nat): seq<Action> {
    [Step(t, Proceed), Step(t, Proceed)]
  }

  /** Two steps of an undisturbed execution: the callback goes on, and its report commits. */
  lemma SoloReports(s: State, t: nat, g: nat, row: Versioned<Value>, request: Request, stage: Stage, patch: Patch, resume: Stage)
    returns (u: State, after: Versioned<Value>)
    requires t in s.tasks && s.tasks[t] == Executing(g, row, request, stage) && s.cell == Some(row)
    requires Advance(s, t, Proceed) == Go(s, t, Reporting(g, row, request, patch, resume))
    ensures u == Run(s, Two(t)) && after == Versioned(s.next, Patched(row.value, patch))
    ensures u.cell == Some(after) && u.next == s.next + 1 && u.active == s.active
    ensures u.tasks == s.tasks[t := Executing(g, after, request, resume)]
    ensures u.log == s.log + [Wrote(row.value.uid, after.value)] +
                     (if IsSend(resume) then [Sent(row.value.uid, resume)] else [])
  {
    after := Versioned(s.next, Patched(row.value, patch));
    var s1 := Apply(s, Step(t, Proceed));
    u := Apply(s1, Step(t, Proceed));
    Run2(s, Two(t));
  }

  function Start(t: nat, g: nat, request: Request): seq<Action> {
    [StartRun(t, g, request), Step(t, Proceed)]
  }

  lemma SoloClaims(s: State, t: nat, g: nat, request: Request) returns (u: State, row: Versioned<Value>)
    requires t !in s.tasks && g !in s.active && s.cell.None?
    ensures u == Run(s, Start(t, g, request)) && row == Versioned(s.next, NewValue(s.next, request))
    ensures u == s.(cell := Some(row), next := s.next + 1, tasks := s.tasks[t := Executing(g, row, request, Starting)],
                    active := s.active[g := t], log := s.log + [Wrote(s.next, row.value), Executed(s.next)])
  {
    row := Versioned(s.next, NewValue(s.next, request));
    var s1 := Apply(s, StartRun(t, g, request));
    u := Apply(s1, Step(t, Proceed));
    assert u.tasks == s.tasks[t := Executing(g, row, request, Starting)];
    Run2(s, Start(t, g, request));
  }

  /** The three reports of a workspace create nobody disturbs. */
  lemma SoloWorkspaceReports(s: State, t: nat, g: nat, row: Versioned<Value>, request: Request) returns (u: State, after: Versioned<Value>)
    requires t in s.tasks && s.tasks[t] == Executing(g, row, request, Starting) && s.cell == Some(row)
    requires request.workspace && !request.agent
    ensures u == Run(s, Two(t) + Two(t) + Two(t)) && u.cell == Some(after) && u.active == s.active
    ensures after.value == row.value.(revision := row.value.revision + 3, phase := WorkspaceReady, dispatching := false, named := true)
    ensures u.tasks == s.tasks[t := Executing(g, after, request, Ended)]
    ensures |u.log| == |s.log| + 4 && u.log[|s.log| + 1] == Sent(row.value.uid, CreatingWorkspace)
  {
    var s2, r2 := SoloReports(s, t, g, row, request, Starting, Patch(None, Some(true), false), CreatingWorkspace);
    var s3, r3 := SoloReports(s2, t, g, r2, request, CreatingWorkspace, Patch(None, Some(false), true), AwaitingReady);
    u, after := SoloReports(s3, t, g, r3, request, AwaitingReady, Patch(Some(WorkspaceReady), None, false), Ended);
    RunConcat(s, Two(t), Two(t));
    RunConcat(s, Two(t) + Two(t), Two(t));
  }

  /** It completes in four reports, its one create sent behind the first. */
  lemma SoloWorkspaceCompletes(s: State, t: nat, g: nat, fingerprint: nat) returns (actions: seq<Action>)
    requires t !in s.tasks && g !in s.active && s.cell.None?
    ensures var u := Run(s, actions);
      && u.cell.Some? && u.cell.value.value == Value(s.next, fingerprint, false, true, 4, Completed, false)
      && t !in u.tasks && g !in u.active
      && |u.log| == |s.log| + 7 && u.log[|s.log| + 3] == Sent(s.next, CreatingWorkspace)
  {
    var request := Request(true, false, false, fingerprint);
    var s1, r1 := SoloClaims(s, t, g, request);
    var s4, r4 := SoloWorkspaceReports(s1, t, g, r1, request);
    var s5 := Apply(s4, Step(t, Proceed));
    assert s5.tasks[t] == Finishing(g, r4) && s5.cell == Some(r4);
    Run2(s4, Two(t));
    var reports := Two(t) + Two(t) + Two(t);
    RunConcat(s, Start(t, g, request), reports);
    RunConcat(s, Start(t, g, request) + reports, Two(t));
    actions := Start(t, g, request) + reports + Two(t);
  }

  /** An execution that throws records its failure, as of unknown outcome exactly if the record said
      that a create may be out. */
  lemma SoloThrows(s: State, t: nat, g: nat, row: Versioned<Value>, request: Request, stage: Stage)
    requires t in s.tasks && s.tasks[t] == Executing(g, row, request, stage) && s.cell == Some(row)
    requires !stage.Starting? && !stage.Ended?
    ensures var v := row.value;
      Run(s, [Step(t, Raise), Step(t, Proceed)]) == End(Write(s, Value(v.uid, v.fingerprint, v.dispatching, v.named,
                                                                       v.revision + 1, Failed, v.dispatching)), t)
  {
    var s1 := Apply(s, Step(t, Raise));
    assert s1 == Go(s, t, Failing(g, row));
    Run2(s, [Step(t, Raise), Step(t, Proceed)]);
    assert End(Write(s1, FailedAs(row.value)), t).tasks == s.tasks - {t};
  }

  /** The task of a replay, or of a subscriber, that found the record. */
  ghost predicate Found(s: State, t: nat, g: nat, row: Versioned<Value>, interrupted: bool) {
    t in s.tasks && s.tasks[t] == Checked(g, row, interrupted) && s.cell == Some(row)
  }

  /** What is left open by an earlier gateway is closed as failed, outcome unknown; what is settled,
      or executed here, is left as it is. */
  lemma SoloRecovers(s: State, t: nat, g: nat, row: Versioned<Value>, interrupted: bool)
    requires Found(s, t, g, row, interrupted)
    ensures var v := row.value;
      Run(s, Two(t)) ==
        if v.phase in {Completed, Failed} || (!interrupted && g in s.active) then End(s, t)
        else End(Write(s, Value(v.uid, v.fingerprint, v.dispatching, v.named, v.revision + 1, Failed, true)), t)
  {
    var s1 := Apply(s, Step(t, Proceed));
    Run2(s, Two(t));
    if !Terminal(row.value.phase) && (interrupted || g !in s.active) {
      assert s1 == Go(s, t, Closing(g, row));
      assert End(Write(s1, ClosedAs(row.value)), t).tasks == s.tasks - {t};
    } else {
      assert s1 == End(s, t);
    }
  }

  /** A creation interrupted by a crash, asked for again: nothing is executed or sent a second time. */
  lemma SoloReplayCloses(s: State, t: nat, g: nat, request: Request)
    requires t !in s.tasks && g !in s.active && s.cell.Some? && s.cell.value.value.fingerprint == request.fingerprint
    requires !Terminal(s.cell.value.value.phase)
    ensures var v, u := s.cell.value.value, Run(s, Start(t, g, request) + [Step(t, Proceed)] + Two(t));
      && u.tasks == s.tasks && u.active == s.active
      && u.cell.Some? && u.cell.value.value == v.(revision := v.revision + 1, phase := Failed, unknown := true)
      && u.log == s.log + [Wrote(v.uid, u.cell.value.value)]
  {
    var row := s.cell.value;
    var s2 := Apply(Apply(s, StartRun(t, g, request)), Step(t, Proceed));
    Run2(s, Start(t, g, request));
    assert s2.tasks[t] == Finding(g, request);
    var s3 := Apply(s2, Step(t, Proceed));
    assert Run(s2, [Step(t, Proceed)]) == Run(s3, [Step(t, Proceed)][1..]);
    assert Found(s3, t, g, row, true) && s3.active == s.active[g := t] && s3.tasks == s.tasks[t := Checked(g, row, true)];
    SoloRecovers(s3, t, g, row, true);
    RunConcat(s, Start(t, g, request), [Step(t, Proceed)]);
    RunConcat(s, Start(t, g, request) + [Step(t, Proceed)], Two(t));
    assert Run(s3, Two(t)).tasks == s.tasks && Run(s3, Two(t)).active == s.active;
  }
}
