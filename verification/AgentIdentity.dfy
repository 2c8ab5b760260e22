/** The durable route of one agent GUID, and any number of registries claiming, reserving and
    resolving it. Routes are created active, may be quarantined, and are never deleted. */
module AgentIdentity {
  import opened VersionedStore

  const ATTEMPTS := 8

  datatype Binding = Binding(workspaceId: nat, workspaceUid: nat)

  datatype Route =
    | Active(binding: Binding)
    | Collision(binding: Binding, conflictingUid: nat)

  /** A workspace row of the caller's scope. */
  datatype Workspace = Workspace(binding: Binding, deleted: bool)

  datatype Failure = Quarantined | AlreadyBound | Reserved | NoRoute | LegacyMismatch | Unavailable | NotQuarantined | StoreFailed

  datatype Task =
    | Creating(r: nat, value: Binding)
    | Looking(r: nat, value: Binding, attempt: nat)
    | Marking(r: nat, value: Binding, attempt: nat, row: Versioned<Route>)
    | Reserving(r: nat, value: Binding)
    | Resolving(legacy: Option<nat>, scope: seq<Workspace>)

  /** What callers were told. */
  datatype Event =
    | Claimed(value: Binding)
    | Resolved(to: Binding)
    | Refused(why: Failure)

  /** `claims`: which workspace UIDs each registry remembers as claimed, as (registry, UID). */
  datatype State = State(next: nat, cell: Option<Versioned<Route>>, claims: set<(nat, nat)>, tasks: map<nat, Task>, log: seq<Event>)

  datatype Action =
    | StartClaim(t: nat, r: nat, value: Binding)
    | StartReserve(t: nat, r: nat, value: Binding)
    | StartResolve(t: nat, legacy: Option<nat>, scope: seq<Workspace>)
    | Step(t: nat)
    | Throw(t: nat, applied: bool)
    | Forget(r: nat, uid: nat)     // expiry, eviction
    | Restart(r: nat)

  function Init(): State {
    State(0, None, {}, map[], [])
  }

  function Go(s: State, t: nat, task: Task): State {
    s.(tasks := s.tasks[t := task])
  }

  function End(s: State, t: nat, e: Event): State {
    s.(tasks := s.tasks - {t}, log := s.log + [e])
  }

  function Write(s: State, route: Route): State {
    s.(cell := Some(Versioned(s.next, route)), next := s.next + 1)
  }

  function Remember(s: State, r: nat, value: Binding): State {
    s.(claims := s.claims + {(r, value.workspaceUid)})
  }

  function Create(s: State, t: nat, r: nat, value: Binding): State
    requires s.cell.None?
  {
    End(Remember(Write(s, Active(value)), r, value), t, Claimed(value))
  }

  function Look(s: State, t: nat, r: nat, value: Binding, attempt: nat): State {
    if s.cell.None? then End(s, t, Refused(NoRoute))
    else if s.cell.value.value.Collision? then End(s, t, Refused(Quarantined))
    else if s.cell.value.value.binding == value then End(Remember(s, r, value), t, Claimed(value))
    else
      Go(s, t, Marking(r, value, attempt, s.cell.value)).(claims := s.claims - {(r, s.cell.value.value.binding.workspaceUid)})
  }

  predicate Current(s: State, row: Versioned<Route>) {
    VersionOf(s.cell) == Some(row.version)
  }

  function Mark(s: State, t: nat, r: nat, value: Binding, attempt: nat, row: Versioned<Route>): State {
    if Current(s, row) then End(Write(s, Collision(row.value.binding, value.workspaceUid)), t, Refused(AlreadyBound))
    else if attempt + 1 < ATTEMPTS then Go(s, t, Looking(r, value, attempt + 1))
    else End(s, t, Refused(NotQuarantined))
  }

  /** `resolve`, on the record it read: the quarantine first, then the legacy ID, then the scope. */
  function Resolve(cell: Option<Versioned<Route>>, legacy: Option<nat>, scope: seq<Workspace>): Event {
    if cell.None? then Refused(NoRoute)
    else if cell.value.value.Collision? then Refused(Quarantined)
    else
      var to := cell.value.value.binding;
      if legacy.Some? && legacy.value != to.workspaceId then Refused(LegacyMismatch)
      else if Workspace(to, false) !in scope then Refused(Unavailable)
      else Resolved(to)
  }

  function Advance(s: State, t: nat): State
    requires t in s.tasks
  {
    match s.tasks[t]
    case Creating(r, value) => if s.cell.None? then Create(s, t, r, value) else Go(s, t, Looking(r, value, 0))
    case Looking(r, value, attempt) => Look(s, t, r, value, attempt)
    case Marking(r, value, attempt, row) => Mark(s, t, r, value, attempt, row)
    case Reserving(r, value) => if s.cell.None? then Create(s, t, r, value) else End(s, t, Refused(Reserved))
    case Resolving(legacy, scope) => End(s, t, Resolve(s.cell, legacy, scope))
  }

  /** The store fails task `t`, whether or not it applied its write. */
  function Fail(s: State, t: nat, applied: bool): State
    requires t in s.tasks
  {
    var task := s.tasks[t];
    var u :=
      if applied && (task.Creating? || task.Reserving?) && s.cell.None? then Write(s, Active(task.value))
      else if applied && task.Marking? && Current(s, task.row)
      then Write(s, Collision(task.row.value.binding, task.value.workspaceUid))
      else s;
    End(u, t, Refused(StoreFailed))
  }

  function Apply(s: State, action: Action): State {
    match action
    case StartClaim(t, r, value) =>
      if t in s.tasks then s
      else if (r, value.workspaceUid) in s.claims then s.(log := s.log + [Claimed(value)])
      else Go(s, t, Creating(r, value))
    case StartReserve(t, r, value) => if t in s.tasks then s else Go(s, t, Reserving(r, value))
    case StartResolve(t, legacy, scope) => if t in s.tasks then s else Go(s, t, Resolving(legacy, scope))
    case Step(t) => if t in s.tasks then Advance(s, t) else s
    case Throw(t, applied) => if t in s.tasks then Fail(s, t, applied) else s
    case Forget(r, uid) => s.(claims := s.claims - {(r, uid)})
    case Restart(r) => s.(claims := (set c | c in s.claims && c.0 != r),
                          tasks := (map t | t in s.tasks && (s.tasks[t].Resolving? || s.tasks[t].r != r) :: s.tasks[t]))
  }

  function Run(s: State, actions: seq<Action>): State
    decreases |actions|
  {
    if actions == [] then s else Run(Apply(s, actions[0]), actions[1..])
  }
}

/** One binding for ever, quarantine for ever, whatever the caches hold. */
module AgentIdentityProof {
  import opened VersionedStore
  import opened AgentIdentity

  /** How the route may have moved on: absent, active, collision; the binding never changes. */
  ghost predicate Advances(before: Option<Versioned<Route>>, after: Option<Versioned<Route>>) {
    before.Some? ==>
      && after.Some? && after.value.value.binding == before.value.value.binding
      && (after == before || (before.value.value.Active? && after.value.value.Collision? && after.value.version > before.value.version))
  }

  /** Somebody was told of a collision. */
  predicate Reports(e: Event) {
    e == Refused(AlreadyBound) || e == Refused(Quarantined)
  }

  ghost predicate TaskOk(s: State, task: Task) {
    match task
    case Looking(_, value, attempt) => s.cell.Some? && attempt <= 1 && (attempt == 1 ==> s.cell.value.value.Collision?)
    case Marking(_, value, attempt, row) =>
      && attempt == 0 && row.value.Active? && row.value.binding != value && row.version < s.next
      && s.cell.Some? && (s.cell == Some(row) || (s.cell.value.value.Collision? && !Current(s, row)))
      && s.cell.value.value.binding == row.value.binding
    case _ => true
  }

  ghost predicate RouteUid(s: State, uid: nat) {
    s.cell.Some? && s.cell.value.value.binding.workspaceUid == uid
  }

  ghost predicate Logged(s: State) {
    && (forall e :: e in s.log && e.Claimed? ==> RouteUid(s, e.value.workspaceUid))
    && (forall e :: e in s.log && e.Resolved? ==> s.cell.Some? && s.cell.value.value.binding == e.to)
    && (forall e :: e in s.log && Reports(e) ==> s.cell.Some? && s.cell.value.value.Collision?)
    && Refused(NotQuarantined) !in s.log
  }

  /** No resolution after a report. */
  ghost predicate Ordered(log: seq<Event>) {
    forall i, j :: 0 <= i < j < |log| && Reports(log[i]) ==> !log[j].Resolved?
  }

  ghost predicate Inv(s: State) {
    && (s.cell.Some? ==> s.cell.value.version < s.next)
    && (forall c :: c in s.claims ==> RouteUid(s, c.1))
    && (forall t :: t in s.tasks ==> TaskOk(s, s.tasks[t]))
    && Logged(s) && Ordered(s.log)
  }

  lemma TaskKept(s: State, u: State, task: Task)
    requires TaskOk(s, task) && Advances(s.cell, u.cell) && s.next <= u.next
    ensures TaskOk(u, task)
  {
  }

  /** One more event, told on the strength of the route as it is then. */
  lemma Tell(s: State, u: State, t: nat, e: Event)
    requires Inv(s) && u == s.(cell := u.cell, next := u.next, claims := u.claims, tasks := s.tasks - {t}, log := s.log + [e])
    requires Advances(s.cell, u.cell) && s.next <= u.next && (u.cell.Some? ==> u.cell.value.version < u.next)
    requires forall c :: c in u.claims ==> c in s.claims || RouteUid(u, c.1)
    requires e.Claimed? ==> RouteUid(u, e.value.workspaceUid)
    requires e.Resolved? ==> u.cell.Some? && u.cell.value.value == Active(e.to)
    requires Reports(e) ==> u.cell.Some? && u.cell.value.value.Collision?
    requires e != Refused(NotQuarantined)
    ensures Inv(u)
  {
    forall c | c in u.tasks ensures TaskOk(u, u.tasks[c]) { TaskKept(s, u, s.tasks[c]); }
    assert forall d :: d in u.log ==> d in s.log || d == e;
    forall i, j | 0 <= i < j < |u.log| && Reports(u.log[i]) ensures !u.log[j].Resolved? {
      if j == |s.log| { assert s.log[i] in s.log; }
    }
  }

  lemma AdvanceKeepsInv(s: State, t: nat)
    requires Inv(s) && t in s.tasks
    ensures Inv(Advance(s, t)) && Advances(s.cell, Advance(s, t).cell)
  {
    var task, u := s.tasks[t], Advance(s, t);
    assert TaskOk(s, task);
    if t !in u.tasks { Tell(s, u, t, u.log[|s.log|]); }
    else {
      forall c | c in u.tasks ensures TaskOk(u, u.tasks[c]) {
        if c != t { TaskKept(s, u, s.tasks[c]); }
      }
    }
  }

  lemma StepKeepsInv(s: State, action: Action)
    requires Inv(s)
    ensures Inv(Apply(s, action)) && Advances(s.cell, Apply(s, action).cell)
  {
    var u := Apply(s, action);
    match action
    case Step(t) => if t in s.tasks { AdvanceKeepsInv(s, t); }
    case Throw(t, applied) =>
      if t in s.tasks {
        assert TaskOk(s, s.tasks[t]);
        Tell(s, u, t, Refused(StoreFailed));
      }
    case StartClaim(t, r, value) =>
      if t !in s.tasks && (r, value.workspaceUid) in s.claims {
        assert s.tasks - {t} == s.tasks;
        Tell(s, u, t, Claimed(value));
      }
    case _ =>
      forall c | c in u.tasks ensures TaskOk(u, u.tasks[c]) { if c in s.tasks { TaskKept(s, u, s.tasks[c]); } }
  }

  /** The route goes absent, active, collision and no other way; a collision is permanent, and its
      record is never written again. */
  lemma {:induction false} RouteOnlyAdvances(s: State, actions: seq<Action>)
    requires Inv(s)
    ensures Inv(Run(s, actions)) && Advances(s.cell, Run(s, actions).cell)
    decreases |actions|
  {
    if actions != [] {
      StepKeepsInv(s, actions[0]);
      RouteOnlyAdvances(Apply(s, actions[0]), actions[1..]);
    }
  }

  /** Whatever the caches hold, the GUID is claimed for one workspace UID only and resolves to one
      workspace only, the same; and after any registry reported a collision it never resolves again. */
  lemma OneOwnerOrNone(actions: seq<Action>, i: nat, j: nat)
    requires i < j < |Run(Init(), actions).log|
    ensures var log := Run(Init(), actions).log;
      && (log[i].Claimed? && log[j].Claimed? ==> log[i].value.workspaceUid == log[j].value.workspaceUid)
      && (log[i].Resolved? && log[j].Resolved? ==> log[i].to == log[j].to)
      && (log[i].Claimed? && log[j].Resolved? ==> log[i].value.workspaceUid == log[j].to.workspaceUid)
      && (Reports(log[i]) ==> !log[j].Resolved?)
  {
    RouteOnlyAdvances(Init(), actions);
    var log := Run(Init(), actions).log;
    assert log[i] in log && log[j] in log;
  }

  /** The claim loop needs at most two rounds of its eight: a first mark that fails finds the route
      quarantined. So a claim never gives up with the collision unmarked. */
  lemma ClaimLoopIsShort(actions: seq<Action>, t: nat)
    ensures var s := Run(Init(), actions);
      && Refused(NotQuarantined) !in s.log
      && (t in s.tasks && (s.tasks[t].Looking? || s.tasks[t].Marking?) ==> s.tasks[t].attempt <= 1)
  {
    RouteOnlyAdvances(Init(), actions);
    var s := Run(Init(), actions);
    if t in s.tasks { assert TaskOk(s, s.tasks[t]); }
  }

  /** A claim for another workspace that runs to its end leaves the GUID quarantined. */
  lemma RivalClaimQuarantines(s: State, t: nat)
    requires Inv(s) && t in s.tasks && s.tasks[t].Marking?
    ensures s.cell.Some? && Advance(s, t).cell.Some?
    ensures Advance(s, t).cell.value.value.Collision? && Advance(s, t).cell.value.value.binding == s.tasks[t].row.value.binding
  {
    assert TaskOk(s, s.tasks[t]);
  }

  /** Alone, a claim of a GUID that is bound elsewhere quarantines it, is refused, and makes its
      registry forget what it had cached for the other binding. */
  lemma SoloRival(s: State, t: nat, r: nat, value: Binding, bound: Binding)
    requires t in s.tasks && s.tasks[t] == Creating(r, value) && value != bound
    requires s.cell.Some? && s.cell.value.value == Active(bound)
    ensures Run(s, [Step(t), Step(t), Step(t)]) ==
      s.(cell := Some(Versioned(s.next, Collision(bound, value.workspaceUid))), next := s.next + 1, tasks := s.tasks - {t},
         claims := s.claims - {(r, bound.workspaceUid)}, log := s.log + [Refused(AlreadyBound)])
  {
    var p := [Step(t), Step(t), Step(t)];
    var s1 := Apply(s, Step(t));
    assert s1 == s.(tasks := s.tasks[t := Looking(r, value, 0)]);
    var s2 := Apply(s1, Step(t));
    assert s2 == s.(tasks := s.tasks[t := Marking(r, value, 0, s.cell.value)], claims := s.claims - {(r, bound.workspaceUid)});
    var s3 := Apply(s2, Step(t));
    assert s3.tasks == s.tasks - {t};
    assert Run(s, p) == Run(s1, p[1..]) == Run(s2, p[1..][1..]) == Run(s3, p[1..][1..][1..]);
  }
}
