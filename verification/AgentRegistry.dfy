/** `claim`, `claimDurable`, `reserveForCreate`, `resolve` and `verifiedClaim` as the program text has
    them, run among any other registries. */
module AgentRegistry {
  import opened VersionedStore
  import opened AgentIdentity
  import opened AgentIdentityProof

  predicate Other(action: Action, t: nat) {
    match action
    case StartClaim(c, _, _) => c != t
    case StartReserve(c, _, _) => c != t
    case StartResolve(c, _, _) => c != t
    case Step(c) => c != t
    case Throw(c, _) => c != t
    case Forget(_, _) => true
    case Restart(_) => false
  }

  predicate Others(actions: seq<Action>, t: nat) {
    forall a :: a in actions ==> Other(a, t)
  }

  lemma {:induction false} RunConcat(s: State, first: seq<Action>, second: seq<Action>)
    ensures Run(s, first + second) == Run(Run(s, first), second)
    decreases |first|
  {
    if first == [] {
      assert first + second == second;
    } else {
      assert (first + second)[1..] == first[1..] + second;
      RunConcat(Apply(s, first[0]), first[1..], second);
    }
  }

  predicate SameTask(s: State, u: State, t: nat) {
    (t in s.tasks <==> t in u.tasks) && (t in s.tasks ==> u.tasks[t] == s.tasks[t])
  }

  lemma ApplyKeepsTask(s: State, action: Action, t: nat)
    requires Other(action, t)
    ensures SameTask(s, Apply(s, action), t) && s.log <= Apply(s, action).log
  {
  }

  lemma {:induction false} OthersKeepTask(s: State, actions: seq<Action>, t: nat)
    requires Others(actions, t)
    ensures SameTask(s, Run(s, actions), t) && s.log <= Run(s, actions).log
    decreases |actions|
  {
    if actions != [] {
      ApplyKeepsTask(s, actions[0], t);
      OthersKeepTask(Apply(s, actions[0]), actions[1..], t);
    }
  }

  /** The record store and every registry working on it. */
  class Cluster {
    var s: State
    ghost const start: State
    ghost var trace: seq<Action>

    constructor ()
      ensures Valid() && s == Init() && trace == []
    {
      s, start, trace := Init(), Init(), [];
    }

    ghost predicate Valid()
      reads this
    {
      start == Init() && s == Run(start, trace)
    }

    method Await(t: nat)
      requires Valid()
      modifies this
      ensures Valid() && SameTask(old(s), s, t) && old(s.log) <= s.log && Advances(old(s).cell, s.cell)
    {
      var actions: seq<Action> :| Others(actions, t) by { assert Others([], t); }
      OthersKeepTask(s, actions, t);
      RouteOnlyAdvances(Init(), trace);
      RouteOnlyAdvances(s, actions);
      s := Run(s, actions);
      trace := trace + actions;
      RunConcat(start, old(trace), actions);
    }

    method Do(action: Action)
      requires Valid()
      modifies this
      ensures Valid() && s == Apply(old(s), action)
    {
      s := Apply(s, action);
      trace := trace + [action];
      RunConcat(start, old(trace), [action]);
    }

    ghost method Known(t: nat)
      requires Valid()
      ensures Inv(s) && (t in s.tasks ==> TaskOk(s, s.tasks[t]))
    {
      RouteOnlyAdvances(Init(), trace);
    }
  }

  /** A claim succeeds, or says why not. */
  datatype Answer = Ok | Err(why: Failure)

  /** What the machine told the caller last. */
  predicate Told(log: seq<Event>, e: Event) {
    log != [] && log[|log| - 1] == e
  }

  /** The loop of `claimDurable`: it has eight rounds, and never uses a third. */
  method ClaimDurable(w: Cluster, t: nat, r: nat, value: Binding) returns (answer: Answer, ghost rounds: nat)
    requires w.Valid() && t in w.s.tasks && w.s.tasks[t] == Creating(r, value)
    modifies w
    ensures w.Valid() && t !in w.s.tasks && rounds <= 2
    ensures answer == Ok ==> RouteUid(w.s, value.workspaceUid)
    ensures answer.Err? ==> answer.why in {Quarantined, AlreadyBound} && w.s.cell.Some? && w.s.cell.value.value.Collision?
    ensures Told(w.s.log, if answer == Ok then Claimed(value) else Refused(answer.why))
  {
    rounds := 0;
    w.Await(t);
    var created := w.s.cell.None?;
    w.Do(Step(t));
    if created { return Ok, rounds; }
    for attempt := 0 to ATTEMPTS
      invariant w.Valid() && t in w.s.tasks && w.s.tasks[t] == Looking(r, value, attempt) && rounds == attempt <= 1
    {
      rounds := rounds + 1;
      w.Await(t);
      w.Known(t);
      var existing := w.s.cell.value;
      w.Do(Step(t));
      if existing.value.Collision? { return Err(Quarantined), rounds; }
      if existing.value.binding == value { return Ok, rounds; }
      w.Await(t);
      w.Known(t);
      var marked := VersionOf(w.s.cell) == Some(existing.version);
      w.Do(Step(t));
      if marked { return Err(AlreadyBound), rounds; }
      w.Known(t);
    }
    assert false;
  }

  /** `reserveForCreate`: the route is created, or the ID is taken. */
  method ReserveForCreate(w: Cluster, t: nat, r: nat, value: Binding) returns (answer: Answer)
    requires w.Valid() && t !in w.s.tasks
    modifies w
    ensures w.Valid() && t !in w.s.tasks
    ensures answer == Ok ==> w.s.cell.Some? && w.s.cell.value.value == Active(value)
    ensures Told(w.s.log, if answer == Ok then Claimed(value) else Refused(Reserved))
    ensures answer == Ok || answer == Err(Reserved)
  {
    w.Do(StartReserve(t, r, value));
    w.Await(t);
    var created := w.s.cell.None?;
    w.Do(Step(t));
    answer := if created then Ok else Err(Reserved);
  }

  /** `resolve`, on the record as read just now. */
  method ResolveAgent(w: Cluster, t: nat, legacy: Option<nat>, scope: seq<Workspace>) returns (answer: Event)
    requires w.Valid() && t !in w.s.tasks
    modifies w
    ensures w.Valid() && t !in w.s.tasks
    ensures answer.Resolved? <==>
      (w.s.cell.Some? && w.s.cell.value.value == Active(w.s.cell.value.value.binding) &&
       (legacy.Some? ==> legacy.value == w.s.cell.value.value.binding.workspaceId) &&
       Workspace(w.s.cell.value.value.binding, false) in scope)
    ensures answer.Resolved? ==> answer.to == w.s.cell.value.value.binding
    ensures answer in w.s.log
  {
    w.Do(StartResolve(t, legacy, scope));
    w.Await(t);
    answer := Resolve(w.s.cell, legacy, scope);
    w.Do(Step(t));
    assert w.s.log[|w.s.log| - 1] == answer;
  }

  /** `verifiedClaim`: an identity leaves the gateway only if the durable route is active for this very
      workspace when it is read after the claim, whatever the cache said. */
  method VerifiedClaim(w: Cluster, t: nat, r: nat, value: Binding) returns (verified: bool)
    requires w.Valid() && t !in w.s.tasks
    modifies w
    ensures w.Valid() && t !in w.s.tasks
    ensures verified <==> w.s.cell.Some? && w.s.cell.value.value == Active(value)
  {
    var cached := (r, value.workspaceUid) in w.s.claims;
    w.Do(StartClaim(t, r, value));
    if !cached {
      var answer, _ := ClaimDurable(w, t, r, value);
      if answer.Err? { return false; }
    }
    w.Await(t);
    var resolved := ResolveAgent(w, t, None, [Workspace(value, false)]);
    verified := resolved.Resolved?;
  }
}
