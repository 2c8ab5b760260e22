/** The broker's pass as the program text has it, run among any other brokers: a renewal
    makes only the moves of the protocol, and alone it renews and publishes. */
module CodexRenewal {
  import opened VersionedStore
  import opened CodexSubscription

  /** The API server and everybody working on it. `trace` is what happened since `start`. */
  class Cluster {
    var s: State
    ghost const start: State
    ghost var trace: seq<Action>

    constructor (s: State)
      ensures Valid() && this.s == s && trace == [] && start == s
    {
      this.s := s;
      start := s;
      trace := [];
    }

    ghost predicate Valid()
      reads this
    {
      s == Run(start, trace)
    }

    /** Everybody but broker `b` does what they like while `b` awaits. */
    method Await(b: nat)
      requires Valid()
      modifies this
      ensures Valid() && old(trace) <= trace && old(s).log <= s.log
      ensures (b in s.brokers <==> b in old(s).brokers) && (b in s.brokers ==> s.brokers[b] == old(s).brokers[b])
    {
      var actions: seq<Action> :| Others(actions, b) by { assert Others([], b); }
      s := Run(s, actions);
      trace := trace + actions;
      OthersKeepPc(old(s), actions, b);
      LogGrows(old(s), actions);
      RunConcat(start, old(trace), actions);
    }

    method Do(action: Action)
      requires Valid()
      modifies this
      ensures Valid() && trace == old(trace) + [action] && s == Apply(old(s), action)
    {
      s := Apply(s, action);
      trace := trace + [action];
      RunConcat(start, old(trace), [action]);
    }

    /** readSecret of the authority, and the code up to the next await. */
    method ReadAuthority(b: nat) returns (authority: Option<Versioned<Authority>>)
      requires Valid() && b in s.brokers
      modifies this
      ensures Valid() && old(trace) <= trace && old(s).log <= s.log && s == Advance(old(s), b) && authority == old(s).authority
    {
      authority := s.authority;
      AdvanceGrowsLog(s, b);
      Do(Step(b));
    }

    method ReadOutput(b: nat, name: nat) returns (output: Option<Versioned<Output>>)
      requires Valid() && b in s.brokers
      modifies this
      ensures Valid() && old(trace) <= trace && old(s).log <= s.log && s == Advance(old(s), b) && output == Read(old(s), name)
    {
      output := Read(s, name);
      AdvanceGrowsLog(s, b);
      Do(Step(b));
    }

    /** The compare and swap the protocol has broker `b` make is the one the program asks for. */
    method SwapAuthority(b: nat, expected: nat, value: Authority) returns (ok: bool)
      requires Valid() && b in s.brokers
      requires match s.brokers[b]
        case Claiming(a, lease, until) => expected == a.authority.version && value == ClaimedAuthority(a, lease, until)
        case Committing(a, auth, access, latest) =>
          expected == latest.version &&
          value == CommittedAuthority(latest.value, auth, access, BindingOf(a.profile, a.authority.value))
        case _ => false
      modifies this
      ensures Valid() && old(trace) <= trace && old(s).log <= s.log && s == Advance(old(s), b)
      ensures ok <==> VersionOf(old(s).authority) == Some(expected)
      ensures s.authority == if ok then Some(Versioned(old(s).next, value)) else old(s).authority
    {
      ok := VersionOf(s.authority) == Some(expected);
      AdvanceGrowsLog(s, b);
      Do(Step(b));
    }

    method SwapOutput(b: nat, name: nat, expected: Option<nat>, value: Output) returns (ok: bool)
      requires Valid() && b in s.brokers
      requires match s.brokers[b]
        case Clearing(a, _) =>
          name == a.profile.output && a.output.Some? && expected == Some(a.output.value.version) &&
          value == a.output.value.value.(data := Cleared)
        case PublishWriting(p, current, _, _, _) =>
          name == p.profile.output && expected == VersionOf(current) &&
          value == Output(Some(p.profile.owner), Some(p.binding), Holds(p.access))
        case _ => false
      modifies this
      ensures Valid() && old(trace) <= trace && old(s).log <= s.log && s == Advance(old(s), b)
      ensures ok <==> VersionOf(Read(old(s), name)) == expected
      ensures s.outputs == if ok then old(s).outputs[name := Versioned(old(s).next, value)] else old(s).outputs
    {
      ok := VersionOf(Read(s, name)) == expected;
      AdvanceGrowsLog(s, b);
      Do(Step(b));
    }

    /** The native refresh: the call leaves, and any answer may come back. */
    method Native(b: nat) returns (reply: Reply)
      requires Valid() && b in s.brokers && s.brokers[b].Calling?
      modifies this
      ensures Valid() && old(trace) <= trace && b in s.brokers
      ensures Gains(old(s).log, s.log, Called(old(s).brokers[b].attempt.native.token)) && old(s).log <= s.log
      ensures reply.NativeFailed? ==> s.brokers[b] == Idle(Some(ReauthenticationRequired))
      ensures reply.Refreshed? ==>
        s.brokers[b] == ReadingLatest(old(s).brokers[b].attempt, old(s).brokers[b].lease, reply.auth, reply.access)
    {
      Do(Step(b));
      assert s.log[|old(s).log|] == Called(old(s).brokers[b].attempt.native.token);
      Await(b);
      reply := *;
      Do(Answer(b, reply));
    }
  }

  /** The event was logged meanwhile. */
  ghost predicate Gains(before: seq<Event>, after: seq<Event>, e: Event) {
    exists i :: |before| <= i < |after| && after[i] == e
  }

  lemma AdvanceGrowsLog(s: State, b: nat)
    requires b in s.brokers
    ensures s.log <= Advance(s, b).log
  {
  }

  lemma {:induction false} LogGrows(s: State, actions: seq<Action>)
    ensures s.log <= Run(s, actions).log
    decreases |actions|
  {
    if actions != [] {
      var a := actions[0];
      if (a.Step? || a.Throw?) && a.b in s.brokers { AdvanceGrowsLog(s, a.b); }
      assert s.log <= Apply(s, a).log;
      LogGrows(Apply(s, a), actions[1..]);
    }
  }

  predicate Other(action: Action, b: nat) {
    match action
    case Start(c, _) => c != b
    case Step(c) => c != b
    case Answer(c, _) => c != b
    case Throw(c, _) => c != b
    case Crash(c) => c != b
    case _ => true
  }

  predicate Others(actions: seq<Action>, b: nat) {
    forall a :: a in actions ==> Other(a, b)
  }

  lemma {:induction false} RunConcat(s: State, first: seq<Action>, second: seq<Action>)
    ensures Run(s, first + second) == Run(Run(s, first), second)
    decreases |first|
  {
    if first == [] {
      assert first + second == second;
    } else {
      assert (first + second)[1..] == first[1..] + second;
      RunConcat(Apply(s, first[0]), first[1..], second);
    }
  }

  ghost predicate MovesOne(s: State, t: State, b: nat) {
    b in t.brokers && t.brokers == s.brokers[b := t.brokers[b]]
  }

  lemma AdvanceMovesOne(s: State, b: nat)
    requires b in s.brokers
    ensures MovesOne(s, Advance(s, b), b)
  {
    match s.brokers[b]
    case ReadingOutput(profile, authority) => assert MovesOne(s, OutputRead(s, b, profile, authority), b);
    case Clearing(a, thenClaim) => if a.output.Some? { assert MovesOne(s, Clear(s, b, a, thenClaim), b); }
    case Claiming(a, lease, until) => assert MovesOne(s, Claim(s, b, a, lease, until), b);
    case Committing(a, auth, access, latest) => assert MovesOne(s, Commit(s, b, a, auth, access, latest), b);
    case PublishWriting(p, current, commit, read, proof) => assert MovesOne(s, PublishWrite(s, b, p, current, commit, read, proof), b);
    case _ =>
  }

  lemma ApplyKeepsPc(s: State, action: Action, b: nat)
    requires Other(action, b)
    ensures b in Apply(s, action).brokers <==> b in s.brokers
    ensures b in s.brokers ==> Apply(s, action).brokers[b] == s.brokers[b]
  {
    match action
    case Step(c) => if c in s.brokers { AdvanceMovesOne(s, c); }
    case Throw(c, _) => if c in s.brokers { AdvanceMovesOne(s, c); }
    case _ =>
  }

  lemma {:induction false} OthersKeepPc(s: State, actions: seq<Action>, b: nat)
    requires Others(actions, b)
    ensures b in Run(s, actions).brokers <==> b in s.brokers
    ensures b in s.brokers ==> Run(s, actions).brokers[b] == s.brokers[b]
    decreases |actions|
  {
    if actions != [] {
      ApplyKeepsPc(s, actions[0], b);
      OthersKeepPc(Apply(s, actions[0]), actions[1..], b);
    }
  }

  /** `publish`: the output is read, then the authority proved unchanged, then the write. */
  method Publish(w: Cluster, b: nat, p: Publication) returns (published: bool, ghost wrote: bool)
    requires w.Valid() && b in w.s.brokers && w.s.brokers[b] == PublishReading(p)
    modifies w
    ensures w.Valid() && old(w.trace) <= w.trace && b in w.s.brokers
    ensures w.s.brokers[b] == Idle(Some(
      if !published then PublishConflict else if p.cached.Some? then AccessCurrent else AccessRenewed))
    ensures old(w.s).log <= w.s.log && (wrote ==> published)
    ensures wrote ==> exists i :: |old(w.s).log| <= i < |w.s.log| && IsWriteOf(w.s.log[i], p) &&
                                  |old(w.s).log| <= w.s.log[i].read <= w.s.log[i].proof <= i
  {
    wrote := false;
    w.Await(b);
    var current := w.ReadOutput(b, p.profile.output);
    if current.Some? && current.value.value.owner != Some(p.profile.owner) { return false, false; }
    if current.Some? && current.value.value.data == Holds(p.access) && current.value.value.binding == Some(p.binding) {
      return true, false;
    }
    ghost var read := |w.s.log|;
    published := ProveAndWrite(w, b, p, current, read);
    wrote := published;
  }

  /** The authority is read again and proved unchanged, and only then the output written. */
  method ProveAndWrite(w: Cluster, b: nat, p: Publication, current: Option<Versioned<Output>>, ghost read: nat) returns (published: bool)
    requires w.Valid() && b in w.s.brokers && w.s.brokers[b] == PublishRereading(p, current, read)
    modifies w
    ensures w.Valid() && old(w.trace) <= w.trace && b in w.s.brokers
    ensures w.s.brokers[b] == Idle(Some(
      if !published then PublishConflict else if p.cached.Some? then AccessCurrent else AccessRenewed))
    ensures old(w.s).log <= w.s.log
    ensures published ==> exists i :: |old(w.s).log| <= i < |w.s.log| && IsWriteOf(w.s.log[i], p) && w.s.log[i].read == read &&
                                      |old(w.s).log| <= w.s.log[i].proof <= i
  {
    w.Await(b);
    var latest := w.ReadAuthority(b);
    if VersionOf(latest) != Some(p.authority.version) { return false; }
    w.Await(b);
    ghost var before := w.s.log;
    published := w.SwapOutput(b, p.profile.output, VersionOf(current),
                              Output(Some(p.profile.owner), Some(p.binding), Holds(p.access)));
    assert published ==> IsWriteOf(w.s.log[|before|], p);
  }

  /** The event is the write of this publication. */
  predicate IsWriteOf(e: Event, p: Publication) {
    e.Wrote? && e.output == p.profile.output && e.access == p.access && e.binding == p.binding
  }

  /** One pass of `renew`, without store errors. Broker `b` ends with the outcome returned. */
  method RenewProfile(w: Cluster, b: nat, profile: Profile) returns (outcome: Outcome)
    requires w.Valid() && (b !in w.s.brokers || w.s.brokers[b].Idle?)
    modifies w
    ensures w.Valid() && old(w.trace) <= w.trace
    ensures b in w.s.brokers && w.s.brokers[b] == Idle(Some(outcome))
  {
    w.Do(Start(b, profile));
    w.Await(b);
    var read := w.ReadAuthority(b);
    if read.None? || read.value.value.auth.None? { return BootstrapMissing; }
    var authority := read.value;
    var notes := authority.value.notes;
    if notes.owner.Some? && notes.owner != Some(profile.owner) { return AuthorityAlreadyOwned; }
    w.Await(b);
    ghost var before := w.s;
    var output := w.ReadOutput(b, profile.output);
    outcome := Decide(w, b, profile, authority, output, before);
  }

  predicate ForeignOutput(output: Option<Versioned<Output>>, profile: Profile) {
    output.Some? && output.value.value.owner != Some(profile.owner)
  }

  /** The login's credential was claimed, and no rotation of it committed. */
  predicate Fenced(authority: Authority) {
    authority.auth.Some? && authority.auth.value.Parsed? && authority.notes.intent == Some(authority.auth.value.native.token)
  }

  predicate LeaseRuns(authority: Authority, now: int) {
    authority.notes.leaseUntil.Some? && authority.notes.leaseUntil.value > now
  }

  /** What the two Secrets read call for: nothing is shown to the provider, nor renewed, over a foreign
      output, an invalid login, a standing fence or a usable cached access. */
  method Decide(w: Cluster, b: nat, profile: Profile, authority: Versioned<Authority>, output: Option<Versioned<Output>>,
                ghost before: State) returns (outcome: Outcome)
    requires w.Valid() && b in w.s.brokers && authority.value.auth.Some?
    requires w.s == OutputRead(before, b, profile, authority) && output == Read(before, profile.output)
    modifies w
    ensures w.Valid() && old(w.trace) <= w.trace
    ensures b in w.s.brokers && w.s.brokers[b] == Idle(Some(outcome))
    ensures outcome.OutputAlreadyOwned? <==> ForeignOutput(output, profile)
    ensures outcome.BootstrapInvalid? <==> !ForeignOutput(output, profile) && authority.value.auth.value.Unparsable?
    ensures outcome.RefreshInProgress? <==> !ForeignOutput(output, profile) && Fenced(authority.value) && LeaseRuns(authority.value, before.now)
    ensures !ForeignOutput(output, profile) && Fenced(authority.value) ==> outcome in {RefreshInProgress, ReauthenticationRequired}
    ensures outcome.AccessCurrent? ==> CachedUsable(authority.value, BindingOf(profile, authority.value), before.now)
    ensures outcome.AccessRenewed? ==> !Fenced(authority.value) && !CachedUsable(authority.value, BindingOf(profile, authority.value), before.now)
  {
    var notes, binding := authority.value.notes, BindingOf(profile, authority.value);
    if output.Some? && output.value.value.owner != Some(profile.owner) { return OutputAlreadyOwned; }
    if authority.value.auth.value.Unparsable? { return BootstrapInvalid; }
    var native := authority.value.auth.value.native;
    if notes.intent == Some(native.token) {
      if notes.leaseUntil.Some? && notes.leaseUntil.value > w.s.now { return RefreshInProgress; }
      if NeedsClearing(output) {
        w.Await(b);
        var _ := w.SwapOutput(b, profile.output, VersionOf(output), output.value.value.(data := Cleared));
      }
      return ReauthenticationRequired;
    }
    if CachedUsable(authority.value, binding, w.s.now) {
      if notes.intent.Some? { return PublishConflict; }
      var attempt := Attempt(profile, authority, output, native);
      var current, _ := Publish(w, b, Publication(profile, authority, authority.value.access.value, binding, Some(attempt)));
      return if current then AccessCurrent else PublishConflict;
    }
    outcome := ClearAndRotate(w, b, Attempt(profile, authority, output, native), before);
  }

  /** An output of another binding or login is cleared first. */
  method ClearAndRotate(w: Cluster, b: nat, a: Attempt, ghost before: State) returns (outcome: Outcome)
    requires w.Valid() && b in w.s.brokers && w.s == Renew(before, b, a)
    modifies w
    ensures w.Valid() && old(w.trace) <= w.trace
    ensures b in w.s.brokers && w.s.brokers[b] == Idle(Some(outcome))
    ensures outcome in {OutputConflict, LeaseConflict, ReauthenticationRequired, CommitUncertain, AuthorityUnavailable, AccessExpired,
                        PublishConflict, AccessRenewed}
  {
    if (a.output.None? || a.output.value.value.binding != Some(BindingOf(a.profile, a.authority.value)) ||
        a.authority.value.notes.digest != a.authority.value.auth) && NeedsClearing(a.output) {
      w.Await(b);
      var cleared := w.SwapOutput(b, a.profile.output, VersionOf(a.output), a.output.value.value.(data := Cleared));
      if !cleared { return OutputConflict; }
    }
    outcome := Rotate(w, b, a, w.s.brokers[b].lease, w.s.now + LEASE_MS);
  }

  /** The credential was claimed, and then shown to the provider. */
  ghost predicate ClaimedThenCalled(before: seq<Event>, after: seq<Event>, token: nat) {
    exists i, j :: |before| <= i < j < |after| && after[i] == Claimed(token) && after[j] == Called(token)
  }

  /** The second half of `renew`: claim, refresh, commit, publish. */
  method Rotate(w: Cluster, b: nat, a: Attempt, lease: nat, until: int) returns (outcome: Outcome)
    requires w.Valid() && b in w.s.brokers && w.s.brokers[b] == Claiming(a, lease, until)
    modifies w
    ensures w.Valid() && old(w.trace) <= w.trace
    ensures b in w.s.brokers && w.s.brokers[b] == Idle(Some(outcome))
    ensures old(w.s).log <= w.s.log && (outcome.LeaseConflict? || ClaimedThenCalled(old(w.s).log, w.s.log, a.native.token))
    ensures outcome in {LeaseConflict, ReauthenticationRequired, CommitUncertain, AuthorityUnavailable, AccessExpired, PublishConflict, AccessRenewed}
  {
    var authority, native := a.authority, a.native;
    w.Await(b);
    ghost var unclaimed := w.s.log;
    var claimed := w.SwapAuthority(b, authority.version, authority.value.(notes := authority.value.notes.(
      owner := Some(a.profile.owner), intent := Some(native.token), lease := Some(lease), leaseUntil := Some(until))));
    if !claimed { return LeaseConflict; }
    assert w.s.log[|unclaimed|] == Claimed(native.token);
    w.Await(b);
    ghost var uncalled := w.s.log;
    var refreshed := w.Native(b);
    assert ClaimedThenCalled(old(w.s).log, w.s.log, native.token) by {
      assert w.s.log[|unclaimed|] == Claimed(native.token);
      var j :| |uncalled| <= j < |w.s.log| && w.s.log[j] == Called(native.token);
    }
    ghost var called := w.s.log;
    if refreshed.NativeFailed? { return ReauthenticationRequired; }
    var concluded, _ := Conclude(w, b, a, lease, refreshed.auth, refreshed.access);
    outcome := concluded;
    assert ClaimedThenCalled(old(w.s).log, w.s.log, native.token) by {
      var i, j :| |old(w.s).log| <= i < j < |called| && called[i] == Claimed(native.token) && called[j] == Called(native.token);
      assert w.s.log[i] == Claimed(native.token) && w.s.log[j] == Called(native.token);
    }
  }

  /** Commit what the provider answered, if the lease still stands, and publish it. */
  method Conclude(w: Cluster, b: nat, a: Attempt, lease: nat, auth: AuthFile, access: Access)
    returns (outcome: Outcome, ghost over: Option<Authority>)
    requires w.Valid() && b in w.s.brokers && w.s.brokers[b] == ReadingLatest(a, lease, auth, access)
    modifies w
    ensures w.Valid() && old(w.trace) <= w.trace
    ensures b in w.s.brokers && w.s.brokers[b] == Idle(Some(outcome)) && old(w.s).log <= w.s.log
    ensures over.Some? ==> over.value.notes.lease == Some(lease) && over.value.auth == Some(Parsed(a.native))
    ensures over.Some? ==> Gains(old(w.s).log, w.s.log, Committed(auth, BindingOf(a.profile, a.authority.value), access))
    ensures over.None? ==> outcome in {CommitUncertain, AuthorityUnavailable, AccessExpired}
    ensures over.Some? ==> outcome in {PublishConflict, AccessRenewed} && access.Access?
  {
    over := None;
    var binding := BindingOf(a.profile, a.authority.value);
    w.Await(b);
    var latest := w.ReadAuthority(b);
    if latest.None? || latest.value.value.notes.lease != Some(lease) ||
       latest.value.value.auth != Some(Parsed(a.native)) ||
       (latest.value.value.notes.leaseUntil.Some? && latest.value.value.notes.leaseUntil.value <= w.s.now) {
      return CommitUncertain, None;
    }
    if access.Garbage? { return AuthorityUnavailable, None; }
    if access.expiresAt <= w.s.now + USABLE_MS { return AccessExpired, None; }
    w.Await(b);
    ghost var before := w.s.log;
    var committed := w.SwapAuthority(b, latest.value.version,
                                     CommittedAuthority(latest.value.value, auth, access, binding));
    if !committed { return CommitUncertain, None; }
    over := Some(latest.value.value);
    assert w.s.log[|before|] == Committed(auth, binding, access);
    outcome := PublishCommitted(w, b, a.profile, binding, access);
  }

  method PublishCommitted(w: Cluster, b: nat, profile: Profile, binding: Binding, access: Access)
    returns (outcome: Outcome)
    requires w.Valid() && b in w.s.brokers && w.s.brokers[b] == ReadingDurable(profile, binding, access)
    modifies w
    ensures w.Valid() && old(w.trace) <= w.trace
    ensures b in w.s.brokers && w.s.brokers[b] == Idle(Some(outcome)) && old(w.s).log <= w.s.log
    ensures outcome in {PublishConflict, AccessRenewed}
  {
    w.Await(b);
    var durable := w.ReadAuthority(b);
    if durable.None? || !Publishable(durable.value.value, binding, access) { return PublishConflict; }
    var published, _ := Publish(w, b, Publication(profile, durable.value, access, binding, None));
    outcome := if published then AccessRenewed else PublishConflict;
  }

  // ----- One broker alone -----

  /** The steps of a renewal: up to the call, from its answer to the commit, up to the
      publishing write. */
  function ToCall(b: nat, profile: Profile): seq<Action> {
    [Start(b, profile), Step(b), Step(b), Step(b), Step(b)]
  }

  function ToCommit(b: nat, reply: Reply): seq<Action> {
    [Answer(b, reply), Step(b), Step(b)]
  }

  function ToWrite(b: nat): seq<Action> {
    [Step(b), Step(b), Step(b)]
  }

  /** The authority holds a login this profile may rotate, and no usable cached credential. */
  ghost predicate Renewable(s: State, profile: Profile) {
    && s.authority.Some? && s.authority.value.value.auth.Some? && s.authority.value.value.auth.value.Parsed?
    && var authority := s.authority.value.value;
    && authority.notes.owner in {None, Some(profile.owner)}
    && authority.notes.intent != Some(authority.auth.value.native.token)
    && !CachedUsable(authority, BindingOf(profile, authority), s.now)
  }

  /** Alone, three steps decide to claim. */
  lemma SoloDecides(s: State, b: nat, profile: Profile) returns (t: State, a: Attempt)
    requires b !in s.brokers || s.brokers[b].Idle?
    requires Renewable(s, profile) && OutputEmpty(s, profile)
    ensures t == Advance(Advance(Apply(s, Start(b, profile)), b), b)
    ensures a == Attempt(profile, s.authority.value, Read(s, profile.output), s.authority.value.value.auth.value.native)
    ensures t == s.(brokers := s.brokers[b := Claiming(a, s.leases, s.now + LEASE_MS)], leases := s.leases + 1)
  {
    a := Attempt(profile, s.authority.value, Read(s, profile.output), s.authority.value.value.auth.value.native);
    var s1 := Advance(Apply(s, Start(b, profile)), b);
    assert s1 == s.(brokers := s.brokers[b := ReadingOutput(profile, s.authority.value)]);
    t := Advance(s1, b);
  }

  /** Two more claim and call. */
  lemma SoloCalls(s: State, b: nat, profile: Profile) returns (t: State, a: Attempt)
    requires b !in s.brokers || s.brokers[b].Idle?
    requires Renewable(s, profile) && OutputEmpty(s, profile)
    ensures t == Run(s, ToCall(b, profile))
    ensures a == Attempt(profile, s.authority.value, Read(s, profile.output), s.authority.value.value.auth.value.native)
    ensures t == s.(brokers := s.brokers[b := Waiting(a, s.leases)], next := s.next + 1, leases := s.leases + 1,
                    claimed := s.claimed + {a.native.token}, log := s.log + [Claimed(a.native.token), Called(a.native.token)],
                    authority := Some(Versioned(s.next, ClaimedAuthority(a, s.leases, s.now + LEASE_MS))))
  {
    var s2: State;
    s2, a := SoloDecides(s, b, profile);
    var s3 := Advance(s2, b);
    assert s3.brokers == s.brokers[b := Calling(a, s.leases)];
    t := Advance(s3, b);
    RunStart(s, b, profile);
  }

  lemma RunStart(s: State, b: nat, profile: Profile)
    ensures Run(s, ToCall(b, profile)) ==
      Apply(Apply(Apply(Apply(Apply(s, Start(b, profile)), Step(b)), Step(b)), Step(b)), Step(b))
  {
    var t := Apply(s, Start(b, profile));
    Run1(s, ToCall(b, profile));
    Run1(t, [Step(b), Step(b), Step(b), Step(b)]);
    Run3(Apply(t, Step(b)), [Step(b), Step(b), Step(b)]);
  }

  ghost predicate OutputEmpty(s: State, profile: Profile) {
    var output := Read(s, profile.output);
    output.Some? ==> output.value.value.owner == Some(profile.owner) && output.value.value.data == Cleared
  }

  lemma SoloCommits(s: State, b: nat, a: Attempt, lease: nat, auth: AuthFile, access: Access) returns (t: State)
    requires b in s.brokers && s.brokers[b] == Waiting(a, lease)
    requires s.authority.Some? && s.authority.value.value.auth == Some(Parsed(a.native))
    requires s.authority.value.value.notes.lease == Some(lease)
    requires s.authority.value.value.notes.leaseUntil.Some? && s.authority.value.value.notes.leaseUntil.value > s.now
    requires access.Access? && access.expiresAt > s.now + USABLE_MS
    ensures t == Run(s, ToCommit(b, Refreshed(auth, access)))
    ensures var binding := BindingOf(a.profile, a.authority.value);
      t == s.(brokers := s.brokers[b := ReadingDurable(a.profile, binding, access)], next := s.next + 1,
              authority := Some(Versioned(s.next, CommittedAuthority(s.authority.value.value, auth, access, binding))),
              log := s.log + [Committed(auth, binding, access)], files := s.files + {auth},
              issued := s.issued + (if auth.Parsed? then {auth.native.token} else {}))
  {
    var s1 := Apply(s, Answer(b, Refreshed(auth, access)));
    assert s1.brokers == s.brokers[b := ReadingLatest(a, lease, auth, access)];
    var s2 := Advance(s1, b);
    assert s2.brokers == s.brokers[b := Committing(a, auth, access, s.authority.value)];
    t := Advance(s2, b);
    Run3(s, ToCommit(b, Refreshed(auth, access)));
  }

  lemma SoloPublishes(s: State, b: nat, profile: Profile, binding: Binding, access: Access) returns (t: State)
    requires b in s.brokers && s.brokers[b] == ReadingDurable(profile, binding, access)
    requires s.authority.Some? && Publishable(s.authority.value.value, binding, access) && OutputEmpty(s, profile)
    ensures t == Run(s, ToWrite(b))
    ensures t == s.(brokers := s.brokers[b := PublishWriting(
      Publication(profile, s.authority.value, access, binding, None), Read(s, profile.output), LastCommit(s.log), |s.log|, |s.log|)])
  {
    var p := Publication(profile, s.authority.value, access, binding, None);
    var s1 := Advance(s, b);
    assert s1 == s.(brokers := s.brokers[b := PublishReading(p)]);
    var s2 := Advance(s1, b);
    assert s2 == s.(brokers := s.brokers[b := PublishRereading(p, Read(s, profile.output), |s.log|)]);
    t := Advance(s2, b);
    Run3(s, ToWrite(b));
  }

  /** Alone, a renewal calls the provider once and commits its answer unfenced. */
  lemma SoloRotates(s: State, b: nat, profile: Profile, auth: AuthFile, access: Access) returns (t: State)
    requires b !in s.brokers || s.brokers[b].Idle?
    requires Renewable(s, profile) && OutputEmpty(s, profile)
    requires access.Access? && access.expiresAt > s.now + USABLE_MS
    ensures t == Run(s, ToCall(b, profile) + ToCommit(b, Refreshed(auth, access)))
    ensures var before := s.authority.value.value; var binding := BindingOf(profile, before);
      && t.log == s.log + [Claimed(before.auth.value.native.token), Called(before.auth.value.native.token), Committed(auth, binding, access)]
      && t.brokers == s.brokers[b := ReadingDurable(profile, binding, access)]
      && t.outputs == s.outputs && t.now == s.now && t.files == s.files + {auth}
      && t.issued == s.issued + (if auth.Parsed? then {auth.native.token} else {})
      && t.authority.Some? && t.authority.value.value == before.(auth := Some(auth), access := Some(access),
           notes := Notes(Some(profile.owner), None, None, None, Some(binding), Some(auth)))
  {
    var s4, a := SoloCalls(s, b, profile);
    t := SoloCommits(s4, b, a, s.leases, auth, access);
    RunConcat(s, ToCall(b, profile), ToCommit(b, Refreshed(auth, access)));
  }

  /** The answer to a renewal nobody else touches, `ms` after its claim, is committed if and only if it
      comes within the minute of the lease and is good for more than another; else it is lost. */
  lemma SoloAnswerCountsIff(s: State, b: nat, profile: Profile, ms: nat, auth: AuthFile, access: Access)
    requires b !in s.brokers || s.brokers[b].Idle?
    requires Renewable(s, profile) && OutputEmpty(s, profile)
    ensures var t := Run(s, ToCall(b, profile) + [Tick(ms)] + ToCommit(b, Refreshed(auth, access)));
      var before := s.authority.value.value;
      var counts := ms < 60_000 && access.Access? && access.expiresAt > s.now + ms + 60_000;
      t.log == s.log + [Claimed(before.auth.value.native.token), Called(before.auth.value.native.token)] +
               if counts then [Committed(auth, BindingOf(profile, before), access)] else []
  {
    var reply := Refreshed(auth, access);
    var s4, a := SoloCalls(s, b, profile);
    var s5 := Apply(s4, Tick(ms));
    Run1(s4, [Tick(ms)]);
    RunConcat(s, ToCall(b, profile), [Tick(ms)]);
    RunConcat(s, ToCall(b, profile) + [Tick(ms)], ToCommit(b, reply));
    if ms < 60_000 && access.Access? && access.expiresAt > s.now + ms + 60_000 {
      var t := SoloCommits(s5, b, a, s.leases, auth, access);
    } else {
      AnswerLost(s5, b, a, s.leases, auth, access);
    }
  }

  /** An answer after the lease, or one that is not worth publishing, changes nothing. */
  lemma AnswerLost(s: State, b: nat, a: Attempt, lease: nat, auth: AuthFile, access: Access)
    requires b in s.brokers && s.brokers[b] == Waiting(a, lease)
    requires s.authority.Some? && s.authority.value.value.notes.leaseUntil.Some?
    requires s.authority.value.value.notes.leaseUntil.value <= s.now || access.Garbage? || access.expiresAt <= s.now + USABLE_MS
    ensures var t := Run(s, ToCommit(b, Refreshed(auth, access))); t.log == s.log && t.authority == s.authority
  {
    var s1 := Apply(s, Answer(b, Refreshed(auth, access)));
    assert s1.brokers[b] == ReadingLatest(a, lease, auth, access);
    assert Advance(s1, b).brokers[b].Idle?;
    Run3(s, ToCommit(b, Refreshed(auth, access)));
  }

  function ToPublication(b: nat, profile: Profile, auth: AuthFile, access: Access): seq<Action> {
    ToCall(b, profile) + ToCommit(b, Refreshed(auth, access)) + ToWrite(b)
  }

  /** Then it is about to write that credential, fenced to the authority as committed. */
  lemma SoloReachesWrite(s: State, b: nat, profile: Profile, auth: AuthFile, access: Access) returns (t: State)
    requires b !in s.brokers || s.brokers[b].Idle?
    requires Renewable(s, profile) && OutputEmpty(s, profile)
    requires access.Access? && access.expiresAt > s.now + USABLE_MS
    ensures t == Run(s, ToPublication(b, profile, auth, access))
    ensures var before := s.authority.value.value; var binding := BindingOf(profile, before);
      && t.log == s.log + [Claimed(before.auth.value.native.token), Called(before.auth.value.native.token), Committed(auth, binding, access)]
      && t.authority.Some? && t.authority.value.value == before.(auth := Some(auth), access := Some(access),
           notes := Notes(Some(profile.owner), None, None, None, Some(binding), Some(auth)))
      && t.brokers == s.brokers[b := PublishWriting(Publication(profile, t.authority.value, access, binding, None),
                                                    Read(s, profile.output), |s.log| + 2, |s.log| + 3, |s.log| + 3)]
      && t.outputs == s.outputs && t.now == s.now && t.files == s.files + {auth}
      && t.issued == s.issued + (if auth.Parsed? then {auth.native.token} else {})
  {
    var s7 := SoloRotates(s, b, profile, auth, access);
    assert s7.log[|s.log| + 2].Committed?;
    t := SoloPublishes(s7, b, profile, BindingOf(profile, s.authority.value.value), access);
    RunConcat(s, ToCall(b, profile) + ToCommit(b, Refreshed(auth, access)), ToWrite(b));
  }

  /** Alone, a renewal ends with its credential published: one call, its commit, its write. */
  lemma SoloRenews(s: State, b: nat, profile: Profile, auth: AuthFile, access: Access)
    requires b !in s.brokers || s.brokers[b].Idle?
    requires Renewable(s, profile) && OutputEmpty(s, profile)
    requires access.Access? && access.expiresAt > s.now + USABLE_MS
    ensures var t := Run(s, ToPublication(b, profile, auth, access) + [Step(b)]);
      var binding := BindingOf(profile, s.authority.value.value);
      var token := s.authority.value.value.auth.value.native.token;
      && t.log == s.log + [Claimed(token), Called(token), Committed(auth, binding, access),
                           Wrote(profile.output, access, binding, |s.log| + 2, Read(s, profile.output).None?, |s.log| + 3, |s.log| + 3)]
      && t.brokers == s.brokers[b := Idle(Some(AccessRenewed))]
      && profile.output in t.outputs
      && t.outputs[profile.output].value == Output(Some(profile.owner), Some(binding), Holds(access))
  {
    var s10 := SoloReachesWrite(s, b, profile, auth, access);
    RunConcat(s, ToPublication(b, profile, auth, access), [Step(b)]);
    Run1(s10, [Step(b)]);
    WriteLands(s10, b);
  }

  /** The publishing write, when the Secret is still as it was read. */
  lemma WriteLands(s: State, b: nat)
    requires b in s.brokers && s.brokers[b].PublishWriting? && s.brokers[b].publication.cached.None?
    requires VersionOf(Read(s, s.brokers[b].publication.profile.output)) == VersionOf(s.brokers[b].current)
    ensures var PublishWriting(p, current, commit, read, proof) := s.brokers[b]; var t := Apply(s, Step(b));
      && t.log == s.log + [Wrote(p.profile.output, p.access, p.binding, commit, current.None?, read, proof)]
      && t.brokers == s.brokers[b := Idle(Some(AccessRenewed))] && p.profile.output in t.outputs
      && t.outputs == s.outputs[p.profile.output :=
           Versioned(s.next, Output(Some(p.profile.owner), Some(p.binding), Holds(p.access)))]
  {
  }

  lemma Run1(s: State, p: seq<Action>)
    requires |p| > 0
    ensures Run(s, p) == Run(Apply(s, p[0]), p[1..])
  {
  }

  lemma Run3(s: State, p: seq<Action>)
    requires |p| == 3
    ensures Run(s, p) == Apply(Apply(Apply(s, p[0]), p[1]), p[2])
  {
    Run1(s, p);
    Run1(Apply(s, p[0]), p[1..]);
    Run1(Apply(Apply(s, p[0]), p[1]), p[2..]);
  }

  // ----- Where the two promises end -----

  lemma {:induction false} FairConcat(s: State, first: seq<Action>, second: seq<Action>)
    requires FairRun(s, first) && FairRun(Run(s, first), second)
    ensures FairRun(s, first + second)
    decreases |first|
  {
    if first == [] {
      assert first + second == second;
    } else {
      assert (first + second)[1..] == first[1..] + second;
      FairConcat(Apply(s, first[0]), first[1..], second);
    }
  }

  lemma {:induction false} BrokerStepsFair(s: State, actions: seq<Action>)
    requires forall a :: a in actions ==> a.Start? || a.Step?
    ensures FairRun(s, actions)
    decreases |actions|
  {
    if actions != [] {
      BrokerStepsFair(Apply(s, actions[0]), actions[1..]);
    }
  }

  lemma SoloIsFair(s: State, b: nat, profile: Profile, native: Native, access: Access)
    requires b !in s.brokers || s.brokers[b].Idle?
    requires Renewable(s, profile) && OutputEmpty(s, profile) && native.token !in s.issued
    ensures FairRun(s, ToPublication(b, profile, Parsed(native), access))
  {
    var answer := Answer(b, Refreshed(Parsed(native), access));
    var s4, a := SoloCalls(s, b, profile);
    BrokerStepsFair(s, ToCall(b, profile));
    BrokerStepsFair(Apply(s4, answer), [Step(b), Step(b)] + ToWrite(b));
    assert FairRun(s4, [answer] + ([Step(b), Step(b)] + ToWrite(b)));
    FairConcat(s, ToCall(b, profile), [answer] + ([Step(b), Step(b)] + ToWrite(b)));
    assert ToPublication(b, profile, Parsed(native), access) ==
           ToCall(b, profile) + ([answer] + ([Step(b), Step(b)] + ToWrite(b)));
  }

  /** Two brokers commit one after the other, and both are about to create the output Secret. */
  lemma TwoPendingCreates(profile: Profile, access: Access) returns (actions: seq<Action>, t: State)
    requires access == Access(0, USABLE_MS + 1)
    ensures FairRun(Init(0), actions) && t == Run(Init(0), actions) && |t.log| == 7
    ensures t.outputs == map[] && t.brokers.Keys == {0, 1}
    ensures forall b :: b in t.brokers ==>
      && t.brokers[b].PublishWriting? && t.brokers[b].current.None? && t.brokers[b].commit == 3 * (b + 1)
      && t.brokers[b].publication.profile == profile && t.brokers[b].publication.cached.None?
  {
    var install := [Install(Parsed(Native(1, 0)), false)];
    var s1 := Run(Init(0), install);
    Run1(Init(0), install);
    var s2 := SoloReachesWrite(s1, 0, profile, Parsed(Native(2, 0)), access);
    SoloIsFair(s1, 0, profile, Native(2, 0), access);
    t := SoloReachesWrite(s2, 1, profile, Parsed(Native(3, 0)), access);
    SoloIsFair(s2, 1, profile, Native(3, 0), access);
    var one := install + ToPublication(0, profile, Parsed(Native(2, 0)), access);
    RunConcat(Init(0), install, ToPublication(0, profile, Parsed(Native(2, 0)), access));
    FairConcat(Init(0), install, ToPublication(0, profile, Parsed(Native(2, 0)), access));
    actions := one + ToPublication(1, profile, Parsed(Native(3, 0)), access);
    RunConcat(Init(0), one, ToPublication(1, profile, Parsed(Native(3, 0)), access));
    FairConcat(Init(0), one, ToPublication(1, profile, Parsed(Native(3, 0)), access));
  }

  /** Deleting an output Secret under a publication that found it absent lets an earlier
      commit be written after a later one: the create it is about to send still succeeds. */
  lemma DeletedOutputGoesBack() returns (actions: seq<Action>, log: seq<Event>)
    ensures FairRun(Init(0), actions) && log == Run(Init(0), actions).log
    ensures |log| == 10 && log[7].Wrote? && log[8].Deleted? && log[9].Wrote? && log[7].output == log[9].output
    ensures log[9].commit < log[7].commit
  {
    var profile := Profile(7, 8);
    var first, s3 := TwoPendingCreates(profile, Access(0, USABLE_MS + 1));
    WriteLands(s3, 1);
    var s4 := Apply(s3, Step(1));
    var s5 := Apply(s4, RemoveOutput(8));
    assert s5.brokers[0] == s3.brokers[0];
    WriteLands(s5, 0);
    var rest := [Step(1), RemoveOutput(8), Step(0)];
    Run3(s3, rest);
    RunConcat(Init(0), first, rest);
    BrokerStepsFair(s5, [Step(0)]);
    assert rest[1..][1..] == [Step(0)];
    FairConcat(Init(0), first, rest);
    actions, log := first + rest, Apply(s5, Step(0)).log;
  }

  /** A login without notes is claimed and called with, whatever was there before. */
  lemma ReinstalledIsCalled(s: State, b: nat, profile: Profile) returns (t: State)
    requires b !in s.brokers && OutputEmpty(s, profile)
    ensures t == Run(Run(s, [Install(Parsed(Native(1, 0)), false)]), ToCall(b, profile))
    ensures t.log == s.log + [Installed(Parsed(Native(1, 0)), None), Claimed(1), Called(1)]
  {
    var s1 := Apply(s, Install(Parsed(Native(1, 0)), false));
    Run1(s, [Install(Parsed(Native(1, 0)), false)]);
    assert [Install(Parsed(Native(1, 0)), false)][1..] == [];
    var a;
    t, a := SoloCalls(s1, b, profile);
  }

  /** Installing a login again, without the notes that fence it, shows its credential to the
      provider a second time with no commit in between. */
  lemma ReinstalledLoginCalledTwice() returns (actions: seq<Action>, log: seq<Event>)
    ensures log == Run(Init(0), actions).log
    ensures log == [Installed(Parsed(Native(1, 0)), None), Claimed(1), Called(1), Installed(Parsed(Native(1, 0)), None), Claimed(1), Called(1)]
  {
    var profile, install := Profile(7, 8), [Install(Parsed(Native(1, 0)), false)];
    var s1 := Run(Init(0), install);
    Run1(Init(0), install);
    var s2, _ := SoloCalls(s1, 0, profile);
    RunConcat(Init(0), install, ToCall(0, profile));
    var s4 := ReinstalledIsCalled(s2, 1, profile);
    RunConcat(Init(0), install + ToCall(0, profile), install);
    RunConcat(Init(0), install + ToCall(0, profile) + install, ToCall(1, profile));
    actions, log := install + ToCall(0, profile) + install + ToCall(1, profile), s4.log;
  }
}
