/** Claims and calls, whatever operators install and whatever the provider answers: a credential is
    claimed at most as often as it was stored, and when a reinstalled login lets it be claimed again. */
module CodexClaims {
  import opened VersionedStore
  import opened CodexSubscription
  import opened CodexRefreshFence

  // ----- Snapshots, in every run -----

  lemma AdvanceKeepsSnapshots(s: State, b: nat)
    requires Snapshots(s) && b in s.brokers
    ensures Snapshots(Advance(s, b))
  {
    var pc, t := s.brokers[b], Advance(s, b);
    assert PcOk(s, pc);
    if (pc.Claiming? || pc.Committing?) && t.next != s.next {
      SnapshotsSurvive(s, t, b);
    } else if !pc.Claiming? && !pc.Calling? && !pc.Committing? {
      AdvanceMoves(s, b);
      MovedKeepsSnapshots(s, t, b);
    } else {
      OthersKeepSnapshots(s, t, b);
    }
  }

  /** Broker `b` went on to where it promises nothing; the authority did not move. */
  lemma OthersKeepSnapshots(s: State, t: State, b: nat)
    requires Snapshots(s) && t.next >= s.next && (t.authority == s.authority || t.authority.None?)
    requires forall c :: c in t.brokers ==> (c in s.brokers && t.brokers[c] == s.brokers[c]) || (c == b && PcOk(t, t.brokers[c]))
    ensures Snapshots(t)
  {
    forall c | c in t.brokers ensures PcOk(t, t.brokers[c]) {
      if c in s.brokers && t.brokers[c] == s.brokers[c] { assert PcOk(s, s.brokers[c]); }
    }
  }

  lemma ThrowKeepsSnapshots(s: State, b: nat, applied: bool)
    requires Snapshots(s) && b in s.brokers
    ensures Snapshots(Apply(s, Throw(b, applied)))
  {
    var pc := s.brokers[b];
    assert PcOk(s, pc);
    AdvanceKeepsSnapshots(s, b);
    var t := Advance(s, b);
    if applied {
      if pc.PublishWriting? && pc.publication.cached.Some? {
        AdvanceMoves(s, b);
        RenewMoves(t, b, pc.publication.cached.value);
        MovedKeepsSnapshots(t, Renew(t, b, pc.publication.cached.value), b);
      } else {
        OthersKeepSnapshots(t, Done(t, b, AuthorityUnavailable), b);
      }
    } else {
      if (pc.PublishReading? || pc.PublishRereading? || pc.PublishWriting?) && pc.publication.cached.Some? {
        RenewMoves(s, b, pc.publication.cached.value);
        MovedKeepsSnapshots(s, Renew(s, b, pc.publication.cached.value), b);
      } else {
        OthersKeepSnapshots(s, Done(s, b, AuthorityUnavailable), b);
      }
    }
  }

  lemma InstallKeepsSnapshots(s: State, auth: AuthFile, keepNotes: bool)
    requires Snapshots(s)
    ensures Snapshots(Apply(s, Install(auth, keepNotes)))
  {
    var t := Apply(s, Install(auth, keepNotes));
    forall c | c in t.brokers ensures PcOk(t, t.brokers[c]) { assert PcOk(s, s.brokers[c]); }
  }

  lemma StepKeepsSnapshots(s: State, action: Action)
    requires Snapshots(s)
    ensures Snapshots(Apply(s, action))
  {
    match action
    case Step(b) => if b in s.brokers { AdvanceKeepsSnapshots(s, b); }
    case Throw(b, applied) => if b in s.brokers { ThrowKeepsSnapshots(s, b, applied); }
    case Install(auth, keepNotes) => InstallKeepsSnapshots(s, auth, keepNotes);
    case Start(b, _) => OthersKeepSnapshots(s, Apply(s, action), b);
    case Answer(b, _) => OthersKeepSnapshots(s, Apply(s, action), b);
    case Crash(b) => OthersKeepSnapshots(s, Apply(s, action), b);
    case _ => OthersKeepSnapshots(s, Apply(s, action), 0);
  }

  // ----- Counting -----

  /** The event puts the credential into the authority. */
  predicate Stores(e: Event, token: nat) {
    (e.Committed? || e.Installed?) && e.auth.Parsed? && e.auth.native.token == token
  }

  function Claims(log: seq<Event>, token: nat): nat {
    if log == [] then 0 else Claims(log[..|log| - 1], token) + if log[|log| - 1] == Claimed(token) then 1 else 0
  }

  function Calls(log: seq<Event>, token: nat): nat {
    if log == [] then 0 else Calls(log[..|log| - 1], token) + if log[|log| - 1] == Called(token) then 1 else 0
  }

  function Storings(log: seq<Event>, token: nat): nat {
    if log == [] then 0 else Storings(log[..|log| - 1], token) + if Stores(log[|log| - 1], token) then 1 else 0
  }

  lemma CountsGrow(log: seq<Event>, e: Event, token: nat)
    ensures Claims(log + [e], token) == Claims(log, token) + if e == Claimed(token) then 1 else 0
    ensures Calls(log + [e], token) == Calls(log, token) + if e == Called(token) then 1 else 0
    ensures Storings(log + [e], token) == Storings(log, token) + if Stores(e, token) then 1 else 0
  {
    assert (log + [e])[..|log|] == log;
  }

  /** The brokers that have claimed the credential and have still to call with it. */
  function Callers(s: State, token: nat): set<nat> {
    set b | b in s.brokers && s.brokers[b].Calling? && s.brokers[b].attempt.native.token == token
  }

  /** The credential is in the authority, and no intent forbids claiming it. */
  ghost predicate Claimable(s: State, token: nat) {
    CurrentToken(s) == Some(token) && s.authority.value.value.notes.intent != Some(token)
  }

  ghost predicate Separated(log: seq<Event>, token: nat) {
    forall i, j :: 0 <= i < j < |log| && log[i] == Claimed(token) && log[j] == Claimed(token) ==> StoredBetween(log, i, j, token)
  }

  ghost predicate StoredBetween(log: seq<Event>, i: int, j: int, token: nat) {
    exists k :: 0 <= i < k < j <= |log| && Stores(log[k], token)
  }

  /** A claimed credential that may be claimed was stored since. */
  ghost predicate ClaimsFenced(s: State, token: nat) {
    Claimable(s, token) ==> forall i :: 0 <= i < |s.log| && s.log[i] == Claimed(token) ==> StoredBetween(s.log, i, |s.log|, token)
  }

  ghost predicate Inv(s: State, token: nat) {
    && Snapshots(s) && Separated(s.log, token) && ClaimsFenced(s, token)
    && Calls(s.log, token) + |Callers(s, token)| <= Claims(s.log, token)
    && Claims(s.log, token) + (if Claimable(s, token) then 1 else 0) <= Storings(s.log, token)
  }

  // ----- What a step may do to it -----

  lemma StoredStays(before: seq<Event>, after: seq<Event>, i: int, j: int, token: nat)
    requires before <= after && StoredBetween(before, i, j, token)
    ensures StoredBetween(after, i, j, token)
  {
    var k :| 0 <= i < k < j <= |before| && Stores(before[k], token);
    assert after[k] == before[k];
  }

  lemma SeparatedGrows(log: seq<Event>, e: Event, token: nat)
    requires Separated(log, token)
    requires e == Claimed(token) ==> forall i :: 0 <= i < |log| && log[i] == Claimed(token) ==> StoredBetween(log, i, |log|, token)
    ensures Separated(log + [e], token)
  {
    var more := log + [e];
    forall i, j | 0 <= i < j < |more| && more[i] == Claimed(token) && more[j] == Claimed(token)
      ensures StoredBetween(more, i, j, token)
    {
      assert log[i] == Claimed(token);
      StoredStays(log, more, i, j, token);
    }
  }

  /** Nobody comes to call with the credential. */
  lemma FewerCallers(s: State, t: State, token: nat)
    requires forall b :: b in t.brokers && t.brokers[b].Calling? ==> b in s.brokers && s.brokers[b] == t.brokers[b]
    ensures |Callers(t, token)| <= |Callers(s, token)|
  {
    assert Callers(t, token) <= Callers(s, token);
    SubsetIsSmaller(Callers(t, token), Callers(s, token));
  }

  lemma {:induction false} SubsetIsSmaller(a: set<nat>, b: set<nat>)
    requires a <= b
    ensures |a| <= |b|
  {
    if a != {} {
      var x :| x in a;
      SubsetIsSmaller(a - {x}, b - {x});
    }
  }

  ghost predicate NobodyCalls(s: State, t: State) {
    forall b :: b in t.brokers && t.brokers[b].Calling? ==> b in s.brokers && s.brokers[b] == t.brokers[b]
  }

  /** The log grew by an event that is neither a claim nor a call, or not at all; what can be claimed now
      could be before, or was just stored. */
  lemma QuietStep(s: State, t: State, token: nat)
    requires Inv(s, token) && Snapshots(t) && NobodyCalls(s, t)
    requires t.log == s.log || (exists e :: t.log == s.log + [e] && !e.Claimed? && !e.Called?)
    requires Claimable(t, token) ==> Claimable(s, token) || (t.log != s.log && Stores(t.log[|t.log| - 1], token))
    ensures Inv(t, token)
  {
    FewerCallers(s, t, token);
    if t.log != s.log {
      var e :| t.log == s.log + [e] && !e.Claimed? && !e.Called?;
      CountsGrow(s.log, e, token);
      SeparatedGrows(s.log, e, token);
      forall i | Claimable(t, token) && 0 <= i < |t.log| && t.log[i] == Claimed(token)
        ensures StoredBetween(t.log, i, |t.log|, token)
      {
        assert s.log[i] == Claimed(token);
        if Stores(e, token) { assert Stores(t.log[|s.log|], token); }
        else { StoredStays(s.log, t.log, i, |s.log|, token); LaterBound(t.log, i, |s.log|, token); }
      }
    }
  }

  lemma LaterBound(log: seq<Event>, i: int, j: int, token: nat)
    requires StoredBetween(log, i, j, token) && j <= |log|
    ensures StoredBetween(log, i, |log|, token)
  {
    var k :| 0 <= i < k < j <= |log| && Stores(log[k], token);
  }

  lemma ClaimStep(s: State, b: nat, token: nat)
    requires Inv(s, token) && b in s.brokers && s.brokers[b].Claiming?
    ensures Inv(Advance(s, b), token)
  {
    var a, t := s.brokers[b].attempt, Advance(s, b);
    assert PcOk(s, s.brokers[b]);
    AdvanceKeepsSnapshots(s, b);
    if t.log == s.log {
      QuietStep(s, t, token);
    } else {
      var e := Claimed(a.native.token);
      CountsGrow(s.log, e, token);
      assert CurrentToken(s) == Some(a.native.token) && Claimable(s, a.native.token) && !Claimable(t, a.native.token);
      assert CurrentToken(t) == CurrentToken(s);
      SeparatedGrows(s.log, e, token);
      assert Callers(t, token) <= Callers(s, token) + if token == a.native.token then {b} else {};
      SubsetIsSmaller(Callers(t, token), Callers(s, token) + if token == a.native.token then {b} else {});
    }
  }

  lemma CallStep(s: State, b: nat, token: nat)
    requires Inv(s, token) && b in s.brokers && s.brokers[b].Calling?
    ensures Inv(Advance(s, b), token)
  {
    var a, t := s.brokers[b].attempt, Advance(s, b);
    AdvanceKeepsSnapshots(s, b);
    var e := Called(a.native.token);
    CountsGrow(s.log, e, token);
    SeparatedGrows(s.log, e, token);
    assert Callers(t, token) == Callers(s, token) - {b};
    forall i | Claimable(t, token) && 0 <= i < |t.log| && t.log[i] == Claimed(token)
      ensures StoredBetween(t.log, i, |t.log|, token)
    {
      assert s.log[i] == Claimed(token) && Claimable(s, token);
      StoredStays(s.log, t.log, i, |s.log|, token);
      LaterBound(t.log, i, |s.log|, token);
    }
  }

  lemma CommitStep(s: State, b: nat, token: nat)
    requires Inv(s, token) && b in s.brokers && s.brokers[b].Committing?
    ensures Inv(Advance(s, b), token)
  {
    AdvanceKeepsSnapshots(s, b);
    var t := Advance(s, b);
    if t.log != s.log { assert t.log == s.log + [t.log[|s.log|]]; }
    QuietStep(s, t, token);
  }

  lemma PassStep(s: State, b: nat, token: nat)
    requires Inv(s, token) && b in s.brokers && !s.brokers[b].Claiming? && !s.brokers[b].Calling? && !s.brokers[b].Committing?
    ensures Inv(Advance(s, b), token)
  {
    var t := Advance(s, b);
    assert PcOk(s, s.brokers[b]);
    AdvanceKeepsSnapshots(s, b);
    AdvanceMoves(s, b);
    if t.log != s.log { PassLogs(s, b); }
    QuietStep(s, t, token);
  }

  lemma PassLogs(s: State, b: nat)
    requires b in s.brokers && !s.brokers[b].Claiming? && !s.brokers[b].Calling? && !s.brokers[b].Committing?
    ensures var t := Advance(s, b); t.log == s.log || exists e :: t.log == s.log + [e] && e.Wrote?
  {
    if s.brokers[b].PublishWriting? && Advance(s, b).log != s.log {
      assert Advance(s, b).log == s.log + [Advance(s, b).log[|s.log|]];
    }
  }

  lemma AdvanceKeepsInv(s: State, b: nat, token: nat)
    requires Inv(s, token) && b in s.brokers
    ensures Inv(Advance(s, b), token)
  {
    if s.brokers[b].Claiming? { ClaimStep(s, b, token); }
    else if s.brokers[b].Calling? { CallStep(s, b, token); }
    else if s.brokers[b].Committing? { CommitStep(s, b, token); }
    else { PassStep(s, b, token); }
  }

  lemma ThrowStep(s: State, b: nat, applied: bool, token: nat)
    requires Inv(s, token) && b in s.brokers
    ensures Inv(Apply(s, Throw(b, applied)), token)
  {
    var t, u := Advance(s, b), Apply(s, Throw(b, applied));
    AdvanceKeepsInv(s, b, token);
    ThrowKeepsSnapshots(s, b, applied);
    ThrowShape(s, b, applied);
    if u.log == t.log && u.authority == t.authority && NobodyCalls(t, u) { QuietStep(t, u, token); }
    else { QuietStep(s, u, token); }
  }

  /** A failed request leaves its task where it calls nobody, with the step taken or not. */
  lemma ThrowShape(s: State, b: nat, applied: bool)
    requires b in s.brokers
    ensures var t, u := Advance(s, b), Apply(s, Throw(b, applied));
      || (u.log == t.log && u.authority == t.authority && NobodyCalls(t, u))
      || (u.log == s.log && u.authority == s.authority && NobodyCalls(s, u))
  {
  }

  lemma InstallStep(s: State, auth: AuthFile, keepNotes: bool, token: nat)
    requires Inv(s, token)
    ensures Inv(Apply(s, Install(auth, keepNotes)), token)
  {
    var t := Apply(s, Install(auth, keepNotes));
    InstallKeepsSnapshots(s, auth, keepNotes);
    assert t.log == s.log + [t.log[|s.log|]];
    QuietStep(s, t, token);
  }

  predicate Silent(action: Action) {
    action.Start? || action.Answer? || action.Crash? || action.Tick? || action.RemoveAuthority?
  }

  lemma SilentStep(s: State, action: Action, token: nat)
    requires Inv(s, token) && Silent(action) && Snapshots(Apply(s, action))
    ensures Inv(Apply(s, action), token)
  {
    QuietStep(s, Apply(s, action), token);
  }

  lemma RemoveOutputStep(s: State, o: nat, token: nat)
    requires Inv(s, token) && Snapshots(Apply(s, RemoveOutput(o)))
    ensures Inv(Apply(s, RemoveOutput(o)), token)
  {
    if o in s.outputs { assert Apply(s, RemoveOutput(o)).log == s.log + [Deleted(o)]; }
    QuietStep(s, Apply(s, RemoveOutput(o)), token);
  }

  lemma StepKeepsInv(s: State, action: Action, token: nat)
    requires Inv(s, token)
    ensures Inv(Apply(s, action), token)
  {
    StepKeepsSnapshots(s, action);
    match action
    case Step(b) => if b in s.brokers { AdvanceKeepsInv(s, b, token); }
    case Throw(b, applied) => if b in s.brokers { ThrowStep(s, b, applied, token); }
    case Install(auth, keepNotes) => InstallStep(s, auth, keepNotes, token);
    case RemoveOutput(o) => RemoveOutputStep(s, o, token);
    case _ => SilentStep(s, action, token);
  }

  lemma {:induction false} RunKeepsInv(s: State, actions: seq<Action>, token: nat)
    requires Inv(s, token)
    ensures Inv(Run(s, actions), token)
    decreases |actions|
  {
    if actions != [] {
      StepKeepsInv(s, actions[0], token);
      RunKeepsInv(Apply(s, actions[0]), actions[1..], token);
    }
  }

  // ----- Theorems, over every run -----

  /** Whatever operators install and the provider answers: a credential is shown to the provider no
      more often than it was claimed, and claimed no more often than a commit or an install stored it. */
  lemma CallsNeverExceedStorings(now: int, actions: seq<Action>, token: nat)
    ensures var log := Run(Init(now), actions).log;
      Calls(log, token) <= Claims(log, token) <= Storings(log, token)
  {
    RunKeepsInv(Init(now), actions, token);
  }

  /** Two claims of one credential are separated by the commit that stored it again, or by an install
      that brought it. */
  lemma ClaimsAreSeparated(now: int, actions: seq<Action>, token: nat, i: nat, j: nat)
    requires var log := Run(Init(now), actions).log; i < j < |log| && log[i] == Claimed(token) && log[j] == Claimed(token)
    ensures var log := Run(Init(now), actions).log; exists k :: i < k < j && Stores(log[k], token)
  {
    RunKeepsInv(Init(now), actions, token);
    assert StoredBetween(Run(Init(now), actions).log, i, j, token);
  }
}
