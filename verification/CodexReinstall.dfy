/** When an operator's reinstall of a login breaks the refresh fence: exactly when its credential was
    claimed since it was last committed, and the notes left beside it hold no intent for it. */
module CodexReinstall {
  import opened VersionedStore
  import opened CodexSubscription
  import opened CodexRefreshFence
  import opened Claims = CodexClaims
  import Renewal = CodexRenewal

  // ----- A fenced credential is not claimed until it is stored again -----

  lemma AdvanceLogs(s: State, b: nat)
    requires b in s.brokers
    ensures var t := Advance(s, b); t.log == s.log || (|t.log| == |s.log| + 1 && t.log == s.log + [t.log[|s.log|]])
  {
  }

  lemma StepLogs(s: State, action: Action)
    ensures var t := Apply(s, action); t.log == s.log || (|t.log| == |s.log| + 1 && t.log == s.log + [t.log[|s.log|]])
  {
    match action
    case Step(b) => if b in s.brokers { AdvanceLogs(s, b); }
    case Throw(b, _) => if b in s.brokers { AdvanceLogs(s, b); }
    case _ =>
  }

  ghost predicate StaysFenced(s: State, t: State, token: nat) {
    || (t.log != s.log && |t.log| > |s.log| && Stores(t.log[|s.log|], token))
    || (Fenced(t, token) && (t.log == s.log || (|t.log| > |s.log| && t.log[|s.log|] != Claimed(token))))
  }

  lemma AdvanceStaysFenced(s: State, b: nat, token: nat)
    requires Snapshots(s) && Fenced(s, token) && b in s.brokers
    ensures StaysFenced(s, Advance(s, b), token)
  {
    var pc := s.brokers[b];
    assert PcOk(s, pc);
    if !pc.Claiming? && !pc.Calling? && !pc.Committing? {
      AdvanceMoves(s, b);
      PassLogs(s, b);
    }
  }

  lemma StepStaysFenced(s: State, action: Action, token: nat)
    requires Snapshots(s) && Fenced(s, token)
    ensures StaysFenced(s, Apply(s, action), token)
  {
    match action
    case Step(b) => if b in s.brokers { AdvanceStaysFenced(s, b, token); }
    case Throw(b, applied) =>
      if b in s.brokers {
        AdvanceStaysFenced(s, b, token);
        ThrowShape(s, b, applied);
      }
    case _ =>
  }

  lemma {:induction false} FencedUntilStored(s: State, actions: seq<Action>, token: nat, j: nat)
    requires Snapshots(s) && Fenced(s, token)
    requires |s.log| <= j < |Run(s, actions).log| && Run(s, actions).log[j] == Claimed(token)
    ensures s.log <= Run(s, actions).log
    ensures exists k :: |s.log| <= k < j && Stores(Run(s, actions).log[k], token)
    decreases |actions|
  {
    if actions != [] {
      var t := Apply(s, actions[0]);
      StepLogs(s, actions[0]);
      StepStaysFenced(s, actions[0], token);
      StepKeepsSnapshots(s, actions[0]);
      RunLogs(t, actions[1..]);
      var log := Run(t, actions[1..]).log;
      if t.log != s.log && Stores(t.log[|s.log|], token) {
        assert log[|s.log|] == t.log[|s.log|];
      } else {
        if j < |t.log| { assert false; }
        FencedUntilStored(t, actions[1..], token, j);
      }
    }
  }

  lemma {:induction false} RunLogs(s: State, actions: seq<Action>)
    ensures s.log <= Run(s, actions).log
    decreases |actions|
  {
    if actions != [] {
      StepLogs(s, actions[0]);
      RunLogs(Apply(s, actions[0]), actions[1..]);
    }
  }

  // ----- One that is not fenced can be -----

  lemma FreshName(used: set<nat>) returns (n: nat)
    ensures n !in used
  {
    var top := Top(used);
    n := top + 1;
  }

  lemma {:induction false} Top(used: set<nat>) returns (n: nat)
    ensures forall x :: x in used ==> x <= n
    decreases |used|
  {
    if used == {} {
      n := 0;
    } else {
      var x :| x in used;
      var m := Top(used - {x});
      n := if x > m then x else m;
      forall y | y in used ensures y <= n {
        if y != x { assert y in used - {x}; }
      }
    }
  }

  /** A broker of the login's own profile, with an output of its own, once the cached access ran out. */
  lemma ClaimableIsClaimed(s: State, token: nat) returns (actions: seq<Action>)
    requires Claimable(s, token)
    ensures Run(s, actions).log == s.log + [Claimed(token), Called(token)]
  {
    var authority := s.authority.value.value;
    var b := FreshName(s.brokers.Keys);
    var output := FreshName(s.outputs.Keys);
    var profile := Profile(if authority.notes.owner.Some? then authority.notes.owner.value else 0, output);
    var ms: nat := if authority.access.Some? && authority.access.value.Access? && authority.access.value.expiresAt > s.now
                   then authority.access.value.expiresAt - s.now else 0;
    var t := Apply(s, Tick(ms));
    Renewal.Run1(s, [Tick(ms)]);
    assert [Tick(ms)][1..] == [] && Run(s, [Tick(ms)]) == t;
    var u, a := Renewal.SoloCalls(t, b, profile);
    Renewal.RunConcat(s, [Tick(ms)], Renewal.ToCall(b, profile));
    actions := [Tick(ms)] + Renewal.ToCall(b, profile);
  }

  // ----- The reinstall -----

  /** Claimed, and not committed since. */
  ghost predicate Open(log: seq<Event>, token: nat) {
    exists i :: OpenAt(log, i, token)
  }

  ghost predicate OpenAt(log: seq<Event>, i: int, token: nat) {
    0 <= i < |log| && log[i] == Claimed(token) && forall k :: i < k < |log| ==> !Returns(log[k], token)
  }

  /** The intent the notes will hold after the install. */
  function IntentLeft(s: State, keepNotes: bool): Option<nat> {
    if keepNotes && s.authority.Some? then s.authority.value.value.notes.intent else None
  }

  /** Two claims, from before the install and after it, with no commit between them that stored the
      credential again, and no other install of it. */
  ghost predicate Reclaims(log: seq<Event>, installed: int, i: int, j: int, token: nat) {
    && 0 <= i < installed < j < |log| && log[i] == Claimed(token) && log[j] == Claimed(token)
    && (forall k :: i < k < j ==> !Returns(log[k], token))
    && (forall k :: installed < k < j ==> !Stores(log[k], token))
  }

  ghost predicate ReclaimsIn(u: State, actions: seq<Action>, installed: int, token: nat) {
    exists i, j :: Reclaims(Run(u, actions).log, installed, i, j, token)
  }

  ghost predicate MayReclaim(u: State, installed: int, token: nat) {
    exists actions :: ReclaimsIn(u, actions, installed, token)
  }

  lemma ReclaimNeedsNoIntent(s: State, u: State, actions: seq<Action>, i: int, j: int, token: nat)
    requires Snapshots(u) && s.log <= u.log && |u.log| == |s.log| + 1 && !Returns(u.log[|s.log|], token)
    requires CurrentToken(u) == Some(token) && Reclaims(Run(u, actions).log, |s.log|, i, j, token)
    ensures Claimable(u, token) && OpenAt(s.log, i, token)
  {
    var log := Run(u, actions).log;
    RunLogs(u, actions);
    assert forall k :: 0 <= k < |s.log| ==> log[k] == u.log[k] == s.log[k];
    if !Claimable(u, token) {
      FencedUntilStored(u, actions, token, j);
    }
  }

  lemma NoIntentReclaims(s: State, u: State, i: int, token: nat)
    requires s.log <= u.log && |u.log| == |s.log| + 1 && !Returns(u.log[|s.log|], token)
    requires Claimable(u, token) && OpenAt(s.log, i, token)
    ensures MayReclaim(u, |s.log|, token)
  {
    var actions := ClaimableIsClaimed(u, token);
    var log := Run(u, actions).log;
    assert forall k :: 0 <= k < |s.log| ==> log[k] == u.log[k] == s.log[k];
    assert Reclaims(log, |s.log|, i, |u.log|, token);
    assert ReclaimsIn(u, actions, |s.log|, token);
  }

  /** From any reachable state: after a login is installed, its credential may be claimed again with no
      commit of it in between if and only if it was claimed since it was last committed, and the
      notes left beside it hold no intent for it. */
  lemma ReinstallBreaksFenceIff(now: int, earlier: seq<Action>, native: Native, keepNotes: bool)
    ensures var s := Run(Init(now), earlier);
      MayReclaim(Apply(s, Install(Parsed(native), keepNotes)), |s.log|, native.token) <==>
      Open(s.log, native.token) && IntentLeft(s, keepNotes) != Some(native.token)
  {
    var s, token := Run(Init(now), earlier), native.token;
    var u := Apply(s, Install(Parsed(native), keepNotes));
    Claims.RunKeepsInv(Init(now), earlier, token);
    InstallKeepsSnapshots(s, Parsed(native), keepNotes);
    assert u.log == s.log + [u.log[|s.log|]];
    assert Claimable(u, token) <==> IntentLeft(s, keepNotes) != Some(token);
    if MayReclaim(u, |s.log|, token) {
      var actions :| ReclaimsIn(u, actions, |s.log|, token);
      var i, j :| Reclaims(Run(u, actions).log, |s.log|, i, j, token);
      ReclaimNeedsNoIntent(s, u, actions, i, j, token);
    }
    if Open(s.log, token) && Claimable(u, token) {
      var i :| OpenAt(s.log, i, token);
      NoIntentReclaims(s, u, i, token);
    }
  }
}
