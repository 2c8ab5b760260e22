/** `renew` of the GitHub App broker as the program text has it, run among any other brokers, and
    the renewal of a broker that is alone. */
module GitHubRenewal {
  import opened VersionedStore
  import opened GitHubBroker

  predicate Other(action: Action, b: nat) {
    match action
    case RemoveOutput => true
    case Tick(_) => true
    case _ => action.b != b
  }

  predicate Others(actions: seq<Action>, b: nat) {
    forall a :: a in actions ==> Other(a, b)
  }

  lemma {:induction false} RunConcat(s: State, first: seq<Action>, second: seq<Action>)
    ensures Run(s, first + second) == Run(Run(s, first), second)
    decreases |first|
  {
    if first == [] {
      assert first + second == second;
    } else {
      assert (first + second)[1..] == first[1..] + second;
      RunConcat(Apply(s, first[0]), first[1..], second);
    }
  }

  ghost predicate SamePc(s: State, u: State, b: nat) {
    b in s.brokers && b in u.brokers && u.brokers[b] == s.brokers[b]
  }

  lemma ApplyKeepsPc(s: State, action: Action, b: nat)
    requires b in s.brokers && Other(action, b)
    ensures SamePc(s, Apply(s, action), b)
  {
    match action
    case Step(c) => if c in s.brokers { assert SamePc(s, Advance(s, c), b); }
    case Throw(c, applied) => if c in s.brokers && Apply(s, action) != s { assert SamePc(s, Thrown(s, c, applied), b); }
    case _ =>
  }

  lemma {:induction false} OthersKeepPc(s: State, actions: seq<Action>, b: nat)
    requires b in s.brokers && Others(actions, b)
    ensures SamePc(s, Run(s, actions), b)
    decreases |actions|
  {
    if actions != [] {
      ApplyKeepsPc(s, actions[0], b);
      OthersKeepPc(Apply(s, actions[0]), actions[1..], b);
    }
  }

  lemma {:induction false} RunGoesOn(s: State, actions: seq<Action>)
    ensures Run(s, actions).now >= s.now && Run(s, actions).serials >= s.serials
    decreases |actions|
  {
    if actions != [] { RunGoesOn(Apply(s, actions[0]), actions[1..]); }
  }

  class Cluster {
    var s: State
    ghost const start: State
    ghost var trace: seq<Action>

    constructor (s: State)
      ensures Valid() && this.s == s && trace == [] && start == s
    {
      this.s := s;
      start := s;
      trace := [];
    }

    ghost predicate Valid()
      reads this
    {
      s == Run(start, trace)
    }

    method Await(b: nat)
      requires Valid() && b in s.brokers
      modifies this
      ensures Valid() && old(trace) <= trace && SamePc(old(s), s, b) && s.now >= old(s.now) && s.serials >= old(s.serials)
    {
      var actions: seq<Action> :| Others(actions, b) by { assert Others([], b); }
      OthersKeepPc(s, actions, b);
      RunGoesOn(s, actions);
      s := Run(s, actions);
      trace := trace + actions;
      RunConcat(start, old(trace), actions);
    }

    method Do(action: Action)
      requires Valid()
      modifies this
      ensures Valid() && trace == old(trace) + [action] && s == Apply(old(s), action)
    {
      s := Apply(s, action);
      trace := trace + [action];
      RunConcat(start, old(trace), [action]);
    }

    method ReadSecret(b: nat) returns (secret: Option<Versioned<Output>>)
      requires Valid() && b in s.brokers
      modifies this
      ensures Valid() && old(trace) <= trace && s == Advance(old(s), b) && secret == old(s).cell
    {
      secret := s.cell;
      Do(Step(b));
    }

    /** The compare and swap the protocol has broker `b` make is the one the program asks for. */
    method CompareAndSwap(b: nat, expected: Option<nat>, secret: Output) returns (ok: bool)
      requires Valid() && b in s.brokers
      requires match s.brokers[b]
        case Claiming(profile, current, lock, until) =>
          expected == VersionOf(current) && secret == ClaimOf(OutputOf(current), profile, lock, until)
        case Committing(_, _, minted, latest, retryAt) =>
          expected == Some(latest.version) && secret == CommitOf(latest.value, minted, retryAt)
        case _ => false
      modifies this
      ensures Valid() && old(trace) <= trace && s == Advance(old(s), b)
      ensures ok <==> VersionOf(old(s).cell) == expected
      ensures s.cell == if ok then Some(Versioned(old(s).next, secret)) else old(s).cell
    {
      ok := VersionOf(s.cell) == expected;
      Do(Step(b));
    }

    /** The mint request leaves; a token, an unusable answer or nothing comes back. */
    method Request(b: nat) returns (token: Option<Token>)
      requires Valid() && b in s.brokers && s.brokers[b].Minting?
      modifies this
      ensures Valid() && old(trace) <= trace && b in s.brokers
      ensures s.brokers[b] == ReadingLatest(old(s).brokers[b].profile, old(s).brokers[b].lock, token)
      ensures token.Some? ==> token.value.configuration == old(s).brokers[b].profile.configuration
      ensures token.Some? ==> old(s).serials <= token.value.serial < s.serials && token.value.expiresAt > old(s).now + RENEW_EARLY_MS
    {
      Await(b);
      var answered: bool, expiresAt: int := *, *;
      Do(if answered then MintReplies(b, expiresAt) else MintFails(b));
      token := s.brokers[b].minted;
    }
  }

  /** One pass of `renew`, without store errors; the broker ends with the outcome returned. */
  method RenewProfile(w: Cluster, b: nat, profile: Profile) returns (outcome: Outcome)
    requires w.Valid() && (b !in w.s.brokers || w.s.brokers[b].Idle?)
    modifies w
    ensures w.Valid() && old(w.trace) <= w.trace
    ensures b in w.s.brokers && w.s.brokers[b] == Idle(Some(outcome))
  {
    w.Do(Start(b, profile));
    var now := w.s.now;
    w.Await(b);
    var current := w.ReadSecret(b);
    var o := OutputOf(current);
    if current.Some? && o.profile != Some(profile.identity) { return AlreadyOwned; }
    if o.lockUntil.Some? && o.lockUntil.value > now { return InProgress; }
    var matches := o.configuration == Some(profile.configuration);
    if matches && o.token.Some? && o.expiresAt.Some? && o.expiresAt.value > now + RENEW_EARLY_MS { return TokenCurrent; }
    if matches && o.nextAttempt.Some? && o.nextAttempt.value > now { return Backoff; }
    var lock, until := w.s.brokers[b].lock, now + LOCK_MS;
    w.Await(b);
    var claimed := w.CompareAndSwap(b, VersionOf(current),
      o.(profile := Some(profile.identity), configuration := Some(profile.configuration), lock := Some(lock),
         lockUntil := Some(until), token := if matches then o.token else None));
    if !claimed { return Conflict; }
    var token, _ := Mint(w, b, profile, lock);
    var concluded, _ := Conclude(w, b, profile, lock, token);
    outcome := concluded;
  }

  /** The key is read and the lease proved to last, and only then a token asked for: `asked` is the
      Secret as it stood then. */
  method Mint(w: Cluster, b: nat, profile: Profile, lock: nat) returns (token: Option<Token>, ghost asked: Option<State>)
    requires w.Valid() && b in w.s.brokers && w.s.brokers[b] == CheckingLease(profile, lock)
    modifies w
    ensures w.Valid() && old(w.trace) <= w.trace
    ensures b in w.s.brokers && w.s.brokers[b] == ReadingLatest(profile, lock, token)
    ensures asked.Some? ==> asked.value.now >= old(w.s.now) && Holds(asked.value.cell, lock, asked.value.now + 15_000)
    ensures asked.None? ==> token.None?
    ensures token.Some? ==> token.value.configuration == profile.configuration && token.value.serial >= asked.value.serials
    ensures token.Some? ==> token.value.serial < w.s.serials && token.value.expiresAt > asked.value.now + 300_000
  {
    asked := None;
    w.Await(b);
    var usableKey: bool := *;
    if !usableKey {
      w.Do(KeyFails(b));
      return None, None;
    }
    var now := w.s.now;
    ghost var found := w.s;
    var lease := w.ReadSecret(b);
    if lease.None? || lease.value.value.lock != Some(lock) || lease.value.value.lockUntil.None? ||
       lease.value.value.lockUntil.value <= now + MINT_MARGIN_MS { return None, None; }
    asked := Some(found);
    token := w.Request(b);
  }

  /** The token, or one more failure, is committed if the lock still stands: `over` is the Secret it is
      committed over. */
  method Conclude(w: Cluster, b: nat, profile: Profile, lock: nat, token: Option<Token>) returns (outcome: Outcome, ghost over: Option<State>)
    requires w.Valid() && b in w.s.brokers && w.s.brokers[b] == ReadingLatest(profile, lock, token)
    modifies w
    ensures w.Valid() && old(w.trace) <= w.trace
    ensures b in w.s.brokers && w.s.brokers[b] == Idle(Some(outcome))
    ensures over.Some? ==> over.value.cell.Some? && Holds(over.value.cell, lock, over.value.now) && w.s.cell.Some?
    ensures over.Some? ==> exists retryAt :: w.s.cell.value.value == CommitOf(over.value.cell.value.value, token, retryAt)
    ensures over.Some? ==> outcome == if token.Some? then Renewed else Backoff
    ensures over.None? ==> outcome in {LeaseLost, Conflict}
  {
    over := None;
    w.Await(b);
    var now := w.s.now;
    ghost var found := w.s;
    var latest := w.ReadSecret(b);
    if latest.None? || latest.value.value.lock != Some(lock) || latest.value.value.lockUntil.None? ||
       latest.value.value.lockUntil.value <= now { return LeaseLost, None; }
    var updated := latest.value.value.(lock := None, lockUntil := None);
    if token.Some? {
      updated := updated.(token := token, expiresAt := Some(token.value.expiresAt), failures := 0, nextAttempt := None);
    } else {
      var failures := Min(10, updated.failures + 1);
      updated := updated.(failures := failures, nextAttempt := Some(now + Delay(failures)));
    }
    w.Await(b);
    var committed := w.CompareAndSwap(b, Some(latest.value.version), updated);
    if !committed { return Conflict, None; }
    over := Some(found);
    outcome := if token.Some? then Renewed else Backoff;
  }

  // ----- One broker alone -----

  lemma Run3(s: State, p: seq<Action>)
    requires |p| == 3
    ensures Run(s, p) == Apply(Apply(Apply(s, p[0]), p[1]), p[2])
  {
    var s1 := Apply(s, p[0]);
    var s2 := Apply(s1, p[1]);
    assert Run(s1, p[1..]) == Run(s2, p[1..][1..]);
    assert Run(s2, p[1..][1..]) == Run(Apply(s2, p[2]), p[1..][1..][1..]);
  }

  function ToClaim(b: nat, profile: Profile): seq<Action> {
    [Start(b, profile), Step(b), Step(b)]
  }

  function ToToken(b: nat, expiresAt: int): seq<Action> {
    [Step(b), MintReplies(b, expiresAt), Step(b)]
  }

  /** Nobody holds the Secret, and nothing in it serves this configuration or holds it off. */
  predicate Renewable(s: State, profile: Profile) {
    var o := OutputOf(s.cell);
    && (s.cell.Some? ==> o.profile == Some(profile.identity)) && !Later(o.lockUntil, s.now)
    && !Usable(o, profile, s.now) && !(Matches(o, profile) && Later(o.nextAttempt, s.now))
  }

  lemma SoloClaims(s: State, b: nat, profile: Profile) returns (u: State)
    requires (b !in s.brokers || s.brokers[b].Idle?) && Renewable(s, profile)
    ensures u == Run(s, ToClaim(b, profile))
    ensures u.brokers == s.brokers[b := CheckingLease(profile, s.locks)] && u.now == s.now && u.serials == s.serials
    ensures u.cell.Some? && u.cell.value.version < u.next
    ensures u.cell.value.value == ClaimOf(OutputOf(s.cell), profile, s.locks, s.now + LOCK_MS)
  {
    var s1 := Apply(s, Start(b, profile));
    var s2 := Apply(s1, Step(b));
    assert s2.brokers == s.brokers[b := Claiming(profile, s.cell, s.locks, s.now + LOCK_MS)];
    u := Apply(s2, Step(b));
    assert u.brokers == s.brokers[b := CheckingLease(profile, s.locks)];
    Run3(s, ToClaim(b, profile));
  }

  /** Alone, a broker whose mint is answered in time ends with that token in the Secret, its own
      configuration and expiry beside it, unlocked and without a failure. */
  lemma SoloRenews(s: State, b: nat, profile: Profile, expiresAt: int)
    requires (b !in s.brokers || s.brokers[b].Idle?) && Renewable(s, profile) && expiresAt > s.now + RENEW_EARLY_MS
    ensures var u := Run(s, ToClaim(b, profile) + ToToken(b, expiresAt) + [Step(b)]);
      && b in u.brokers && u.brokers[b] == Idle(Some(Renewed)) && u.cell.Some?
      && u.cell.value.value == Output(Some(profile.identity), Some(profile.configuration), None, None, Some(expiresAt), 0, None,
                                      Some(Token(s.serials, profile.configuration, expiresAt)))
  {
    var s3 := SoloClaims(s, b, profile);
    var s4 := Apply(s3, Step(b));
    assert s4.brokers[b] == Minting(profile, s.locks);
    var s5 := Apply(s4, MintReplies(b, expiresAt));
    var s6 := Apply(s5, Step(b));
    assert s6.brokers[b].Committing? && s6.cell == s3.cell;
    Run3(s3, ToToken(b, expiresAt));
    RunConcat(s, ToClaim(b, profile), ToToken(b, expiresAt));
    RunConcat(s, ToClaim(b, profile) + ToToken(b, expiresAt), [Step(b)]);
    assert Run(s6, [Step(b)]) == Run(Apply(s6, Step(b)), [Step(b)][1..]);
  }

  /** The broker holds the lock for `left` more ms. */
  ghost predicate Locked(s: State, lock: nat, left: int) {
    s.cell.Some? && s.cell.value.value.lock == Some(lock) && s.cell.value.value.lockUntil == Some(s.now + left)
  }

  function Asking(b: nat, first: nat, second: nat): seq<Action> {
    [Tick(first), Step(b), Tick(second)]
  }

  /** After `first` ms the broker looks at its lock; `second` ms later an answer may come. */
  lemma SoloAsks(s: State, b: nat, profile: Profile, lock: nat, first: nat, second: nat) returns (u: State)
    requires b in s.brokers && s.brokers[b] == CheckingLease(profile, lock) && Locked(s, lock, 60_000)
    ensures u == Run(s, Asking(b, first, second))
    ensures u == s.(now := s.now + first + second,
                    brokers := s.brokers[b := if first < 45_000 then Minting(profile, lock) else ReadingLatest(profile, lock, None)])
    ensures Locked(u, lock, 60_000 - first - second)
  {
    Run3(s, Asking(b, first, second));
    u := Apply(Apply(Apply(s, Tick(first)), Step(b)), Tick(second));
  }

  function Answering(b: nat, expiresAt: int): seq<Action> {
    [MintReplies(b, expiresAt), Step(b), Step(b)]
  }

  /** The answer comes while the lock has `left` ms to go, or had. */
  lemma SoloAnswered(s: State, b: nat, profile: Profile, lock: nat, left: int, expiresAt: int) returns (u: State)
    requires b in s.brokers && s.brokers[b] == Minting(profile, lock) && Locked(s, lock, left)
    ensures u == Run(s, Answering(b, expiresAt)) && u.serials == s.serials + 1 && u.cell.Some?
    ensures u.cell.value.value.token ==
      if left > 0 && expiresAt > s.now + 300_000 then Some(Token(s.serials, profile.configuration, expiresAt))
      else s.cell.value.value.token
  {
    Run3(s, Answering(b, expiresAt));
    var s1 := Apply(s, MintReplies(b, expiresAt));
    var s2 := Apply(s1, Step(b));
    assert left <= 0 ==> s2.brokers[b].Idle?;
    u := Apply(s2, Step(b));
  }

  /** Nothing was asked for, and nothing is committed but one more failure. */
  lemma SoloUnasked(s: State, b: nat, profile: Profile, lock: nat, left: int, expiresAt: int) returns (u: State)
    requires b in s.brokers && s.brokers[b] == ReadingLatest(profile, lock, None) && Locked(s, lock, left)
    ensures u == Run(s, Answering(b, expiresAt)) && u.serials == s.serials && u.cell.Some?
    ensures u.cell.value.value.token == s.cell.value.value.token
  {
    Run3(s, Answering(b, expiresAt));
    var s1 := Apply(s, MintReplies(b, expiresAt));
    assert s1 == s;
    var s2 := Apply(s1, Step(b));
    u := Apply(s2, Step(b));
  }

  /** A token is asked for if and only if more than fifteen seconds of the minute's lock are left, and
      one that comes back is committed if and only if the lock still runs and it is good for more
      than five minutes. */
  lemma SoloMintsIff(s: State, b: nat, profile: Profile, first: nat, second: nat, expiresAt: int)
    requires (b !in s.brokers || s.brokers[b].Idle?) && Renewable(s, profile)
    ensures var u := Run(s, ToClaim(b, profile) + Asking(b, first, second) + Answering(b, expiresAt));
      && (u.serials == if first < 45_000 then s.serials + 1 else s.serials)
      && u.cell.Some?
      && u.cell.value.value.token ==
           if first < 45_000 && first + second < 60_000 && expiresAt > s.now + first + second + 300_000
           then Some(Token(s.serials, profile.configuration, expiresAt))
           else if Matches(OutputOf(s.cell), profile) then OutputOf(s.cell).token else None
  {
    var s3 := SoloClaims(s, b, profile);
    var s4 := SoloAsks(s3, b, profile, s.locks, first, second);
    RunConcat(s, ToClaim(b, profile), Asking(b, first, second));
    RunConcat(s, ToClaim(b, profile) + Asking(b, first, second), Answering(b, expiresAt));
    if first < 45_000 {
      var u := SoloAnswered(s4, b, profile, s.locks, 60_000 - first - second, expiresAt);
    } else {
      var u := SoloUnasked(s4, b, profile, s.locks, 60_000 - first - second, expiresAt);
    }
  }
}
