/** The GitHub App broker: any number of brokers renewing one output Secret.

    A broker claims the Secret under a fresh lock, mints, and commits the token, or a backoff,
    only while its lock is still there. Configurations stand for their digests; a token stands
    for its text and knows what it was minted for. */
module GitHubBroker {
  import opened VersionedStore

  const RENEW_EARLY_MS := 300000
  const LOCK_MS := 60000
  const MINT_MARGIN_MS := 15000

  datatype Token = Token(serial: nat, configuration: nat, expiresAt: int)

  datatype Profile = Profile(identity: nat, configuration: nat)

  datatype Output = Output(profile: Option<nat>, configuration: Option<nat>, lock: Option<nat>, lockUntil: Option<int>,
                           expiresAt: Option<int>, failures: nat, nextAttempt: Option<int>, token: Option<Token>)

  const BLANK := Output(None, None, None, None, None, 0, None, None)

  datatype Outcome = AlreadyOwned | InProgress | TokenCurrent | Backoff | Conflict | LeaseLost | Renewed | Failed

  datatype Pc =
    | Idle(last: Option<Outcome>)
    | Reading(profile: Profile, since: int)   // a pass keeps the time it began at
    | Claiming(profile: Profile, current: Option<Versioned<Output>>, lock: nat, until: int)
    | CheckingLease(profile: Profile, lock: nat)
    | Minting(profile: Profile, lock: nat)
    | ReadingLatest(profile: Profile, lock: nat, minted: Option<Token>)
    | Committing(profile: Profile, lock: nat, minted: Option<Token>, latest: Versioned<Output>, retryAt: int)

  datatype Event =
    | Claimed(lock: nat, configuration: nat)
    | Wrote(lock: nat, token: Option<Token>)
    | Ready(configuration: nat, shown: Token, since: int)

  datatype State = State(now: int, next: nat, locks: nat, serials: nat, cell: Option<Versioned<Output>>,
                         brokers: map<nat, Pc>, log: seq<Event>)

  datatype Action =
    | Start(b: nat, profile: Profile)
    | Step(b: nat)
    | KeyFails(b: nat)
    | MintReplies(b: nat, expiresAt: int)     // a well-formed answer, its scope as asked for
    | MintFails(b: nat)
    | Crash(b: nat)
    | Throw(b: nat, applied: bool)
    | RemoveOutput
    | Tick(ms: nat)

  function Init(now: int): State {
    State(now, 0, 0, 0, None, map[], [])
  }

  function Go(s: State, b: nat, pc: Pc): State {
    s.(brokers := s.brokers[b := pc])
  }

  function Finish(s: State, b: nat, outcome: Outcome): State {
    Go(s, b, Idle(Some(outcome)))
  }

  predicate Current(s: State, row: Option<Versioned<Output>>) {
    VersionOf(s.cell) == VersionOf(row)
  }

  function Write(s: State, output: Output): State {
    s.(cell := Some(Versioned(s.next, output)), next := s.next + 1)
  }

  // ----- renew -----

  function OutputOf(current: Option<Versioned<Output>>): Output {
    if current.Some? then current.value.value else BLANK
  }

  predicate Later(time: Option<int>, now: int) {
    time.Some? && time.value > now
  }

  predicate Matches(o: Output, profile: Profile) {
    o.configuration == Some(profile.configuration)
  }

  predicate Usable(o: Output, profile: Profile, now: int) {
    Matches(o, profile) && o.token.Some? && Later(o.expiresAt, now + RENEW_EARLY_MS)
  }

  /** What the Secret read calls for, at the time the pass began. */
  function Decide(s: State, b: nat, profile: Profile, since: int): State {
    var o := OutputOf(s.cell);
    if s.cell.Some? && o.profile != Some(profile.identity) then Finish(s, b, AlreadyOwned)
    else if Later(o.lockUntil, since) then Finish(s, b, InProgress)
    else if Usable(o, profile, since) then
      Finish(s, b, TokenCurrent).(log := s.log + [Ready(profile.configuration, o.token.value, since)])
    else if Matches(o, profile) && Later(o.nextAttempt, since) then Finish(s, b, Backoff)
    else Go(s, b, Claiming(profile, s.cell, s.locks, since + LOCK_MS)).(locks := s.locks + 1)
  }

  /** The claim keeps the data only while the configuration is the same. */
  function ClaimOf(o: Output, profile: Profile, lock: nat, until: int): Output {
    o.(profile := Some(profile.identity), configuration := Some(profile.configuration), lock := Some(lock),
       lockUntil := Some(until), token := if Matches(o, profile) then o.token else None)
  }

  function Claim(s: State, profile: Profile, current: Option<Versioned<Output>>, lock: nat, until: int): State {
    Write(s, ClaimOf(OutputOf(current), profile, lock, until)).(log := s.log + [Claimed(lock, profile.configuration)])
  }

  predicate Holds(cell: Option<Versioned<Output>>, lock: nat, until: int) {
    cell.Some? && cell.value.value.lock == Some(lock) && Later(cell.value.value.lockUntil, until)
  }

  function Power(n: nat): nat {
    if n == 0 then 1 else 2 * Power(n - 1)
  }

  /** The delay after the given number of failures in a row, in ms. */
  function Delay(failures: nat): nat
    requires failures > 0
  {
    var delay := 5000 * Power(failures - 1);
    if delay < 300000 then delay else 300000
  }

  function Min(a: nat, b: nat): nat {
    if a < b then a else b
  }

  /** The token and its own expiry, or one more failure; either way the lock is given up. */
  function CommitOf(o: Output, minted: Option<Token>, retryAt: int): Output {
    var unlocked := o.(lock := None, lockUntil := None);
    if minted.Some? then
      unlocked.(token := minted, expiresAt := Some(minted.value.expiresAt), failures := 0, nextAttempt := None)
    else unlocked.(failures := Min(10, o.failures + 1), nextAttempt := Some(retryAt))
  }

  function Commit(s: State, lock: nat, minted: Option<Token>, latest: Versioned<Output>, retryAt: int): State {
    Write(s, CommitOf(latest.value, minted, retryAt)).(log := s.log + [Wrote(lock, minted)])
  }

  function Advance(s: State, b: nat): State
    requires b in s.brokers
  {
    match s.brokers[b]
    case Idle(_) => s
    case Reading(profile, since) => Decide(s, b, profile, since)
    case Claiming(profile, current, lock, until) =>
      if Current(s, current) then Go(Claim(s, profile, current, lock, until), b, CheckingLease(profile, lock))
      else Finish(s, b, Conflict)
    case CheckingLease(profile, lock) =>
      if Holds(s.cell, lock, s.now + MINT_MARGIN_MS) then Go(s, b, Minting(profile, lock))
      else Go(s, b, ReadingLatest(profile, lock, None))
    case Minting(_, _) => s
    case ReadingLatest(profile, lock, minted) =>
      if !Holds(s.cell, lock, s.now) then Finish(s, b, LeaseLost)
      else
        var retryAt := s.now + Delay(Min(10, s.cell.value.value.failures + 1));
        Go(s, b, Committing(profile, lock, minted, s.cell.value, retryAt))
    case Committing(profile, lock, minted, latest, retryAt) =>
      if Current(s, Some(latest)) then
        Finish(Commit(s, lock, minted, latest, retryAt), b, if minted.Some? then Renewed else Backoff)
      else Finish(s, b, Conflict)
  }

  /** The store fails a claim or a commit, having applied it or not. */
  function Thrown(s: State, b: nat, applied: bool): State
    requires b in s.brokers
  {
    match s.brokers[b]
    case Claiming(profile, current, lock, until) =>
      Finish(if applied && Current(s, current) then Claim(s, profile, current, lock, until) else s, b, Failed)
    case Committing(_, lock, minted, latest, retryAt) =>
      Finish(if applied && Current(s, Some(latest)) then Commit(s, lock, minted, latest, retryAt) else s, b, Failed)
    case CheckingLease(profile, lock) => Go(s, b, ReadingLatest(profile, lock, None))
    case _ => Finish(s, b, Failed)
  }

  function Apply(s: State, action: Action): State {
    match action
    case Start(b, profile) => if b in s.brokers && !s.brokers[b].Idle? then s else Go(s, b, Reading(profile, s.now))
    case Step(b) => if b in s.brokers then Advance(s, b) else s
    case KeyFails(b) =>
      if b in s.brokers && s.brokers[b].CheckingLease?
      then Go(s, b, ReadingLatest(s.brokers[b].profile, s.brokers[b].lock, None)) else s
    case MintReplies(b, expiresAt) =>
      if b in s.brokers && s.brokers[b].Minting? then
        var Minting(profile, lock) := s.brokers[b];
        var minted := if expiresAt <= s.now + RENEW_EARLY_MS then None
                      else Some(Token(s.serials, profile.configuration, expiresAt));
        Go(s, b, ReadingLatest(profile, lock, minted)).(serials := s.serials + 1)
      else s
    case MintFails(b) =>
      if b in s.brokers && s.brokers[b].Minting?
      then Go(s, b, ReadingLatest(s.brokers[b].profile, s.brokers[b].lock, None)) else s
    case Crash(b) => s.(brokers := s.brokers - {b})
    case Throw(b, applied) => if b in s.brokers && !s.brokers[b].Idle? && !s.brokers[b].Minting? then Thrown(s, b, applied) else s
    case RemoveOutput => s.(cell := None, next := s.next + 1)
    case Tick(ms) => s.(now := s.now + ms)
  }

  function Run(s: State, actions: seq<Action>): State
    decreases |actions|
  {
    if actions == [] then s else Run(Apply(s, actions[0]), actions[1..])
  }
}

/** The token in the Secret is always the one its annotations describe, and a broker whose lock
    was replaced never writes. */
module GitHubBrokerProof {
  import opened VersionedStore
  import opened GitHubBroker

  /** The token was minted for the configuration annotated beside it, and expires when the Secret says. */
  predicate Described(o: Output) {
    o.token.Some? ==> o.configuration == Some(o.token.value.configuration) && o.expiresAt == Some(o.token.value.expiresAt)
  }

  /** The lock of the last claim or write, while it is still held. */
  function LastLock(log: seq<Event>): Option<nat> {
    if log == [] then None
    else
      match log[|log| - 1]
      case Claimed(lock, _) => Some(lock)
      case Wrote(_, _) => None
      case Ready(_, _, _) => LastLock(log[..|log| - 1])
  }

  lemma LastLockGrows(log: seq<Event>, e: Event)
    ensures LastLock(log + [e]) == match e case Claimed(lock, _) => Some(lock) case Wrote(_, _) => None case Ready(_, _, _) => LastLock(log)
  {
    assert (log + [e])[..|log|] == log;
  }

  ghost predicate EventOk(before: seq<Event>, e: Event) {
    match e
    case Claimed(lock, _) => forall d :: d in before && !d.Ready? ==> d.lock != lock
    case Wrote(lock, token) =>
      && LastLock(before) == Some(lock)
      && (token.Some? ==> Claimed(lock, token.value.configuration) in before)
    case Ready(configuration, token, since) => token.configuration == configuration && token.expiresAt > since + RENEW_EARLY_MS
  }

  ghost predicate LogOk(log: seq<Event>) {
    forall i {:trigger log[..i]} :: 0 <= i < |log| ==> EventOk(log[..i], log[i])
  }

  lemma LogOkGrows(log: seq<Event>, e: Event)
    requires LogOk(log) && EventOk(log, e)
    ensures LogOk(log + [e])
  {
    forall i | 0 <= i < |log + [e]| ensures EventOk((log + [e])[..i], (log + [e])[i]) {
      if i < |log| { assert (log + [e])[..i] == log[..i]; } else { assert (log + [e])[..i] == log; }
    }
  }

  ghost predicate SnapOk(s: State, row: Option<Versioned<Output>>) {
    && (row.Some? ==> row.value.version < s.next && Described(row.value.value))
    && (Current(s, row) ==> s.cell == row)
  }

  /** Whoever finds the lock in a Secret finds the configuration it was claimed for beside it. */
  ghost predicate LockOk(s: State, o: Output, lock: nat, configuration: nat) {
    o.lock == Some(lock) ==> o.configuration == Some(configuration)
  }

  function LockOf(pc: Pc): Option<nat> {
    match pc
    case CheckingLease(_, lock) => Some(lock)
    case Minting(_, lock) => Some(lock)
    case ReadingLatest(_, lock, _) => Some(lock)
    case Committing(_, lock, _, _, _) => Some(lock)
    case _ => None
  }

  ghost predicate PcOk(s: State, pc: Pc) {
    && (LockOf(pc).Some? ==>
          && LockOf(pc).value < s.locks && Claimed(LockOf(pc).value, pc.profile.configuration) in s.log
          && (s.cell.Some? ==> LockOk(s, s.cell.value.value, LockOf(pc).value, pc.profile.configuration)))
    && match pc
       case Claiming(_, current, lock, _) =>
         SnapOk(s, current) && lock < s.locks && (forall d :: d in s.log && !d.Ready? ==> d.lock != lock)
         && (s.cell.Some? ==> s.cell.value.value.lock != Some(lock))
       case ReadingLatest(profile, _, minted) => minted.Some? ==> minted.value.configuration == profile.configuration
       case Committing(profile, lock, minted, latest, _) =>
         && SnapOk(s, Some(latest)) && latest.value.lock == Some(lock) && LockOk(s, latest.value, lock, profile.configuration)
         && (minted.Some? ==> minted.value.configuration == profile.configuration)
       case _ => true
  }

  ghost predicate LocksApart(s: State) {
    forall a, b :: a in s.brokers && b in s.brokers && a != b && s.brokers[a].Claiming? ==>
      (s.brokers[b].Claiming? ==> s.brokers[b].lock != s.brokers[a].lock) && LockOf(s.brokers[b]) != Some(s.brokers[a].lock)
  }

  ghost predicate CellOk(s: State) {
    && (s.cell.Some? ==>
          && s.cell.value.version < s.next && Described(s.cell.value.value)
          && (s.cell.value.value.lock.Some? ==> LastLock(s.log) == s.cell.value.value.lock && s.cell.value.value.lock.value < s.locks))
    && (forall d :: d in s.log && !d.Ready? ==> d.lock < s.locks)
  }

  ghost predicate Pcs(s: State) {
    forall b :: b in s.brokers ==> PcOk(s, s.brokers[b])
  }

  ghost predicate Inv(s: State) {
    LogOk(s.log) && CellOk(s) && Pcs(s) && LocksApart(s)
  }

  // ----- What a broker may rely on -----

  /** The Secret moved on; its lock, if any, is an old one beside its old configuration, or `lock`. */
  ghost predicate Later(s: State, u: State, lock: Option<nat>) {
    && s.next <= u.next && s.locks <= u.locks
    && (u.cell == s.cell || u.cell.None? || u.cell.value.version >= s.next)
    && (forall d :: d in s.log ==> d in u.log)
    && (forall d :: d in u.log && !d.Ready? ==> d in s.log || Some(d.lock) == lock)
    && (u.cell.Some? && u.cell != s.cell ==> u.cell.value.value.lock.None? || u.cell.value.value.lock == lock)
  }

  lemma PcKept(s: State, u: State, pc: Pc, lock: Option<nat>)
    requires PcOk(s, pc) && Later(s, u, lock)
    requires lock.Some? ==> LockOf(pc) != lock && (pc.Claiming? ==> pc.lock != lock.value)
    ensures PcOk(u, pc)
  {
  }

  lemma PcsKept(s: State, u: State, b: nat, lock: Option<nat>)
    requires Pcs(s) && Later(s, u, lock)
    requires forall c :: c in u.brokers && c != b ==> c in s.brokers && u.brokers[c] == s.brokers[c]
    requires forall c :: c in u.brokers && c != b && lock.Some? ==>
      LockOf(u.brokers[c]) != lock && (u.brokers[c].Claiming? ==> u.brokers[c].lock != lock.value)
    requires b in u.brokers ==> PcOk(u, u.brokers[b])
    ensures Pcs(u)
  {
    forall c | c in u.brokers ensures PcOk(u, u.brokers[c]) {
      if c != b { PcKept(s, u, s.brokers[c], lock); }
    }
  }

  // ----- Steps -----

  lemma NothingWritten(s: State, u: State, b: nat)
    requires Inv(s) && u == s.(now := u.now, brokers := u.brokers, serials := u.serials, locks := u.locks) && u.locks >= s.locks
    requires forall c :: c in u.brokers && c != b ==> c in s.brokers && u.brokers[c] == s.brokers[c]
    requires b in u.brokers ==> PcOk(u, u.brokers[b])
    requires b in u.brokers && u.brokers[b].Claiming? ==> u.brokers[b].lock >= s.locks || (b in s.brokers && u.brokers[b] == s.brokers[b])
    requires b in u.brokers && LockOf(u.brokers[b]).Some? ==> b in s.brokers && LockOf(u.brokers[b]) == LockOf(s.brokers[b])
    ensures Inv(u)
  {
    PcsKept(s, u, b, None);
    forall c | c in s.brokers && s.brokers[c].Claiming? ensures s.brokers[c].lock < s.locks { assert PcOk(s, s.brokers[c]); }
    forall c | c in s.brokers && LockOf(s.brokers[c]).Some? ensures LockOf(s.brokers[c]).value < s.locks { assert PcOk(s, s.brokers[c]); }
  }

  lemma ClaimKeeps(s: State, u: State, b: nat)
    requires Inv(s) && b in s.brokers && s.brokers[b].Claiming? && Current(s, s.brokers[b].current)
    requires var Claiming(profile, current, lock, until) := s.brokers[b];
      u == Claim(s, profile, current, lock, until).(brokers := u.brokers)
      && (u.brokers == s.brokers[b := CheckingLease(profile, lock)] || u.brokers == s.brokers[b := Idle(Some(Failed))])
    ensures Inv(u)
  {
    var Claiming(profile, current, lock, until) := s.brokers[b];
    assert PcOk(s, s.brokers[b]);
    var e := Claimed(lock, profile.configuration);
    LogOkGrows(s.log, e);
    LastLockGrows(s.log, e);
    assert forall d :: d in u.log <==> d in s.log || d == e;
    PcsKept(s, u, b, Some(lock));
  }

  lemma CommitKeeps(s: State, u: State, b: nat, outcome: Outcome)
    requires Inv(s) && b in s.brokers && s.brokers[b].Committing? && Current(s, Some(s.brokers[b].latest))
    requires var Committing(_, lock, minted, latest, retryAt) := s.brokers[b];
      u == Finish(Commit(s, lock, minted, latest, retryAt), b, outcome)
    ensures Inv(u)
  {
    var Committing(profile, lock, minted, latest, retryAt) := s.brokers[b];
    assert PcOk(s, s.brokers[b]);
    var e := Wrote(lock, minted);
    LogOkGrows(s.log, e);
    LastLockGrows(s.log, e);
    assert forall d :: d in u.log <==> d in s.log || d == e;
    forall c | c in u.brokers ensures PcOk(u, u.brokers[c]) {
      if c != b {
        assert PcOk(s, s.brokers[c]);
        assert s.brokers[c].Claiming? ==> s.brokers[c].lock != lock;
      }
    }
  }

  lemma ReadyKeeps(s: State, b: nat, profile: Profile, since: int)
    requires Inv(s) && s.cell.Some? && Usable(OutputOf(s.cell), profile, since)
    ensures Inv(Finish(s, b, TokenCurrent).(log := s.log + [Ready(profile.configuration, OutputOf(s.cell).token.value, since)]))
  {
    var e := Ready(profile.configuration, OutputOf(s.cell).token.value, since);
    var u := Finish(s, b, TokenCurrent).(log := s.log + [e]);
    LogOkGrows(s.log, e);
    LastLockGrows(s.log, e);
    assert forall d :: d in u.log <==> d in s.log || d == e;
    PcsKept(s, u, b, None);
  }

  lemma DecideKeeps(s: State, b: nat)
    requires Inv(s) && b in s.brokers && s.brokers[b].Reading?
    ensures Inv(Advance(s, b))
  {
    var profile, u := s.brokers[b].profile, Advance(s, b);
    if u.log != s.log { ReadyKeeps(s, b, profile, s.brokers[b].since); }
    else { NothingWritten(s, u, b); }
  }

  lemma AdvanceKeeps(s: State, b: nat)
    requires Inv(s) && b in s.brokers
    ensures Inv(Advance(s, b))
  {
    var pc, u := s.brokers[b], Advance(s, b);
    assert PcOk(s, pc);
    if pc.Reading? { DecideKeeps(s, b); }
    else if pc.Claiming? && Current(s, pc.current) { ClaimKeeps(s, u, b); }
    else if pc.Committing? && Current(s, Some(pc.latest)) { CommitKeeps(s, u, b, if pc.minted.Some? then Renewed else Backoff); }
    else { NothingWritten(s, u, b); }
  }

  lemma ThrowKeeps(s: State, b: nat, applied: bool)
    requires Inv(s) && b in s.brokers
    ensures Inv(Thrown(s, b, applied))
  {
    var pc, u := s.brokers[b], Thrown(s, b, applied);
    assert PcOk(s, pc);
    if applied && pc.Claiming? && Current(s, pc.current) { ClaimKeeps(s, u, b); }
    else if applied && pc.Committing? && Current(s, Some(pc.latest)) { CommitKeeps(s, u, b, Failed); }
    else { NothingWritten(s, u, b); }
  }

  lemma StepKeepsInv(s: State, action: Action)
    requires Inv(s)
    ensures Inv(Apply(s, action))
  {
    var u := Apply(s, action);
    match action
    case Step(b) => if b in s.brokers { AdvanceKeeps(s, b); }
    case Throw(b, applied) => if u != s { ThrowKeeps(s, b, applied); }
    case Start(b, _) => if u != s { NothingWritten(s, u, b); }
    case KeyFails(b) => if u != s { assert PcOk(s, s.brokers[b]); NothingWritten(s, u, b); }
    case MintReplies(b, _) => if u != s { assert PcOk(s, s.brokers[b]); NothingWritten(s, u, b); }
    case MintFails(b) => if u != s { assert PcOk(s, s.brokers[b]); NothingWritten(s, u, b); }
    case Crash(b) => NothingWritten(s, u, b);
    case RemoveOutput => forall c | c in u.brokers ensures PcOk(u, u.brokers[c]) { PcKept(s, u, s.brokers[c], None); }
    case Tick(_) => forall c | c in u.brokers ensures PcOk(u, u.brokers[c]) { PcKept(s, u, s.brokers[c], None); }
  }

  lemma {:induction false} RunKeepsInv(s: State, actions: seq<Action>)
    requires Inv(s)
    ensures Inv(Run(s, actions))
    decreases |actions|
  {
    if actions != [] {
      StepKeepsInv(s, actions[0]);
      RunKeepsInv(Apply(s, actions[0]), actions[1..]);
    }
  }

  // ----- Theorems, over every run -----

  /** A token in the output Secret was minted under the configuration annotated beside it, and the
      expiry beside it is its own. */
  lemma TokensAreDescribed(now: int, actions: seq<Action>)
    ensures var s := Run(Init(now), actions); s.cell.Some? ==> Described(s.cell.value.value)
  {
    RunKeepsInv(Init(now), actions);
  }

  lemma {:induction false} HeldSince(log: seq<Event>, lock: nat) returns (i: nat)
    requires LastLock(log) == Some(lock)
    ensures i < |log| && log[i].Claimed? && log[i].lock == lock
    ensures forall k :: i < k < |log| ==> log[k].Ready?
  {
    i := |log| - 1;
    if log[i].Ready? { i := HeldSince(log[..|log| - 1], lock); }
  }

  lemma LocksDiffer(log: seq<Event>, i: nat, k: nat)
    requires LogOk(log) && i < k < |log| && log[i].Claimed? && log[k].Claimed?
    ensures log[i].lock != log[k].lock
  {
    assert EventOk(log[..k], log[k]) && log[..k][i] == log[i];
  }

  /** Every write is by the holder of the lock last claimed, with no claim and no other write in
      between, and what it writes was minted for the configuration of that claim. A broker whose
      lock was replaced therefore never writes, nor does one that wrote already. */
  lemma WritersHoldTheLock(now: int, actions: seq<Action>, j: nat)
    requires var log := Run(Init(now), actions).log; j < |log| && log[j].Wrote?
    ensures var log := Run(Init(now), actions).log;
      exists i :: 0 <= i < j && log[i].Claimed? && log[i].lock == log[j].lock && (forall k :: i < k < j ==> log[k].Ready?)
                  && (log[j].token.Some? ==> log[i].configuration == log[j].token.value.configuration)
  {
    RunKeepsInv(Init(now), actions);
    var log := Run(Init(now), actions).log;
    assert EventOk(log[..j], log[j]);
    var i := HeldSince(log[..j], log[j].lock);
    assert forall k :: i < k < j ==> log[k] == log[..j][k];
    if log[j].token.Some? {
      var k :| 0 <= k < j && log[..j][k] == Claimed(log[j].lock, log[j].token.value.configuration);
      if k < i { LocksDiffer(log, k, i); }
    }
  }

  /** A profile is reported ready only on a token for its own configuration, good for more than five
      minutes from when the pass began. */
  lemma ReadyMeansUsable(now: int, actions: seq<Action>, j: nat)
    requires var log := Run(Init(now), actions).log; j < |log| && log[j].Ready?
    ensures var log := Run(Init(now), actions).log;
      log[j].shown.configuration == log[j].configuration && log[j].shown.expiresAt > log[j].since + RENEW_EARLY_MS
  {
    RunKeepsInv(Init(now), actions);
    var log := Run(Init(now), actions).log;
    assert EventOk(log[..j], log[j]);
  }

  // ----- Backoff -----

  lemma {:induction false} PowerGrows(n: nat, m: nat)
    requires n <= m
    ensures 1 <= Power(n) <= Power(m)
    decreases m
  {
    if n < m { PowerGrows(n, m - 1); }
    else if n > 0 { PowerGrows(n - 1, n - 1); }
  }

  /** Delays start at five seconds, never shrink while failures repeat, and stop at five minutes:
      from the seventh failure on the delay is the cap. */
  lemma DelayIsBounded(failures: nat, more: nat)
    requires 0 < failures <= more
    ensures 5000 <= Delay(failures) <= Delay(more) <= 300000
    ensures more >= 7 ==> Delay(more) == 300000
  {
    PowerGrows(failures - 1, more - 1);
    if more >= 7 {
      PowerGrows(6, more - 1);
      assert Power(6) == 64;
    }
  }
}
