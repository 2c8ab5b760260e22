/** No refresh credential is shown to the provider twice without a commit that brought it
    back in between, whatever the brokers, leases, crashes and store errors do. */
module CodexRefreshFence {
  import opened VersionedStore
  import opened CodexSubscription

  // ----- What every run keeps -----

  function CurrentToken(s: State): Option<nat> {
    if s.authority.Some? && s.authority.value.value.auth.Some? && s.authority.value.value.auth.value.Parsed?
    then Some(s.authority.value.value.auth.value.native.token) else None
  }

  /** The credential is not in the authority, or a durable intent forbids claiming it. */
  ghost predicate Fenced(s: State, token: nat) {
    CurrentToken(s) == Some(token) ==> s.authority.value.value.notes.intent == Some(token)
  }

  ghost predicate Active(pc: Pc) {
    pc.Calling? || pc.Waiting? || Pending(pc)
  }

  ghost predicate Pending(pc: Pc) {
    pc.ReadingLatest? || pc.Committing?
  }

  function Token(pc: Pc): nat
    requires Active(pc)
  {
    pc.attempt.native.token
  }

  /** A rotated credential a broker holds and has not committed. */
  ghost predicate HoldsNew(pc: Pc, token: nat) {
    Pending(pc) && pc.auth.Parsed? && pc.auth.native.token == token && token != Token(pc)
  }

  ghost predicate Snapshot(s: State, v: Versioned<Authority>) {
    && v.version < s.next
    && (VersionOf(s.authority) == Some(v.version) ==> s.authority.value == v)
  }

  ghost predicate MayClaim(s: State, a: Attempt) {
    && Snapshot(s, a.authority)
    && a.authority.value.auth == Some(Parsed(a.native))
    && a.authority.value.notes.intent != Some(a.native.token)
  }

  ghost predicate PcOk(s: State, pc: Pc) {
    match pc
    case ReadingOutput(_, v) => Snapshot(s, v)
    case Clearing(a, thenClaim) => a.output.Some? && (thenClaim ==> MayClaim(s, a))
    case Claiming(a, _, _) => MayClaim(s, a)
    case Committing(_, _, _, latest) => Snapshot(s, latest)
    case PublishReading(p) => Snapshot(s, p.authority) && (p.cached.Some? ==> MayClaim(s, p.cached.value))
    case PublishRereading(p, _, _) => Snapshot(s, p.authority) && (p.cached.Some? ==> MayClaim(s, p.cached.value))
    case PublishWriting(p, _, _, _, _) => Snapshot(s, p.authority) && (p.cached.Some? ==> MayClaim(s, p.cached.value))
    case _ => true
  }

  ghost predicate AuthorityOlder(s: State) {
    s.authority.Some? ==> s.authority.value.version < s.next
  }

  ghost predicate Snapshots(s: State) {
    && AuthorityOlder(s)
    && forall b :: b in s.brokers ==> PcOk(s, s.brokers[b])
  }

  /** Every credential in use is claimed, and fenced as long as the authority holds it. */
  ghost predicate ActiveFenced(s: State) {
    forall b :: b in s.brokers && Active(s.brokers[b]) ==>
      Token(s.brokers[b]) in s.claimed && Fenced(s, Token(s.brokers[b]))
  }

  ghost predicate ActiveDistinct(s: State) {
    forall b, c :: b in s.brokers && c in s.brokers && b != c && Active(s.brokers[b]) && Active(s.brokers[c]) ==>
      Token(s.brokers[b]) != Token(s.brokers[c])
  }

  /** A rotated credential is unclaimed and absent from the authority until it is committed. */
  ghost predicate HeldUnclaimed(s: State) {
    forall b, t :: b in s.brokers && HoldsNew(s.brokers[b], t) ==>
      t in s.issued && t !in s.claimed && CurrentToken(s) != Some(t)
  }

  ghost predicate HeldDistinct(s: State) {
    forall b, c, t :: b in s.brokers && c in s.brokers && b != c && HoldsNew(s.brokers[b], t) ==>
      !HoldsNew(s.brokers[c], t)
  }

  ghost predicate Tokens(s: State) {
    && s.claimed <= s.issued
    && (CurrentToken(s).Some? ==> CurrentToken(s).value in s.issued)
    && ActiveFenced(s) && ActiveDistinct(s) && HeldUnclaimed(s) && HeldDistinct(s)
  }

  ghost predicate Returns(e: Event, token: nat) {
    e.Committed? && e.auth.Parsed? && e.auth.native.token == token
  }

  ghost predicate ReturnedAfter(log: seq<Event>, i: int, token: nat) {
    exists k :: 0 <= i < k < |log| && Returns(log[k], token)
  }

  ghost predicate CallsFenced(s: State) {
    forall i :: 0 <= i < |s.log| && s.log[i].Called? ==>
      && s.log[i].token in s.claimed
      && (ReturnedAfter(s.log, i, s.log[i].token) ||
          (&& Fenced(s, s.log[i].token)
           && forall b :: b in s.brokers && s.brokers[b].Calling? ==> Token(s.brokers[b]) != s.log[i].token))
  }

  /** Two calls with one credential have a commit of that credential between them. */
  ghost predicate CallsSeparated(log: seq<Event>) {
    forall i, j :: 0 <= i < j < |log| && log[i].Called? && log[j].Called? && log[i].token == log[j].token ==>
      exists k :: i < k < j && Returns(log[k], log[i].token)
  }

  ghost predicate Inv(s: State) {
    Snapshots(s) && Tokens(s) && CallsFenced(s) && CallsSeparated(s.log)
  }

  // ----- How the log may grow -----

  /** No event, or one that is neither a call nor a commit. */
  ghost predicate Quietly(before: seq<Event>, after: seq<Event>) {
    after == before ||
    (|after| == |before| + 1 && after[..|before|] == before && !after[|before|].Called? && !after[|before|].Committed?)
  }

  lemma ReturnedStays(before: seq<Event>, after: seq<Event>, i: int, token: nat)
    requires before <= after && ReturnedAfter(before, i, token)
    ensures ReturnedAfter(after, i, token)
  {
    var k :| 0 <= i < k < |before| && Returns(before[k], token);
    assert after[k] == before[k];
  }

  lemma SeparatedStays(before: seq<Event>, after: seq<Event>)
    requires CallsSeparated(before) && Quietly(before, after)
    ensures CallsSeparated(after)
  {
    assert forall i :: 0 <= i < |before| ==> after[i] == before[i];
  }

  /** The calls stay fenced while every credential that was fenced is, and nobody comes to call. */
  lemma CallsStayFenced(s: State, t: State)
    requires CallsFenced(s) && CallsSeparated(s.log) && Quietly(s.log, t.log) && s.claimed <= t.claimed
    requires forall n :: n in s.claimed && Fenced(s, n) ==> Fenced(t, n)
    requires forall b :: b in t.brokers && t.brokers[b].Calling? ==>
      (b in s.brokers && s.brokers[b] == t.brokers[b]) ||
      forall i :: 0 <= i < |s.log| && s.log[i].Called? && s.log[i].token == Token(t.brokers[b]) ==> ReturnedAfter(s.log, i, Token(t.brokers[b]))
    ensures CallsFenced(t) && CallsSeparated(t.log)
  {
    SeparatedStays(s.log, t.log);
    forall i | 0 <= i < |t.log| && t.log[i].Called?
      ensures t.log[i].token in t.claimed
      ensures ReturnedAfter(t.log, i, t.log[i].token) ||
        (Fenced(t, t.log[i].token) && forall b :: b in t.brokers && t.brokers[b].Calling? ==> Token(t.brokers[b]) != t.log[i].token)
    {
      assert i < |s.log| && t.log[i] == t.log[..|s.log|][i] == s.log[i];
      if ReturnedAfter(s.log, i, s.log[i].token) { ReturnedStays(s.log, t.log, i, s.log[i].token); }
    }
  }

  // ----- Steps that leave the authority alone -----

  /** Broker `b` moved on, or was lost; nothing else the fence depends on changed. */
  ghost predicate Moved(s: State, t: State, b: nat) {
    && t.authority == s.authority && t.next >= s.next
    && t.claimed == s.claimed && t.issued == s.issued
    && Quietly(s.log, t.log)
    && (t.brokers == s.brokers - {b} ||
        (b in t.brokers && t.brokers == s.brokers[b := t.brokers[b]] && MovedPc(s, b, t.brokers[b], t)))
  }

  ghost predicate MovedPc(s: State, b: nat, pc: Pc, t: State) {
    && PcOk(t, pc)
    && (Active(pc) ==>
          && !pc.Calling?
          && b in s.brokers && Active(s.brokers[b]) && Token(pc) == Token(s.brokers[b])
          && (Pending(pc) ==> Pending(s.brokers[b]) && pc.auth == s.brokers[b].auth))
  }

  lemma MovedKeepsSnapshots(s: State, t: State, b: nat)
    requires Snapshots(s) && Moved(s, t, b)
    ensures Snapshots(t)
  {
    forall c | c in t.brokers ensures PcOk(t, t.brokers[c]) {
      if c != b { assert PcOk(s, s.brokers[c]); }
    }
  }

  lemma MovedKeepsTokens(s: State, t: State, b: nat)
    requires Tokens(s) && Moved(s, t, b)
    ensures Tokens(t)
  {
    forall c | c in t.brokers && Active(t.brokers[c])
      ensures c in s.brokers && Active(s.brokers[c]) && Token(t.brokers[c]) == Token(s.brokers[c])
      ensures Pending(t.brokers[c]) ==> Pending(s.brokers[c]) && s.brokers[c].auth == t.brokers[c].auth
    {
    }
    HeldKept(s, t);
  }

  /** What `HeldUnclaimed` and `HeldDistinct` need of a step that adds no rotated credential. */
  lemma HeldKept(s: State, t: State)
    requires HeldUnclaimed(s) && HeldDistinct(s)
    requires t.claimed == s.claimed && t.issued == s.issued && CurrentToken(t) == CurrentToken(s)
    requires forall c :: c in t.brokers && Pending(t.brokers[c]) ==>
      c in s.brokers && Pending(s.brokers[c]) && Token(t.brokers[c]) == Token(s.brokers[c]) &&
      s.brokers[c].auth == t.brokers[c].auth
    ensures HeldUnclaimed(t) && HeldDistinct(t)
  {
    forall c, n | c in t.brokers && HoldsNew(t.brokers[c], n)
      ensures c in s.brokers && HoldsNew(s.brokers[c], n)
    {
    }
  }

  lemma MovedKeepsCalls(s: State, t: State, b: nat)
    requires CallsFenced(s) && CallsSeparated(s.log) && Moved(s, t, b)
    ensures CallsFenced(t) && CallsSeparated(t.log)
  {
    CallsStayFenced(s, t);
  }

  lemma MovedKeepsInv(s: State, t: State, b: nat)
    requires Inv(s) && Moved(s, t, b)
    ensures Inv(t)
  {
    MovedKeepsSnapshots(s, t, b);
    MovedKeepsTokens(s, t, b);
    MovedKeepsCalls(s, t, b);
  }

  lemma RenewMoves(s: State, b: nat, a: Attempt)
    requires MayClaim(s, a)
    ensures Moved(s, Renew(s, b, a), b)
  {
  }

  lemma OutputReadMoves(s: State, b: nat, profile: Profile, v: Versioned<Authority>)
    requires Snapshot(s, v)
    ensures Moved(s, OutputRead(s, b, profile, v), b)
  {
    var output := Read(s, profile.output);
    if (output.None? || output.value.value.owner == Some(profile.owner)) && v.value.auth.Some? && v.value.auth.value.Parsed? {
      var a := Attempt(profile, v, output, v.value.auth.value.native);
      if v.value.notes.intent != Some(a.native.token) && !CachedUsable(v.value, BindingOf(profile, v.value), s.now) {
        assert OutputRead(s, b, profile, v) == Renew(s, b, a);
        RenewMoves(s, b, a);
      }
    }
  }

  lemma ClearMoves(s: State, b: nat, a: Attempt, thenClaim: bool)
    requires a.output.Some? && (thenClaim ==> MayClaim(s, a))
    ensures Moved(s, Clear(s, b, a, thenClaim), b)
  {
  }

  lemma PublishWriteMoves(s: State, b: nat, p: Publication, current: Option<Versioned<Output>>, commit: nat, read: nat, proof: nat)
    requires Snapshot(s, p.authority)
    ensures Moved(s, PublishWrite(s, b, p, current, commit, read, proof), b)
  {
  }

  predicate ReadsAuthority(pc: Pc) {
    pc.ReadingAuthority? || pc.ReadingLatest? || pc.ReadingDurable? || pc.PublishRereading?
  }

  lemma AuthorityReadMoves(s: State, b: nat)
    requires b in s.brokers && ReadsAuthority(s.brokers[b]) && PcOk(s, s.brokers[b]) && AuthorityOlder(s)
    ensures Moved(s, Advance(s, b), b)
  {
  }

  /** Every await but the claim, the call and the commit is such a step. */
  lemma AdvanceMoves(s: State, b: nat)
    requires b in s.brokers && PcOk(s, s.brokers[b]) && AuthorityOlder(s)
    requires !s.brokers[b].Claiming? && !s.brokers[b].Calling? && !s.brokers[b].Committing?
    ensures Moved(s, Advance(s, b), b)
  {
    var pc := s.brokers[b];
    if ReadsAuthority(pc) { AuthorityReadMoves(s, b); }
    else if pc.ReadingOutput? { OutputReadMoves(s, b, pc.profile, pc.authority); }
    else if pc.Clearing? { ClearMoves(s, b, pc.attempt, pc.thenClaim); }
    else if pc.PublishWriting? { PublishWriteMoves(s, b, pc.publication, pc.current, pc.commit, pc.read, pc.proof); }
  }

  // ----- The steps that claim, call and commit -----

  /** A new authority row leaves every snapshot true: no row it was read from has its version. */
  lemma SnapshotsSurvive(s: State, t: State, b: nat)
    requires Snapshots(s) && t.next > s.next && t.authority.Some? && t.authority.value.version == s.next
    requires b in t.brokers && t.brokers == s.brokers[b := t.brokers[b]] && PcOk(t, t.brokers[b])
    ensures Snapshots(t)
  {
    forall c | c in t.brokers ensures PcOk(t, t.brokers[c]) {
      if c != b { assert PcOk(s, s.brokers[c]); }
    }
  }

  lemma ClaimKeepsInv(s: State, b: nat)
    requires Inv(s) && b in s.brokers && s.brokers[b].Claiming?
    ensures Inv(Advance(s, b))
  {
    var a := s.brokers[b].attempt;
    var t := Advance(s, b);
    assert PcOk(s, s.brokers[b]);
    if VersionOf(s.authority) != Some(a.authority.version) {
      MovedKeepsInv(s, t, b);
    } else {
      // The row is the one the broker read: it holds this credential, and no intent for it.
      assert CurrentToken(s) == CurrentToken(t) == Some(a.native.token) && !Fenced(s, a.native.token);
      SnapshotsSurvive(s, t, b);
      ClaimKeepsTokens(s, t, b);
      ClaimKeepsCalls(s, t, b);
    }
  }

  ghost predicate ClaimedBy(s: State, t: State, b: nat) {
    && b in t.brokers && t.brokers == s.brokers[b := t.brokers[b]] && t.brokers[b].Calling?
    && CurrentToken(s) == CurrentToken(t) == Some(Token(t.brokers[b])) && !Fenced(s, Token(t.brokers[b]))
    && Fenced(t, Token(t.brokers[b]))
    && t.claimed == s.claimed + {Token(t.brokers[b])} && t.issued == s.issued
    && t.log == s.log + [Claimed(Token(t.brokers[b]))]
  }

  lemma ClaimKeepsTokens(s: State, t: State, b: nat)
    requires Tokens(s) && ClaimedBy(s, t, b)
    ensures Tokens(t)
  {
    forall c | c != b && c in t.brokers && Active(t.brokers[c])
      ensures c in s.brokers && t.brokers[c] == s.brokers[c] && Token(s.brokers[c]) != Token(t.brokers[b])
    {
    }
    forall c, n | c in t.brokers && HoldsNew(t.brokers[c], n)
      ensures c != b && HoldsNew(s.brokers[c], n)
    {
    }
  }

  lemma ClaimKeepsCalls(s: State, t: State, b: nat)
    requires CallsFenced(s) && CallsSeparated(s.log) && ClaimedBy(s, t, b)
    ensures CallsFenced(t) && CallsSeparated(t.log)
  {
    assert t.log[..|s.log|] == s.log;
    CallsStayFenced(s, t);
  }

  lemma CallKeepsInv(s: State, b: nat)
    requires Inv(s) && b in s.brokers && s.brokers[b].Calling?
    ensures Inv(Advance(s, b))
  {
    var t := Advance(s, b);
    forall c | c in t.brokers ensures PcOk(t, t.brokers[c]) {
      assert c != b ==> PcOk(s, s.brokers[c]);
    }
    HeldKept(s, t);
    CallKeepsCalls(s, t, b);
  }

  /** The credential called with was returned after every earlier call with it. */
  lemma CallersWereReturned(s: State, b: nat, i: nat)
    requires CallsFenced(s) && b in s.brokers && s.brokers[b].Calling?
    requires i < |s.log| && s.log[i].Called? && s.log[i].token == Token(s.brokers[b])
    ensures ReturnedAfter(s.log, i, Token(s.brokers[b]))
  {
  }

  lemma CallKeepsSeparated(s: State, t: State, b: nat)
    requires CallsFenced(s) && CallsSeparated(s.log) && b in s.brokers && s.brokers[b].Calling?
    requires t.log == s.log + [Called(Token(s.brokers[b]))]
    ensures CallsSeparated(t.log)
  {
    forall i, j | 0 <= i < j < |t.log| && t.log[i].Called? && t.log[j].Called? && t.log[i].token == t.log[j].token
      ensures exists k :: i < k < j && Returns(t.log[k], t.log[i].token)
    {
      assert t.log[i] == s.log[i];
      if j == |s.log| {
        CallersWereReturned(s, b, i);
        var k :| 0 <= i < k < |s.log| && Returns(s.log[k], s.log[i].token);
        assert t.log[k] == s.log[k];
      } else {
        assert t.log[j] == s.log[j];
        var k :| i < k < j && Returns(s.log[k], s.log[i].token);
        assert t.log[k] == s.log[k];
      }
    }
  }

  lemma CallKeepsCalls(s: State, t: State, b: nat)
    requires CallsFenced(s) && CallsSeparated(s.log) && b in s.brokers && s.brokers[b].Calling?
    requires ActiveFenced(s) && ActiveDistinct(s)
    requires b in t.brokers && t.brokers[b].Waiting?
    requires t == s.(brokers := s.brokers[b := t.brokers[b]], log := s.log + [Called(Token(s.brokers[b]))])
    ensures CallsFenced(t) && CallsSeparated(t.log)
  {
    CallKeepsSeparated(s, t, b);
    forall c | c in t.brokers && t.brokers[c].Calling?
      ensures c in s.brokers && s.brokers[c] == t.brokers[c] && Token(s.brokers[c]) != Token(s.brokers[b])
    {
    }
    assert Fenced(t, Token(s.brokers[b]));
    forall i | 0 <= i < |s.log| && s.log[i].Called?
      ensures t.log[i] == s.log[i] && (ReturnedAfter(s.log, i, s.log[i].token) ==> ReturnedAfter(t.log, i, t.log[i].token))
    {
      if ReturnedAfter(s.log, i, s.log[i].token) { ReturnedStays(s.log, t.log, i, s.log[i].token); }
    }
  }

  lemma AnswerKeepsInv(s: State, b: nat, reply: Reply)
    requires Inv(s) && b in s.brokers && s.brokers[b].Waiting? && Fair(s, Answer(b, reply))
    ensures Inv(Apply(s, Answer(b, reply)))
  {
    var t := Apply(s, Answer(b, reply));
    if reply.NativeFailed? {
      MovedKeepsInv(s, t, b);
    } else {
      forall c | c in t.brokers ensures PcOk(t, t.brokers[c]) {
        assert c != b ==> PcOk(s, s.brokers[c]);
      }
      AnswerKeepsTokens(s, t, b);
    }
  }

  lemma AnswerKeepsTokens(s: State, t: State, b: nat)
    requires Tokens(s) && b in s.brokers && s.brokers[b].Waiting?
    requires t.authority == s.authority && t.claimed == s.claimed && s.issued <= t.issued
    requires b in t.brokers && t.brokers == s.brokers[b := t.brokers[b]] && t.brokers[b].ReadingLatest?
    requires t.brokers[b].attempt == s.brokers[b].attempt
    requires t.brokers[b].auth.Parsed? ==>
      var n := t.brokers[b].auth.native.token;
      n in t.issued && (n == Token(s.brokers[b]) || n !in s.issued)
    ensures Tokens(t)
  {
    forall c | c in t.brokers && Active(t.brokers[c])
      ensures c in s.brokers && Active(s.brokers[c]) && Token(t.brokers[c]) == Token(s.brokers[c])
    {
    }
    HeldJoins(s, t, b);
  }

  /** The credential an answer brings is new to everybody, or the one it was asked with. */
  lemma HeldJoins(s: State, t: State, b: nat)
    requires HeldUnclaimed(s) && HeldDistinct(s) && s.claimed <= s.issued
    requires CurrentToken(s).Some? ==> CurrentToken(s).value in s.issued
    requires CurrentToken(t) == CurrentToken(s) && t.claimed == s.claimed && s.issued <= t.issued
    requires b in t.brokers && t.brokers == s.brokers[b := t.brokers[b]]
    requires forall n :: HoldsNew(t.brokers[b], n) ==> n in t.issued && n !in s.issued
    ensures HeldUnclaimed(t) && HeldDistinct(t)
  {
    forall c, n | c != b && c in t.brokers && HoldsNew(t.brokers[c], n)
      ensures c in s.brokers && HoldsNew(s.brokers[c], n) && n in s.issued
    {
    }
  }

  lemma CommitKeepsInv(s: State, b: nat)
    requires Inv(s) && b in s.brokers && s.brokers[b].Committing?
    ensures Inv(Advance(s, b))
  {
    var pc := s.brokers[b];
    var t := Advance(s, b);
    assert PcOk(s, pc);
    if VersionOf(s.authority) != Some(pc.latest.version) {
      MovedKeepsInv(s, t, b);
    } else {
      SnapshotsSurvive(s, t, b);
      assert t.log[..|s.log|] == s.log;
      if pc.auth.Parsed? && pc.auth.native.token != Token(pc) {
        assert HoldsNew(pc, pc.auth.native.token);
      }
      CommitKeepsTokens(s, t, b);
      CommitKeepsCalls(s, t, b);
    }
  }

  ghost predicate CommittedBy(s: State, t: State, b: nat) {
    && b in s.brokers && s.brokers[b].Committing?
    && t.authority.Some? && t.authority.value.value.auth == Some(s.brokers[b].auth)
    && t.claimed == s.claimed && t.issued == s.issued
    && b in t.brokers && t.brokers[b].ReadingDurable? && t.brokers == s.brokers[b := t.brokers[b]]
    && |t.log| == |s.log| + 1 && t.log[..|s.log|] == s.log
    && t.log[|s.log|].Committed? && t.log[|s.log|].auth == s.brokers[b].auth
  }

  lemma CommitKeepsTokens(s: State, t: State, b: nat)
    requires Inv(s) && CommittedBy(s, t, b)
    ensures Tokens(t)
  {
    var pc := s.brokers[b];
    if pc.auth.Parsed? && pc.auth.native.token != Token(pc) {
      assert HoldsNew(pc, pc.auth.native.token);
    }
    forall c | c in t.brokers && Active(t.brokers[c])
      ensures c != b && CurrentToken(t) != Some(Token(t.brokers[c]))
    {
    }
    forall c, n: nat | c in t.brokers && HoldsNew(t.brokers[c], n)
      ensures c != b && HoldsNew(s.brokers[c], n) && CurrentToken(t) != Some(n)
    {
    }
  }

  lemma CommitKeepsCalls(s: State, t: State, b: nat)
    requires Inv(s) && CommittedBy(s, t, b)
    ensures CallsFenced(t) && CallsSeparated(t.log)
  {
    forall i | 0 <= i < |t.log| && t.log[i].Called?
      ensures i < |s.log| && s.log[i] == t.log[i]
      ensures ReturnedAfter(s.log, i, s.log[i].token) ==> ReturnedAfter(t.log, i, t.log[i].token)
      ensures CurrentToken(t) == Some(t.log[i].token) ==> ReturnedAfter(t.log, i, t.log[i].token)
    {
      assert t.log[i] == t.log[..|s.log|][i];
      if k :| i < k < |s.log| && Returns(s.log[k], s.log[i].token) {
        assert t.log[k] == t.log[..|s.log|][k];
      }
      if CurrentToken(t) == Some(t.log[i].token) {
        assert Returns(t.log[|s.log|], t.log[i].token);
      }
    }
  }

  // ----- The operator, errors and lost brokers -----

  lemma InstallKeepsInv(s: State, auth: AuthFile, keepNotes: bool)
    requires Inv(s) && Fair(s, Install(auth, keepNotes))
    ensures Inv(Apply(s, Install(auth, keepNotes)))
  {
    var t := Apply(s, Install(auth, keepNotes));
    forall c | c in t.brokers ensures PcOk(t, t.brokers[c]) {
      assert PcOk(s, s.brokers[c]);
    }
    assert forall token :: token in s.issued ==> CurrentToken(t) != Some(token);
    assert HeldUnclaimed(t);
    assert t.log[..|s.log|] == s.log;
    CallsStayFenced(s, t);
  }

  lemma RemoveKeepsInv(s: State, t: State)
    requires Inv(s) && t == s.(now := t.now, authority := t.authority, outputs := t.outputs, log := t.log) && Quietly(s.log, t.log)
    requires t.authority == s.authority || t.authority.None?
    ensures Inv(t)
  {
    forall c | c in t.brokers ensures PcOk(t, t.brokers[c]) {
      assert PcOk(s, s.brokers[c]);
    }
    assert ActiveFenced(t);
    CallsStayFenced(s, t);
  }

  lemma AdvanceKeepsInv(s: State, b: nat)
    requires Inv(s) && b in s.brokers
    ensures Inv(Advance(s, b))
  {
    assert PcOk(s, s.brokers[b]);
    match s.brokers[b]
    case Claiming(_, _, _) => ClaimKeepsInv(s, b);
    case Calling(_, _) => CallKeepsInv(s, b);
    case Committing(_, _, _, _) => CommitKeepsInv(s, b);
    case _ =>
      AdvanceMoves(s, b);
      MovedKeepsInv(s, Advance(s, b), b);
  }

  lemma DoneKeepsInv(s: State, b: nat, outcome: Outcome)
    requires Inv(s) && b in s.brokers
    ensures Inv(Done(s, b, outcome))
  {
    MovedKeepsInv(s, Done(s, b, outcome), b);
  }

  lemma RenewKeepsInv(s: State, b: nat, a: Attempt)
    requires Inv(s) && b in s.brokers && MayClaim(s, a)
    ensures Inv(Renew(s, b, a))
  {
    RenewMoves(s, b, a);
    MovedKeepsInv(s, Renew(s, b, a), b);
  }

  lemma ThrownKeepsInv(s: State, b: nat)
    requires Inv(s) && b in s.brokers
    ensures Inv(Thrown(s, b))
  {
    var pc := s.brokers[b];
    assert PcOk(s, pc);
    if (pc.PublishReading? || pc.PublishRereading? || pc.PublishWriting?) && pc.publication.cached.Some? {
      RenewKeepsInv(s, b, pc.publication.cached.value);
    } else {
      DoneKeepsInv(s, b, AuthorityUnavailable);
    }
  }

  lemma ThrownAppliedKeepsInv(s: State, b: nat)
    requires Inv(s) && b in s.brokers
    ensures Inv(ThrownApplied(s, b))
  {
    var pc := s.brokers[b];
    assert PcOk(s, pc);
    AdvanceKeepsInv(s, b);
    var t := Advance(s, b);
    if pc.PublishWriting? && pc.publication.cached.Some? {
      AdvanceMoves(s, b);
      assert MayClaim(t, pc.publication.cached.value);
      RenewKeepsInv(t, b, pc.publication.cached.value);
    } else if b in t.brokers {
      DoneKeepsInv(t, b, AuthorityUnavailable);
    }
  }

  lemma StepKeepsInv(s: State, action: Action)
    requires Inv(s) && Fair(s, action)
    ensures Inv(Apply(s, action))
  {
    var t := Apply(s, action);
    match action
    case Start(b, profile) => if t != s { MovedKeepsInv(s, t, b); }
    case Step(b) => if b in s.brokers { AdvanceKeepsInv(s, b); }
    case Answer(b, reply) => if b in s.brokers && s.brokers[b].Waiting? { AnswerKeepsInv(s, b, reply); }
    case Throw(b, applied) => if b in s.brokers { ThrownKeepsInv(s, b); ThrownAppliedKeepsInv(s, b); }
    case Crash(b) => MovedKeepsInv(s, t, b);
    case Tick(_) => RemoveKeepsInv(s, t);
    case Install(auth, keepNotes) => InstallKeepsInv(s, auth, keepNotes);
    case RemoveAuthority => RemoveKeepsInv(s, t);
    case RemoveOutput(_) => RemoveKeepsInv(s, t);
  }

  // ----- Every run -----

  lemma {:induction false} RunKeepsInv(s: State, actions: seq<Action>)
    requires Inv(s) && FairRun(s, actions)
    ensures Inv(Run(s, actions))
    decreases |actions|
  {
    if actions != [] {
      StepKeepsInv(s, actions[0]);
      RunKeepsInv(Apply(s, actions[0]), actions[1..]);
    }
  }

  /** The fence: in every run, two native refreshes with one credential are separated by a
      commit that stored that very credential again. */
  lemma RefreshesAreFenced(now: int, actions: seq<Action>, i: nat, j: nat)
    requires FairRun(Init(now), actions)
    requires i < j < |Run(Init(now), actions).log|
    requires Run(Init(now), actions).log[i].Called? && Run(Init(now), actions).log[j].Called?
    requires Run(Init(now), actions).log[i].token == Run(Init(now), actions).log[j].token
    ensures exists k :: i < k < j && Returns(Run(Init(now), actions).log[k], Run(Init(now), actions).log[i].token)
  {
    RunKeepsInv(Init(now), actions);
  }

  // ----- A provider that rotates -----

  /** Every answer brings a credential never seen before. */
  ghost predicate RotatingRun(s: State, actions: seq<Action>)
    decreases |actions|
  {
    actions != [] ==>
      && (var a := actions[0]; a.Answer? && a.reply.Refreshed? && a.reply.auth.Parsed? ==>
            a.reply.auth.native.token !in s.issued)
      && RotatingRun(Apply(s, actions[0]), actions[1..])
  }

  /** No broker is about to commit the credential it called with, and none ever did. */
  ghost predicate NeverBack(s: State) {
    && (forall b :: b in s.brokers && Pending(s.brokers[b]) && s.brokers[b].auth.Parsed? ==>
          s.brokers[b].auth.native.token != Token(s.brokers[b]))
    && (forall i, k :: 0 <= i < k < |s.log| && s.log[i].Called? ==> !Returns(s.log[k], s.log[i].token))
  }

  lemma NeverBackMoved(s: State, t: State, b: nat)
    requires NeverBack(s) && Moved(s, t, b)
    ensures NeverBack(t)
  {
    NeverBackQuietly(s, t);
  }

  lemma NeverBackQuietly(s: State, t: State)
    requires NeverBack(s) && Quietly(s.log, t.log)
    requires forall b :: b in t.brokers && Pending(t.brokers[b]) && t.brokers[b].auth.Parsed? ==>
      t.brokers[b].auth.native.token != Token(t.brokers[b])
    ensures NeverBack(t)
  {
    forall i, k | 0 <= i < k < |t.log| && t.log[i].Called?
      ensures !Returns(t.log[k], t.log[i].token)
    {
      assert t.log[i] == t.log[..|s.log|][i];
      if k < |s.log| { assert t.log[k] == t.log[..|s.log|][k]; }
    }
  }

  lemma NeverBackAdvance(s: State, b: nat)
    requires Inv(s) && NeverBack(s) && b in s.brokers
    ensures NeverBack(Advance(s, b))
  {
    var pc, t := s.brokers[b], Advance(s, b);
    assert PcOk(s, pc);
    if pc.Committing? && t.log != s.log {
      assert pc.auth.Parsed? ==> HoldsNew(pc, pc.auth.native.token);
    } else if pc.Claiming? {
      assert Quietly(s.log, t.log);
      NeverBackQuietly(s, t);
    } else if !pc.Claiming? && !pc.Calling? && !pc.Committing? {
      AdvanceMoves(s, b);
      NeverBackMoved(s, t, b);
    }
  }

  lemma NeverBackStep(s: State, action: Action)
    requires Inv(s) && NeverBack(s) && Fair(s, action)
    requires action.Answer? && action.reply.Refreshed? && action.reply.auth.Parsed? ==>
      action.reply.auth.native.token !in s.issued
    ensures NeverBack(Apply(s, action))
  {
    match action
    case Step(b) => if b in s.brokers { NeverBackAdvance(s, b); }
    case Throw(b, applied) => if b in s.brokers { NeverBackThrow(s, b, applied); }
    case _ =>
      assert Quietly(s.log, Apply(s, action).log);
      NeverBackQuietly(s, Apply(s, action));
  }

  lemma NeverBackThrow(s: State, b: nat, applied: bool)
    requires Inv(s) && NeverBack(s) && b in s.brokers
    ensures NeverBack(Apply(s, Throw(b, applied)))
  {
    if applied {
      NeverBackAdvance(s, b);
      NeverBackThrownApplied(s, b);
    } else {
      NeverBackThrown(s, b);
    }
  }

  lemma NeverBackThrown(s: State, b: nat)
    requires NeverBack(s) && b in s.brokers
    ensures NeverBack(Apply(s, Throw(b, false)))
  {
    NeverBackIdle(s, b, Thrown(s, b));
  }

  lemma NeverBackThrownApplied(s: State, b: nat)
    requires b in s.brokers && NeverBack(s) && NeverBack(Advance(s, b))
    ensures NeverBack(Apply(s, Throw(b, true)))
  {
    NeverBackIdle(Advance(s, b), b, ThrownApplied(s, b));
    NeverBackIdle(s, b, Thrown(s, b));
  }

  lemma NeverBackIdle(s: State, b: nat, t: State)
    requires NeverBack(s) && b in t.brokers
    ensures t.log == s.log && t.brokers == s.brokers[b := t.brokers[b]] && !Pending(t.brokers[b]) ==> NeverBack(t)
  {
  }

  lemma {:induction false} NeverBackRun(s: State, actions: seq<Action>)
    requires Inv(s) && NeverBack(s) && FairRun(s, actions) && RotatingRun(s, actions)
    ensures NeverBack(Run(s, actions))
    decreases |actions|
  {
    if actions != [] {
      StepKeepsInv(s, actions[0]);
      NeverBackStep(s, actions[0]);
      NeverBackRun(Apply(s, actions[0]), actions[1..]);
    }
  }

  /** A provider that rotates never sees one credential twice. */
  lemma RotatingProviderSeesEachOnce(now: int, actions: seq<Action>, i: nat, j: nat)
    requires FairRun(Init(now), actions) && RotatingRun(Init(now), actions)
    requires i < j < |Run(Init(now), actions).log|
    requires Run(Init(now), actions).log[i].Called? && Run(Init(now), actions).log[j].Called?
    ensures Run(Init(now), actions).log[i].token != Run(Init(now), actions).log[j].token
  {
    RunKeepsInv(Init(now), actions);
    NeverBackRun(Init(now), actions);
  }
}
