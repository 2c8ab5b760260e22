/** What workers are given: every access credential written to an output Secret was committed in the
    authority under the binding written beside it, and exactly when a later write goes back to an
    earlier commit. Over every run, whatever operators install or delete. */
module CodexPublication {
  import opened VersionedStore
  import opened CodexSubscription
  import Fence = CodexRefreshFence
  import Claims = CodexClaims

  // ----- What every run keeps -----

  ghost predicate IsCommit(log: seq<Event>, c: int, binding: Binding, access: Access) {
    0 <= c < |log| && log[c].Committed? && log[c].binding == binding && log[c].access == access
  }

  /** The notes describe the latest commit, whatever login is installed beside them. */
  ghost predicate Live(s: State) {
    s.authority.Some? && s.authority.value.value.notes.digest.Some? ==>
      var authority, c := s.authority.value.value, LastCommit(s.log);
      && c < |s.log| && s.log[c].Committed?
      && authority.notes.digest == Some(s.log[c].auth)
      && authority.notes.binding == Some(s.log[c].binding)
      && authority.access == Some(s.log[c].access)
  }

  ghost predicate OutputOlder(s: State, row: Option<Versioned<Output>>) {
    row.Some? ==> row.value.version < s.next
  }

  ghost predicate PublicationOk(s: State, p: Publication) {
    && Publishable(p.authority.value, p.binding, p.access)
    && (p.cached.Some? ==> OutputOlder(s, p.cached.value.output))
  }

  predicate WroteTo(log: seq<Event>, i: int, output: nat) {
    0 <= i < |log| && log[i].Wrote? && log[i].output == output
  }

  ghost predicate DeletedBetween(log: seq<Event>, i: int, j: int, output: nat) {
    exists k :: i < k < j && 0 <= k < |log| && log[k] == Deleted(output)
  }

  /** What another write since the read means for a publication: a Secret it found is not that Secret any
      more, and where it found none there is one now, or was until it was deleted. */
  ghost predicate Overtaken(s: State, output: nat, current: Option<Versioned<Output>>, read: nat) {
    forall i :: read <= i && WroteTo(s.log, i, output) ==>
      if current.Some? then VersionOf(Read(s, output)) != VersionOf(current)
      else Read(s, output).Some? || DeletedBetween(s.log, i, |s.log|, output)
  }

  /** The credential was taken from the last commit when the authority was proved unchanged. */
  ghost predicate ProvedAt(log: seq<Event>, commit: nat, proof: nat, binding: Binding, access: Access) {
    proof <= |log| && commit == LastCommit(log[..proof]) && IsCommit(log[..proof], commit, binding, access)
  }

  ghost predicate PcOk(s: State, pc: Pc) {
    match pc
    case Clearing(a, _) => OutputOlder(s, a.output)
    case PublishReading(p) => PublicationOk(s, p)
    case PublishRereading(p, current, read) =>
      PublicationOk(s, p) && OutputOlder(s, current) && read <= |s.log| && Overtaken(s, p.profile.output, current, read)
    case PublishWriting(p, current, commit, read, proof) =>
      && PublicationOk(s, p) && OutputOlder(s, current) && read <= proof && Overtaken(s, p.profile.output, current, read)
      && ProvedAt(s.log, commit, proof, p.binding, p.access)
    case _ => true
  }

  ghost predicate Outputs(s: State) {
    forall o :: o in s.outputs ==> s.outputs[o].version < s.next
  }

  ghost predicate Pcs(s: State) {
    forall b :: b in s.brokers ==> PcOk(s, s.brokers[b])
  }

  /** A write was read, proved and taken as it says. */
  ghost predicate WriteOk(log: seq<Event>, j: nat)
    requires j < |log| && log[j].Wrote?
  {
    log[j].read <= log[j].proof <= j && ProvedAt(log, log[j].commit, log[j].proof, log[j].binding, log[j].access)
  }

  /** Of two writes to one Secret, the later overlaps the earlier only as a create after a deletion. */
  ghost predicate PairOk(log: seq<Event>, i: nat, j: nat)
    requires i < j < |log| && log[i].Wrote? && log[j].Wrote?
  {
    log[i].output == log[j].output && log[j].read <= i ==> log[j].created && DeletedBetween(log, i, j, log[j].output)
  }

  ghost predicate WritesOk(log: seq<Event>) {
    && (forall j :: 0 <= j < |log| && log[j].Wrote? ==> WriteOk(log, j))
    && (forall i, j :: 0 <= i < j < |log| && log[i].Wrote? && log[j].Wrote? ==> PairOk(log, i, j))
  }

  ghost predicate Inv(s: State) {
    Fence.Snapshots(s) && Live(s) && Outputs(s) && Pcs(s) && WritesOk(s.log)
  }

  // ----- How the log may grow -----

  lemma {:induction false} LastCommitAppend(log: seq<Event>, e: Event)
    ensures LastCommit(log + [e]) == if e.Committed? then |log| else LastCommit(log)
  {
    assert (log + [e])[..|log|] == log;
  }

  lemma ProvedStays(log: seq<Event>, more: seq<Event>, commit: nat, proof: nat, binding: Binding, access: Access)
    requires log <= more && ProvedAt(log, commit, proof, binding, access)
    ensures ProvedAt(more, commit, proof, binding, access)
  {
    assert more[..proof] == log[..proof];
  }

  lemma DeletedStays(log: seq<Event>, more: seq<Event>, i: int, j: int, output: nat)
    requires log <= more && DeletedBetween(log, i, j, output)
    ensures DeletedBetween(more, i, j, output)
  {
    var k :| i < k < j && 0 <= k < |log| && log[k] == Deleted(output);
    assert more[k] == log[k];
  }

  /** Any event but a write. */
  lemma WritesStay(log: seq<Event>, e: Event)
    requires WritesOk(log) && !e.Wrote?
    ensures WritesOk(log + [e])
  {
    var more := log + [e];
    forall j | 0 <= j < |more| && more[j].Wrote? ensures WriteOk(more, j) {
      assert WriteOk(log, j);
      ProvedStays(log, more, log[j].commit, log[j].proof, log[j].binding, log[j].access);
    }
    forall i, j | 0 <= i < j < |more| && more[i].Wrote? && more[j].Wrote? ensures PairOk(more, i, j) {
      assert PairOk(log, i, j);
      if DeletedBetween(log, i, j, log[j].output) { DeletedStays(log, more, i, j, log[j].output); }
    }
  }

  /** A write that is what it says, after those it overlaps only as a create. */
  lemma WriteJoins(log: seq<Event>, e: Event)
    requires WritesOk(log) && e.Wrote? && e.read <= e.proof && ProvedAt(log, e.commit, e.proof, e.binding, e.access)
    requires forall i :: e.read <= i && WroteTo(log, i, e.output) ==> e.created && DeletedBetween(log, i, |log|, e.output)
    ensures WritesOk(log + [e])
  {
    var more := log + [e];
    forall j | 0 <= j < |more| && more[j].Wrote? ensures WriteOk(more, j) {
      if j < |log| {
        assert WriteOk(log, j);
        ProvedStays(log, more, log[j].commit, log[j].proof, log[j].binding, log[j].access);
      } else {
        ProvedStays(log, more, e.commit, e.proof, e.binding, e.access);
      }
    }
    forall i, j | 0 <= i < j < |more| && more[i].Wrote? && more[j].Wrote? ensures PairOk(more, i, j) {
      if j < |log| {
        assert PairOk(log, i, j);
        if DeletedBetween(log, i, j, log[j].output) { DeletedStays(log, more, i, j, log[j].output); }
      } else if log[i].output == e.output && e.read <= i {
        assert WroteTo(log, i, e.output);
        DeletedStays(log, more, i, j, e.output);
      }
    }
  }

  /** How the outputs and the log may change together. */
  ghost predicate StoreMoves(s: State, t: State) {
    && s.next <= t.next && (t.log == s.log || (exists e :: t.log == s.log + [e]))
    && (t.log != s.log && t.log[|s.log|].Wrote? ==> VersionOf(Read(t, t.log[|s.log|].output)) == Some(s.next))
    && forall o :: Read(t, o) == Read(s, o) || VersionOf(Read(t, o)) == Some(s.next) ||
                   (Read(t, o).None? && t.log != s.log && t.log[|s.log|] == Deleted(o))
  }

  lemma OvertakenStays(s: State, t: State, output: nat, current: Option<Versioned<Output>>, read: nat)
    requires StoreMoves(s, t) && OutputOlder(s, current) && Overtaken(s, output, current, read)
    ensures Overtaken(t, output, current, read)
  {
    forall i | read <= i && WroteTo(t.log, i, output)
      ensures if current.Some? then VersionOf(Read(t, output)) != VersionOf(current)
              else Read(t, output).Some? || DeletedBetween(t.log, i, |t.log|, output)
    {
      if i < |s.log| {
        assert WroteTo(s.log, i, output);
        if DeletedBetween(s.log, i, |s.log|, output) {
          DeletedStays(s.log, t.log, i, |s.log|, output);
          var k :| i < k < |s.log| && 0 <= k < |t.log| && t.log[k] == Deleted(output);
        }
        if t.log != s.log && t.log[|s.log|] == Deleted(output) { assert DeletedBetween(t.log, i, |t.log|, output); }
      }
    }
  }

  /** The pc of a broker that did not move stays as it was promised. */
  lemma PcKept(s: State, t: State, pc: Pc)
    requires PcOk(s, pc) && StoreMoves(s, t)
    ensures PcOk(t, pc)
  {
    match pc
    case PublishRereading(p, current, read) => OvertakenStays(s, t, p.profile.output, current, read);
    case PublishWriting(p, current, commit, read, proof) =>
      OvertakenStays(s, t, p.profile.output, current, read);
      ProvedStays(s.log, t.log, commit, proof, p.binding, p.access);
    case _ =>
  }

  /** What a step must show: broker `b` moved, the rest only saw the store move. */
  lemma StepKeeps(s: State, t: State, b: nat)
    requires Inv(s) && Fence.Snapshots(t) && StoreMoves(s, t) && Live(t) && Outputs(t) && WritesOk(t.log)
    requires forall c :: c in t.brokers ==> (c in s.brokers && t.brokers[c] == s.brokers[c]) || (c == b && PcOk(t, t.brokers[c]))
    ensures Inv(t)
  {
    forall c | c in t.brokers ensures PcOk(t, t.brokers[c]) {
      if c in s.brokers && t.brokers[c] == s.brokers[c] { PcKept(s, t, s.brokers[c]); }
    }
  }

  // ----- Steps that change no store and log nothing -----

  lemma MoveKeepsInv(s: State, t: State, b: nat)
    requires Inv(s) && Fence.Snapshots(t) && t == s.(now := t.now, next := t.next, leases := t.leases, brokers := t.brokers, issued := t.issued, files := t.files)
    requires t.next >= s.next
    requires forall c :: c in t.brokers ==> (c in s.brokers && t.brokers[c] == s.brokers[c]) || (c == b && PcOk(s, t.brokers[c]))
    ensures Inv(t)
  {
    forall c | c in t.brokers && c == b && PcOk(s, t.brokers[c]) ensures PcOk(t, t.brokers[c]) { PcKept(s, t, t.brokers[c]); }
    StepKeeps(s, t, b);
  }

  /** Broker `b` went on to `t.brokers[b]`, which keeps its own promise. */
  ghost predicate Moved(s: State, t: State, b: nat) {
    && t == s.(leases := t.leases, brokers := t.brokers)
    && b in t.brokers && t.brokers == s.brokers[b := t.brokers[b]] && PcOk(s, t.brokers[b])
  }

  lemma OutputReadMoves(s: State, b: nat, profile: Profile, v: Versioned<Authority>)
    requires Outputs(s)
    ensures Moved(s, OutputRead(s, b, profile, v), b)
  {
  }

  lemma PublishReadMoves(s: State, b: nat, p: Publication)
    requires Outputs(s) && PublicationOk(s, p)
    ensures Moved(s, PublishRead(s, b, p), b)
  {
  }

  /** The Secret was read before the authority proved unchanged: the credential is the last commit's. */
  lemma RereadMoves(s: State, b: nat)
    requires Inv(s) && b in s.brokers && s.brokers[b].PublishRereading?
    ensures Moved(s, Advance(s, b), b)
  {
    var PublishRereading(p, current, read) := s.brokers[b];
    assert PcOk(s, s.brokers[b]) && Fence.PcOk(s, s.brokers[b]);
    assert s.log[..|s.log|] == s.log;
  }

  lemma PassKeepsInv(s: State, b: nat)
    requires Inv(s) && b in s.brokers
    requires var pc := s.brokers[b];
      !pc.Clearing? && !pc.Claiming? && !pc.Calling? && !pc.Committing? && !pc.PublishWriting?
    ensures Inv(Advance(s, b))
  {
    assert PcOk(s, s.brokers[b]);
    var pc := s.brokers[b];
    Claims.AdvanceKeepsSnapshots(s, b);
    if pc.ReadingOutput? { OutputReadMoves(s, b, pc.profile, pc.authority); }
    if pc.PublishReading? { PublishReadMoves(s, b, pc.publication); }
    if pc.PublishRereading? { RereadMoves(s, b); }
    if !pc.Idle? && !pc.Waiting? {
      assert Moved(s, Advance(s, b), b);
      MoveKeepsInv(s, Advance(s, b), b);
    }
  }

  // ----- Steps that write -----

  lemma ClearKeepsInv(s: State, b: nat)
    requires Inv(s) && b in s.brokers && s.brokers[b].Clearing?
    ensures Inv(Advance(s, b))
  {
    var t := Advance(s, b);
    assert PcOk(s, s.brokers[b]);
    Claims.AdvanceKeepsSnapshots(s, b);
    StepKeeps(s, t, b);
  }

  /** What the publishing write comes to. */
  lemma PublishWriteLogs(s: State, b: nat)
    requires b in s.brokers && s.brokers[b].PublishWriting?
    ensures var PublishWriting(p, current, commit, read, proof) := s.brokers[b]; var t := Advance(s, b);
      && b in t.brokers && t.brokers == s.brokers[b := t.brokers[b]] && t.brokers[b].Idle? && t.authority == s.authority
      && if VersionOf(Read(s, p.profile.output)) == VersionOf(current) then
           && t.log == s.log + [Wrote(p.profile.output, p.access, p.binding, commit, current.None?, read, proof)]
           && t.next == s.next + 1 && p.profile.output in t.outputs && t.outputs[p.profile.output].version == s.next
           && t.outputs == s.outputs[p.profile.output := t.outputs[p.profile.output]]
         else t.log == s.log && t.next == s.next && t.outputs == s.outputs
  {
  }

  /** A write that lands overlaps earlier ones only as a create after a deletion. */
  lemma LandedWriteJoins(s: State, b: nat)
    requires WritesOk(s.log) && b in s.brokers && s.brokers[b].PublishWriting? && PcOk(s, s.brokers[b])
    requires VersionOf(Read(s, s.brokers[b].publication.profile.output)) == VersionOf(s.brokers[b].current)
    ensures var PublishWriting(p, current, commit, read, proof) := s.brokers[b];
      WritesOk(s.log + [Wrote(p.profile.output, p.access, p.binding, commit, current.None?, read, proof)])
  {
    var PublishWriting(p, current, commit, read, proof) := s.brokers[b];
    WriteJoins(s.log, Wrote(p.profile.output, p.access, p.binding, commit, current.None?, read, proof));
  }

  lemma WriteMovesStore(s: State, t: State, wrote: Event)
    requires Live(s) && Outputs(s) && wrote.Wrote? && t.log == s.log + [wrote] && t.next == s.next + 1 && t.authority == s.authority
    requires wrote.output in t.outputs && t.outputs[wrote.output].version == s.next
    requires t.outputs == s.outputs[wrote.output := t.outputs[wrote.output]]
    ensures StoreMoves(s, t) && Outputs(t) && Live(t)
  {
    LastCommitAppend(s.log, wrote);
  }

  lemma PublishWriteKeepsInv(s: State, b: nat)
    requires Inv(s) && b in s.brokers && s.brokers[b].PublishWriting?
    ensures Inv(Advance(s, b))
  {
    var PublishWriting(p, current, commit, read, proof) := s.brokers[b];
    var t := Advance(s, b);
    assert PcOk(s, s.brokers[b]);
    Claims.AdvanceKeepsSnapshots(s, b);
    PublishWriteLogs(s, b);
    if t.log != s.log {
      var wrote := Wrote(p.profile.output, p.access, p.binding, commit, current.None?, read, proof);
      LandedWriteJoins(s, b);
      WriteMovesStore(s, t, wrote);
      StepKeeps(s, t, b);
    } else {
      assert StoreMoves(s, t);
      StepKeeps(s, t, b);
    }
  }

  /** Claims, calls and commits. */
  lemma AuthorityStepKeepsInv(s: State, b: nat)
    requires Inv(s) && b in s.brokers && (s.brokers[b].Claiming? || s.brokers[b].Calling? || s.brokers[b].Committing?)
    ensures Inv(Advance(s, b))
  {
    var t := Advance(s, b);
    Claims.AdvanceKeepsSnapshots(s, b);
    AuthorityStepLogs(s, b);
    if t.log != s.log { WritesStay(s.log, t.log[|s.log|]); }
    AuthorityStepLives(s, b);
    StepKeeps(s, t, b);
  }

  lemma AuthorityStepLogs(s: State, b: nat)
    requires b in s.brokers && (s.brokers[b].Claiming? || s.brokers[b].Calling? || s.brokers[b].Committing?)
    ensures var t := Advance(s, b);
      && (t.log == s.log || (|t.log| == |s.log| + 1 && t.log == s.log + [t.log[|s.log|]] && !t.log[|s.log|].Wrote?))
      && t.outputs == s.outputs && t.next >= s.next && b in t.brokers && t.brokers == s.brokers[b := t.brokers[b]] && PcOk(t, t.brokers[b])
  {
  }

  lemma AuthorityStepLives(s: State, b: nat)
    requires Live(s) && b in s.brokers && Fence.PcOk(s, s.brokers[b])
    requires s.brokers[b].Claiming? || s.brokers[b].Calling? || s.brokers[b].Committing?
    ensures Live(Advance(s, b))
  {
    AuthorityStepLogs(s, b);
    var t := Advance(s, b);
    if t.log != s.log { LastCommitAppend(s.log, t.log[|s.log|]); }
  }

  lemma AdvanceKeepsInv(s: State, b: nat)
    requires Inv(s) && b in s.brokers
    ensures Inv(Advance(s, b))
  {
    var pc := s.brokers[b];
    if pc.Clearing? { ClearKeepsInv(s, b); }
    else if pc.Claiming? || pc.Calling? || pc.Committing? { AuthorityStepKeepsInv(s, b); }
    else if pc.PublishWriting? { PublishWriteKeepsInv(s, b); }
    else { PassKeepsInv(s, b); }
  }

  /** A failed request leaves the stores where its step would, or where they were. */
  lemma ThrowLands(s: State, v: State, b: nat, applied: bool)
    requires b in s.brokers && PcOk(s, s.brokers[b]) && Outputs(s)
    requires v == if applied && (s.brokers[b].PublishWriting? || s.brokers[b].Clearing? || s.brokers[b].Claiming? || s.brokers[b].Committing?)
                  then Advance(s, b) else s
    ensures var t := Apply(s, Throw(b, applied));
      && t == v.(leases := t.leases, brokers := t.brokers)
      && forall c :: c in t.brokers ==> (c in v.brokers && t.brokers[c] == v.brokers[c]) || (c == b && PcOk(v, t.brokers[c]))
  {
    if v != s { AfterAdvance(s, b); }
  }

  lemma ThrowKeepsInv(s: State, b: nat, applied: bool)
    requires Inv(s) && b in s.brokers
    ensures Inv(Apply(s, Throw(b, applied)))
  {
    var pc := s.brokers[b];
    assert PcOk(s, pc);
    AdvanceKeepsInv(s, b);
    Claims.ThrowKeepsSnapshots(s, b, applied);
    var v := if applied && (pc.PublishWriting? || pc.Clearing? || pc.Claiming? || pc.Committing?) then Advance(s, b) else s;
    ThrowLands(s, v, b, applied);
    MoveKeepsInv(v, Apply(s, Throw(b, applied)), b);
  }

  lemma AfterAdvance(s: State, b: nat)
    requires b in s.brokers && (s.brokers[b].PublishWriting? || s.brokers[b].Clearing? || s.brokers[b].Claiming? || s.brokers[b].Committing?)
    ensures Advance(s, b).next >= s.next && b in Advance(s, b).brokers && Advance(s, b).brokers == s.brokers[b := Advance(s, b).brokers[b]]
  {
  }

  lemma InstallKeepsInv(s: State, auth: AuthFile, keepNotes: bool)
    requires Inv(s)
    ensures Inv(Apply(s, Install(auth, keepNotes)))
  {
    var t := Apply(s, Install(auth, keepNotes));
    Claims.InstallKeepsSnapshots(s, auth, keepNotes);
    var e := t.log[|s.log|];
    assert t.log == s.log + [e];
    LastCommitAppend(s.log, e);
    WritesStay(s.log, e);
    StepKeeps(s, t, 0);
  }

  lemma RemoveOutputKeepsInv(s: State, output: nat)
    requires Inv(s) && output in s.outputs
    ensures Inv(Apply(s, RemoveOutput(output)))
  {
    var t := Apply(s, RemoveOutput(output));
    Claims.StepKeepsSnapshots(s, RemoveOutput(output));
    LastCommitAppend(s.log, Deleted(output));
    WritesStay(s.log, Deleted(output));
    assert t.log == s.log + [Deleted(output)];
    StepKeeps(s, t, 0);
  }

  lemma StepKeepsInv(s: State, action: Action)
    requires Inv(s)
    ensures Inv(Apply(s, action))
  {
    var t := Apply(s, action);
    Claims.StepKeepsSnapshots(s, action);
    match action
    case Start(b, _) => MoveKeepsInv(s, t, b);
    case Step(b) => if b in s.brokers { AdvanceKeepsInv(s, b); }
    case Answer(b, reply) => MoveKeepsInv(s, t, b);
    case Throw(b, applied) => if b in s.brokers { ThrowKeepsInv(s, b, applied); }
    case Crash(b) => MoveKeepsInv(s, t, b);
    case Tick(_) => MoveKeepsInv(s, t, 0);
    case Install(auth, keepNotes) => InstallKeepsInv(s, auth, keepNotes);
    case RemoveAuthority => StepKeeps(s, t, 0);
    case RemoveOutput(output) => if output in s.outputs { RemoveOutputKeepsInv(s, output); }
  }

  lemma {:induction false} RunKeepsInv(s: State, actions: seq<Action>)
    requires Inv(s)
    ensures Inv(Run(s, actions))
    decreases |actions|
  {
    if actions != [] {
      StepKeepsInv(s, actions[0]);
      RunKeepsInv(Apply(s, actions[0]), actions[1..]);
    }
  }

  // ----- Theorems, over every run -----

  /** Every credential written was committed earlier, under the binding written beside it, and was the
      latest commit when its authority was proved unchanged, after its Secret was read. */
  lemma PublicationsAreCommitted(now: int, actions: seq<Action>, j: nat)
    requires var log := Run(Init(now), actions).log; j < |log| && log[j].Wrote?
    ensures var log := Run(Init(now), actions).log;
      && log[j].read <= log[j].proof <= j && log[j].commit < log[j].proof
      && IsCommit(log, log[j].commit, log[j].binding, log[j].access)
      && forall k :: log[j].commit < k < log[j].proof ==> !log[k].Committed?
  {
    RunKeepsInv(Init(now), actions);
    var log := Run(Init(now), actions).log;
    assert WriteOk(log, j);
    var before := log[..log[j].proof];
    assert before[log[j].commit].Committed?;
    assert forall k :: log[j].commit < k < log[j].proof ==> before[k] == log[k];
  }

  /** A later write to an output Secret goes back to an earlier commit if and only if it is a create
      whose Secret was read as absent before the earlier write, which was deleted since, and whose
      authority was proved before the earlier write's commit. */
  lemma PublicationGoesBackIff(now: int, actions: seq<Action>, i: nat, j: nat)
    requires var log := Run(Init(now), actions).log;
      i < j < |log| && log[i].Wrote? && log[j].Wrote? && log[i].output == log[j].output
    ensures var log := Run(Init(now), actions).log;
      log[j].commit < log[i].commit <==>
        && log[j].created && log[j].read <= i && (exists k :: i < k < j && log[k] == Deleted(log[j].output))
        && log[j].proof <= log[i].commit
  {
    RunKeepsInv(Init(now), actions);
    PublicationsAreCommitted(now, actions, i);
    PublicationsAreCommitted(now, actions, j);
    var log := Run(Init(now), actions).log;
    assert PairOk(log, i, j);
  }

  /** Publication is ordered: as long as an output Secret is not deleted, a later write to it comes from
      the same commit or a later one. */
  lemma PublicationsAreOrdered(now: int, actions: seq<Action>, i: nat, j: nat)
    requires var log := Run(Init(now), actions).log;
      i < j < |log| && log[i].Wrote? && log[j].Wrote? && log[i].output == log[j].output
    requires var log := Run(Init(now), actions).log; forall k :: i < k < j ==> log[k] != Deleted(log[i].output)
    ensures var log := Run(Init(now), actions).log; log[i].commit <= log[j].commit
  {
    PublicationGoesBackIff(now, actions, i, j);
  }
}
