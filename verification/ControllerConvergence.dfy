/** Repeated reconciles of an archived, retained workspace, while readers, slow pods and deletions take
    any number of rounds: how often it is written, what it waits for, and where it comes to rest. */
module ControllerConvergence {
  import opened VersionedStore
  import opened WorkspaceController

  /** Hooks succeed and the configuration is there. */
  predicate Cooperative(env: Env) {
    env.teardown && env.project && env.credentials.None?
  }

  predicate Own(o: Option<Object>, w: Workspace) {
    o.Some? ==> o.value.owner == w.spec.uid
  }

  /** What is there is the workspace's own. */
  predicate Ours(c: Cluster) {
    var w := c.workspace.value;
    && Own(c.pvc, w) && Own(c.service, w) && Own(c.access, w)
    && (c.pod.Some? ==> c.pod.value.owner == w.spec.uid) && (c.reader.Some? ==> c.reader.value.owner == w.spec.uid)
  }

  predicate ArchivedRetained(c: Cluster) {
    var w := c.workspace.value;
    && !w.deleting && w.spec.residency == Archived && !w.spec.ephemeral && c.workspace.version < c.next && Ours(c)
  }

  /** What the world gets done between two reconciles; what it does not stays as it is. */
  datatype Progress = Progress(ms: nat, readerEnds: bool, podReady: bool, podGone: bool, pvcGone: bool, serviceGone: bool, accessGone: bool)

  function Gone(o: Option<Object>, gone: bool): Option<Object> {
    if o.Some? && o.value.deleting && gone then None else o
  }

  /** Time passes; the reader may end, the pod may become ready, and what is being deleted may be gone. */
  function Settle(c: Cluster, p: Progress): Cluster {
    c.(now := c.now + p.ms, reader := if p.readerEnds then None else c.reader,
       pvc := Gone(c.pvc, p.pvcGone), service := Gone(c.service, p.serviceGone), access := Gone(c.access, p.accessGone),
       pod := if c.pod.None? || (c.pod.value.deleting && p.podGone) then None
              else Some(c.pod.value.(ready := c.pod.value.ready || p.podReady)))
  }

  function Round(c: Cluster, env: Env, p: Progress): Cluster {
    Settle(Reconcile(c, env).0, p)
  }

  // ----- Where the workspace stands -----

  predicate Bare(c: Cluster) {
    c.pod.None? && c.reader.None? && c.service.None? && c.access.None?
  }

  predicate Going(o: Option<Object>) {
    o.Some? && o.value.deleting
  }

  predicate Live(o: Option<Object>) {
    o.Some? && !o.value.deleting
  }

  /** The retention is over, as the next reconcile finds it. */
  predicate Elapsed(c: Cluster) {
    var w := c.workspace.value;
    TtlElapsed(w, if ArchivedAt(w).Some? then ArchivedAt(w).value else c.now, c.now)
  }

  /** The final report for what is stored now is already in place. */
  predicate Closed(w: Workspace) {
    && ArchivedAt(w).Some?
    && Repeats(w, ArchivedPhase, if StorageDeletedAt(w).Some? then StorageReleased else StorageRetained, NONE)
  }

  /** The workspace is archived for good: torn down, nothing running, and past its retention the
      volume was observed gone. */
  predicate AtRest(c: Cluster) {
    TeardownAt(c.workspace.value).Some? && Bare(c) && Closed(c.workspace.value) && !Elapsed(c)
  }

  /** The volume of the expired workspace is being deleted. */
  predicate StorageWait(c: Cluster) {
    TeardownAt(c.workspace.value).Some? && Bare(c) && Elapsed(c) && Going(c.pvc)
  }

  /** Something must happen in the world first: a pod become ready or be gone, the reader end, runtime
      objects or the volume be gone. */
  predicate Waiting(c: Cluster) {
    if TeardownAt(c.workspace.value).None? then c.pod.Some? && (c.pod.value.deleting || !c.pod.value.ready)
    else if c.pod.Some? then c.pod.value.deleting
    else if c.reader.Some? then true
    else if !Bare(c) then !Live(c.service) && !Live(c.access)
    else StorageWait(c)
  }

  /** What the workspace waits for gets done. */
  predicate GetsDone(c: Cluster, p: Progress) {
    if c.pod.Some? then if TeardownAt(c.workspace.value).Some? || c.pod.value.deleting then p.podGone else p.podReady
    else if c.reader.Some? then p.readerEnds
    else if !Bare(c) then (c.service.Some? ==> p.serviceGone) && (c.access.Some? ==> p.accessGone)
    else p.pvcGone
  }

  /** The report that says what it waits for is already in place; a stop that was reported completed
      is left alone while a reader holds the volume. */
  predicate Announced(c: Cluster) {
    var w := c.workspace.value;
    if TeardownAt(w).None? then Repeats(w, PendingPhase, WaitingReadiness, NONE)
    else if c.pod.Some? then Repeats(w, PendingPhase, WaitingStop, NONE)
    else if c.reader.Some? then CompletedStop(w) || Repeats(w, PendingPhase, WaitingReader, NONE)
    else Repeats(w, PendingPhase, WaitingRuntime, NONE)
  }

  function Bit(b: bool): nat {
    if b then 1 else 0
  }

  /** How far the workspace is from rest. */
  function Rank(c: Cluster): nat {
    var w := c.workspace.value;
    if TeardownAt(w).None? then
      if c.pod.None? then 17
      else if c.pod.value.deleting then 18 + Bit(!Announced(c))
      else if !c.pod.value.ready then 15 + Bit(!Announced(c))
      else 14
    else if c.pod.Some? then 11 + Bit(!Announced(c)) + Bit(!c.pod.value.deleting)
    else if c.reader.Some? then 9 + Bit(!Announced(c))
    else if !Bare(c) then 6 + Bit(!Announced(c)) + Bit(Live(c.service) || Live(c.access))
    else if StorageDeletedAt(w).Some? then Bit(!Closed(w))
    else (if Live(c.pvc) then 3 else if Going(c.pvc) then 1 else 0) + 1 + Bit(!Closed(w) && !Elapsed(c))
  }

  /** What a round keeps, and how it changes the rank. */
  ghost predicate Nearer(c: Cluster, env: Env, p: Progress) {
    var d := Round(c, env, p);
    && ArchivedRetained(d) && Reconcile(c, env).1 == Done && Rank(d) <= Rank(c)
    && (Reconcile(c, env).0 != c && !StorageWait(c) ==> Rank(d) < Rank(c))
    && (!Waiting(c) && !AtRest(c) ==> Rank(d) < Rank(c))
    && (Waiting(c) && GetsDone(c, p) ==> Rank(d) < Rank(c))
  }

  /** A reconcile writes nothing exactly at rest, or when what it waits for is announced and is not the
      volume. */
  predicate QuietIff(c: Cluster, env: Env) {
    Reconcile(c, env).0 == c <==> AtRest(c) || (Waiting(c) && Announced(c) && !StorageWait(c))
  }

  // ----- One lemma for each place it may stand at -----

  /** What is missing is created, a pod last. */
  lemma Restored(c: Cluster, env: Env)
    requires ArchivedRetained(c) && Cooperative(env) && TeardownAt(c.workspace.value).None? && c.pod.None?
    ensures var (d, outcome) := Reconcile(c, env);
      && outcome == Done && ArchivedRetained(d) && TeardownAt(d.workspace.value).None? && d != c
      && d.pod.Some? && !d.pod.value.deleting && !d.pod.value.ready
  {
  }

  lemma RestoreNearer(c: Cluster, env: Env, p: Progress)
    requires ArchivedRetained(c) && Cooperative(env) && TeardownAt(c.workspace.value).None? && c.pod.None?
    ensures Nearer(c, env, p) && QuietIff(c, env)
  {
    Restored(c, env);
  }

  lemma ReadyNearer(c: Cluster, env: Env, p: Progress)
    requires ArchivedRetained(c) && Cooperative(env) && TeardownAt(c.workspace.value).None? && c.pod.Some? && c.pod.value.ready && !c.pod.value.deleting
    ensures Nearer(c, env, p) && QuietIff(c, env)
  {
  }

  lemma ReadinessNearer(c: Cluster, env: Env, p: Progress)
    requires ArchivedRetained(c) && Cooperative(env) && TeardownAt(c.workspace.value).None? && c.pod.Some? && (!c.pod.value.ready || c.pod.value.deleting)
    ensures Nearer(c, env, p) && QuietIff(c, env)
  {
  }

  lemma StopNearer(c: Cluster, env: Env, p: Progress)
    requires ArchivedRetained(c) && Cooperative(env) && TeardownAt(c.workspace.value).Some? && c.pod.Some?
    ensures Nearer(c, env, p) && QuietIff(c, env)
  {
  }

  lemma ReaderNearer(c: Cluster, env: Env, p: Progress)
    requires ArchivedRetained(c) && Cooperative(env) && TeardownAt(c.workspace.value).Some? && c.pod.None? && c.reader.Some?
    ensures Nearer(c, env, p) && QuietIff(c, env)
  {
  }

  lemma RuntimeInTime(c: Cluster, env: Env, p: Progress)
    requires ArchivedRetained(c) && Cooperative(env) && TeardownAt(c.workspace.value).Some? && c.pod.None? && c.reader.None? && !Bare(c)
    requires !env.instant || Going(c.service) || Going(c.access)
    ensures Nearer(c, env, p) && QuietIff(c, env)
  {
    if Live(c.service) || Live(c.access) { RuntimeGoes(c, env, p); } else { RuntimeAwaited(c, env, p); }
  }

  lemma RuntimeGoes(c: Cluster, env: Env, p: Progress)
    requires ArchivedRetained(c) && Cooperative(env) && TeardownAt(c.workspace.value).Some? && c.pod.None? && c.reader.None? && !Bare(c)
    requires (!env.instant || Going(c.service) || Going(c.access)) && (Live(c.service) || Live(c.access))
    ensures Nearer(c, env, p) && QuietIff(c, env)
  {
  }

  lemma RuntimeAwaited(c: Cluster, env: Env, p: Progress)
    requires ArchivedRetained(c) && Cooperative(env) && TeardownAt(c.workspace.value).Some? && c.pod.None? && c.reader.None? && !Bare(c)
    requires !Live(c.service) && !Live(c.access)
    ensures Nearer(c, env, p) && QuietIff(c, env)
  {
  }

  /** Both objects gone at once, the round goes on as one that found neither. */
  lemma RuntimeAtOnce(c: Cluster, env: Env, p: Progress)
    requires ArchivedRetained(c) && Cooperative(env) && TeardownAt(c.workspace.value).Some? && c.pod.None? && c.reader.None? && !Bare(c)
    requires env.instant && !Going(c.service) && !Going(c.access)
    ensures Nearer(c, env, p) && QuietIff(c, env)
  {
    var d := c.(service := None, access := None);
    assert Reconcile(c, env) == Reconcile(d, env);
    if Elapsed(d) { CollectNearer(d, env, p); } else { RetainNearer(d, env, p); }
    assert Rank(d) <= 5 < Rank(c);
    assert Reconcile(d, env).0.service.None? && Reconcile(d, env).0.access.None?;
  }

  lemma RuntimeNearer(c: Cluster, env: Env, p: Progress)
    requires ArchivedRetained(c) && Cooperative(env) && TeardownAt(c.workspace.value).Some? && c.pod.None? && c.reader.None? && !Bare(c)
    ensures Nearer(c, env, p) && QuietIff(c, env)
  {
    if env.instant && !Going(c.service) && !Going(c.access) { RuntimeAtOnce(c, env, p); } else { RuntimeInTime(c, env, p); }
  }

  lemma CollectNearer(c: Cluster, env: Env, p: Progress)
    requires ArchivedRetained(c) && Cooperative(env) && TeardownAt(c.workspace.value).Some? && Bare(c) && Elapsed(c)
    ensures Nearer(c, env, p) && QuietIff(c, env)
  {
    if c.pvc.Some? && !env.instant { DeletionBegins(c, env, p); } else { Released(c, env, p); }
  }

  lemma DeletionBegins(c: Cluster, env: Env, p: Progress)
    requires ArchivedRetained(c) && Cooperative(env) && TeardownAt(c.workspace.value).Some? && Bare(c) && Elapsed(c)
    requires c.pvc.Some? && !env.instant
    ensures Nearer(c, env, p) && QuietIff(c, env)
  {
  }

  lemma Released(c: Cluster, env: Env, p: Progress)
    requires ArchivedRetained(c) && Cooperative(env) && TeardownAt(c.workspace.value).Some? && Bare(c) && Elapsed(c)
    requires c.pvc.None? || env.instant
    ensures Nearer(c, env, p) && QuietIff(c, env)
  {
  }

  lemma RetainNearer(c: Cluster, env: Env, p: Progress)
    requires ArchivedRetained(c) && Cooperative(env) && TeardownAt(c.workspace.value).Some? && Bare(c) && !Elapsed(c)
    ensures Nearer(c, env, p) && QuietIff(c, env)
  {
  }

  /** A round never leads away from rest. It leads nearer if it writes, but for the report that is
      repeated while the volume is being deleted; if it waits for nothing; and if what it waits for
      gets done. */
  lemma RoundNearer(c: Cluster, env: Env, p: Progress)
    requires ArchivedRetained(c) && Cooperative(env)
    ensures Nearer(c, env, p) && QuietIff(c, env)
  {
    if TeardownAt(c.workspace.value).None? {
      if c.pod.None? { RestoreNearer(c, env, p); }
      else if c.pod.value.ready && !c.pod.value.deleting { ReadyNearer(c, env, p); }
      else { ReadinessNearer(c, env, p); }
    }
    else if c.pod.Some? { StopNearer(c, env, p); }
    else if c.reader.Some? { ReaderNearer(c, env, p); }
    else if !Bare(c) { RuntimeNearer(c, env, p); }
    else if Elapsed(c) { CollectNearer(c, env, p); }
    else { RetainNearer(c, env, p); }
  }

  // ----- Any number of rounds -----

  /** The rounds of a schedule: what the environment answers, and what gets done meanwhile. */
  function Rounds(c: Cluster, rounds: seq<(Env, Progress)>): Cluster
    decreases |rounds|
  {
    if rounds == [] then c else Rounds(Round(c, rounds[0].0, rounds[0].1), rounds[1..])
  }

  /** How many of them wrote anything. */
  function Writes(c: Cluster, rounds: seq<(Env, Progress)>): nat
    decreases |rounds|
  {
    if rounds == [] then 0
    else Bit(Reconcile(c, rounds[0].0).0 != c) + Writes(Round(c, rounds[0].0, rounds[0].1), rounds[1..])
  }

  /** How many found the volume of the expired workspace still being deleted. */
  function StorageWaits(c: Cluster, rounds: seq<(Env, Progress)>): nat
    decreases |rounds|
  {
    if rounds == [] then 0 else Bit(StorageWait(c)) + StorageWaits(Round(c, rounds[0].0, rounds[0].1), rounds[1..])
  }

  /** How many found the workspace waiting for something that was not done by their end. */
  function Waits(c: Cluster, rounds: seq<(Env, Progress)>): nat
    decreases |rounds|
  {
    if rounds == [] then 0
    else Bit(Waiting(c) && !GetsDone(c, rounds[0].1)) + Waits(Round(c, rounds[0].0, rounds[0].1), rounds[1..])
  }

  /** How many found the workspace at rest. */
  function Rests(c: Cluster, rounds: seq<(Env, Progress)>): nat
    decreases |rounds|
  {
    if rounds == [] then 0 else Bit(AtRest(c)) + Rests(Round(c, rounds[0].0, rounds[0].1), rounds[1..])
  }

  predicate AllCooperative(rounds: seq<(Env, Progress)>) {
    forall r :: r in rounds ==> Cooperative(r.0)
  }

  /** However long readers, pods and deletions take and however the clock moves: at most nineteen
      reconciles write, beside those that find the volume still being deleted. And all rounds but
      nineteen wait for something that does not get done, or find the workspace at rest. */
  lemma {:induction false} Converges(c: Cluster, rounds: seq<(Env, Progress)>)
    requires ArchivedRetained(c) && AllCooperative(rounds)
    ensures ArchivedRetained(Rounds(c, rounds))
    ensures Writes(c, rounds) + Rank(Rounds(c, rounds)) <= Rank(c) + StorageWaits(c, rounds)
    ensures |rounds| + Rank(Rounds(c, rounds)) <= Rank(c) + Waits(c, rounds) + Rests(c, rounds) && Rank(c) <= 19
    decreases |rounds|
  {
    if rounds != [] {
      RoundNearer(c, rounds[0].0, rounds[0].1);
      Converges(Round(c, rounds[0].0, rounds[0].1), rounds[1..]);
    }
  }

  /** The report of a volume being deleted is written anew in every round the deletion takes. */
  lemma {:induction false} StorageWaitsWrite(c: Cluster, rounds: seq<(Env, Progress)>)
    requires ArchivedRetained(c) && StorageWait(c) && AllCooperative(rounds)
    requires forall r :: r in rounds ==> !r.0.instant && !r.1.pvcGone
    ensures Writes(c, rounds) == |rounds| == StorageWaits(c, rounds)
    decreases |rounds|
  {
    if rounds != [] {
      var (env, p) := rounds[0];
      assert rounds[0] in rounds;
      RoundNearer(c, env, p);
      VolumeStays(c, env, p);
      StorageWaitsWrite(Round(c, env, p), rounds[1..]);
    }
  }

  lemma VolumeStays(c: Cluster, env: Env, p: Progress)
    requires ArchivedRetained(c) && StorageWait(c) && !env.instant && !p.pvcGone
    ensures StorageWait(Round(c, env, p))
  {
  }

  /** Rest is left only by the clock: until the retention expires, rounds change nothing else. */
  lemma RestStays(c: Cluster, env: Env, p: Progress)
    requires ArchivedRetained(c) && Cooperative(env) && AtRest(c)
    ensures Round(c, env, p) == c.(now := c.now + p.ms, pvc := Gone(c.pvc, p.pvcGone))
    ensures AtRest(Round(c, env, p)) <==> !TtlElapsed(c.workspace.value, ArchivedAt(c.workspace.value).value, c.now + p.ms)
  {
    RoundNearer(c, env, p);
  }
}
