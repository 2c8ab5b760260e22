/** The workspace controller's reconcile, as a function on the cluster it would see if nobody
    else moved: one pass over observations, deletions and a status report. */
module WorkspaceController {
  import opened VersionedStore

  datatype Residency = Running | Suspended | Archived
  datatype Spec = Spec(uid: nat, generation: nat, residency: Residency, ephemeral: bool, ttlMs: Option<nat>)

  datatype Phase = PendingPhase | ReadyPhase | FailedPhase | SuspendedPhase | ArchivedPhase

  datatype Message =
    | EphemeralCannotSuspend | EphemeralPodLost | WaitingReadiness | TeardownFailed | TeardownCompleted
    | SnapshotUnavailable | WaitingStop | WaitingReader | WaitingRuntime | WaitingStorage | StorageReleased
    | EphemeralReleased | StorageRetained | NoProject | CapacityReached | CredentialsFailed(why: nat)
    | DaemonReady | Diagnosed(text: nat) | EphemeralTerminated | ReplacingPod | WaitingDaemon

  datatype Status = Status(phase: Phase, message: Message, observedGeneration: nat, teardownAt: Option<int>,
                           archivedAt: Option<int>, storageDeletedAt: Option<int>, lastFailure: Option<nat>)

  /** What a report sets beside phase and message. */
  datatype Fields = Fields(teardownAt: Option<int>, archivedAt: Option<int>, storageDeletedAt: Option<int>, lastFailure: Option<nat>)

  const NONE := Fields(None, None, None, None)

  datatype Workspace = Workspace(spec: Spec, status: Option<Status>, deleting: bool)

  datatype Diagnostic = Diagnostic(reason: nat, text: nat, failed: bool)
  datatype Pod = Pod(uid: nat, owner: nat, ready: bool, deleting: bool, ended: bool, diagnostic: Option<Diagnostic>)
  datatype Object = Object(uid: nat, owner: nat, deleting: bool)

  datatype Cluster = Cluster(now: int, next: nat, workspace: Versioned<Workspace>, pod: Option<Pod>, reader: Option<Pod>,
                             pvc: Option<Object>, service: Option<Object>, access: Option<Object>)

  /** What the rest of the world answers: hooks, configuration, and whether a deletion is instant. */
  datatype Env = Env(teardown: bool, snapshotHook: bool, snapshot: bool, project: bool, capacity: bool,
                     credentials: Option<nat>, gateway: bool, instant: bool)

  datatype Outcome = Done | Threw

  // ----- The store -----

  function Merge<T>(field: Option<T>, previous: Option<T>): Option<T> {
    if field.Some? then field else previous
  }

  function Reported(w: Workspace, phase: Phase, message: Message, fields: Fields): Status {
    var p := w.status;
    Status(phase, message, w.spec.generation,
           Merge(fields.teardownAt, if p.Some? then p.value.teardownAt else None),
           Merge(fields.archivedAt, if p.Some? then p.value.archivedAt else None),
           Merge(fields.storageDeletedAt, if p.Some? then p.value.storageDeletedAt else None),
           Merge(fields.lastFailure, if p.Some? then p.value.lastFailure else None))
  }

  predicate Repeats(w: Workspace, phase: Phase, message: Message, fields: Fields) {
    && w.status.Some? && w.status.value.phase == phase && w.status.value.message == message
    && w.status.value.observedGeneration == w.spec.generation && fields == NONE
  }

  /** `report`: the status is replaced, under the version of the workspace that was read. */
  function Report(c: Cluster, w: Versioned<Workspace>, phase: Phase, message: Message, fields: Fields): (Cluster, Outcome) {
    if Repeats(w.value, phase, message, fields) then (c, Done)
    else if c.workspace.version != w.version then (c, Threw)
    else
      var value := w.value.(status := Some(Reported(w.value, phase, message, fields)));
      (c.(workspace := Versioned(c.next, value), next := c.next + 1), Done)
  }

  function DeleteObject(o: Object, env: Env): Option<Object> {
    if env.instant then None else Some(o.(deleting := true))
  }

  function Removed(o: Option<Object>, env: Env): Option<Object> {
    if o.None? then None else if o.value.deleting then o else DeleteObject(o.value, env)
  }

  // ----- stop -----

  function TeardownAt(w: Workspace): Option<int> {
    if w.status.Some? then w.status.value.teardownAt else None
  }

  function ArchivedAt(w: Workspace): Option<int> {
    if w.status.Some? then w.status.value.archivedAt else None
  }

  function StorageDeletedAt(w: Workspace): Option<int> {
    if w.status.Some? then w.status.value.storageDeletedAt else None
  }

  predicate Foreign(o: Option<Object>, w: Workspace) {
    o.Some? && o.value.owner != w.spec.uid
  }

  predicate ForeignPod(p: Option<Pod>, w: Workspace) {
    p.Some? && p.value.owner != w.spec.uid
  }

  /** A stop that was already reported as completed. */
  predicate CompletedStop(w: Workspace) {
    && w.status.Some? && w.status.value.observedGeneration == w.spec.generation
    && ((w.spec.residency == Suspended && w.status.value.phase == SuspendedPhase)
        || (w.spec.residency == Archived && w.status.value.phase == ArchivedPhase && TeardownAt(w).Some?))
  }

  predicate TtlElapsed(w: Workspace, archivedAt: int, now: int) {
    w.spec.residency == Archived && w.spec.ttlMs.Some? && StorageDeletedAt(w).None? && now >= archivedAt + w.spec.ttlMs.value
  }

  /** The result of `stop`: whether reconcile is over, and how. */
  datatype Stopped = Stopped(c: Cluster, over: bool, outcome: Outcome)

  function Over(r: (Cluster, Outcome)): Stopped {
    Stopped(r.0, true, r.1)
  }

  function TearDown(c: Cluster, w: Versioned<Workspace>, env: Env): Stopped {
    if c.pod.None? then
      if w.value.spec.ephemeral && w.value.status.Some? then Over(Report(c, w, FailedPhase, EphemeralPodLost, NONE))
      else Stopped(c, false, Done)
    else if c.pod.value.deleting || !c.pod.value.ready then Over(Report(c, w, PendingPhase, WaitingReadiness, NONE))
    else if !env.teardown then Over(Report(c, w, FailedPhase, TeardownFailed, NONE))
    else Over(Report(c, w, PendingPhase, TeardownCompleted, NONE.(teardownAt := Some(c.now))))
  }

  /** The volume of an archived workspace whose retention has expired. */
  function Collect(c: Cluster, w: Versioned<Workspace>, archivedAt: int, env: Env): Stopped {
    if Foreign(c.pvc, w.value) then Stopped(c, true, Threw)
    else
      var d := c.(pvc := if c.pvc.Some? then DeleteObject(c.pvc.value, env) else None);
      if d.pvc.Some? then Over(Report(d, w, ArchivedPhase, WaitingStorage, NONE.(archivedAt := Some(archivedAt))))
      else Over(Report(d, w, ArchivedPhase, StorageReleased,
                       NONE.(archivedAt := Some(archivedAt), storageDeletedAt := Some(c.now))))
  }

  /** Compute is gone; runtime, storage and the final report. */
  function Release(c: Cluster, w: Versioned<Workspace>, env: Env): Stopped {
    var archived := w.value.spec.residency == Archived;
    if archived && (Foreign(c.service, w.value) || Foreign(c.access, w.value)) then Stopped(c, true, Threw)
    else
      var d := if archived then c.(service := Removed(c.service, env), access := Removed(c.access, env)) else c;
      if archived && (d.service.Some? || d.access.Some?) then Over(Report(d, w, PendingPhase, WaitingRuntime, NONE))
      else
        var archivedAt := if ArchivedAt(w.value).Some? then ArchivedAt(w.value).value else c.now;
        if TtlElapsed(w.value, archivedAt, c.now) then Collect(d, w, archivedAt, env)
        else
          Over(Report(d, w, if archived then ArchivedPhase else SuspendedPhase,
                      if StorageDeletedAt(w.value).Some? then StorageReleased
                      else if w.value.spec.ephemeral then EphemeralReleased else StorageRetained,
                      if archived && ArchivedAt(w.value).None? then NONE.(archivedAt := Some(archivedAt)) else NONE))
  }

  /** The pod is gone: a history reader still holds the volume, or nothing does. */
  function AfterPod(c: Cluster, w: Versioned<Workspace>, env: Env): Stopped {
    if ForeignPod(c.reader, w.value) then Stopped(c, true, Threw)
    else if c.reader.Some? then
      if CompletedStop(w.value) then Stopped(c, true, Done) else Over(Report(c, w, PendingPhase, WaitingReader, NONE))
    else Release(c, w, env)
  }

  function Stop(c: Cluster, w: Versioned<Workspace>, env: Env): Stopped {
    if ForeignPod(c.pod, w.value) then Stopped(c, true, Threw)
    else if w.value.spec.residency == Suspended && w.value.spec.ephemeral then
      Over(Report(c, w, FailedPhase, EphemeralCannotSuspend, NONE))
    else if w.value.spec.residency == Archived && TeardownAt(w.value).None? then TearDown(c, w, env)
    else if w.value.spec.residency == Suspended && c.pod.Some? && !c.pod.value.deleting && c.pod.value.ready &&
            env.snapshotHook && !env.snapshot then
      Over(Report(c, w, FailedPhase, SnapshotUnavailable, NONE))
    else if c.pod.Some? then
      Over(Report(c.(pod := Some(c.pod.value.(deleting := true))), w, PendingPhase, WaitingStop, NONE))
    else AfterPod(c, w, env)
  }

  // ----- reconcile -----

  /** `ensure` of one object: it is there, or it is created under the next UID. */
  function Ensured(o: Option<Object>, w: Workspace, next: nat): Option<Object> {
    if o.Some? then o else Some(Object(next, w.spec.uid, false))
  }

  function Bump(o: Option<Object>, next: nat): nat {
    if o.Some? then next else next + 1
  }

  function NewPod(w: Workspace, uid: nat): Pod {
    Pod(uid, w.spec.uid, false, false, false, None)
  }

  /** What the pod shows, `pod` being None when it was just created. */
  function Observe(c: Cluster, w: Versioned<Workspace>, pod: Option<Pod>): (Cluster, Outcome) {
    var ready := pod.Some? && !pod.value.deleting && pod.value.ready;
    var ended := pod.Some? && pod.value.ended;
    var diagnostic := if pod.Some? then pod.value.diagnostic else None;
    var news := diagnostic.Some? && (w.value.status.None? || w.value.status.value.lastFailure != Some(diagnostic.value.reason));
    if diagnostic.Some? && (news || (!ready && !ended)) then
      Report(c, w, if ready then ReadyPhase else if diagnostic.value.failed then FailedPhase else PendingPhase,
             if ready then DaemonReady else Diagnosed(diagnostic.value.text),
             if news then NONE.(lastFailure := Some(diagnostic.value.reason)) else NONE)
    else if ended then
      if w.value.spec.ephemeral then Report(c, w, FailedPhase, EphemeralTerminated, NONE)
      else Report(c.(pod := Some(pod.value.(deleting := true))), w, PendingPhase, ReplacingPod, NONE)
    else Report(c, w, if ready then ReadyPhase else PendingPhase, if ready then DaemonReady else WaitingDaemon, NONE)
  }

  function Start(c: Cluster, w: Versioned<Workspace>, env: Env): (Cluster, Outcome) {
    if !env.project then Report(c, w, FailedPhase, NoProject, NONE)
    else if c.pod.None? && w.value.spec.residency == Running && ForeignPod(c.reader, w.value) then (c, Threw)
    else if c.pod.None? && w.value.spec.residency == Running && c.reader.Some? then
      Report(c, w, PendingPhase, WaitingReader, NONE)
    else if c.pod.None? && w.value.spec.residency == Running && !env.capacity then
      Report(c, w, PendingPhase, CapacityReached, NONE)
    else if env.credentials.Some? then Report(c, w, FailedPhase, CredentialsFailed(env.credentials.value), NONE)
    else Provide(c, w, env)
  }

  function WithAccess(c: Cluster, w: Workspace): Cluster {
    c.(access := Ensured(c.access, w, c.next), next := Bump(c.access, c.next))
  }

  function WithVolume(c: Cluster, w: Workspace): Cluster {
    c.(pvc := Ensured(c.pvc, w, c.next), next := Bump(c.pvc, c.next))
  }

  function WithService(c: Cluster, w: Workspace): Cluster {
    c.(service := Ensured(c.service, w, c.next), next := Bump(c.service, c.next))
  }

  /** Access, volume, service and pod, in that order; none is adopted from another owner. */
  function Provide(c: Cluster, w: Versioned<Workspace>, env: Env): (Cluster, Outcome) {
    if env.gateway && Foreign(c.access, w.value) then (c, Threw)
    else
      var d := if env.gateway then WithAccess(c, w.value) else c;
      if !w.value.spec.ephemeral && Foreign(d.pvc, w.value) then (d, Threw)
      else
        var e := if w.value.spec.ephemeral then d else WithVolume(d, w.value);
        if Foreign(e.service, w.value) then (e, Threw) else ProvidePod(WithService(e, w.value), w)
  }

  function ProvidePod(c: Cluster, w: Versioned<Workspace>): (Cluster, Outcome) {
    if ForeignPod(c.pod, w.value) then (c, Threw)
    else Observe(if c.pod.Some? then c else c.(pod := Some(NewPod(w.value, c.next)), next := c.next + 1), w, c.pod)
  }

  /** One reconcile of the workspace as it stands. */
  function Reconcile(c: Cluster, env: Env): (Cluster, Outcome) {
    var w := c.workspace;
    if w.value.deleting then (c, Done)
    else if w.value.spec.residency == Running then Start(c, w, env)
    else
      var stopped := Stop(c, w, env);
      if stopped.over then (stopped.c, stopped.outcome) else Start(stopped.c, w, env)
  }
}
