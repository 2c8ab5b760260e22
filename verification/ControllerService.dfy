/** `stop`, `report`, `ensure` and `reconcile` as the program text has them, over a cluster that
    others change at every await: what may be deleted, and when, and what a status may claim. */
module ControllerService {
  import opened VersionedStore
  import opened WorkspaceController

  datatype Seen<T> = Unseen | Saw(value: T)

  /** A mutation sent to the API server, with what this reconcile had last observed when it was sent. */
  datatype Op =
    | DeletedPod(uid: nat, pod: Seen<Option<Pod>>)
    | DeletedRuntime(uid: nat, item: Option<Object>)
    | DeletedStorage(uid: nat, pod: Seen<Option<Pod>>, reader: Seen<Option<Pod>>, pvc: Seen<Option<Object>>, now: int)
    | Created(uid: nat, seenAbsent: bool)
    | Wrote(fields: Fields, pvc: Seen<Option<Object>>)

  predicate OwnPod(seen: Seen<Option<Pod>>, w: Workspace, uid: nat) {
    seen.Saw? && seen.value.Some? && seen.value.value.uid == uid && seen.value.value.owner == w.spec.uid
  }

  predicate OwnObject(o: Option<Object>, w: Workspace, uid: nat) {
    o.Some? && o.value.uid == uid && o.value.owner == w.spec.uid
  }

  /** Storage goes only from an archived workspace whose teardown is recorded, after its pod and
      history reader were observed gone and its retention expired; only resources observed to be
      the workspace's own are deleted, an ephemeral pod, which holds the only data, only after its
      teardown; a report sets only the fields its branch may set, and the release of storage only
      after the volume was observed absent. */
  predicate OpSafe(w: Workspace, op: Op) {
    match op
    case DeletedPod(uid, pod) => OwnPod(pod, w, uid) && (w.spec.ephemeral ==> w.spec.residency == Archived && TeardownAt(w).Some?)
    case DeletedRuntime(uid, item) =>
      OwnObject(item, w, uid) && w.spec.residency == Archived && TeardownAt(w).Some?
    case DeletedStorage(uid, pod, reader, pvc, now) =>
      && w.spec.residency == Archived && TeardownAt(w).Some?
      && pod == Saw(None) && reader == Saw(None)
      && pvc.Saw? && OwnObject(pvc.value, w, uid)
      && TtlElapsed(w, if ArchivedAt(w).Some? then ArchivedAt(w).value else now, now)
    case Created(_, seenAbsent) => seenAbsent
    case Wrote(fields, pvc) => Reportable(w, fields) && (fields.storageDeletedAt.Some? ==> pvc == Saw(None))
  }

  predicate AllSafe(w: Workspace, ops: seq<Op>) {
    forall op :: op in ops ==> OpSafe(w, op)
  }

  // ----- Everybody's moves -----

  /** The fields each branch of a reconcile sets, in a report on the workspace it has read. */
  predicate Reportable(w: Workspace, fields: Fields) {
    || fields == NONE.(lastFailure := fields.lastFailure)
    || (fields == NONE.(teardownAt := fields.teardownAt) && w.spec.residency == Archived && TeardownAt(w).None?)
    || (fields == NONE.(archivedAt := fields.archivedAt) && Archiving(w, fields.archivedAt))
    || (fields == NONE.(archivedAt := fields.archivedAt, storageDeletedAt := fields.storageDeletedAt) &&
        Archiving(w, fields.archivedAt) && StorageDeletedAt(w).None?)
  }

  predicate Archiving(w: Workspace, archivedAt: Option<int>) {
    w.spec.residency == Archived && TeardownAt(w).Some? && archivedAt.Some? && ArchivedAt(w) in {None, archivedAt}
  }

  /** The cluster, and the workspace as each client has last read it. */
  datatype World = World(c: Cluster, snaps: map<nat, Versioned<Workspace>>)

  /** One move of anybody: the clock, the other objects of the namespace, a client that reads the
      workspace, changes its spec (`setResidency`, or an operator's edit) or reports on what it has
      read, and a deletion request. */
  datatype Move =
    | Tick(ms: nat)
    | Others(pod: Option<Pod>, reader: Option<Pod>, pvc: Option<Object>, service: Option<Object>, access: Option<Object>, uids: nat)
    | Read(client: nat)
    | Edit(client: nat, residency: Residency, ephemeral: bool, ttlMs: Option<nat>)
    | RequestDeletion
    | ReportOf(client: nat, phase: Phase, message: Message, fields: Fields)

  function Edited(spec: Spec, residency: Residency, ephemeral: bool, ttlMs: Option<nat>): Spec {
    Spec(spec.uid, spec.generation + 1, residency, ephemeral, ttlMs)
  }

  /** The workspace is stored under the next version. */
  function Stored(c: Cluster, value: Workspace): Cluster {
    c.(workspace := Versioned(c.next, value), next := c.next + 1)
  }

  /** A spec is replaced under the version that was read, and the status stays as it is stored; a status
      is replaced under the version that was read. */
  function Step(s: World, m: Move): World {
    match m
    case Tick(ms) => s.(c := s.c.(now := s.c.now + ms))
    case Others(pod, reader, pvc, service, access, uids) =>
      s.(c := s.c.(pod := pod, reader := reader, pvc := pvc, service := service, access := access, next := s.c.next + uids))
    case Read(client) => s.(snaps := s.snaps[client := s.c.workspace])
    case Edit(client, residency, ephemeral, ttlMs) =>
      if client !in s.snaps || s.snaps[client].version != s.c.workspace.version then s
      else
        var spec := Edited(s.snaps[client].value.spec, residency, ephemeral, ttlMs);
        s.(c := Stored(s.c, s.c.workspace.value.(spec := spec)))
    case RequestDeletion => s.(c := Stored(s.c, s.c.workspace.value.(deleting := true)))
    case ReportOf(client, phase, message, fields) =>
      if client !in s.snaps || !Reportable(s.snaps[client].value, fields) then s
      else s.(c := Report(s.c, s.snaps[client], phase, message, fields).0)
  }

  function Play(s: World, moves: seq<Move>): World {
    if moves == [] then s else Step(Play(s, moves[..|moves| - 1]), moves[|moves| - 1])
  }

  /** What is held is current, or its version has passed. */
  ghost predicate WorldOk(s: World) {
    s.c.workspace.version < s.c.next && forall client :: client in s.snaps ==> Snapshot(s.c, s.snaps[client])
  }

  ghost predicate Snapshot(c: Cluster, w: Versioned<Workspace>) {
    w.version < c.next && (c.workspace.version == w.version ==> c.workspace == w)
  }

  /** What a reconcile may rely on while others move. */
  predicate Legal(a: Cluster, b: Cluster) {
    && b.now >= a.now && b.next >= a.next
    && (b.workspace == a.workspace || b.workspace.version >= a.next)
    && KeepsTimes(a.workspace.value, b.workspace.value)
    && b.workspace.value.spec.uid == a.workspace.value.spec.uid
    && b.workspace.value.spec.generation >= a.workspace.value.spec.generation
  }

  predicate KeepsTimes(a: Workspace, b: Workspace) {
    && (TeardownAt(a).Some? ==> TeardownAt(b) == TeardownAt(a))
    && (ArchivedAt(a).Some? ==> ArchivedAt(b) == ArchivedAt(a))
    && (StorageDeletedAt(a).Some? ==> StorageDeletedAt(b) == StorageDeletedAt(a))
  }

  /** A report keeps the times of the workspace it was computed from. */
  lemma ReportedKeepsTimes(w: Workspace, phase: Phase, message: Message, fields: Fields)
    requires Reportable(w, fields)
    ensures KeepsTimes(w, w.(status := Some(Reported(w, phase, message, fields))))
  {
  }

  lemma StepIsLegal(s: World, m: Move)
    requires WorldOk(s)
    ensures WorldOk(Step(s, m)) && Legal(s.c, Step(s, m).c)
  {
    if m.ReportOf? && m.client in s.snaps && Reportable(s.snaps[m.client].value, m.fields) {
      ReportedKeepsTimes(s.snaps[m.client].value, m.phase, m.message, m.fields);
      assert Snapshot(s.c, s.snaps[m.client]);
    }
  }

  /** The API server, and what the running reconcile has observed and sent. */
  class Api {
    var c: Cluster
    var snaps: map<nat, Versioned<Workspace>>
    const calm: bool
    const env: Env
    const me: nat
    ghost const origin: World
    ghost var moves: seq<Move>
    ghost var pod: Seen<Option<Pod>>
    ghost var reader: Seen<Option<Pod>>
    ghost var pvc: Seen<Option<Object>>
    ghost var sent: seq<Op>

    /** All that happened are everybody's moves, those of this reconcile included. */
    ghost predicate Traced()
      reads this
    {
      Play(origin, moves) == World(c, snaps) && WorldOk(World(c, snaps))
    }

    /** The workspace as this reconcile has read it. */
    ghost predicate Holds(w: Versioned<Workspace>)
      reads this
    {
      Traced() && me in snaps && snaps[me] == w
    }

    twostate predicate Moved()
      reads this
    {
      && Traced() && Legal(old(c), c) && old(moves) <= moves
      && (old(me in snaps) ==> me in snaps && snaps[me] == old(snaps[me]))
    }

    /** The reconcile of a client that has read the workspace. */
    constructor (s: World, me: nat, env: Env, calm: bool)
      requires WorldOk(s) && me in s.snaps
      ensures c == s.c && snaps == s.snaps && origin == s && moves == [] && Holds(s.snaps[me])
      ensures this.me == me && this.env == env && this.calm == calm
      ensures pod == Unseen && reader == Unseen && pvc == Unseen && sent == []
    {
      c, snaps, origin, moves := s.c, s.snaps, s, [];
      this.me, this.env, this.calm := me, env, calm;
      pod, reader, pvc, sent := Unseen, Unseen, Unseen, [];
    }

    /** One move. */
    method Make(m: Move)
      requires Traced() && m != Read(me)
      modifies this`c, this`snaps, this`moves
      ensures Moved() && moves == old(moves) + [m] && World(c, snaps) == Step(World(old(c), old(snaps)), m)
    {
      ghost var s := World(c, snaps);
      StepIsLegal(s, m);
      var t := Step(World(c, snaps), m);
      c, snaps := t.c, t.snaps;
      assert (moves + [m])[..|moves|] == moves;
      moves := moves + [m];
    }

    /** Others move while this reconcile awaits. */
    method Await()
      requires Traced()
      modifies this`c, this`snaps, this`moves
      ensures Moved() && (calm ==> c == old(c))
    {
      if calm { return; }
      var theirs: seq<Move> := *;
      for n := 0 to |theirs|
        invariant Moved()
      {
        if theirs[n] != Read(me) { Make(theirs[n]); }
      }
    }

    method GetPod() returns (found: Option<Pod>)
      requires Traced()
      modifies this`c, this`snaps, this`moves, this`pod
      ensures Moved() && (calm ==> c == old(c)) && found == c.pod && pod == Saw(found)
    {
      Await();
      found := c.pod;
      pod := Saw(found);
    }

    method GetReader() returns (found: Option<Pod>)
      requires Traced()
      modifies this`c, this`snaps, this`moves, this`reader
      ensures Moved() && (calm ==> c == old(c)) && found == c.reader && reader == Saw(found)
    {
      Await();
      found := c.reader;
      reader := Saw(found);
    }

    method GetPvc() returns (found: Option<Object>)
      requires Traced()
      modifies this`c, this`snaps, this`moves, this`pvc
      ensures Moved() && (calm ==> c == old(c)) && found == c.pvc && pvc == Saw(found)
    {
      Await();
      found := c.pvc;
      pvc := Saw(found);
    }

    /** The Service or the access Secret. */
    method GetRuntime(service: bool) returns (found: Option<Object>)
      requires Traced()
      modifies this`c, this`snaps, this`moves
      ensures Moved() && (calm ==> c == old(c)) && found == (if service then c.service else c.access)
    {
      Await();
      found := if service then c.service else c.access;
    }

    /** Deletes the pod with this UID and no other; fails when it is gone or another. */
    method DeletePod(uid: nat) returns (ok: bool)
      requires Traced()
      modifies this`c, this`snaps, this`moves, this`sent
      ensures Moved() && sent == old(sent) + [DeletedPod(uid, pod)]
      ensures calm ==> (ok <==> old(c).pod.Some? && old(c).pod.value.uid == uid)
      ensures calm && ok ==> c == old(c).(pod := Some(old(c).pod.value.(deleting := true)))
      ensures calm && !ok ==> c == old(c)
    {
      Await();
      ok := c.pod.Some? && c.pod.value.uid == uid;
      if ok { Make(Others(Some(c.pod.value.(deleting := true)), c.reader, c.pvc, c.service, c.access, 0)); }
      sent := sent + [DeletedPod(uid, pod)];
    }

    method DeleteStorage(uid: nat, now: int) returns (ok: bool)
      requires Traced()
      modifies this`c, this`snaps, this`moves, this`sent
      ensures Moved() && sent == old(sent) + [DeletedStorage(uid, pod, reader, pvc, now)]
      ensures calm ==> (ok <==> old(c).pvc.Some? && old(c).pvc.value.uid == uid)
      ensures calm && ok ==> c == old(c).(pvc := DeleteObject(old(c).pvc.value, env))
      ensures calm && !ok ==> c == old(c)
    {
      Await();
      ok := c.pvc.Some? && c.pvc.value.uid == uid;
      if ok { Make(Others(c.pod, c.reader, DeleteObject(c.pvc.value, env), c.service, c.access, 0)); }
      sent := sent + [DeletedStorage(uid, pod, reader, pvc, now)];
    }

    method DeleteRuntimeObject(service: bool, item: Object) returns (ok: bool)
      requires Traced()
      modifies this`c, this`snaps, this`moves, this`sent
      ensures Moved() && sent == old(sent) + [DeletedRuntime(item.uid, Some(item))]
      ensures calm && (if service then old(c).service else old(c).access) == Some(item) ==>
        ok && c == if service then old(c).(service := DeleteObject(item, env)) else old(c).(access := DeleteObject(item, env))
    {
      Await();
      var current := if service then c.service else c.access;
      ok := current.Some? && current.value.uid == item.uid;
      if ok {
        if service { Make(Others(c.pod, c.reader, c.pvc, DeleteObject(current.value, env), c.access, 0)); }
        else { Make(Others(c.pod, c.reader, c.pvc, c.service, DeleteObject(current.value, env), 0)); }
      }
      sent := sent + [DeletedRuntime(item.uid, Some(item))];
    }

    method CreatePvc(w: Workspace) returns (ok: bool)
      requires pvc == Saw(None)
      requires Traced()
      modifies this`c, this`snaps, this`moves, this`sent
      ensures Moved() && sent == old(sent) + [Created(w.spec.uid, true)]
      ensures calm && old(c).pvc.None? ==> ok && c == WithVolume(old(c), w)
    {
      Await();
      ok := c.pvc.None?;
      if ok { Make(Others(c.pod, c.reader, Some(Object(c.next, w.spec.uid, false)), c.service, c.access, 1)); }
      sent := sent + [Created(w.spec.uid, pvc == Saw(None))];
    }

    /** The Service or the access Secret, observed absent. */
    method CreateRuntime(w: Workspace, service: bool, ghost seen: Option<Object>) returns (ok: bool)
      requires seen.None?
      requires Traced()
      modifies this`c, this`snaps, this`moves, this`sent
      ensures Moved() && sent == old(sent) + [Created(w.spec.uid, true)]
      ensures calm && (if service then old(c).service else old(c).access).None? ==>
        ok && c == if service then WithService(old(c), w) else WithAccess(old(c), w)
    {
      Await();
      ok := if service then c.service.None? else c.access.None?;
      if ok {
        var created := Some(Object(c.next, w.spec.uid, false));
        if service { Make(Others(c.pod, c.reader, c.pvc, created, c.access, 1)); }
        else { Make(Others(c.pod, c.reader, c.pvc, c.service, created, 1)); }
      }
      sent := sent + [Created(w.spec.uid, seen.None?)];
    }

    /** Creates what was observed absent; fails when it exists by now. */
    method CreatePod(w: Workspace) returns (ok: bool)
      requires pod == Saw(None)
      requires Traced()
      modifies this`c, this`snaps, this`moves, this`sent
      ensures Moved() && sent == old(sent) + [Created(w.spec.uid, true)]
      ensures calm && old(c).pod.None? ==> ok && c == old(c).(pod := Some(NewPod(w, old(c).next)), next := old(c).next + 1)
    {
      Await();
      ok := c.pod.None?;
      if ok { Make(Others(Some(NewPod(w, c.next)), c.reader, c.pvc, c.service, c.access, 1)); }
      sent := sent + [Created(w.spec.uid, pod == Saw(None))];
    }

    /** A status replaces the one of the workspace version it was computed from. */
    method WriteStatus(w: Versioned<Workspace>, phase: Phase, message: Message, fields: Fields) returns (ok: bool)
      requires Holds(w) && Reportable(w.value, fields) && !Repeats(w.value, phase, message, fields)
      modifies this`c, this`snaps, this`moves, this`sent
      ensures Moved() && sent == old(sent) + [Wrote(fields, pvc)]
      ensures moves != [] && moves[|moves| - 1] == ReportOf(me, phase, message, fields)
      ensures calm ==> (c, if ok then Done else Threw) == Report(old(c), w, phase, message, fields)
    {
      Await();
      ok := c.workspace.version == w.version;
      Make(ReportOf(me, phase, message, fields));
      sent := sent + [Wrote(fields, pvc)];
    }
  }

  // ----- report -----

  method ReportStatus(api: Api, w: Versioned<Workspace>, phase: Phase, message: Message, fields: Fields) returns (outcome: Outcome)
    requires api.Holds(w) && AllSafe(w.value, api.sent)
    requires Reportable(w.value, fields) && (fields.storageDeletedAt.Some? ==> api.pvc == Saw(None))
    modifies api`c, api`snaps, api`moves, api`sent
    ensures api.Moved() && AllSafe(w.value, api.sent)
    ensures api.calm ==> (api.c, outcome) == Report(old(api.c), w, phase, message, fields)
  {
    if Repeats(w.value, phase, message, fields) { return Done; }
    var ok := api.WriteStatus(w, phase, message, fields);
    outcome := if ok then Done else Threw;
  }

  // ----- stop -----

  /** Teardown of an archived workspace, not yet recorded. Not over when the pod must be restored first. */
  method TearDownWorkspace(api: Api, w: Versioned<Workspace>, pod: Option<Pod>) returns (over: bool, outcome: Outcome)
    requires api.Holds(w) && AllSafe(w.value, api.sent)
    requires w.value.spec.residency == Archived && TeardownAt(w.value).None?
    modifies api`c, api`snaps, api`moves, api`sent
    ensures api.Moved() && AllSafe(w.value, api.sent)
    ensures api.calm && old(api.c).pod == pod ==> Stopped(api.c, over, outcome) == TearDown(old(api.c), w, api.env)
  {
    if pod.None? {
      if w.value.spec.ephemeral && w.value.status.Some? {
        outcome := ReportStatus(api, w, FailedPhase, EphemeralPodLost, NONE);
        return true, outcome;
      }
      return false, Done;
    }
    over := true;
    if pod.value.deleting || !pod.value.ready {
      outcome := ReportStatus(api, w, PendingPhase, WaitingReadiness, NONE);
      return;
    }
    api.Await();
    if !api.env.teardown {
      outcome := ReportStatus(api, w, FailedPhase, TeardownFailed, NONE);
      return;
    }
    outcome := ReportStatus(api, w, PendingPhase, TeardownCompleted, NONE.(teardownAt := Some(api.c.now)));
  }

  /** `deleteRuntime`: both objects are checked before either is deleted. None when one is foreign. */
  method DeleteRuntime(api: Api, w: Workspace) returns (gone: Option<bool>)
    requires api.Traced() && AllSafe(w, api.sent) && w.spec.residency == Archived && TeardownAt(w).Some?
    modifies api`c, api`snaps, api`moves, api`sent
    ensures api.Moved() && AllSafe(w, api.sent)
    ensures api.calm ==> (gone.None? <==> Foreign(old(api.c).service, w) || Foreign(old(api.c).access, w))
    ensures api.calm && gone.None? ==> api.c == old(api.c)
    ensures api.calm && gone.Some? ==>
      && api.c == old(api.c).(service := Removed(old(api.c).service, api.env), access := Removed(old(api.c).access, api.env))
      && (gone.value <==> api.c.service.None? && api.c.access.None?)
  {
    var service := api.GetRuntime(true);
    var access := api.GetRuntime(false);
    if Foreign(service, w) || Foreign(access, w) { return None; }
    DeleteFound(api, w, true, service);
    DeleteFound(api, w, false, access);
    service := api.GetRuntime(true);
    access := api.GetRuntime(false);
    gone := Some(service.None? && access.None?);
  }

  /** One of the two, if it was found and is not going already. */
  method DeleteFound(api: Api, w: Workspace, service: bool, found: Option<Object>)
    requires api.Traced() && AllSafe(w, api.sent) && w.spec.residency == Archived && TeardownAt(w).Some? && !Foreign(found, w)
    modifies api`c, api`snaps, api`moves, api`sent
    ensures api.Moved() && AllSafe(w, api.sent)
    ensures api.calm && found == (if service then old(api.c).service else old(api.c).access) ==>
      api.c == if service then old(api.c).(service := Removed(found, api.env)) else old(api.c).(access := Removed(found, api.env))
  {
    if found.Some? && !found.value.deleting {
      var _ := api.DeleteRuntimeObject(service, found.value);
    }
  }

  /** The volume, once the retention has expired. */
  method CollectStorage(api: Api, w: Versioned<Workspace>, archivedAt: int, now: int) returns (outcome: Outcome)
    requires api.Holds(w) && AllSafe(w.value, api.sent) && api.pod == Saw(None) && api.reader == Saw(None)
    requires w.value.spec.residency == Archived && TeardownAt(w.value).Some?
    requires archivedAt == (if ArchivedAt(w.value).Some? then ArchivedAt(w.value).value else now)
    requires TtlElapsed(w.value, archivedAt, now)
    modifies api`c, api`snaps, api`moves, api`sent, api`pvc
    ensures api.Moved() && AllSafe(w.value, api.sent)
    ensures api.calm && now == old(api.c).now ==>
      Stopped(api.c, true, outcome) == Collect(old(api.c), w, archivedAt, api.env)
  {
    var pvc := api.GetPvc();
    if Foreign(pvc, w.value) { return Threw; }
    if pvc.Some? {
      var ok := api.DeleteStorage(pvc.value.uid, now);
      if !ok { return Threw; }
    }
    pvc := api.GetPvc();
    if pvc.Some? {
      outcome := ReportStatus(api, w, ArchivedPhase, WaitingStorage, NONE.(archivedAt := Some(archivedAt)));
    } else {
      outcome := ReportStatus(api, w, ArchivedPhase, StorageReleased,
                              NONE.(archivedAt := Some(archivedAt), storageDeletedAt := Some(now)));
    }
  }

  /** The end of `stop`, compute being gone. */
  method ReleaseWorkspace(api: Api, w: Versioned<Workspace>) returns (outcome: Outcome)
    requires api.Holds(w) && AllSafe(w.value, api.sent) && api.pod == Saw(None) && api.reader == Saw(None)
    requires w.value.spec.residency == Archived ==> TeardownAt(w.value).Some?
    modifies api`c, api`snaps, api`moves, api`sent, api`pvc
    ensures api.Moved() && AllSafe(w.value, api.sent)
    ensures api.calm ==> Stopped(api.c, true, outcome) == Release(old(api.c), w, api.env)
  {
    var archived := w.value.spec.residency == Archived;
    if archived {
      var gone := DeleteRuntime(api, w.value);
      if gone.None? { return Threw; }
      if !gone.value {
        outcome := ReportStatus(api, w, PendingPhase, WaitingRuntime, NONE);
        return;
      }
    }
    var now := api.c.now;
    var archivedAt := if ArchivedAt(w.value).Some? then ArchivedAt(w.value).value else now;
    if TtlElapsed(w.value, archivedAt, now) {
      outcome := CollectStorage(api, w, archivedAt, now);
      return;
    }
    var message := if StorageDeletedAt(w.value).Some? then StorageReleased
                   else if w.value.spec.ephemeral then EphemeralReleased else StorageRetained;
    outcome := ReportStatus(api, w, if archived then ArchivedPhase else SuspendedPhase, message,
                            if archived && ArchivedAt(w.value).None? then NONE.(archivedAt := Some(archivedAt)) else NONE);
  }

  method StopCompute(api: Api, w: Versioned<Workspace>) returns (over: bool, outcome: Outcome)
    requires api.Holds(w) && AllSafe(w.value, api.sent) && w.value.spec.residency != Running
    modifies api`c, api`snaps, api`moves, api`sent, api`pvc, api`pod, api`reader
    ensures api.Moved() && AllSafe(w.value, api.sent)
    ensures api.calm ==> Stopped(api.c, over, outcome) == Stop(old(api.c), w, api.env)
    ensures !over ==> api.Holds(w)
  {
    var pod := api.GetPod();
    if ForeignPod(pod, w.value) { return true, Threw; }
    var archived, ephemeral := w.value.spec.residency == Archived, w.value.spec.ephemeral;
    if !archived && ephemeral {
      outcome := ReportStatus(api, w, FailedPhase, EphemeralCannotSuspend, NONE);
      return true, outcome;
    }
    if archived && TeardownAt(w.value).None? {
      over, outcome := TearDownWorkspace(api, w, pod);
      return;
    }
    over := true;
    if !archived && pod.Some? && !pod.value.deleting && pod.value.ready && api.env.snapshotHook && !api.env.snapshot {
      outcome := ReportStatus(api, w, FailedPhase, SnapshotUnavailable, NONE);
      return;
    }
    if pod.Some? {
      if !pod.value.deleting {
        var ok := api.DeletePod(pod.value.uid);
        if !ok { return true, Threw; }
      }
      outcome := ReportStatus(api, w, PendingPhase, WaitingStop, NONE);
      return;
    }
    outcome := StopAfterPod(api, w);
  }

  /** The pod was observed gone: the reader, then the rest. */
  method StopAfterPod(api: Api, w: Versioned<Workspace>) returns (outcome: Outcome)
    requires api.Holds(w) && AllSafe(w.value, api.sent) && api.pod == Saw(None)
    requires w.value.spec.residency == Archived ==> TeardownAt(w.value).Some?
    modifies api`c, api`snaps, api`moves, api`sent, api`pvc, api`reader
    ensures api.Moved() && AllSafe(w.value, api.sent)
    ensures api.calm ==> Stopped(api.c, true, outcome) == AfterPod(old(api.c), w, api.env)
  {
    var reader := api.GetReader();
    if ForeignPod(reader, w.value) { return Threw; }
    if reader.Some? {
      if CompletedStop(w.value) { return Done; }
      outcome := ReportStatus(api, w, PendingPhase, WaitingReader, NONE);
      return;
    }
    outcome := ReleaseWorkspace(api, w);
  }

  // ----- reconcile -----

  /** `ensure` for the Service, or the grant of the access Secret: what was seen of another owner is
      refused, what was seen absent is created. */
  method EnsureRuntime(api: Api, w: Workspace, service: bool) returns (ok: bool, ghost seen: Option<Object>)
    requires api.Traced() && AllSafe(w, api.sent)
    modifies api`c, api`snaps, api`moves, api`sent
    ensures api.Moved() && AllSafe(w, api.sent)
    ensures seen.Some? ==> (ok <==> !Foreign(seen, w)) && api.sent == old(api.sent)
    ensures seen.None? ==> api.sent == old(api.sent) + [Created(w.spec.uid, true)]
    ensures api.calm ==> seen == if service then old(api.c).service else old(api.c).access
    ensures api.calm ==> (ok <==> !Foreign(seen, w))
    ensures api.calm ==> api.c == if !ok then old(api.c) else if service then WithService(old(api.c), w) else WithAccess(old(api.c), w)
  {
    var existing := api.GetRuntime(service);
    seen := existing;
    if existing.Some? { return existing.value.owner == w.spec.uid, existing; }
    ok := api.CreateRuntime(w, service, existing);
  }

  method EnsureVolume(api: Api, w: Workspace) returns (ok: bool)
    requires api.Traced() && AllSafe(w, api.sent)
    modifies api`c, api`snaps, api`moves, api`sent, api`pvc
    ensures api.Moved() && AllSafe(w, api.sent)
    ensures api.calm ==> (ok <==> !Foreign(old(api.c).pvc, w)) && api.c == if ok then WithVolume(old(api.c), w) else old(api.c)
  {
    var existing := api.GetPvc();
    if existing.Some? { return existing.value.owner == w.spec.uid; }
    ok := api.CreatePvc(w);
  }

  /** The pod is ensured, and what it shows is reported. */
  method EnsurePod(api: Api, w: Versioned<Workspace>) returns (outcome: Outcome)
    requires api.Holds(w) && AllSafe(w.value, api.sent)
    modifies api`c, api`snaps, api`moves, api`sent, api`pod
    ensures api.Moved() && AllSafe(w.value, api.sent)
    ensures api.calm ==> (api.c, outcome) == ProvidePod(old(api.c), w)
  {
    var pod := api.GetPod();
    if ForeignPod(pod, w.value) { return Threw; }
    if pod.None? {
      var ok := api.CreatePod(w.value);
      if !ok { return Threw; }
    }
    outcome := ReportPod(api, w, pod);
  }

  method ReportPod(api: Api, w: Versioned<Workspace>, pod: Option<Pod>) returns (outcome: Outcome)
    requires api.Holds(w) && AllSafe(w.value, api.sent)
    requires pod.Some? ==> api.pod == Saw(pod) && pod.value.owner == w.value.spec.uid
    modifies api`c, api`snaps, api`moves, api`sent
    ensures api.Moved() && AllSafe(w.value, api.sent)
    ensures api.calm && (pod.Some? ==> old(api.c).pod == pod) ==> (api.c, outcome) == Observe(old(api.c), w, pod)
  {
    var ready := pod.Some? && !pod.value.deleting && pod.value.ready;
    var ended := pod.Some? && pod.value.ended;
    var diagnostic := if pod.Some? then pod.value.diagnostic else None;
    if diagnostic.Some? {
      var failure := diagnostic.value;
      var news := w.value.status.None? || w.value.status.value.lastFailure != Some(failure.reason);
      if news || (!ready && !ended) {
        outcome := ReportStatus(api, w,
                                if ready then ReadyPhase else if failure.failed then FailedPhase else PendingPhase,
                                if ready then DaemonReady else Diagnosed(failure.text),
                                if news then NONE.(lastFailure := Some(failure.reason)) else NONE);
        return;
      }
    }
    if ended {
      if w.value.spec.ephemeral {
        outcome := ReportStatus(api, w, FailedPhase, EphemeralTerminated, NONE);
        return;
      }
      if !pod.value.deleting {
        var ok := api.DeletePod(pod.value.uid);
        if !ok { return Threw; }
      }
      outcome := ReportStatus(api, w, PendingPhase, ReplacingPod, NONE);
      return;
    }
    outcome := ReportStatus(api, w, if ready then ReadyPhase else PendingPhase,
                            if ready then DaemonReady else WaitingDaemon, NONE);
  }

  method ProvideResources(api: Api, w: Versioned<Workspace>) returns (outcome: Outcome)
    requires api.Holds(w) && AllSafe(w.value, api.sent)
    modifies api`c, api`snaps, api`moves, api`sent, api`pod, api`pvc
    ensures api.Moved() && AllSafe(w.value, api.sent)
    ensures api.calm ==> (api.c, outcome) == Provide(old(api.c), w, api.env)
  {
    if api.env.gateway {
      var granted, _ := EnsureRuntime(api, w.value, false);
      if !granted { return Threw; }
    }
    if !w.value.spec.ephemeral {
      var volume := EnsureVolume(api, w.value);
      if !volume { return Threw; }
    }
    var service, _ := EnsureRuntime(api, w.value, true);
    if !service { return Threw; }
    outcome := EnsurePod(api, w);
  }

  method StartCompute(api: Api, w: Versioned<Workspace>) returns (outcome: Outcome)
    requires api.Holds(w) && AllSafe(w.value, api.sent)
    modifies api`c, api`snaps, api`moves, api`sent, api`pod, api`pvc, api`reader
    ensures api.Moved() && AllSafe(w.value, api.sent)
    ensures api.calm ==> (api.c, outcome) == Start(old(api.c), w, api.env)
  {
    if !api.env.project {
      outcome := ReportStatus(api, w, FailedPhase, NoProject, NONE);
      return;
    }
    var pod := api.GetPod();
    if pod.None? && w.value.spec.residency == Running {
      var reader := api.GetReader();
      if ForeignPod(reader, w.value) { return Threw; }
      if reader.Some? {
        outcome := ReportStatus(api, w, PendingPhase, WaitingReader, NONE);
        return;
      }
      if !api.env.capacity {
        outcome := ReportStatus(api, w, PendingPhase, CapacityReached, NONE);
        return;
      }
    }
    if api.env.credentials.Some? {
      outcome := ReportStatus(api, w, FailedPhase, CredentialsFailed(api.env.credentials.value), NONE);
      return;
    }
    outcome := ProvideResources(api, w);
  }

  /** One reconcile of the workspace as somebody read it. Whatever others do meanwhile, what it
      sends is safe and keeps the recorded times; if nobody moves, it is `Reconcile`. */
  method ReconcileWorkspace(api: Api, w: Versioned<Workspace>) returns (outcome: Outcome)
    requires api.Holds(w) && api.sent == []
    modifies api`c, api`snaps, api`moves, api`sent, api`pod, api`pvc, api`reader
    ensures api.Moved() && AllSafe(w.value, api.sent)
    ensures api.calm && old(api.c).workspace == w ==> (api.c, outcome) == Reconcile(old(api.c), api.env)
  {
    if w.value.deleting { return Done; }
    if w.value.spec.residency != Running {
      var over, stopped := StopCompute(api, w);
      if over { return stopped; }
    }
    outcome := StartCompute(api, w);
  }

  // ----- Over a whole run -----

  /** However many reconciles, edits and deletions there are, and in whatever order they read and
      write, a recorded teardown, archival or storage release keeps its time. */
  lemma {:induction false} TimesAreWriteOnce(s: World, moves: seq<Move>, i: nat, j: nat)
    requires WorldOk(s) && i <= j <= |moves|
    ensures WorldOk(Play(s, moves[..j]))
    ensures KeepsTimes(Play(s, moves[..i]).c.workspace.value, Play(s, moves[..j]).c.workspace.value)
    decreases j
  {
    if j > 0 {
      assert moves[..j][..j - 1] == moves[..j - 1];
      if i < j { TimesAreWriteOnce(s, moves, i, j - 1); } else { TimesAreWriteOnce(s, moves, j - 1, j - 1); }
      StepIsLegal(Play(s, moves[..j - 1]), moves[j - 1]);
    }
  }

  /** The times come in order: no release without an archival, no archival without a teardown. */
  predicate InOrder(w: Workspace) {
    (StorageDeletedAt(w).Some? ==> ArchivedAt(w).Some?) && (ArchivedAt(w).Some? ==> TeardownAt(w).Some?)
  }

  lemma {:induction false} TimesComeInOrder(s: World, moves: seq<Move>)
    requires WorldOk(s) && InOrder(s.c.workspace.value)
    ensures WorldOk(Play(s, moves)) && InOrder(Play(s, moves).c.workspace.value)
  {
    if moves != [] {
      var before := Play(s, moves[..|moves| - 1]);
      TimesComeInOrder(s, moves[..|moves| - 1]);
      StepIsLegal(before, moves[|moves| - 1]);
    }
  }
}
