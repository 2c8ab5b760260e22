/** The receipt that says which capture of a workspace is the latest: published by compare and swap
    by any number of gateways, and deleted when the retention of the workspace ends. */
module HistoryReceipt {
  import opened VersionedStore

  const ATTEMPTS := 4

  datatype Receipt = Receipt(workspaceId: nat, workspaceUid: nat, generation: nat, capturedAt: int, file: nat)

  /** `b` is of a later generation, or of the same one captured later. */
  predicate Newer(a: Receipt, b: Receipt) {
    a.generation < b.generation || (a.generation == b.generation && a.capturedAt < b.capturedAt)
  }

  predicate SameWorkspace(a: Receipt, b: Receipt) {
    a.workspaceId == b.workspaceId && a.workspaceUid == b.workspaceUid
  }

  predicate Supersedes(a: Receipt, b: Receipt) {
    SameWorkspace(a, b) && Newer(a, b)
  }

  // ----- Publishers and deletions, step by step -----

  /** Where a gateway's publication or deletion stands: about to read, about to write over what it has
      read, or over (None: it threw). */
  datatype Pc =
    | Reading(value: Receipt, attempt: nat)
    | Writing(value: Receipt, attempt: nat, seen: Option<Versioned<Receipt>>)
    | Looking
    | Removing(found: Versioned<Receipt>)
    | Ended(result: Option<Receipt>)

  /** What happened to the record; a write with what its publisher had read before. */
  datatype Event = Wrote(seen: Option<Receipt>, value: Receipt) | Removed(value: Receipt)

  /** The record of one workspace UID. */
  datatype State = State(uid: nat, cell: Option<Versioned<Receipt>>, next: nat, tasks: map<nat, Pc>, log: seq<Event>)

  datatype Action = Publishes(task: nat, value: Receipt) | Deletes(task: nat) | Goes(task: nat, lost: bool) | Crashes(task: nat)

  function Start(uid: nat): State {
    State(uid, None, 0, map[], [])
  }

  /** The read of a publication: another workspace's receipt throws, one that is not older is returned. */
  function Decided(value: Receipt, attempt: nat, seen: Option<Versioned<Receipt>>): Pc {
    if seen.None? then Writing(value, attempt, seen)
    else if !SameWorkspace(seen.value.value, value) then Ended(None)
    else if !Newer(seen.value.value, value) then Ended(Some(seen.value.value))
    else Writing(value, attempt, seen)
  }

  /** The write: a create or an update of the version read; a conflict starts over, up to four times,
      and a record gone since then throws, as does a reply lost on the way. */
  function Written(s: State, task: nat, pc: Pc, lost: bool): State
    requires pc.Writing?
  {
    if VersionOf(s.cell) == VersionOf(pc.seen) then
      var seen := if pc.seen.Some? then Some(pc.seen.value.value) else None;
      s.(cell := Some(Versioned(s.next, pc.value)), next := s.next + 1, log := s.log + [Wrote(seen, pc.value)],
         tasks := s.tasks[task := Ended(if lost then None else Some(pc.value))])
    else if s.cell.None? || lost || pc.attempt + 1 == ATTEMPTS then s.(tasks := s.tasks[task := Ended(None)])
    else s.(tasks := s.tasks[task := Reading(pc.value, pc.attempt + 1)])
  }

  /** The delete of the version read. */
  function Deleted(s: State, task: nat, pc: Pc): State
    requires pc.Removing?
  {
    var after := s.(tasks := s.tasks[task := Ended(None)]);
    if VersionOf(s.cell) == Some(pc.found.version) then after.(cell := None, log := s.log + [Removed(pc.found.value)]) else after
  }

  function Gone(s: State, task: nat, lost: bool): State
    requires task in s.tasks
  {
    var pc := s.tasks[task];
    match pc
    case Reading(value, attempt) => s.(tasks := s.tasks[task := if lost then Ended(None) else Decided(value, attempt, s.cell)])
    case Writing(_, _, _) => Written(s, task, pc, lost)
    case Looking => s.(tasks := s.tasks[task := if lost || s.cell.None? then Ended(None) else Removing(s.cell.value)])
    case Removing(_) => Deleted(s, task, pc)
    case Ended(_) => s
  }

  function Apply(s: State, a: Action): State {
    match a
    case Publishes(task, value) =>
      if task in s.tasks || value.workspaceUid != s.uid then s else s.(tasks := s.tasks[task := Reading(value, 0)])
    case Deletes(task) => if task in s.tasks then s else s.(tasks := s.tasks[task := Looking])
    case Goes(task, lost) => if task in s.tasks then Gone(s, task, lost) else s
    case Crashes(task) => s.(tasks := s.tasks - {task})
  }

  function Run(s: State, actions: seq<Action>): State {
    if actions == [] then s else Apply(Run(s, actions[..|actions| - 1]), actions[|actions| - 1])
  }

  // ----- What every run keeps -----

  /** What the record holds after these events. */
  function Standing(log: seq<Event>): Option<Receipt> {
    if log == [] || log[|log| - 1].Removed? then None else Some(log[|log| - 1].value)
  }

  /** A write is over what its publisher read, which was older; a deletion is of what stands. */
  predicate EventOk(standing: Option<Receipt>, e: Event) {
    match e
    case Wrote(seen, value) => seen == standing && (seen.Some? ==> Supersedes(seen.value, value))
    case Removed(value) => standing == Some(value)
  }

  ghost predicate LogOk(log: seq<Event>) {
    forall i {:trigger log[..i]} :: 0 <= i < |log| ==> EventOk(Standing(log[..i]), log[i])
  }

  /** What a task has read is current, or its version has passed. */
  predicate Held(s: State, seen: Versioned<Receipt>) {
    seen.version < s.next && (VersionOf(s.cell) == Some(seen.version) ==> s.cell == Some(seen))
  }

  predicate PcOk(s: State, pc: Pc) {
    match pc
    case Writing(value, _, seen) => seen.Some? ==> Held(s, seen.value) && Supersedes(seen.value.value, value)
    case Removing(seen) => Held(s, seen)
    case _ => true
  }

  ghost predicate Inv(s: State) {
    && LogOk(s.log) && Standing(s.log) == (if s.cell.Some? then Some(s.cell.value.value) else None)
    && (s.cell.Some? ==> s.cell.value.version < s.next)
    && forall task :: task in s.tasks ==> PcOk(s, s.tasks[task])
  }

  lemma LogGrows(log: seq<Event>, e: Event)
    requires LogOk(log) && EventOk(Standing(log), e)
    ensures LogOk(log + [e])
  {
    forall i | 0 <= i < |log + [e]| ensures EventOk(Standing((log + [e])[..i]), (log + [e])[i]) {
      assert (log + [e])[..i] == log[..i];
      assert log[..|log|] == log;
    }
  }

  lemma ApplyKeepsInv(s: State, a: Action)
    requires Inv(s)
    ensures Inv(Apply(s, a))
  {
    if a.Goes? && a.task in s.tasks {
      var pc := s.tasks[a.task];
      assert PcOk(s, pc);
      if pc.Writing? && VersionOf(s.cell) == VersionOf(pc.seen) {
        LogGrows(s.log, Wrote(if pc.seen.Some? then Some(pc.seen.value.value) else None, pc.value));
      } else if pc.Removing? && VersionOf(s.cell) == Some(pc.found.version) {
        LogGrows(s.log, Removed(pc.found.value));
      }
    }
  }

  lemma {:induction false} RunKeepsInv(s: State, actions: seq<Action>)
    requires Inv(s)
    ensures Inv(Run(s, actions))
  {
    if actions != [] {
      RunKeepsInv(s, actions[..|actions| - 1]);
      ApplyKeepsInv(Run(s, actions[..|actions| - 1]), actions[|actions| - 1]);
    }
  }

  predicate NoRemoval(log: seq<Event>, i: int, j: int)
    requires 0 <= i <= j <= |log|
  {
    forall k :: i <= k < j ==> !log[k].Removed?
  }

  lemma {:induction false} OrderedBetween(log: seq<Event>, i: nat, j: nat)
    requires LogOk(log) && i < j < |log| && log[i].Wrote? && log[j].Wrote? && NoRemoval(log, i, j)
    ensures Supersedes(log[i].value, log[j].value)
    decreases j
  {
    assert EventOk(Standing(log[..j]), log[j]) && log[..j][j - 1] == log[j - 1];
    if i < j - 1 { OrderedBetween(log, i, j - 1); }
  }

  /** The last deletion in a stretch, and the create right behind it. */
  lemma {:induction false} LastRemoval(log: seq<Event>, i: nat, j: nat) returns (c: nat)
    requires LogOk(log) && i < j < |log| && log[i].Wrote? && log[j].Wrote? && !NoRemoval(log, i, j)
    ensures i < c <= j && log[c].Wrote? && log[c].seen.None? && log[c - 1].Removed? && NoRemoval(log, c, j)
    decreases j
  {
    if log[j - 1].Removed? {
      assert EventOk(Standing(log[..j]), log[j]) && log[..j][j - 1] == log[j - 1];
      c := j;
    } else {
      c := LastRemoval(log, i, j - 1);
    }
  }

  // ----- The theorems -----

  /** Whatever gateways publish, crash and delete: between deletions every write is of a newer capture
      of the workspace. */
  lemma ReceiptsAreOrdered(uid: nat, actions: seq<Action>, i: nat, j: nat)
    requires var log := Run(Start(uid), actions).log; i < j < |log| && log[i].Wrote? && log[j].Wrote? && NoRemoval(log, i, j)
    ensures var log := Run(Start(uid), actions).log; Supersedes(log[i].value, log[j].value)
  {
    RunKeepsInv(Start(uid), actions);
    OrderedBetween(Run(Start(uid), actions).log, i, j);
  }

  /** Behind this write comes one that is not of a newer capture. */
  ghost predicate GoesBack(log: seq<Event>, i: nat)
    requires i < |log| && log[i].Wrote?
  {
    exists j :: i < j < |log| && log[j].Wrote? && !Newer(log[i].value, log[j].value)
  }

  /** Behind a deletion that came after this write, a publication that had read no receipt creates one
      that is not of a newer capture. */
  ghost predicate RecreatedOlder(log: seq<Event>, i: nat)
    requires i < |log| && log[i].Wrote?
  {
    exists c :: i + 1 < c < |log| && log[c] == Wrote(None, log[c].value) && log[c - 1].Removed? && !Newer(log[i].value, log[c].value)
  }

  /** The receipt goes back exactly when a publication that had found no receipt creates an older one
      after the deletion. */
  lemma ReceiptGoesBackIff(uid: nat, actions: seq<Action>, i: nat)
    requires var log := Run(Start(uid), actions).log; i < |log| && log[i].Wrote?
    ensures var log := Run(Start(uid), actions).log; GoesBack(log, i) <==> RecreatedOlder(log, i)
  {
    var log := Run(Start(uid), actions).log;
    RunKeepsInv(Start(uid), actions);
    if GoesBack(log, i) {
      var j :| i < j < |log| && log[j].Wrote? && !Newer(log[i].value, log[j].value);
      if NoRemoval(log, i, j) { OrderedBetween(log, i, j); assert false; }
      var c := LastRemoval(log, i, j);
      if c < j { OrderedBetween(log, c, j); }
      assert log[c] == Wrote(None, log[c].value);
    }
  }

  /** It can: a publication that read no receipt creates its own after a newer one was deleted. */
  lemma OldReceiptReturns(older: Receipt, newer: Receipt)
    requires Supersedes(older, newer)
    ensures Run(Start(older.workspaceUid), FirstReads(older) + Publication(newer) + Deletion() + [Goes(0, false)]).log
            == [Wrote(None, newer), Removed(newer), Wrote(None, older)]
  {
    var s := Start(older.workspaceUid);
    var s2 := s.(tasks := map[0 := Writing(older, 0, None)]);
    OlderReads(older);
    RunThree(s2, Publication(newer));
    RunThree(Run(s2, Publication(newer)), Deletion());
    NewerIsDeleted(older, newer, s2);
    RunSplits(s, FirstReads(older), Publication(newer));
    RunSplits(s, FirstReads(older) + Publication(newer), Deletion());
    var before := FirstReads(older) + Publication(newer) + Deletion();
    assert (before + [Goes(0, false)])[..|before|] == before;
  }

  function FirstReads(older: Receipt): seq<Action> {
    [Publishes(0, older), Goes(0, false)]
  }

  function Publication(newer: Receipt): seq<Action> {
    [Publishes(1, newer), Goes(1, false), Goes(1, false)]
  }

  function Deletion(): seq<Action> {
    [Deletes(2), Goes(2, false), Goes(2, false)]
  }

  lemma {:induction false} RunSplits(s: State, first: seq<Action>, later: seq<Action>)
    ensures Run(s, first + later) == Run(Run(s, first), later)
  {
    if later == [] {
      assert first + later == first;
    } else {
      RunSplits(s, first, later[..|later| - 1]);
      assert (first + later)[..|first + later| - 1] == first + later[..|later| - 1];
    }
  }

  lemma RunThree(s: State, actions: seq<Action>)
    requires |actions| == 3
    ensures Run(s, actions) == Apply(Apply(Apply(s, actions[0]), actions[1]), actions[2])
  {
    assert actions[..2][..1] == actions[..1] && actions[..1][..0] == [];
    assert Run(s, actions[..1]) == Apply(s, actions[0]);
    assert Run(s, actions[..2]) == Apply(Run(s, actions[..1]), actions[1]);
  }

  lemma OlderReads(older: Receipt)
    ensures var s := Start(older.workspaceUid);
      Run(s, [Publishes(0, older), Goes(0, false)]) == s.(tasks := map[0 := Writing(older, 0, None)])
  {
    var s, actions := Start(older.workspaceUid), [Publishes(0, older), Goes(0, false)];
    assert actions[..1][..0] == [];
    assert Run(s, actions[..1]) == s.(tasks := map[0 := Reading(older, 0)]);
  }

  /** Meanwhile: a newer capture is published, and deleted. */
  lemma NewerIsDeleted(older: Receipt, newer: Receipt, s: State)
    requires SameWorkspace(older, newer) && s == Start(older.workspaceUid).(tasks := map[0 := Writing(older, 0, None)])
    ensures var t := Apply(Apply(Apply(s, Publishes(1, newer)), Goes(1, false)), Goes(1, false));
      Apply(Apply(Apply(t, Deletes(2)), Goes(2, false)), Goes(2, false)) ==
      State(s.uid, None, 1, map[0 := Writing(older, 0, None), 1 := Ended(Some(newer)), 2 := Ended(None)], [Wrote(None, newer), Removed(newer)])
  {
    var t0 := Apply(s, Publishes(1, newer));
    assert t0.tasks == map[0 := Writing(older, 0, None), 1 := Reading(newer, 0)];
    var t1 := Apply(t0, Goes(1, false));
    assert t1.tasks == map[0 := Writing(older, 0, None), 1 := Writing(newer, 0, None)];
    var t2 := Apply(t1, Goes(1, false));
    assert t2.tasks == map[0 := Writing(older, 0, None), 1 := Ended(Some(newer))];
    var t3 := Apply(Apply(t2, Deletes(2)), Goes(2, false));
    assert t3.tasks == map[0 := Writing(older, 0, None), 1 := Ended(Some(newer)), 2 := Removing(Versioned(0, newer))];
  }

  // ----- publishRetainedHistoryReceipt -----

  /** The record, and everybody who publishes or deletes it while this gateway awaits, unless `quiet`. */
  class Records {
    const quiet: bool
    const me: nat
    var s: State
    ghost const origin: State
    ghost var actions: seq<Action>

    ghost predicate Traced()
      reads this
    {
      Inv(s) && s == Run(origin, actions)
    }

    /** This gateway stands at `pc`. */
    predicate At(pc: Pc)
      reads this
    {
      me in s.tasks && s.tasks[me] == pc
    }

    constructor (s: State, me: nat, quiet: bool)
      requires Inv(s)
      ensures Traced() && this.s == s && this.me == me && this.quiet == quiet && origin == s && actions == []
    {
      this.quiet, this.me, this.s, origin, actions := quiet, me, s, s, [];
    }

    method Make(a: Action)
      requires Traced()
      modifies this`s, this`actions
      ensures Traced() && s == Apply(old(s), a) && actions == old(actions) + [a]
    {
      ApplyKeepsInv(s, a);
      assert (actions + [a])[..|actions|] == actions;
      s, actions := Apply(s, a), actions + [a];
    }

    /** Others move. */
    method Await()
      requires Traced() && me in s.tasks
      modifies this`s, this`actions
      ensures Traced() && At(old(s.tasks[me])) && s.uid == old(s.uid) && (quiet ==> s == old(s))
    {
      if quiet { return; }
      var theirs: seq<Action> := *;
      for n := 0 to |theirs|
        invariant Traced() && At(old(s.tasks[me])) && s.uid == old(s.uid)
      {
        if theirs[n].task != me { Make(theirs[n]); }
      }
    }

    /** The read; None when its answer is lost. */
    method Read(ghost value: Receipt, ghost attempt: nat) returns (row: Option<Option<Versioned<Receipt>>>)
      requires Traced() && At(Reading(value, attempt))
      modifies this`s, this`actions
      ensures Traced() && s.uid == old(s.uid)
      ensures row.None? ==> At(Ended(None)) && !quiet
      ensures row.Some? ==> At(Decided(value, attempt, row.value)) && s.cell == row.value
      ensures quiet ==> s.cell == old(s.cell)
    {
      Await();
      var lost := *;
      lost := lost && !quiet;
      row := if lost then None else Some(s.cell);
      Make(Goes(me, lost));
    }

    /** The create, or the update of the version read. */
    method Write(ghost attempt: nat, previous: Option<Versioned<Receipt>>, value: Receipt) returns (reply: Reply)
      requires Traced() && At(Writing(value, attempt, previous))
      modifies this`s, this`actions
      ensures Traced() && s.uid == old(s.uid)
      ensures reply.Granted? ==> At(Ended(Some(value))) && s.cell.Some? && s.cell.value.value == value
      ensures reply.Conflict? ==> At(if attempt + 1 == ATTEMPTS then Ended(None) else Reading(value, attempt + 1))
      ensures reply.Failed? ==> At(Ended(None))
      ensures quiet && old(s.cell) == previous ==> reply.Granted?
    {
      Await();
      var lost := *;
      lost := lost && !quiet;
      reply := if lost then Failed
               else if VersionOf(s.cell) == VersionOf(previous) then Granted
               else if s.cell.None? then Failed else Conflict;
      Make(Goes(me, lost));
    }
  }

  /** How the API server answered a write: 409 is a conflict, anything else failed. */
  datatype Reply = Granted | Conflict | Failed

  /** What comes of a publication nobody disturbs: the later of the two captures of a workspace. */
  function Settled(cell: Option<Versioned<Receipt>>, value: Receipt): Option<Receipt> {
    if cell.None? then Some(value)
    else if !SameWorkspace(cell.value.value, value) then None
    else Some(if Newer(cell.value.value, value) then value else cell.value.value)
  }

  /** A publication is these steps and no others. It throws, or returns the receipt that stood at its last
      request: its own, written just then, or one that is not older. */
  method Publish(records: Records, value: Receipt) returns (result: Option<Receipt>)
    requires records.Traced() && records.me !in records.s.tasks && value.workspaceUid == records.s.uid
    modifies records`s, records`actions
    ensures records.Traced() && records.At(Ended(result))
    ensures result.Some? ==>
      && records.s.cell.Some? && records.s.cell.value.value == result.value
      && SameWorkspace(result.value, value) && !Newer(result.value, value)
    ensures records.quiet ==> result == Settled(old(records.s.cell), value)
  {
    records.Make(Publishes(records.me, value));
    var attempt := 0;
    while attempt < ATTEMPTS
      invariant 0 <= attempt <= ATTEMPTS && records.Traced()
      invariant records.At(if attempt < ATTEMPTS then Reading(value, attempt) else Ended(None))
      invariant records.quiet ==> attempt == 0 && records.s.cell == old(records.s.cell)
    {
      var row := records.Read(value, attempt);
      if row.None? { return None; }
      var previous := row.value;
      if previous.Some? {
        var current := previous.value.value;
        if !SameWorkspace(current, value) { return None; }
        if current.generation > value.generation ||
           (current.generation == value.generation && current.capturedAt >= value.capturedAt) { return Some(current); }
      }
      var reply := records.Write(attempt, previous, value);
      if reply.Granted? { return Some(value); }
      if reply.Failed? { return None; }
      attempt := attempt + 1;
    }
    result := None;
  }
}
