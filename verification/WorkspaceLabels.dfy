/** The label catalog: one versioned record of labels and their assignments to workspaces, changed
    in a compare-and-swap loop, and published to subscribers as differences. */
module WorkspaceLabels {
  import opened VersionedStore

  const ATTEMPTS := 5

  datatype Label = Label(name: string, color: string)
  datatype Assignment = Assignment(workspaceId: string, workspaceUid: string, labels: seq<string>)
  datatype Catalog = Catalog(labels: seq<Label>, assignments: seq<Assignment>)
  datatype Workspace = Workspace(id: string, uid: string, deleting: bool)

  const EMPTY := Catalog([], [])

  // ----- What every catalog keeps -----

  predicate UniqueNames(labels: seq<Label>) {
    forall i, j :: 0 <= i < j < |labels| ==> labels[i].name != labels[j].name
  }

  predicate NoDuplicates(names: seq<string>) {
    forall i, j :: 0 <= i < j < |names| ==> names[i] != names[j]
  }

  predicate Defined(labels: seq<Label>, name: string) {
    exists l :: l in labels && l.name == name
  }

  predicate AssignmentOk(labels: seq<Label>, a: Assignment) {
    NoDuplicates(a.labels) && forall n :: n in a.labels ==> Defined(labels, n)
  }

  predicate OnePerWorkspace(assignments: seq<Assignment>) {
    forall i, j :: 0 <= i < j < |assignments| ==> assignments[i].workspaceId != assignments[j].workspaceId
  }

  /** Label names are unique, every name in use is defined, no workspace has a name twice, nor two
      assignments. */
  predicate Good(c: Catalog) {
    && UniqueNames(c.labels) && OnePerWorkspace(c.assignments)
    && forall a :: a in c.assignments ==> AssignmentOk(c.labels, a)
  }

  // ----- The changes -----

  function FilterNames(names: seq<string>, drop: string): (kept: seq<string>)
    ensures forall n :: n in kept <==> n in names && n != drop
    ensures NoDuplicates(names) ==> NoDuplicates(kept)
  {
    if names == [] then []
    else
      var rest := FilterNames(names[1..], drop);
      assert names == [names[0]] + names[1..];
      assert NoDuplicates(names) ==> names[0] !in names[1..];
      if names[0] == drop then rest else [names[0]] + rest
  }

  function Replace(names: seq<string>, before: string, after: string): (r: seq<string>)
    ensures |r| == |names| && forall i :: 0 <= i < |names| ==> r[i] == if names[i] == before then after else names[i]
  {
    if names == [] then [] else [if names[0] == before then after else names[0]] + Replace(names[1..], before, after)
  }

  function Find(labels: seq<Label>, name: string): (i: nat)
    ensures i <= |labels| && (i < |labels| ==> labels[i].name == name)
    ensures i == |labels| <==> forall l :: l in labels ==> l.name != name
  {
    if labels == [] then 0
    else if labels[0].name == name then 0
    else
      assert labels == [labels[0]] + labels[1..];
      1 + Find(labels[1..], name)
  }

  function Live(assignments: seq<Assignment>, workspaces: seq<Workspace>): (live: seq<Assignment>)
    ensures forall a :: a in live <==> a in assignments && Workspace(a.workspaceId, a.workspaceUid, false) in workspaces
    ensures OnePerWorkspace(assignments) ==> OnePerWorkspace(live)
  {
    if assignments == [] then []
    else
      var rest := Live(assignments[1..], workspaces);
      assert assignments == [assignments[0]] + assignments[1..];
      if Workspace(assignments[0].workspaceId, assignments[0].workspaceUid, false) in workspaces then [assignments[0]] + rest else rest
  }

  /** Assignments of workspaces that are gone are dropped before any change. */
  function Pruned(c: Catalog, workspaces: seq<Workspace>): Catalog {
    c.(assignments := Live(c.assignments, workspaces))
  }

  function Without(assignments: seq<Assignment>, workspaceId: string): (kept: seq<Assignment>)
    ensures forall a :: a in kept <==> a in assignments && a.workspaceId != workspaceId
    ensures OnePerWorkspace(assignments) ==> OnePerWorkspace(kept)
  {
    if assignments == [] then []
    else
      var rest := Without(assignments[1..], workspaceId);
      assert assignments == [assignments[0]] + assignments[1..];
      if assignments[0].workspaceId == workspaceId then rest else [assignments[0]] + rest
  }

  function IndexOf(assignments: seq<Assignment>, id: string, uid: string): (i: nat)
    ensures i <= |assignments|
    ensures i < |assignments| ==> assignments[i].workspaceId == id && assignments[i].workspaceUid == uid
    ensures i == |assignments| ==> forall a :: a in assignments ==> a.workspaceId != id || a.workspaceUid != uid
  {
    if assignments == [] then 0
    else if assignments[0].workspaceId == id && assignments[0].workspaceUid == uid then 0
    else
      assert assignments == [assignments[0]] + assignments[1..];
      1 + IndexOf(assignments[1..], id, uid)
  }

  /** The names a workspace has; none when it has no assignment. */
  function LabelsFor(c: Catalog, id: string, uid: string): seq<string> {
    var i := IndexOf(c.assignments, id, uid);
    if i < |c.assignments| then c.assignments[i].labels else []
  }

  datatype Change =
    | Assign(workspaceId: string, workspaceUid: string, tag: Label, wanted: bool)
    | Update(name: string, newName: string, color: Option<string>)
    | Delete(name: string)

  /** A workspace's own labels, with the change made; an assignment left empty goes. */
  function Assigned(c: Catalog, id: string, uid: string, name: string, wanted: bool): seq<Assignment> {
    var i := IndexOf(c.assignments, id, uid);
    if i == |c.assignments| then
      if wanted then Without(c.assignments, id) + [Assignment(id, uid, [name])] else c.assignments
    else
      var names := c.assignments[i].labels;
      var changed := if !wanted then FilterNames(names, name) else if name in names then names else names + [name];
      if changed == [] then c.assignments[..i] + c.assignments[i + 1..]
      else c.assignments[i := c.assignments[i].(labels := changed)]
  }

  function RenameAll(assignments: seq<Assignment>, before: string, after: string): (r: seq<Assignment>)
    ensures |r| == |assignments|
    ensures forall i :: 0 <= i < |r| ==> r[i] == assignments[i].(labels := Replace(assignments[i].labels, before, after))
  {
    if assignments == [] then []
    else [assignments[0].(labels := Replace(assignments[0].labels, before, after))] + RenameAll(assignments[1..], before, after)
  }

  function DropAll(assignments: seq<Assignment>, name: string): (r: seq<Assignment>)
    ensures |r| == |assignments|
    ensures forall i :: 0 <= i < |r| ==> r[i] == assignments[i].(labels := FilterNames(assignments[i].labels, name))
  {
    if assignments == [] then []
    else [assignments[0].(labels := FilterNames(assignments[0].labels, name))] + DropAll(assignments[1..], name)
  }

  /** A change to a catalog already pruned; None is a throw. */
  function Apply(c: Catalog, change: Change): Option<Catalog> {
    match change
    case Assign(id, uid, tag, wanted) =>
      var i := Find(c.labels, tag.name);
      if i < |c.labels| && c.labels[i].color != tag.color then None
      else
        var labels := if i == |c.labels| && wanted then c.labels + [tag] else c.labels;
        Some(Catalog(labels, Assigned(c, id, uid, tag.name, wanted)))
    case Update(name, newName, color) =>
      var i := Find(c.labels, name);
      if i == |c.labels| && color.None? then None
      else if newName != name && Find(c.labels, newName) < |c.labels| then None
      else
        var updated := Label(newName, if color.Some? then color.value else c.labels[i].color);
        var labels := if i < |c.labels| then c.labels[i := updated] else c.labels + [updated];
        Some(Catalog(labels, if newName != name then RenameAll(c.assignments, name, newName) else c.assignments))
    case Delete(name) =>
      var i := Find(c.labels, name);
      Some(Catalog(if i < |c.labels| then c.labels[..i] + c.labels[i + 1..] else c.labels, DropAll(c.assignments, name)))
  }

  // ----- Every change keeps a catalog good -----

  lemma DefinedIn(labels: seq<Label>, more: seq<Label>)
    requires forall l :: l in labels ==> Defined(more, l.name)
    ensures forall n :: Defined(labels, n) ==> Defined(more, n)
  {
  }

  lemma AssignKeepsGood(c: Catalog, id: string, uid: string, tag: Label, wanted: bool)
    requires Good(c) && Apply(c, Assign(id, uid, tag, wanted)).Some?
    ensures Good(Apply(c, Assign(id, uid, tag, wanted)).value)
  {
    var d := Apply(c, Assign(id, uid, tag, wanted)).value;
    assert forall l :: l in c.labels ==> l in d.labels;
    DefinedIn(c.labels, d.labels);
    if wanted { LabelThere(c, d, tag); }
    AssignedOk(c, d.labels, id, uid, tag.name, wanted);
  }

  lemma AssignedOk(c: Catalog, labels: seq<Label>, id: string, uid: string, name: string, wanted: bool)
    requires Good(c) && (forall n :: Defined(c.labels, n) ==> Defined(labels, n)) && (wanted ==> Defined(labels, name))
    ensures OnePerWorkspace(Assigned(c, id, uid, name, wanted))
    ensures forall a :: a in Assigned(c, id, uid, name, wanted) ==> AssignmentOk(labels, a)
  {
    var i := IndexOf(c.assignments, id, uid);
    forall a | a in Assigned(c, id, uid, name, wanted) ensures AssignmentOk(labels, a) {
      if a in c.assignments { assert AssignmentOk(c.labels, a); }
      else if i < |c.assignments| { assert AssignmentOk(c.labels, c.assignments[i]); }
    }
  }

  lemma LabelThere(c: Catalog, d: Catalog, tag: Label)
    requires d.labels == if Find(c.labels, tag.name) == |c.labels| then c.labels + [tag] else c.labels
    ensures Defined(d.labels, tag.name)
  {
    var i := Find(c.labels, tag.name);
    assert d.labels[i] in d.labels;
  }

  /** A rename makes no duplicate, because its new name was not defined and so assigned nowhere. */
  lemma UpdateKeepsGood(c: Catalog, name: string, newName: string, color: Option<string>)
    requires Good(c) && Apply(c, Update(name, newName, color)).Some?
    ensures Good(Apply(c, Update(name, newName, color)).value)
  {
    var d := Apply(c, Update(name, newName, color)).value;
    var i := Find(c.labels, name);
    assert d.labels[i].name == newName && d.labels[i] in d.labels;
    forall n | Defined(c.labels, n) && n != name ensures Defined(d.labels, n) {
      var k :| 0 <= k < |c.labels| && c.labels[k].name == n;
      assert d.labels[k] == c.labels[k] && d.labels[k] in d.labels;
    }
    forall k | 0 <= k < |d.assignments| ensures AssignmentOk(d.labels, d.assignments[k]) {
      assert AssignmentOk(c.labels, c.assignments[k]);
      if newName != name { NewNameUnused(c, c.assignments[k], newName); }
    }
  }

  lemma NewNameUnused(c: Catalog, a: Assignment, newName: string)
    requires AssignmentOk(c.labels, a) && Find(c.labels, newName) == |c.labels|
    ensures newName !in a.labels
  {
  }

  lemma DeleteKeepsGood(c: Catalog, name: string)
    requires Good(c)
    ensures Good(Apply(c, Change.Delete(name)).value) && !Defined(Apply(c, Change.Delete(name)).value.labels, name)
  {
    var d := Apply(c, Change.Delete(name)).value;
    var i := Find(c.labels, name);
    forall n | Defined(c.labels, n) && n != name ensures Defined(d.labels, n) {
      var l :| l in c.labels && l.name == n;
      assert l in d.labels;
    }
    forall k | 0 <= k < |d.assignments| ensures AssignmentOk(d.labels, d.assignments[k]) {
      assert AssignmentOk(c.labels, c.assignments[k]);
    }
  }

  lemma ChangeKeepsGood(c: Catalog, workspaces: seq<Workspace>, change: Change)
    requires Good(c) && Apply(Pruned(c, workspaces), change).Some?
    ensures Good(Apply(Pruned(c, workspaces), change).value)
  {
    var p := Pruned(c, workspaces);
    assert Good(p);
    match change
    case Assign(id, uid, tag, wanted) => AssignKeepsGood(p, id, uid, tag, wanted);
    case Update(name, newName, color) => UpdateKeepsGood(p, name, newName, color);
    case Delete(name) => DeleteKeepsGood(p, name);
  }

  // ----- What a change does -----

  lemma LabelsForIs(c: Catalog, id: string, uid: string, n: string)
    requires OnePerWorkspace(c.assignments)
    ensures n in LabelsFor(c, id, uid) <==> exists a :: a in c.assignments && a.workspaceId == id && a.workspaceUid == uid && n in a.labels
  {
    var i := IndexOf(c.assignments, id, uid);
    if i < |c.assignments| { assert c.assignments[i] in c.assignments; }
  }

  /** Assigning a label gives it to that workspace, unassigning takes it away, and neither touches the
      workspace's other labels or another workspace's. An earlier workspace of the same name loses its
      labels to the new one; and a label assigned is in the catalog from then on. */
  lemma AssignSets(c: Catalog, id: string, uid: string, tag: Label, wanted: bool, otherId: string, otherUid: string, n: string)
    requires Good(c) && Apply(c, Assign(id, uid, tag, wanted)).Some?
    ensures var d := Apply(c, Assign(id, uid, tag, wanted)).value;
      && (tag.name in LabelsFor(d, id, uid) <==> wanted)
      && (n != tag.name ==> (n in LabelsFor(d, id, uid) <==> n in LabelsFor(c, id, uid)))
      && (otherId != id ==> (n in LabelsFor(d, otherId, otherUid) <==> n in LabelsFor(c, otherId, otherUid)))
      && (otherUid != uid ==> (n in LabelsFor(d, id, otherUid) <==> !wanted && n in LabelsFor(c, id, otherUid)))
    ensures forall l :: l in Apply(c, Assign(id, uid, tag, wanted)).value.labels <==> l in c.labels || (wanted && l == tag)
  {
    if otherUid != uid { NamesakeAssigned(c, id, uid, tag, wanted, otherUid, n); }
    OwnAssigned(c, id, uid, tag, wanted, n);
    OwnAssigned(c, id, uid, tag, wanted, tag.name);
    if otherId != id { OtherAssigned(c, id, uid, tag, wanted, otherId, otherUid, n); }
    LabelsAssigned(c, id, uid, tag, wanted);
  }

  lemma OwnAssigned(c: Catalog, id: string, uid: string, tag: Label, wanted: bool, n: string)
    requires Good(c) && Apply(c, Assign(id, uid, tag, wanted)).Some?
    ensures n in LabelsFor(Apply(c, Assign(id, uid, tag, wanted)).value, id, uid) <==> if n == tag.name then wanted else n in LabelsFor(c, id, uid)
  {
    AssignKeepsGood(c, id, uid, tag, wanted);
    var d := Apply(c, Assign(id, uid, tag, wanted)).value;
    LabelsForIs(c, id, uid, n);
    LabelsForIs(d, id, uid, n);
    AssignmentsAre(c, d, id, uid, tag.name, wanted);
  }

  lemma OtherAssigned(c: Catalog, id: string, uid: string, tag: Label, wanted: bool, otherId: string, otherUid: string, n: string)
    requires Good(c) && Apply(c, Assign(id, uid, tag, wanted)).Some? && otherId != id
    ensures n in LabelsFor(Apply(c, Assign(id, uid, tag, wanted)).value, otherId, otherUid) <==> n in LabelsFor(c, otherId, otherUid)
  {
    AssignKeepsGood(c, id, uid, tag, wanted);
    var d := Apply(c, Assign(id, uid, tag, wanted)).value;
    LabelsForIs(c, otherId, otherUid, n);
    LabelsForIs(d, otherId, otherUid, n);
    AssignmentsAre(c, d, id, uid, tag.name, wanted);
  }

  lemma LabelsAssigned(c: Catalog, id: string, uid: string, tag: Label, wanted: bool)
    requires Apply(c, Assign(id, uid, tag, wanted)).Some?
    ensures forall l :: l in Apply(c, Assign(id, uid, tag, wanted)).value.labels <==> l in c.labels || (wanted && l == tag)
  {
    var i := Find(c.labels, tag.name);
    if i < |c.labels| { assert c.labels[i] == tag && c.labels[i] in c.labels; }
  }

  lemma NamesakeAssigned(c: Catalog, id: string, uid: string, tag: Label, wanted: bool, otherUid: string, n: string)
    requires Good(c) && Apply(c, Assign(id, uid, tag, wanted)).Some? && otherUid != uid
    ensures n in LabelsFor(Apply(c, Assign(id, uid, tag, wanted)).value, id, otherUid) <==> !wanted && n in LabelsFor(c, id, otherUid)
  {
    var d := Apply(c, Assign(id, uid, tag, wanted)).value;
    AssignKeepsGood(c, id, uid, tag, wanted);
    LabelsForIs(c, id, otherUid, n);
    LabelsForIs(d, id, otherUid, n);
    var i := IndexOf(c.assignments, id, uid);
    if i < |c.assignments| {
      assert forall a :: a in d.assignments && a.workspaceId == id ==> a.workspaceUid == uid;
    } else if wanted {
      assert forall a :: a in d.assignments && a.workspaceId == id ==> a.workspaceUid == uid;
    }
  }

  /** The assignments after a change, as a set: the workspace's own replaced, the others as they were. */
  lemma AssignmentsAre(c: Catalog, d: Catalog, id: string, uid: string, name: string, wanted: bool)
    requires OnePerWorkspace(c.assignments) && d.assignments == Assigned(c, id, uid, name, wanted)
    ensures forall a: Assignment :: a.workspaceId != id ==> (a in d.assignments <==> a in c.assignments)
    ensures forall a :: a in d.assignments && a.workspaceId == id && a.workspaceUid == uid ==>
      (name in a.labels <==> wanted) && (forall n :: n != name ==> (n in a.labels <==> n in LabelsFor(c, id, uid)))
    ensures (forall a :: a in d.assignments ==> a.workspaceId != id || a.workspaceUid != uid) ==>
      !wanted && forall n :: n in LabelsFor(c, id, uid) ==> n == name
  {
    var i := IndexOf(c.assignments, id, uid);
    if i < |c.assignments| {
      var names := c.assignments[i].labels;
      var changed: seq<string> := if !wanted then FilterNames(names, name) else if name in names then names else names + [name];
      if changed != [] {
        assert d.assignments[i] == c.assignments[i].(labels := changed) && d.assignments[i] in d.assignments;
        forall a | a in c.assignments && a.workspaceId != id ensures a in d.assignments {
          var k :| 0 <= k < |c.assignments| && c.assignments[k] == a;
          assert d.assignments[k] == a;
        }
      } else {
        assert forall n :: n in names && n != name ==> n in changed;
      }
    } else if wanted {
      assert d.assignments[|d.assignments| - 1] in d.assignments;
    }
  }

  lemma {:induction false} IndexOfSame(a: seq<Assignment>, b: seq<Assignment>, id: string, uid: string)
    requires |a| == |b|
    requires forall k :: 0 <= k < |a| ==> a[k].workspaceId == b[k].workspaceId && a[k].workspaceUid == b[k].workspaceUid
    ensures IndexOf(b, id, uid) == IndexOf(a, id, uid)
  {
    if a != [] { IndexOfSame(a[1..], b[1..], id, uid); }
  }

  /** A rename takes every workspace's label with it: the new name is where the old one was, and every
      other label stays. A deleted label is nowhere, and every other stays. */
  lemma RenameAndDeleteMoveLabels(c: Catalog, name: string, newName: string, color: Option<string>, id: string, uid: string)
    requires Good(c) && newName != name && Apply(c, Update(name, newName, color)).Some?
    ensures var d := Apply(c, Update(name, newName, color)).value;
      && (newName in LabelsFor(d, id, uid) <==> name in LabelsFor(c, id, uid)) && name !in LabelsFor(d, id, uid)
      && forall n :: n != name && n != newName ==> (n in LabelsFor(d, id, uid) <==> n in LabelsFor(c, id, uid))
    ensures var e := Apply(c, Change.Delete(name)).value;
      forall n :: n in LabelsFor(e, id, uid) <==> n != name && n in LabelsFor(c, id, uid)
  {
    var d, e := Apply(c, Update(name, newName, color)).value, Apply(c, Change.Delete(name)).value;
    IndexOfSame(c.assignments, d.assignments, id, uid);
    IndexOfSame(c.assignments, e.assignments, id, uid);
    var i := IndexOf(c.assignments, id, uid);
    if i < |c.assignments| {
      var names := c.assignments[i].labels;
      assert AssignmentOk(c.labels, c.assignments[i]);
      NewNameUnused(c, c.assignments[i], newName);
      ReplaceHas(names, name, newName);
    }
  }

  lemma ReplaceHas(names: seq<string>, before: string, after: string)
    requires after !in names && before != after
    ensures forall n :: n in Replace(names, before, after) <==> (n in names && n != before) || (n == after && before in names)
  {
    var r := Replace(names, before, after);
    forall n | n in names && n != before ensures n in r {
      var k :| 0 <= k < |names| && names[k] == n;
      assert r[k] == n;
    }
    if before in names {
      var k :| 0 <= k < |names| && names[k] == before;
      assert r[k] == after;
    }
  }

  // ----- change, in its retry loop -----

  datatype Store = Store(cell: Option<Versioned<Catalog>>, next: nat)

  predicate Valid(s: Store) {
    s.cell.Some? ==> s.cell.value.version < s.next && Good(s.cell.value.value)
  }

  /** Whatever others write is good, under a new version. */
  predicate Moves(a: Store, b: Store) {
    Valid(b) && a.next <= b.next && (b.cell == a.cell || (b.cell.Some? && b.cell.value.version >= a.next))
  }

  function Stored(s: Store): Catalog {
    if s.cell.Some? then s.cell.value.value else EMPTY
  }

  class Records {
    var s: Store
    ghost var history: seq<Store>   // the store before each write that went through

    constructor ()
      ensures Valid(s) && s.cell.None? && history == []
    {
      s, history := Store(None, 0), [];
    }

    /** Other writers, at an await. */
    method Await()
      requires Valid(s)
      modifies this`s
      ensures Moves(old(s), s)
    {
      var later: Store :| Moves(s, later) by { assert Moves(s, s); }
      assert Moves(s, later);
      s := later;
    }

    method Read() returns (row: Option<Versioned<Catalog>>)
      requires Valid(s)
      modifies this`s
      ensures Moves(old(s), s) && row == s.cell
    {
      Await();
      row := s.cell;
    }

    method Write(expected: Option<Versioned<Catalog>>, value: Catalog) returns (ok: bool)
      requires Valid(s) && Good(value) && s.cell == expected
      modifies this
      ensures Valid(s)
      ensures ok ==> |history| == |old(history)| + 1 && old(history) <= history && history[|old(history)|].cell == expected
      ensures ok ==> s.cell == Some(Versioned(history[|old(history)|].next, value))
      ensures !ok ==> history == old(history)
    {
      Await();
      ok := VersionOf(s.cell) == VersionOf(expected);
      if ok {
        history := history + [s];
        s := Store(Some(Versioned(s.next, value)), s.next + 1);
      }
    }
  }

  /** `change`: read, prune, apply, compare and swap, five times at most, among any other writers.
      The stored catalog stays good throughout, and a change that succeeds is the change of the very
      catalog it replaced. */
  method ChangeCatalog(records: Records, change: Change, workspaces: seq<Workspace>) returns (done: bool)
    requires Valid(records.s)
    modifies records
    ensures Valid(records.s)
    ensures done ==> |records.history| == |old(records.history)| + 1 && old(records.history) <= records.history
    ensures done ==>
      Apply(Pruned(Stored(records.history[|records.history| - 1]), workspaces), change) == Some(Stored(records.s))
    ensures !done ==> records.history == old(records.history)
  {
    for attempt := 0 to ATTEMPTS
      invariant Valid(records.s) && records.history == old(records.history)
    {
      var row := records.Read();
      var catalog := if row.Some? then row.value.value else EMPTY;
      var result := Apply(Pruned(catalog, workspaces), change);
      if result.None? { return false; }
      ChangeKeepsGood(catalog, workspaces, change);
      var ok := records.Write(row, result.value);
      if ok { return true; }
    }
    done := false;
  }

  // ----- publish -----

  datatype Notice = Upsert(tag: Label) | Remove(name: string)

  predicate Shown(seen: map<string, string>, l: Label) {
    l.name in seen && seen[l.name] == l.color
  }

  /** What a subscriber makes of one notice, and of many. */
  function Hear(seen: map<string, string>, n: Notice): map<string, string> {
    match n case Upsert(l) => seen[l.name := l.color] case Remove(name) => seen - {name}
  }

  function HearAll(seen: map<string, string>, notices: seq<Notice>): map<string, string> {
    if notices == [] then seen else Hear(HearAll(seen, notices[..|notices| - 1]), notices[|notices| - 1])
  }

  lemma HearAppends(seen: map<string, string>, notices: seq<Notice>, n: Notice)
    ensures HearAll(seen, notices + [n]) == Hear(HearAll(seen, notices), n)
  {
    assert (notices + [n])[..|notices|] == notices;
  }

  /** The labels somebody may see: an owner all, a workspace those in use in its scope. */
  function Visible(c: Catalog, owner: bool, scope: seq<Workspace>): (labels: seq<Label>)
    ensures forall l :: l in labels ==> l in c.labels
  {
    if owner then c.labels else InUse(c, c.labels, scope)
  }

  predicate UsedIn(c: Catalog, name: string, scope: seq<Workspace>) {
    exists w :: w in scope && name in LabelsFor(c, w.id, w.uid)
  }

  function InUse(c: Catalog, labels: seq<Label>, scope: seq<Workspace>): (used: seq<Label>)
    ensures forall l :: l in used <==> l in labels && UsedIn(c, l.name, scope)
  {
    if labels == [] then []
    else
      var rest := InUse(c, labels[1..], scope);
      assert labels == [labels[0]] + labels[1..];
      if UsedIn(c, labels[0].name, scope) then [labels[0]] + rest else rest
  }

  lemma {:induction false} InUseUnique(c: Catalog, labels: seq<Label>, scope: seq<Workspace>)
    requires UniqueNames(labels)
    ensures UniqueNames(InUse(c, labels, scope))
  {
    if labels != [] {
      InUseUnique(c, labels[1..], scope);
      var rest := InUse(c, labels[1..], scope);
      forall j | 0 <= j < |rest| ensures rest[j].name != labels[0].name { assert rest[j] in labels[1..]; }
    }
  }

  /** Nobody is shown a name twice: what `Publish` is called with is fit for it. */
  lemma VisibleUnique(c: Catalog, owner: bool, scope: seq<Workspace>)
    requires Good(c)
    ensures UniqueNames(Visible(c, owner, scope))
  {
    InUseUnique(c, c.labels, scope);
  }

  function AsMap(labels: seq<Label>): map<string, string> {
    if labels == [] then map[] else AsMap(labels[..|labels| - 1])[labels[|labels| - 1].name := labels[|labels| - 1].color]
  }

  /** The notice tells the subscriber something new. */
  predicate Tells(seen: map<string, string>, visible: seq<Label>, current: map<string, string>, n: Notice) {
    match n
    case Upsert(l) => l in visible && !Shown(seen, l)
    case Remove(name) => name in seen && name !in current
  }

  lemma DropOne(m: map<string, string>, all: set<string>, gone: set<string>, name: string)
    requires name in gone && gone <= all
    ensures (m - (all - gone)) - {name} == m - (all - (gone - {name}))
  {
    assert all - (gone - {name}) == all - gone + {name};
  }

  lemma OnlyCurrentLeft(seen: map<string, string>, current: map<string, string>)
    ensures (seen + current) - (seen.Keys - current.Keys) == current
  {
  }

  /** The notices of one publication to one subscriber: applied to what it has seen they give exactly
      what is visible now, and none of them is idle. */
  method Publish(seen: map<string, string>, visible: seq<Label>) returns (notices: seq<Notice>, current: map<string, string>)
    requires UniqueNames(visible)
    ensures current == AsMap(visible) && HearAll(seen, notices) == current
    ensures forall n :: n in notices ==> Tells(seen, visible, current, n)
  {
    var upserts;
    upserts, current := Upserts(seen, visible);
    notices := Removals(seen, seen.Keys - current.Keys, upserts);
    OnlyCurrentLeft(seen, current);
    forall i | 0 <= i < |notices| ensures Tells(seen, visible, current, notices[i]) {
      if i < |upserts| { assert notices[i] == upserts[i]; }
    }
  }

  /** The second loop: one notice for each name that is gone. */
  method Removals(seen: map<string, string>, all: set<string>, first: seq<Notice>) returns (notices: seq<Notice>)
    ensures HearAll(seen, notices) == HearAll(seen, first) - all
    ensures |notices| >= |first| && notices[..|first|] == first
    ensures forall i :: |first| <= i < |notices| ==> notices[i].Remove? && notices[i].name in all
  {
    notices := first;
    var gone := all;
    ghost var shown := HearAll(seen, first);
    assert all - gone == {} && shown - {} == shown;
    while gone != {}
      invariant gone <= all && HearAll(seen, notices) == shown - (all - gone)
      invariant |notices| >= |first| && notices[..|first|] == first
      invariant forall i :: |first| <= i < |notices| ==> notices[i].Remove? && notices[i].name in all
      decreases |gone|
    {
      var name :| name in gone;
      HearAppends(seen, notices, Notice.Remove(name));
      DropOne(shown, all, gone, name);
      notices, gone := notices + [Notice.Remove(name)], gone - {name};
    }
    assert all - {} == all;
  }

  lemma {:induction false} AsMapNames(labels: seq<Label>, name: string)
    ensures name in AsMap(labels) <==> exists k :: 0 <= k < |labels| && labels[k].name == name
  {
    if labels != [] { AsMapNames(labels[..|labels| - 1], name); }
  }

  lemma AddShown(seen: map<string, string>, current: map<string, string>, l: Label)
    requires l.name !in current
    ensures (seen + current)[l.name := l.color] == seen + current[l.name := l.color]
    ensures Shown(seen, l) ==> seen + current == seen + current[l.name := l.color]
  {
  }

  /** The first loop: what is new or recoloured. */
  method Upserts(seen: map<string, string>, visible: seq<Label>) returns (notices: seq<Notice>, current: map<string, string>)
    requires UniqueNames(visible)
    ensures current == AsMap(visible) && HearAll(seen, notices) == seen + current
    ensures forall n :: n in notices ==> Tells(seen, visible, current, n)
  {
    notices, current := [], map[];
    for i := 0 to |visible|
      invariant current == AsMap(visible[..i])
      invariant HearAll(seen, notices) == seen + current
      invariant forall n :: n in notices ==> n.Upsert? && Tells(seen, visible, map[], n)
    {
      var tag := visible[i];
      assert visible[..i + 1][..i] == visible[..i];
      AsMapNames(visible[..i], tag.name);
      AddShown(seen, current, tag);
      if !Shown(seen, tag) {
        HearAppends(seen, notices, Upsert(tag));
        notices := notices + [Upsert(tag)];
      }
      current := current[tag.name := tag.color];
    }
    assert visible[..|visible|] == visible;
  }
}
