/** The active agent directory of a session: what one listing tells the client when some workspaces
    cannot be read, and that any sequence of listings keeps the client's directory exact. */
module AgentListing {
  import opened VersionedStore

  const MAX_REMOVALS := 10000

  /** What a workspace's agents came to: rows, live or retained, or nothing that can be known. */
  datatype Source = Rows(ids: seq<string>) | Unknown

  /** `tombstones`: the retained agents of an archived workspace, if they could be read. */
  datatype Workspace = Workspace(name: string, uid: string, archived: bool, source: Source, tombstones: Option<seq<string>>)

  datatype Row = Row(id: string, workspace: string)

  /** A snapshot replaces the client's directory; changes are merged into it. */
  datatype Response = Snapshot(rows: seq<Row>) | Changes(rows: seq<Row>, removals: set<string>) | Refused

  function RowIds(rows: seq<Row>): set<string> {
    set r | r in rows :: r.id
  }

  /** What a client makes of a response. */
  function Merge(client: set<string>, response: Response): set<string> {
    match response
    case Snapshot(rows) => RowIds(rows)
    case Changes(rows, removals) => (client + RowIds(rows)) - removals
    case Refused => client
  }

  function RowsOf(w: Workspace): seq<Row>
    requires w.source.Rows?
  {
    seq(|w.source.ids|, i requires 0 <= i < |w.source.ids| => Row(w.source.ids[i], w.name))
  }

  predicate Unreadable(workspaces: seq<Workspace>, uid: string) {
    exists w :: w in workspaces && !w.archived && w.source.Unknown? && w.uid == uid
  }

  predicate Listed(workspaces: seq<Workspace>, id: string) {
    exists w :: w in workspaces && !w.archived && w.source.Rows? && id in w.source.ids
  }

  predicate RowListed(workspaces: seq<Workspace>, r: Row) {
    exists w :: w in workspaces && !w.archived && w.source.Rows? && w.name == r.workspace && r.id in w.source.ids
  }

  predicate Dead(workspaces: seq<Workspace>, id: string) {
    exists w :: w in workspaces && w.archived && w.tombstones.Some? && id in w.tombstones.value
  }

  // ----- The loops -----

  /** Every active workspace is read; one that cannot be makes the listing partial. */
  method Collect(workspaces: seq<Workspace>) returns (rows: seq<Row>, unknown: set<string>, partial: bool)
    ensures forall r :: r in rows <==> RowListed(workspaces, r)
    ensures forall uid :: uid in unknown <==> Unreadable(workspaces, uid)
    ensures partial <==> unknown != {}
  {
    rows, unknown, partial := [], {}, false;
    for i := 0 to |workspaces|
      invariant forall r :: r in rows <==> RowListed(workspaces[..i], r)
      invariant forall uid :: uid in unknown <==> Unreadable(workspaces[..i], uid)
      invariant partial <==> unknown != {}
    {
      var w := workspaces[i];
      assert workspaces[..i + 1] == workspaces[..i] + [w];
      if !w.archived && w.source.Rows? {
        var more := RowsOf(w);
        RowsOfHas(w);
        rows := rows + more;
      } else if !w.archived {
        unknown, partial := unknown + {w.uid}, true;
      }
    }
    assert workspaces[..|workspaces|] == workspaces;
  }

  lemma RowsOfHas(w: Workspace)
    requires w.source.Rows?
    ensures forall r :: r in RowsOf(w) <==> w.name == r.workspace && r.id in w.source.ids
  {
    forall r: Row | w.name == r.workspace && r.id in w.source.ids ensures r in RowsOf(w) {
      var k :| 0 <= k < |w.source.ids| && w.source.ids[k] == r.id;
      assert RowsOf(w)[k] == r;
    }
  }

  /** The retained agents of archived workspaces are gone from the active directory for certain. */
  method Tombstones(workspaces: seq<Workspace>) returns (ids: set<string>)
    ensures forall id :: id in ids <==> Dead(workspaces, id)
  {
    ids := {};
    for i := 0 to |workspaces|
      invariant forall id :: id in ids <==> Dead(workspaces[..i], id)
    {
      var w := workspaces[i];
      assert workspaces[..i + 1] == workspaces[..i] + [w];
      if w.archived && w.tombstones.Some? {
        ids := ids + set id | id in w.tombstones.value;
      }
    }
    assert workspaces[..|workspaces|] == workspaces;
  }

  predicate DistinctWorkspaces(workspaces: seq<Workspace>) {
    forall i, j :: 0 <= i < j < |workspaces| ==> workspaces[i].name != workspaces[j].name && workspaces[i].uid != workspaces[j].uid
  }

  /** A row of the agent names a workspace with this UID. */
  predicate RowOwner(workspaces: seq<Workspace>, rows: seq<Row>, id: string, uid: string) {
    exists r, w :: r in rows && r.id == id && w in workspaces && w.name == r.workspace && w.uid == uid
  }

  /** The listed agents by the UID of the workspace their row names. */
  method Owners(workspaces: seq<Workspace>, rows: seq<Row>) returns (current: map<string, string>)
    requires DistinctWorkspaces(workspaces)
    ensures forall r, w :: r in rows && w in workspaces && w.name == r.workspace ==> r.id in current
    ensures forall id :: id in current ==> RowOwner(workspaces, rows, id, current[id])
  {
    current := map[];
    var byName: map<string, string> := map w | w in workspaces :: w.name := w.uid;
    for i := 0 to |rows|
      invariant forall r, w :: r in rows[..i] && w in workspaces && w.name == r.workspace ==> r.id in current
      invariant forall id :: id in current ==> RowOwner(workspaces, rows, id, current[id])
    {
      var r := rows[i];
      assert rows[..i + 1] == rows[..i] + [r];
      if r.workspace in byName {
        current := current[r.id := byName[r.workspace]];
        assert RowOwner(workspaces, rows, r.id, byName[r.workspace]);
      }
    }
    assert rows[..|rows|] == rows;
  }

  ghost predicate SomeUnreadable(workspaces: seq<Workspace>) {
    exists uid :: Unreadable(workspaces, uid)
  }

  lemma UnknownUids(workspaces: seq<Workspace>, unknown: set<string>)
    requires forall uid :: uid in unknown <==> Unreadable(workspaces, uid)
    ensures unknown != {} <==> SomeUnreadable(workspaces)
  {
    if unknown != {} {
      var uid :| uid in unknown;
      assert Unreadable(workspaces, uid);
    }
  }

  lemma SomeListed(workspaces: seq<Workspace>, rows: seq<Row>)
    requires forall r :: r in rows <==> RowListed(workspaces, r)
    ensures rows != [] <==> exists id :: Listed(workspaces, id)
  {
    if rows != [] {
      assert RowListed(workspaces, rows[0]);
      assert Listed(workspaces, rows[0].id);
    }
    forall id | Listed(workspaces, id) ensures rows != [] { RowsListed(workspaces, rows, id); }
  }

  // ----- One listing -----

  /** GUIDs are unique, so an agent's rows and its tombstone come from one workspace UID, its owner's;
      workspaces have distinct names and distinct UIDs. */
  ghost predicate Honest(workspaces: seq<Workspace>, owner: string -> string) {
    && DistinctWorkspaces(workspaces)
    && (forall w :: w in workspaces && !w.archived && w.source.Rows? ==> forall id :: id in w.source.ids ==> owner(id) == w.uid)
    && (forall w :: w in workspaces && w.archived && w.tombstones.Some? ==> forall id :: id in w.tombstones.value ==> owner(id) == w.uid)
  }

  ghost predicate Owned(agents: map<string, string>, owner: string -> string) {
    forall id :: id in agents ==> agents[id] == owner(id)
  }

  lemma RowsListed(workspaces: seq<Workspace>, rows: seq<Row>, id: string)
    requires forall r :: r in rows <==> RowListed(workspaces, r)
    ensures id in RowIds(rows) <==> Listed(workspaces, id)
  {
    if Listed(workspaces, id) {
      var w :| w in workspaces && !w.archived && w.source.Rows? && id in w.source.ids;
      assert RowListed(workspaces, Row(id, w.name));
      assert Row(id, w.name).id in RowIds(rows);
    }
  }

  lemma OwnerIsOwner(workspaces: seq<Workspace>, rows: seq<Row>, owner: string -> string, id: string, uid: string)
    requires Honest(workspaces, owner) && RowOwner(workspaces, rows, id, uid)
    requires forall r :: r in rows <==> RowListed(workspaces, r)
    ensures uid == owner(id) && id in RowIds(rows)
  {
    var r, w :| r in rows && r.id == id && w in workspaces && w.name == r.workspace && w.uid == uid;
    var v :| v in workspaces && !v.archived && v.source.Rows? && v.name == r.workspace && r.id in v.source.ids;
    assert v == w;
  }

  /** The map a listing computes: exactly the listed agents, each under its owner. */
  lemma CurrentIsListed(workspaces: seq<Workspace>, rows: seq<Row>, current: map<string, string>, owner: string -> string)
    requires Honest(workspaces, owner)
    requires forall r :: r in rows <==> RowListed(workspaces, r)
    requires forall r, w :: r in rows && w in workspaces && w.name == r.workspace ==> r.id in current
    requires forall id :: id in current ==> RowOwner(workspaces, rows, id, current[id])
    ensures current.Keys == RowIds(rows) && Owned(current, owner)
    ensures forall id :: id in current <==> Listed(workspaces, id)
  {
    forall id | id in current ensures current[id] == owner(id) && id in RowIds(rows) {
      OwnerIsOwner(workspaces, rows, owner, id, current[id]);
    }
    forall id | id in RowIds(rows) ensures id in current {
      var r :| r in rows && r.id == id;
      assert RowListed(workspaces, r);
    }
    forall id ensures id in RowIds(rows) <==> Listed(workspaces, id) { RowsListed(workspaces, rows, id); }
  }

  /** Exactly the agents listed, and those known before whose workspace could not be read. */
  ghost predicate Remembers(workspaces: seq<Workspace>, owner: string -> string, before: map<string, string>, after: map<string, string>) {
    forall id :: id in after <==> Listed(workspaces, id) || (id in before && Unreadable(workspaces, owner(id)))
  }

  /** Exactly the tombstones, and the agents known before that a readable workspace no longer lists. */
  ghost predicate Drops(workspaces: seq<Workspace>, owner: string -> string, before: map<string, string>, dead: set<string>, removals: set<string>) {
    forall id :: id in removals <==> id in dead || (id in before && !Listed(workspaces, id) && !Unreadable(workspaces, owner(id)))
  }

  lemma AllRemembered(workspaces: seq<Workspace>, owner: string -> string, before: map<string, string>, current: map<string, string>)
    requires (forall id :: id in current <==> Listed(workspaces, id)) && forall uid :: !Unreadable(workspaces, uid)
    ensures Remembers(workspaces, owner, before, current)
  {
  }

  lemma SomeRemembered(workspaces: seq<Workspace>, owner: string -> string, before: map<string, string>, current: map<string, string>,
                       unknown: set<string>, dead: set<string>)
    requires Owned(before, owner) && Owned(current, owner)
    requires (forall id :: id in current <==> Listed(workspaces, id)) && forall uid :: uid in unknown <==> Unreadable(workspaces, uid)
    requires forall id :: id in dead ==> !Unreadable(workspaces, owner(id)) && !Listed(workspaces, id)
    ensures Owned(Carry(before, current, unknown), owner) && Remembers(workspaces, owner, before, Carry(before, current, unknown))
    ensures Drops(workspaces, owner, before, dead, Removals(before, current, unknown, dead))
    ensures forall id :: id in dead ==> id !in current && (id in before ==> before[id] !in unknown)
  {
  }

  class Session {
    var last: map<string, string>   // lastActiveAgentIds

    constructor ()
      ensures last == map[]
    {
      last := map[];
    }

    /** A broad listing of active agents. It is refused, changing nothing, or its response brings any
        client that had exactly the known agents to exactly the known agents again; no agent of an
        unreadable workspace is dropped, and every other agent that is not listed is. */
    method List(workspaces: seq<Workspace>, fenced: bool, ghost owner: string -> string)
      returns (response: Response, ghost removals: set<string>)
      requires Honest(workspaces, owner) && Owned(last, owner)
      modifies this
      ensures Owned(last, owner)
      ensures Merge(old(last.Keys), response) == last.Keys
      ensures response.Refused? ==> last == old(last)
      ensures !response.Refused? ==> Remembers(workspaces, owner, old(last), last)
      ensures response.Snapshot? <==> fenced && !SomeUnreadable(workspaces)
      ensures response.Changes? <==> fenced && SomeUnreadable(workspaces) && |removals| <= 10_000 &&
                                     (removals != {} || exists id :: Listed(workspaces, id))
      ensures response.Changes? ==> response.removals == removals
      ensures SomeUnreadable(workspaces) ==> forall id ::
        id in removals <==> Dead(workspaces, id) || (id in old(last) && !Listed(workspaces, id) && !Unreadable(workspaces, owner(id)))
    {
      var rows, unknown, partial := Collect(workspaces);
      var dead: set<string> := {};
      if partial { dead := Tombstones(workspaces); }
      var current := Owners(workspaces, rows);
      CurrentIsListed(workspaces, rows, current, owner);
      if partial { DeadAreElsewhere(workspaces, dead, owner); }
      UnknownUids(workspaces, unknown);
      SomeListed(workspaces, rows);
      response, removals := Conclude(workspaces, rows, unknown, current, dead, fenced, owner);
    }

    /** The response, once everything was read, and what the session remembers of it. */
    method Conclude(workspaces: seq<Workspace>, rows: seq<Row>, unknown: set<string>, current: map<string, string>,
                    dead: set<string>, fenced: bool, ghost owner: string -> string) returns (response: Response, ghost removals: set<string>)
      requires Owned(last, owner) && Owned(current, owner) && current.Keys == RowIds(rows)
      requires forall id :: id in current <==> Listed(workspaces, id)
      requires forall uid :: uid in unknown <==> Unreadable(workspaces, uid)
      requires forall id :: id in dead ==> !Unreadable(workspaces, owner(id)) && !Listed(workspaces, id)
      modifies this
      ensures Owned(last, owner)
      ensures Merge(old(last.Keys), response) == last.Keys
      ensures response.Refused? ==> last == old(last)
      ensures !response.Refused? ==> Remembers(workspaces, owner, old(last), last)
      ensures response.Snapshot? <==> fenced && unknown == {}
      ensures response.Changes? <==> fenced && unknown != {} && |removals| <= MAX_REMOVALS && (removals != {} || rows != [])
      ensures response.Changes? ==> response.removals == removals
      ensures unknown != {} ==> Drops(workspaces, owner, old(last), dead, removals)
    {
      removals := {};
      if unknown == {} {
        if !fenced { return Refused, {}; }
        AllRemembered(workspaces, owner, last, current);
        last := current;
        return Snapshot(rows), {};
      }
      SomeRemembered(workspaces, owner, last, current, unknown, dead);
      response, removals := Partial(rows, unknown, current, dead, fenced);
    }

    /** Something could not be read: what is known is merged, what is certainly gone removed. */
    method Partial(rows: seq<Row>, unknown: set<string>, current: map<string, string>, dead: set<string>, fenced: bool)
      returns (response: Response, removals: set<string>)
      requires current.Keys == RowIds(rows)
      requires forall id :: id in dead ==> id !in current && (id in last ==> last[id] !in unknown)
      modifies this
      ensures Merge(old(last.Keys), response) == last.Keys
      ensures response.Refused? ==> last == old(last)
      ensures !response.Refused? ==> last == Carry(old(last), current, unknown)
      ensures removals == Removals(old(last), current, unknown, dead)
      ensures response == if fenced && |removals| <= MAX_REMOVALS && (removals != {} || rows != []) then Changes(rows, removals) else Refused
    {
      removals := Removals(last, current, unknown, dead);
      if |removals| > MAX_REMOVALS || (rows == [] && removals == {}) || !fenced { return Refused, removals; }
      MergeCarries(last, current, unknown, dead);
      last := Carry(last, current, unknown);
      response := Changes(rows, removals);
    }
  }

  /** What is dropped: tombstones, and agents no longer listed by a workspace that could be read. */
  function Removals(last: map<string, string>, current: map<string, string>, unknown: set<string>, dead: set<string>): set<string> {
    dead + set id | id in last && id !in current && last[id] !in unknown
  }

  lemma MergeCarries(last: map<string, string>, current: map<string, string>, unknown: set<string>, dead: set<string>)
    requires forall id :: id in dead ==> id !in current && (id in last ==> last[id] !in unknown)
    ensures (last.Keys + current.Keys) - Removals(last, current, unknown, dead) == Carry(last, current, unknown).Keys
  {
  }

  /** What stays known: agents of unreadable workspaces, and everything listed now. */
  function Carry(last: map<string, string>, current: map<string, string>, unknown: set<string>): (next: map<string, string>)
    ensures forall id :: id in next <==> id in current || (id in last && last[id] in unknown)
    ensures forall id :: id in next ==> next[id] == if id in current then current[id] else last[id]
  {
    (map id | id in last && last[id] in unknown :: last[id]) + current
  }

  /** A tombstone's owner is archived: neither unreadable nor listed. */
  lemma DeadAreElsewhere(workspaces: seq<Workspace>, dead: set<string>, owner: string -> string)
    requires Honest(workspaces, owner) && forall id :: id in dead <==> Dead(workspaces, id)
    ensures forall id :: id in dead ==> !Unreadable(workspaces, owner(id)) && !Listed(workspaces, id)
  {
    forall id | id in dead ensures !Unreadable(workspaces, owner(id)) && !Listed(workspaces, id) {
      var w :| w in workspaces && w.archived && w.tombstones.Some? && id in w.tombstones.value;
      assert owner(id) == w.uid;
      assert forall v :: v in workspaces && !v.archived ==> v.uid != w.uid;
    }
  }

  // ----- Any sequence of listings -----

  /** Folding the responses of any listings, a client's directory is exactly the session's own record
      of it, whichever workspaces could be read each time. */
  method Follow(session: Session, listings: seq<seq<Workspace>>, fences: seq<bool>, ghost owner: string -> string)
    returns (client: set<string>)
    requires |fences| == |listings| && forall l :: l in listings ==> Honest(l, owner)
    requires session.last == map[]
    modifies session
    ensures client == session.last.Keys && Owned(session.last, owner)
  {
    client := {};
    for i := 0 to |listings|
      invariant client == session.last.Keys && Owned(session.last, owner)
    {
      var response, _ := session.List(listings[i], fences[i], owner);
      client := Merge(client, response);
    }
  }
}
