/** Publications of the label catalog and listings that subscribe, await by await: each publication reads
    the catalog once, then picks the subscriptions one after the other and awaits the scope of each before
    it tells the client what changed; meanwhile changes are stored, other publications go on, and
    clients list, subscribe again under the same ID, and release. */
module LabelPublishing {
  import opened VersionedStore
  import opened LabelViews

  /** A subscription as its client knows it: the session, and the ID. */
  datatype Key = Key(client: nat, id: nat)

  /** A subscription object; the version its `seen` was taken from. */
  datatype Sub = Sub(key: Key, seen: nat)

  /** An entry of the map of subscriptions, in the order of insertion. */
  datatype Entry = Entry(id: nat, sub: nat, live: bool)

  datatype Task =
    | Publishes | Fetched(version: nat)                        // about to read, and read
    | Serving(version: nat, next: nat, picked: nat)            // awaits the scope of the subscription picked
    | Lists(key: Key) | Answered(key: Key, version: nat)       // the same of a listing

  datatype Event =
    | Stored
    | CatalogRead(task: nat)
    | Picked(task: nat, id: nat, sub: nat)
    | Listed(key: Key, task: nat, sub: nat, version: nat)
    | Shown(key: Key, task: nat, sub: nat, before: nat, version: nat)
    | Through(task: nat)

  /** `stored` counts the changes: it is the version of the catalog that is stored. */
  datatype State = State(stored: nat, entries: seq<Entry>, subs: seq<Sub>, tasks: map<nat, Task>, started: set<nat>, log: seq<Event>)

  datatype Action =
    | Change(task: nat)                    // a change is stored here, and will be published
    | ChangeElsewhere                      // another gateway stores one, which is not published here
    | List(task: nat, key: Key)
    | ReadCatalog(task: nat)
    | Resume(task: nat, allowed: bool)     // an await ends; a scope or a subscription may be refused
    | Release(id: nat)
    | Abandon(task: nat)

  function Init(): State {
    State(0, [], [], map[], {}, [])
  }

  /** The live entry of an ID, or the number of entries. */
  function Find(entries: seq<Entry>, id: nat): (j: nat)
    ensures j <= |entries| && (j < |entries| ==> entries[j].live && entries[j].id == id)
    ensures j == |entries| ==> forall k :: 0 <= k < |entries| && entries[k].live ==> entries[k].id != id
  {
    if entries == [] then 0
    else
      var last := |entries| - 1;
      var j := Find(entries[..last], id);
      if j < last then j else if entries[last].live && entries[last].id == id then last else |entries|
  }

  function Deleted(s: State, id: nat): State {
    var j := Find(s.entries, id);
    if j < |s.entries| then s.(entries := s.entries[j := s.entries[j].(live := false)]) else s
  }

  /** The first live entry from `next` on, or the number of entries. */
  function NextLive(entries: seq<Entry>, next: nat): (j: nat)
    requires next <= |entries|
    ensures next <= j <= |entries| && (j < |entries| ==> entries[j].live)
    ensures forall k :: next <= k < j ==> !entries[k].live
    decreases |entries| - next
  {
    if next == |entries| || entries[next].live then next else NextLive(entries, next + 1)
  }

  /** The loop goes on to the next entry, or is through. */
  function Pick(s: State, task: nat, version: nat, next: nat): State
    requires next <= |s.entries|
  {
    var j := NextLive(s.entries, next);
    if j == |s.entries| then s.(tasks := s.tasks - {task}, log := s.log + [Through(task)])
    else
      var e := s.entries[j];
      s.(tasks := s.tasks[task := Serving(version, j + 1, e.sub)], log := s.log + [Picked(task, e.id, e.sub)])
  }

  /** The client is told what changed since the object's `seen`, whatever entry the object has by now. */
  function Tell(s: State, task: nat, sub: nat, version: nat): State
    requires sub < |s.subs|
  {
    var o := s.subs[sub];
    s.(subs := s.subs[sub := o.(seen := version)], log := s.log + [Shown(o.key, task, sub, o.seen, version)])
  }

  /** The map's entry of the ID gets a new object, or the map a new entry; an ID of another session is refused. */
  function Subscribe(s: State, task: nat, key: Key, version: nat): State {
    var j, o := Find(s.entries, key.id), |s.subs|;
    var t := s.(tasks := s.tasks - {task});
    if j < |s.entries| && (s.entries[j].sub >= |s.subs| || s.subs[s.entries[j].sub].key != key) then t
    else
      t.(entries := if j < |s.entries| then s.entries[j := Entry(key.id, o, true)] else s.entries + [Entry(key.id, o, true)],
         subs := s.subs + [Sub(key, version)], log := s.log + [Listed(key, task, o, version)])
  }

  function Resumed(s: State, task: nat, allowed: bool): State
    requires task in s.tasks
  {
    match s.tasks[task]
    case Fetched(version) => Pick(s, task, version, 0)
    case Serving(version, next, sub) =>
      if sub >= |s.subs| || next > |s.entries| then s
      else if allowed then Pick(Tell(s, task, sub, version), task, version, next)
      else Pick(Deleted(s, s.subs[sub].key.id), task, version, next)
    case Answered(key, version) => if allowed then Subscribe(s, task, key, version) else s.(tasks := s.tasks - {task})
    case _ => s
  }

  function Start(s: State, task: nat, pc: Task): State {
    if task in s.started then s else s.(tasks := s.tasks[task := pc], started := s.started + {task})
  }

  function Store(s: State): State {
    s.(stored := s.stored + 1, log := s.log + [Stored])
  }

  function Apply(s: State, a: Action): State {
    match a
    case Change(task) => if task in s.started then s else Start(Store(s), task, Publishes)
    case ChangeElsewhere => Store(s)
    case List(task, key) => Start(s, task, Lists(key))
    case ReadCatalog(task) =>
      if task in s.tasks && s.tasks[task].Publishes? then
        s.(tasks := s.tasks[task := Fetched(s.stored)], log := s.log + [CatalogRead(task)])
      else if task in s.tasks && s.tasks[task].Lists? then
        s.(tasks := s.tasks[task := Answered(s.tasks[task].key, s.stored)], log := s.log + [CatalogRead(task)])
      else s
    case Resume(task, allowed) => if task in s.tasks then Resumed(s, task, allowed) else s
    case Release(id) => Deleted(s, id)
    case Abandon(task) => s.(tasks := s.tasks - {task})
  }

  function Run(s: State, actions: seq<Action>): State {
    if actions == [] then s else Apply(Run(s, actions[..|actions| - 1]), actions[|actions| - 1])
  }

  // ----- What the log says -----

  /** Something a client was told: a list or notices. */
  predicate Tells(e: Event) {
    e.Listed? || e.Shown?
  }

  function Stores(log: seq<Event>): nat {
    if log == [] then 0 else Stores(log[..|log| - 1]) + if log[|log| - 1].Stored? then 1 else 0
  }

  lemma {:induction false} StoresBetween(log: seq<Event>, q: nat, r: nat)
    requires q <= r <= |log|
    ensures Stores(log[..q]) <= Stores(log[..r])
    ensures Stores(log[..q]) < Stores(log[..r]) <==> exists k :: q <= k < r && log[k].Stored?
  {
    if q < r {
      StoresBetween(log, q, r - 1);
      assert log[..r][..r - 1] == log[..r - 1];
    }
  }

  /** The task read this version. */
  ghost predicate ReadAs(log: seq<Event>, task: nat, version: nat) {
    exists r :: 0 <= r < |log| && log[r] == CatalogRead(task) && Stores(log[..r]) == version
  }

  /** The version object `sub` was listed or shown last. */
  function Last(log: seq<Event>, sub: nat): Option<nat> {
    if log == [] then None
    else
      var e := log[|log| - 1];
      if Tells(e) && e.sub == sub then Some(e.version) else Last(log[..|log| - 1], sub)
  }

  /** What the client was told since its last list: the version listed, its object, and the notices. */
  datatype Account = Account(first: nat, sub: nat, tellings: seq<Telling>)

  function Told(log: seq<Event>, key: Key): Option<Account> {
    if log == [] then None
    else
      var e, before := log[|log| - 1], Told(log[..|log| - 1], key);
      if e.Listed? && e.key == key then Some(Account(e.version, e.sub, []))
      else if e.Shown? && e.key == key && before.Some? then
        Some(before.value.(tellings := before.value.tellings + [Telling(e.before, e.version)]))
      else before
  }

  /** An object is told of first in its list, under its key and never before; its notices start from
      what it was told last; and what is told was read by the task that tells it. */
  ghost predicate EventOk(before: seq<Event>, e: Event) {
    match e
    case Listed(key, task, sub, version) => Last(before, sub).None? && ReadAs(before, task, version)
    case Shown(key, task, sub, from, version) =>
      Last(before, sub) == Some(from) && ReadAs(before, task, version) && exists i :: 0 <= i < |before| && IsListOf(before[i], key, sub)
    case CatalogRead(task) => CatalogRead(task) !in before
    case _ => true
  }

  predicate IsListOf(e: Event, key: Key, sub: nat) {
    e.Listed? && e.key == key && e.sub == sub
  }

  ghost predicate LogOk(log: seq<Event>) {
    forall i {:trigger log[..i]} :: 0 <= i < |log| ==> EventOk(log[..i], log[i])
  }

  lemma LogGrows(log: seq<Event>, e: Event)
    requires LogOk(log) && EventOk(log, e)
    ensures LogOk(log + [e])
  {
    forall i | 0 <= i < |log + [e]| ensures EventOk((log + [e])[..i], (log + [e])[i]) {
      assert (log + [e])[..i] == log[..i] && log[..|log|] == log;
    }
  }

  lemma ReadStays(log: seq<Event>, more: seq<Event>, task: nat, version: nat)
    requires log <= more && ReadAs(log, task, version)
    ensures ReadAs(more, task, version)
  {
    var r :| 0 <= r < |log| && log[r] == CatalogRead(task) && Stores(log[..r]) == version;
    assert more[..r] == log[..r] && more[r] == log[r];
  }

  lemma LastGrows(log: seq<Event>, e: Event, sub: nat)
    ensures Last(log + [e], sub) == if Tells(e) && e.sub == sub then Some(e.version) else Last(log, sub)
  {
    assert (log + [e])[..|log|] == log;
  }

  lemma StoresGrow(log: seq<Event>, e: Event)
    ensures Stores(log + [e]) == Stores(log) + if e.Stored? then 1 else 0
  {
    assert (log + [e])[..|log|] == log;
  }

  // ----- What every run keeps -----

  /** The publication has told the client of this object. */
  predicate ShownBy(log: seq<Event>, task: nat, sub: nat) {
    exists e :: e in log && e.Shown? && e.task == task && e.sub == sub
  }

  /** Behind this point the publication does not come to a new object of the ID any more. */
  predicate PassPoint(e: Event, task: nat, id: nat) {
    e == Through(task) || (e.Picked? && e.task == task && e.id == id)
  }

  /** The object was listed behind the publication's pick of its entry, or behind its end. */
  ghost predicate PassedOver(log: seq<Event>, task: nat, sub: nat) {
    exists p, q :: 0 <= p < q < |log| && log[q].Listed? && log[q].sub == sub && PassPoint(log[p], task, log[q].key.id)
  }

  predicate PickedOf(log: seq<Event>, task: nat, id: nat) {
    exists e :: e in log && e.Picked? && e.task == task && e.id == id
  }

  /** Each live entry before `bound` was picked, and its object is shown, passed over, or `pending`. */
  ghost predicate Covered(s: State, task: nat, bound: nat, pending: int) {
    bound <= |s.entries| && forall j :: 0 <= j < bound && s.entries[j].live ==>
      && PickedOf(s.log, task, s.entries[j].id)
      && (s.entries[j].sub == pending || ShownBy(s.log, task, s.entries[j].sub) || PassedOver(s.log, task, s.entries[j].sub))
  }

  /** A publication that is through has shown every object in the map, or passed it over. */
  ghost predicate AllCovered(s: State, task: nat) {
    forall j :: 0 <= j < |s.entries| && s.entries[j].live ==>
      ShownBy(s.log, task, s.entries[j].sub) || PassedOver(s.log, task, s.entries[j].sub)
  }

  ghost predicate EntriesOk(s: State) {
    && (forall i, j :: 0 <= i < j < |s.entries| && s.entries[i].live && s.entries[j].live ==> s.entries[i].id != s.entries[j].id)
    && (forall j :: 0 <= j < |s.entries| ==> s.entries[j].sub < |s.subs| && s.subs[s.entries[j].sub].key.id == s.entries[j].id)
  }

  ghost predicate SubOk(s: State, o: nat)
    requires o < |s.subs|
  {
    Last(s.log, o) == Some(s.subs[o].seen) && exists i :: 0 <= i < |s.log| && IsListOf(s.log[i], s.subs[o].key, o)
  }

  ghost predicate SubsOk(s: State) {
    (forall o :: 0 <= o < |s.subs| ==> SubOk(s, o)) && (forall o: nat :: o >= |s.subs| ==> Last(s.log, o).None?)
  }

  ghost predicate TaskOk(s: State, task: nat, pc: Task) {
    match pc
    case Publishes => CatalogRead(task) !in s.log
    case Lists(_) => CatalogRead(task) !in s.log
    case Fetched(version) => ReadAs(s.log, task, version)
    case Answered(_, version) => ReadAs(s.log, task, version)
    case Serving(version, next, picked) => ReadAs(s.log, task, version) && picked < |s.subs| && Covered(s, task, next, picked)
  }

  ghost predicate TasksOk(s: State) {
    && (forall task :: task in s.tasks ==> task in s.started && TaskOk(s, task, s.tasks[task]))
    && (forall task: nat :: CatalogRead(task) in s.log ==> task in s.started)
    && (forall task: nat :: Through(task) in s.log ==> AllCovered(s, task))
  }

  ghost predicate Inv(s: State) {
    s.stored == Stores(s.log) && LogOk(s.log) && EntriesOk(s) && SubsOk(s) && TasksOk(s)
  }

  /** The log grows, and entries only go. */
  ghost predicate Onward(s: State, t: State) {
    && s.log <= t.log && |t.entries| == |s.entries| && |t.subs| == |s.subs|
    && forall j :: 0 <= j < |s.entries| ==>
         t.entries[j].sub == s.entries[j].sub && t.entries[j].id == s.entries[j].id && (t.entries[j].live ==> s.entries[j].live)
  }

  lemma PassedOverStays(log: seq<Event>, more: seq<Event>, task: nat, sub: nat)
    requires log <= more
    ensures ShownBy(log, task, sub) ==> ShownBy(more, task, sub)
    ensures PassedOver(log, task, sub) ==> PassedOver(more, task, sub)
  {
    if ShownBy(log, task, sub) {
      var e :| e in log && e.Shown? && e.task == task && e.sub == sub;
      assert e in more;
    }
    if PassedOver(log, task, sub) {
      var p, q :| 0 <= p < q < |log| && log[q].Listed? && log[q].sub == sub && PassPoint(log[p], task, log[q].key.id);
      assert more[p] == log[p] && more[q] == log[q];
    }
  }

  lemma PickedStays(log: seq<Event>, more: seq<Event>, task: nat, id: nat)
    requires log <= more && PickedOf(log, task, id)
    ensures PickedOf(more, task, id)
  {
    var e :| e in log && e.Picked? && e.task == task && e.id == id;
    assert e in more;
  }

  lemma CoveredStays(s: State, t: State, task: nat, bound: nat, pending: int)
    requires Covered(s, task, bound, pending) && Onward(s, t)
    ensures Covered(t, task, bound, pending)
  {
    forall j | 0 <= j < bound && t.entries[j].live
      ensures PickedOf(t.log, task, t.entries[j].id)
      ensures t.entries[j].sub == pending || ShownBy(t.log, task, t.entries[j].sub) || PassedOver(t.log, task, t.entries[j].sub)
    {
      PickedStays(s.log, t.log, task, s.entries[j].id);
      PassedOverStays(s.log, t.log, task, s.entries[j].sub);
    }
  }

  lemma AllCoveredStays(s: State, t: State, task: nat)
    requires AllCovered(s, task) && Onward(s, t)
    ensures AllCovered(t, task)
  {
    forall j | 0 <= j < |t.entries| && t.entries[j].live
      ensures ShownBy(t.log, task, t.entries[j].sub) || PassedOver(t.log, task, t.entries[j].sub)
    {
      PassedOverStays(s.log, t.log, task, s.entries[j].sub);
    }
  }

  /** A task that does not move stays in order, unless its own read is logged. */
  lemma TaskStays(s: State, t: State, task: nat, pc: Task)
    requires TaskOk(s, task, pc) && Onward(s, t)
    requires CatalogRead(task) in t.log ==> CatalogRead(task) in s.log
    ensures TaskOk(t, task, pc)
  {
    if pc.Fetched? || pc.Answered? || pc.Serving? { ReadStays(s.log, t.log, task, pc.version); }
    if pc.Serving? { CoveredStays(s, t, task, pc.next, pc.picked); }
  }

  /** The tasks but one stay in order. */
  lemma TasksStay(s: State, t: State, moved: nat)
    requires TasksOk(s) && Onward(s, t) && s.started <= t.started
    requires forall task :: task in t.tasks && task != moved ==> task in s.tasks && t.tasks[task] == s.tasks[task]
    requires forall e :: e in t.log && e.CatalogRead? ==> e in s.log || e.task == moved
    requires forall e :: e in t.log && e.Through? ==> e in s.log || AllCovered(t, e.task)
    requires moved in t.tasks || CatalogRead(moved) in t.log ==> moved in t.started
    requires moved in t.tasks ==> TaskOk(t, moved, t.tasks[moved])
    ensures TasksOk(t)
  {
    forall task | task in t.tasks ensures task in t.started && TaskOk(t, task, t.tasks[task]) {
      if task != moved { TaskStays(s, t, task, s.tasks[task]); }
    }
    forall task: nat | Through(task) in t.log ensures AllCovered(t, task) {
      if Through(task) in s.log { AllCoveredStays(s, t, task); }
    }
  }

  /** Nothing is told: the objects stay in order. */
  lemma SubsStay(s: State, t: State)
    requires SubsOk(s) && t.subs == s.subs && s.log <= t.log && (t.log == s.log || (|t.log| == |s.log| + 1 && !Tells(t.log[|s.log|])))
    ensures SubsOk(t)
  {
    forall o: nat ensures Last(t.log, o) == Last(s.log, o) {
      if t.log != s.log {
        assert t.log == s.log + [t.log[|s.log|]];
        LastGrows(s.log, t.log[|s.log|], o);
      }
    }
    forall o | 0 <= o < |t.subs| ensures SubOk(t, o) {
      assert SubOk(s, o);
      var i :| 0 <= i < |s.log| && IsListOf(s.log[i], s.subs[o].key, o);
      assert t.log[i] == s.log[i];
    }
  }

  lemma StoreKeeps(s: State)
    requires Inv(s)
    ensures Inv(Store(s))
  {
    var t := Store(s);
    LogGrows(s.log, Stored);
    StoresGrow(s.log, Stored);
    SubsStay(s, t);
    ExtendedLog(s.log, Stored);
    forall task | task in t.tasks ensures TaskOk(t, task, t.tasks[task]) { TaskStays(s, t, task, s.tasks[task]); }
    forall task: nat | Through(task) in t.log ensures AllCovered(t, task) { AllCoveredStays(s, t, task); }
  }

  lemma ExtendedLog(log: seq<Event>, e: Event)
    ensures forall d :: d in log + [e] <==> d in log || d == e
    ensures (log + [e])[|log|] == e && log <= log + [e]
  {
  }

  lemma StartKeeps(s: State, task: nat, pc: Task)
    requires Inv(s) && (pc.Publishes? || pc.Lists?)
    ensures Inv(Start(s, task, pc))
  {
    if task !in s.started {
      var t := Start(s, task, pc);
      SubsStay(s, t);
      TasksStay(s, t, task);
    }
  }

  lemma ReadKeeps(s: State, task: nat)
    requires Inv(s)
    ensures Inv(Apply(s, ReadCatalog(task)))
  {
    var t := Apply(s, ReadCatalog(task));
    if t != s {
      var e := CatalogRead(task);
      assert TaskOk(s, task, s.tasks[task]);
      LogGrows(s.log, e);
      StoresGrow(s.log, e);
      ExtendedLog(s.log, e);
      SubsStay(s, t);
      assert t.log[|s.log|] == e && t.log[..|s.log|] == s.log;
      assert ReadAs(t.log, task, s.stored);
      TasksStay(s, t, task);
    }
  }

  lemma EndKeeps(s: State, task: nat)
    requires Inv(s)
    ensures Inv(s.(tasks := s.tasks - {task}))
  {
    var t := s.(tasks := s.tasks - {task});
    SubsStay(s, t);
    TasksStay(s, t, task);
  }

  lemma DeleteKeeps(s: State, id: nat)
    requires Inv(s)
    ensures Inv(Deleted(s, id)) && Onward(s, Deleted(s, id))
    ensures forall j :: 0 <= j < |Deleted(s, id).entries| && Deleted(s, id).entries[j].live ==> Deleted(s, id).entries[j].id != id
  {
    var t := Deleted(s, id);
    SubsStay(s, t);
    forall task | task in t.tasks ensures TaskOk(t, task, t.tasks[task]) { TaskStays(s, t, task, s.tasks[task]); }
    forall task: nat | Through(task) in t.log ensures AllCovered(t, task) { AllCoveredStays(s, t, task); }
  }

  /** The client of an object is told a newer or older version. */
  lemma TellKeeps(s: State, task: nat, sub: nat, version: nat)
    requires Inv(s) && sub < |s.subs| && ReadAs(s.log, task, version)
    ensures Inv(Tell(s, task, sub, version)) && Onward(s, Tell(s, task, sub, version))
    ensures ShownBy(Tell(s, task, sub, version).log, task, sub)
  {
    var t, o := Tell(s, task, sub, version), s.subs[sub];
    var e := Shown(o.key, task, sub, o.seen, version);
    assert SubOk(s, sub);
    LogGrows(s.log, e);
    StoresGrow(s.log, e);
    ExtendedLog(s.log, e);
    assert e in t.log;
    forall i: nat ensures Last(t.log, i) == if i == sub then Some(version) else Last(s.log, i) { LastGrows(s.log, e, i); }
    forall i | 0 <= i < |t.subs| ensures SubOk(t, i) {
      assert SubOk(s, i);
      var k :| 0 <= k < |s.log| && IsListOf(s.log[k], s.subs[i].key, i);
      assert t.log[k] == s.log[k];
    }
    forall u | u in t.tasks ensures TaskOk(t, u, t.tasks[u]) { TaskStays(s, t, u, s.tasks[u]); }
    forall u: nat | Through(u) in t.log ensures AllCovered(t, u) { AllCoveredStays(s, t, u); }
  }

  lemma PickKeeps(s: State, task: nat, version: nat, next: nat)
    requires Inv(s) && task in s.started && ReadAs(s.log, task, version) && Covered(s, task, next, -1)
    ensures Inv(Pick(s, task, version, next))
  {
    var j := NextLive(s.entries, next);
    if j == |s.entries| { ThroughKeeps(s, task, next); } else { NextKeeps(s, task, version, next, j); }
  }

  lemma ThroughKeeps(s: State, task: nat, next: nat)
    requires Inv(s) && task in s.started && Covered(s, task, next, -1)
    requires forall k :: next <= k < |s.entries| ==> !s.entries[k].live
    ensures Inv(s.(tasks := s.tasks - {task}, log := s.log + [Through(task)]))
  {
    var t := s.(tasks := s.tasks - {task}, log := s.log + [Through(task)]);
    LogGrows(s.log, Through(task));
    StoresGrow(s.log, Through(task));
    ExtendedLog(s.log, Through(task));
    SubsStay(s, t);
    CoveredStays(s, t, task, next, -1);
    assert AllCovered(t, task) by {
      forall j | 0 <= j < |t.entries| && t.entries[j].live ensures ShownBy(t.log, task, t.entries[j].sub) || PassedOver(t.log, task, t.entries[j].sub) {
        assert j < next;
      }
    }
    TasksStay(s, t, task);
  }

  lemma NextKeeps(s: State, task: nat, version: nat, next: nat, j: nat)
    requires Inv(s) && task in s.started && ReadAs(s.log, task, version) && Covered(s, task, next, -1)
    requires next <= j < |s.entries| && s.entries[j].live && forall k :: next <= k < j ==> !s.entries[k].live
    ensures var e := s.entries[j];
      Inv(s.(tasks := s.tasks[task := Serving(version, j + 1, e.sub)], log := s.log + [Picked(task, e.id, e.sub)]))
  {
    var e := Picked(task, s.entries[j].id, s.entries[j].sub);
    var t := s.(tasks := s.tasks[task := Serving(version, j + 1, s.entries[j].sub)], log := s.log + [e]);
    LogGrows(s.log, e);
    StoresGrow(s.log, e);
    ExtendedLog(s.log, e);
    SubsStay(s, t);
    CoveredStays(s, t, task, next, -1);
    ReadStays(s.log, t.log, task, version);
    CoveredOnePicked(t, task, next, j);
    TasksStay(s, t, task);
  }

  lemma CoveredOnePicked(t: State, task: nat, next: nat, j: nat)
    requires Covered(t, task, next, -1) && next <= j < |t.entries| && forall k :: next <= k < j ==> !t.entries[k].live
    requires Picked(task, t.entries[j].id, t.entries[j].sub) in t.log
    ensures Covered(t, task, j + 1, t.entries[j].sub)
  {
    assert PickedOf(t.log, task, t.entries[j].id);
  }

  /** A new object in the map: whoever picked its entry, or was through, has passed it over. */
  lemma NewObjectCovered(s: State, t: State, task: nat, key: Key, lister: nat, version: nat, j: nat)
    requires t.log == s.log + [Listed(key, lister, |s.subs|, version)] && j <= |s.entries|
    requires j < |s.entries| ==> s.entries[j].live && s.entries[j].id == key.id
    requires t.entries == if j < |s.entries| then s.entries[j := Entry(key.id, |s.subs|, true)] else s.entries + [Entry(key.id, |s.subs|, true)]
    ensures Through(task) in s.log && AllCovered(s, task) ==> AllCovered(t, task)
    ensures forall bound: nat, pending: int :: Covered(s, task, bound, pending) ==> Covered(t, task, bound, pending)
  {
    var q := |s.log|;
    ExtendedLog(s.log, t.log[q]);
    if Through(task) in s.log && AllCovered(s, task) {
      var p :| 0 <= p < q && s.log[p] == Through(task);
      assert t.log[p] == s.log[p] && PassPoint(t.log[p], task, t.log[q].key.id);
      assert PassedOver(t.log, task, |s.subs|);
      forall i | 0 <= i < |t.entries| && t.entries[i].live
        ensures ShownBy(t.log, task, t.entries[i].sub) || PassedOver(t.log, task, t.entries[i].sub)
      {
        if i != j { PassedOverStays(s.log, t.log, task, s.entries[i].sub); }
      }
    }
    forall bound: nat, pending: int | Covered(s, task, bound, pending) ensures Covered(t, task, bound, pending) {
      forall i | 0 <= i < bound && t.entries[i].live
        ensures PickedOf(t.log, task, t.entries[i].id)
        ensures t.entries[i].sub == pending || ShownBy(t.log, task, t.entries[i].sub) || PassedOver(t.log, task, t.entries[i].sub)
      {
        PickedStays(s.log, t.log, task, s.entries[i].id);
        if i == j { PickedIsPassed(s.log, t.log, task); } else { PassedOverStays(s.log, t.log, task, s.entries[i].sub); }
      }
    }
  }

  lemma PickedIsPassed(log: seq<Event>, more: seq<Event>, task: nat)
    requires |more| == |log| + 1 && log <= more && more[|log|].Listed? && PickedOf(log, task, more[|log|].key.id)
    ensures PassedOver(more, task, more[|log|].sub)
  {
    var e :| e in log && e.Picked? && e.task == task && e.id == more[|log|].key.id;
    var p :| 0 <= p < |log| && log[p] == e;
    assert more[p] == e && PassPoint(more[p], task, more[|log|].key.id);
  }

  lemma SubscribeKeeps(s: State, task: nat, key: Key, version: nat)
    requires Inv(s) && ReadAs(s.log, task, version)
    ensures Inv(Subscribe(s, task, key, version))
  {
    var t, j := Subscribe(s, task, key, version), Find(s.entries, key.id);
    if t == s.(tasks := s.tasks - {task}) {
      EndKeeps(s, task);
    } else {
      var e := Listed(key, task, |s.subs|, version);
      LogGrows(s.log, e);
      StoresGrow(s.log, e);
      ExtendedLog(s.log, e);
      forall i: nat ensures Last(t.log, i) == if i == |s.subs| then Some(version) else Last(s.log, i) { LastGrows(s.log, e, i); }
      forall i | 0 <= i < |t.subs| ensures SubOk(t, i) {
        if i < |s.subs| {
          assert SubOk(s, i);
          var k :| 0 <= k < |s.log| && IsListOf(s.log[k], s.subs[i].key, i);
          assert t.log[k] == s.log[k];
        } else {
          assert IsListOf(t.log[|s.log|], key, i);
        }
      }
      forall u | u in t.tasks ensures TaskOk(t, u, t.tasks[u]) {
        assert TaskOk(s, u, s.tasks[u]);
        NewObjectCovered(s, t, u, key, task, version, j);
        if s.tasks[u].Fetched? || s.tasks[u].Answered? || s.tasks[u].Serving? { ReadStays(s.log, t.log, u, s.tasks[u].version); }
      }
      forall u: nat | Through(u) in t.log ensures AllCovered(t, u) { NewObjectCovered(s, t, u, key, task, version, j); }
    }
  }

  lemma ResumeKeeps(s: State, task: nat, allowed: bool)
    requires Inv(s) && task in s.tasks
    ensures Inv(Resumed(s, task, allowed))
  {
    assert TaskOk(s, task, s.tasks[task]);
    match s.tasks[task]
    case Fetched(version) => PickKeeps(s, task, version, 0);
    case Serving(version, next, sub) =>
      if allowed {
        var t := Tell(s, task, sub, version);
        TellKeeps(s, task, sub, version);
        CoveredStays(s, t, task, next, sub);
        ReadStays(s.log, t.log, task, version);
        PickKeeps(t, task, version, next);
      } else {
        var t := Deleted(s, s.subs[sub].key.id);
        DeleteKeeps(s, s.subs[sub].key.id);
        CoveredStays(s, t, task, next, sub);
        ReadStays(s.log, t.log, task, version);
        PickKeeps(t, task, version, next);
      }
    case Answered(key, version) => if allowed { SubscribeKeeps(s, task, key, version); } else { EndKeeps(s, task); }
    case _ =>
  }

  lemma ApplyKeepsInv(s: State, a: Action)
    requires Inv(s)
    ensures Inv(Apply(s, a))
  {
    match a
    case Change(task) =>
      StoreKeeps(s);
      StartKeeps(Store(s), task, Publishes);
    case ChangeElsewhere => StoreKeeps(s);
    case List(task, key) => StartKeeps(s, task, Lists(key));
    case ReadCatalog(task) => ReadKeeps(s, task);
    case Resume(task, allowed) => if task in s.tasks { ResumeKeeps(s, task, allowed); }
    case Release(id) => DeleteKeeps(s, id);
    case Abandon(task) => EndKeeps(s, task);
  }

  lemma {:induction false} RunKeepsInv(actions: seq<Action>)
    ensures Inv(Run(Init(), actions))
  {
    if actions == [] {
      assert LogOk([]);
    } else {
      RunKeepsInv(actions[..|actions| - 1]);
      ApplyKeepsInv(Run(Init(), actions[..|actions| - 1]), actions[|actions| - 1]);
    }
  }
}
