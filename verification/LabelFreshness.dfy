/** Which catalog a subscribed client shows, over every run of publications and listings: exactly when it
    is the newest, and exactly when the client is sent back to an older one. */
module LabelFreshness {
  import opened VersionedStore
  import opened LabelViews
  import opened LabelPublishing

  // ----- Versions and reads -----

  lemma {:induction false} ReadIsBounded(log: seq<Event>, n: nat, task: nat, version: nat)
    requires n <= |log| && ReadAs(log[..n], task, version)
    ensures version <= Stores(log)
  {
    var r :| 0 <= r < n && log[..n][r] == CatalogRead(task) && Stores(log[..n][..r]) == version;
    assert log[..n][..r] == log[..r] && log[..|log|] == log;
    StoresBetween(log, r, |log|);
  }

  lemma {:induction false} LastIsBounded(log: seq<Event>, n: nat, sub: nat)
    requires LogOk(log) && n <= |log| && Last(log[..n], sub).Some?
    ensures Last(log[..n], sub).value <= Stores(log)
  {
    var e := log[n - 1];
    assert log[..n][..n - 1] == log[..n - 1] && log[..n][n - 1] == e;
    if Tells(e) && e.sub == sub {
      assert EventOk(log[..n - 1], e);
      ReadIsBounded(log, n - 1, e.task, e.version);
    } else {
      LastIsBounded(log, n - 1, sub);
    }
  }

  /** Nothing is told but versions there were. */
  lemma {:induction false} ToldInRange(log: seq<Event>, n: nat, key: Key)
    requires LogOk(log) && n <= |log| && Told(log[..n], key).Some?
    ensures var a := Told(log[..n], key).value; InRange(a.first, a.tellings, Stores(log) + 1)
  {
    var e := log[n - 1];
    assert log[..n][..n - 1] == log[..n - 1] && log[..n][n - 1] == e && EventOk(log[..n - 1], e);
    if Tells(e) { ReadIsBounded(log, n - 1, e.task, e.version); }
    if e.Listed? && e.key == key {
    } else {
      ToldInRange(log, n - 1, key);
      if e.Shown? { LastIsBounded(log, n - 1, e.sub); }
    }
  }

  /** The task read behind this point. */
  predicate ReadBehind(log: seq<Event>, task: nat, k: nat) {
    exists r :: k < r < |log| && log[r] == CatalogRead(task)
  }

  predicate LastChange(log: seq<Event>, k: nat) {
    k < |log| && log[k].Stored? && forall i :: k < i < |log| ==> !log[i].Stored?
  }

  lemma OneRead(log: seq<Event>, task: nat, q: nat, r: nat)
    requires LogOk(log) && q < r < |log| && log[q] == CatalogRead(task)
    ensures log[r] != CatalogRead(task)
  {
    assert EventOk(log[..r], log[r]) && log[..r][q] == log[q];
  }

  lemma SameRead(log: seq<Event>, task: nat, q: nat, r: nat)
    requires LogOk(log) && q < |log| && r < |log| && log[q] == CatalogRead(task) && log[r] == CatalogRead(task)
    ensures q == r
  {
    if q < r { OneRead(log, task, q, r); } else if r < q { OneRead(log, task, r, q); }
  }

  lemma NewestIffReadBehind(log: seq<Event>, task: nat, version: nat, k: nat)
    requires LogOk(log) && LastChange(log, k) && ReadAs(log, task, version)
    ensures version == Stores(log) <==> ReadBehind(log, task, k)
  {
    var r :| 0 <= r < |log| && log[r] == CatalogRead(task) && Stores(log[..r]) == version;
    assert log[..|log|] == log;
    StoresBetween(log, r, |log|);
    if ReadBehind(log, task, k) {
      var q :| k < q < |log| && log[q] == CatalogRead(task);
      SameRead(log, task, q, r);
    }
  }

  /** What a task tells is the catalog it read, however late. */
  lemma TellsWhatItRead(log: seq<Event>, c: nat)
    requires LogOk(log) && c < |log| && Tells(log[c])
    ensures ReadAs(log, log[c].task, log[c].version)
  {
    assert EventOk(log[..c], log[c]);
    ReadStays(log[..c], log, log[c].task, log[c].version);
  }

  /** A client is sent back to an older catalog exactly when the publication or listing that tells it
      now read before a change, and the one that told it earlier read behind that change. */
  lemma GoesBackIff(actions: seq<Action>, key: Key, a: nat, b: nat)
    requires var log := Run(Init(), actions).log;
      a < b < |log| && Tells(log[a]) && Tells(log[b]) && log[a].key == key && log[b].key == key
    ensures var log := Run(Init(), actions).log;
      log[b].version < log[a].version <==>
        exists q, k, r :: 0 <= q < k < r < |log| && log[q] == CatalogRead(log[b].task) && log[k].Stored? && log[r] == CatalogRead(log[a].task)
  {
    RunKeepsInv(actions);
    var log := Run(Init(), actions).log;
    TellsWhatItRead(log, a);
    TellsWhatItRead(log, b);
    OlderIff(log, log[b].task, log[b].version, log[a].task, log[a].version);
  }

  lemma OlderIff(log: seq<Event>, older: nat, v: nat, newer: nat, w: nat)
    requires LogOk(log) && ReadAs(log, older, v) && ReadAs(log, newer, w)
    ensures v < w <==> exists q, k, r :: 0 <= q < k < r < |log| && log[q] == CatalogRead(older) && log[k].Stored? && log[r] == CatalogRead(newer)
  {
    var rb :| 0 <= rb < |log| && log[rb] == CatalogRead(older) && Stores(log[..rb]) == v;
    var ra :| 0 <= ra < |log| && log[ra] == CatalogRead(newer) && Stores(log[..ra]) == w;
    if ra <= rb { StoresBetween(log, ra, rb); } else { StoresBetween(log, rb, ra); }
    if v < w {
      var k :| rb <= k < ra && log[k].Stored?;
      assert rb < k < ra;
    } else if q, k, r :| 0 <= q < k < r < |log| && log[q] == CatalogRead(older) && log[k].Stored? && log[r] == CatalogRead(newer) {
      SameRead(log, older, q, rb);
      SameRead(log, newer, r, ra);
      assert false;
    }
  }

  // ----- What the client shows -----

  /** What the client shows under the key, as it was listed and told. */
  function Shows(log: seq<Event>, key: Key, catalogs: seq<View>): View
    requires Told(log, key).Some? && InRange(Told(log, key).value.first, Told(log, key).value.tellings, |catalogs|)
  {
    Display(catalogs, Told(log, key).value.first, Told(log, key).value.tellings)
  }

  /** Whatever the catalogs contained, the client shows the newest. */
  ghost predicate UpToDate(log: seq<Event>, key: Key)
    requires Told(log, key).Some? && InRange(Told(log, key).value.first, Told(log, key).value.tellings, Stores(log) + 1)
  {
    forall catalogs: seq<View> :: |catalogs| == Stores(log) + 1 ==> Shows(log, key, catalogs) == catalogs[Stores(log)]
  }

  /** In every run: a subscribed client is up to date if and only if everything it was told since its last
      list is overruled but the newest: what was told behind it leads from there to the newest version, or
      back to where that telling came from. */
  lemma UpToDateIff(actions: seq<Action>, key: Key)
    requires Told(Run(Init(), actions).log, key).Some?
    ensures var log := Run(Init(), actions).log; var a := Told(log, key).value;
      InRange(a.first, a.tellings, Stores(log) + 1) && (UpToDate(log, key) <==> AllOverruled(a.first, a.tellings, Stores(log)))
  {
    RunKeepsInv(actions);
    var log := Run(Init(), actions).log;
    assert log[..|log|] == log;
    ToldInRange(log, |log|, key);
    var a := Told(log, key).value;
    ShowsNewestIff(a.first, a.tellings, Stores(log), Stores(log) + 1);
    if UpToDate(log, key) {
      forall catalogs: seq<View> | |catalogs| == Stores(log) + 1 ensures Display(catalogs, a.first, a.tellings) == catalogs[Stores(log)] {
        assert Shows(log, key, catalogs) == catalogs[Stores(log)];
      }
    } else {
      var catalogs: seq<View> :| |catalogs| == Stores(log) + 1 && Shows(log, key, catalogs) != catalogs[Stores(log)];
      assert Display(catalogs, a.first, a.tellings) != catalogs[Stores(log)];
    }
  }

  // ----- Without a notice for a replaced object -----

  predicate ListsKey(e: Event, key: Key) {
    e.Listed? && e.key == key
  }

  predicate ShowsKey(e: Event, key: Key) {
    e.Shown? && e.key == key
  }

  /** Since the client's last list no publication that had picked an earlier object has told it anything. */
  ghost predicate Undisturbed(log: seq<Event>, key: Key) {
    forall p, q :: 0 <= p < q < |log| && LastList(log, p, key) && ShowsKey(log[q], key) ==> log[q].sub == log[p].sub
  }

  predicate LastList(log: seq<Event>, p: nat, key: Key) {
    p < |log| && ListsKey(log[p], key) && forall c :: p < c < |log| ==> !ListsKey(log[c], key)
  }

  /** Where the account begins. */
  lemma {:induction false} AccountBegins(log: seq<Event>, key: Key) returns (p: nat)
    requires Told(log, key).Some?
    ensures LastList(log, p, key) && log[p].sub == Told(log, key).value.sub
  {
    var last := |log| - 1;
    if ListsKey(log[last], key) { p := last; }
    else {
      p := AccountBegins(log[..last], key);
      assert forall c :: p < c < last ==> log[c] == log[..last][c];
    }
  }

  /** Then each notice goes on from what the client was told before. */
  lemma {:induction false} UndisturbedChains(log: seq<Event>, key: Key)
    requires LogOk(log) && Told(log, key).Some? && Undisturbed(log, key)
    ensures var a := Told(log, key).value; Chained(a.first, a.tellings) && Last(log, a.sub) == Some(LastTold(a.first, a.tellings))
  {
    var last := |log| - 1;
    var e, before, a := log[last], log[..last], Told(log, key).value;
    assert EventOk(before, e) && before + [e] == log;
    LastGrows(before, e, a.sub);
    if !ListsKey(e, key) {
      PrefixOk(log);
      PrefixUndisturbed(log, key);
      UndisturbedChains(before, key);
      var p := AccountBegins(log, key);
      if ShowsKey(e, key) {
        assert e.sub == log[p].sub == a.sub;
        ChainGrows(Told(before, key).value.first, Told(before, key).value.tellings, Telling(e.before, e.version));
      } else if Tells(e) {
        OtherKey(log, p, key);
      }
    }
  }

  lemma ChainGrows(first: nat, tellings: seq<Telling>, t: Telling)
    requires Chained(first, tellings) && t.before == LastTold(first, tellings)
    ensures Chained(first, tellings + [t])
  {
    var more := tellings + [t];
    forall i | 0 <= i < |more| ensures more[i].before == LastTold(first, more[..i]) {
      assert more[..i] == tellings[..i] && tellings[..|tellings|] == tellings;
    }
  }

  /** What is told under another key is not of this key's object. */
  lemma OtherKey(log: seq<Event>, p: nat, key: Key)
    requires LogOk(log) && p < |log| - 1 && ListsKey(log[p], key) && Tells(log[|log| - 1]) && log[|log| - 1].key != key
    ensures log[|log| - 1].sub != log[p].sub
  {
    var last := |log| - 1;
    var e := log[last];
    assert EventOk(log[..last], e) && log[..last][p] == log[p];
    if e.sub == log[p].sub {
      ListedHasLast(log[..last], p, e.sub);
      if e.Shown? {
        var i :| 0 <= i < last && IsListOf(log[..last][i], e.key, e.sub);
        assert log[i] == log[..last][i] && i != p;
        ListedOnce(log, if i < p then i else p, if i < p then p else i);
      }
    }
  }

  lemma {:induction false} ListedHasLast(log: seq<Event>, p: nat, sub: nat)
    requires p < |log| && Tells(log[p]) && log[p].sub == sub
    ensures Last(log, sub).Some?
  {
    if p < |log| - 1 { ListedHasLast(log[..|log| - 1], p, sub); }
  }

  lemma ListedOnce(log: seq<Event>, p: nat, q: nat)
    requires LogOk(log) && p < q < |log| && log[p].Listed? && log[q].Listed?
    ensures log[p].sub != log[q].sub
  {
    assert EventOk(log[..q], log[q]) && log[..q][p] == log[p];
    if log[p].sub == log[q].sub { ListedHasLast(log[..q], p, log[q].sub); }
  }

  lemma PrefixOk(log: seq<Event>)
    requires log != [] && LogOk(log)
    ensures LogOk(log[..|log| - 1])
  {
    var before := log[..|log| - 1];
    forall i | 0 <= i < |before| ensures EventOk(before[..i], before[i]) {
      assert before[..i] == log[..i] && EventOk(log[..i], log[i]);
    }
  }

  lemma PrefixUndisturbed(log: seq<Event>, key: Key)
    requires log != [] && Undisturbed(log, key) && !ListsKey(log[|log| - 1], key)
    ensures Undisturbed(log[..|log| - 1], key)
  {
    var before := log[..|log| - 1];
    forall p, q | 0 <= p < q < |before| && LastList(before, p, key) && ShowsKey(before[q], key) ensures before[q].sub == before[p].sub {
      forall c | p < c < |log| ensures !ListsKey(log[c], key) { if c < |before| { assert before[c] == log[c]; } }
      assert LastList(log, p, key) && log[q] == before[q];
    }
  }

  /** An undisturbed client shows what its object was shown last, whatever that was. */
  lemma UndisturbedShowsLast(actions: seq<Action>, key: Key, catalogs: seq<View>)
    requires var s := Run(Init(), actions); Told(s.log, key).Some? && Undisturbed(s.log, key) && |catalogs| == s.stored + 1
    ensures var s := Run(Init(), actions); var a := Told(s.log, key).value;
      && a.sub < |s.subs| && s.subs[a.sub].seen <= s.stored && InRange(a.first, a.tellings, |catalogs|)
      && Shows(s.log, key, catalogs) == catalogs[s.subs[a.sub].seen]
  {
    RunKeepsInv(actions);
    var s := Run(Init(), actions);
    assert s.log[..|s.log|] == s.log;
    ToldInRange(s.log, |s.log|, key);
    UndisturbedChains(s.log, key);
    var a := Told(s.log, key).value;
    assert SubOk(s, a.sub);
    ChainShowsLast(catalogs, a.first, a.tellings);
  }

  // ----- Whether its object was shown the newest -----

  predicate TellsOf(e: Event, sub: nat) {
    Tells(e) && e.sub == sub
  }

  /** It was told the newest, and behind that something older: a publication or list read before the last
      change was told it behind one read after it, and nothing read after it came behind that. */
  ghost predicate Overtaken(log: seq<Event>, sub: nat, k: nat) {
    exists a, b :: 0 <= a < b < |log| && TellsOf(log[a], sub) && TellsOf(log[b], sub) && ReadBehind(log, log[a].task, k) &&
      forall c :: b <= c < |log| && TellsOf(log[c], sub) ==> !ReadBehind(log, log[c].task, k)
  }

  /** It was listed behind the publication's pick of its entry, or behind its end, from a catalog read
      before the last change, and told nothing read after it. */
  ghost predicate Missed(log: seq<Event>, task: nat, sub: nat, k: nat) {
    PassedOver(log, task, sub) && forall c :: 0 <= c < |log| && TellsOf(log[c], sub) ==> !ReadBehind(log, log[c].task, k)
  }

  /** The event that told an object last. */
  lemma {:induction false} LastTells(log: seq<Event>, sub: nat) returns (c: nat)
    requires Last(log, sub).Some?
    ensures c < |log| && TellsOf(log[c], sub) && log[c].version == Last(log, sub).value
    ensures forall d :: c < d < |log| ==> !TellsOf(log[d], sub)
  {
    var last := |log| - 1;
    if TellsOf(log[last], sub) { c := last; }
    else {
      c := LastTells(log[..last], sub);
      assert forall d :: c < d < last ==> log[d] == log[..last][d];
    }
  }

  /** Once a publication that read behind the last change is through, an object in the map was shown the
      newest catalog last, unless an older one overtook it or the publication missed it; and in these
      two cases it was not. */
  lemma NewestSeenUnless(actions: seq<Action>, task: nat, k: nat, j: nat)
    requires var s := Run(Init(), actions);
      && LastChange(s.log, k) && Through(task) in s.log && ReadBehind(s.log, task, k)
      && j < |s.entries| && s.entries[j].live
    ensures var s := Run(Init(), actions); var o := s.entries[j].sub;
      o < |s.subs| && (s.subs[o].seen == s.stored <==> !Overtaken(s.log, o, k) && !Missed(s.log, task, o, k))
  {
    RunKeepsInv(actions);
    var s := Run(Init(), actions);
    var o := s.entries[j].sub;
    assert AllCovered(s, task) && SubOk(s, o);
    SeenIff(s, task, k, o);
  }

  lemma SeenIff(s: State, task: nat, k: nat, o: nat)
    requires Inv(s) && LastChange(s.log, k) && ReadBehind(s.log, task, k) && o < |s.subs|
    requires ShownBy(s.log, task, o) || PassedOver(s.log, task, o)
    ensures s.subs[o].seen == s.stored <==> !Overtaken(s.log, o, k) && !Missed(s.log, task, o, k)
  {
    assert SubOk(s, o);
    var c := LastTells(s.log, o);
    TellsWhatItRead(s.log, c);
    NewestIffReadBehind(s.log, s.log[c].task, s.log[c].version, k);
    if s.subs[o].seen == s.stored {
      NewestIsNeither(s.log, task, o, k, c);
    } else if !Missed(s.log, task, o, k) {
      var a := SomeTold(s, task, o, k);
      OlderOvertakes(s.log, o, k, a, c);
    }
  }

  lemma NewestIsNeither(log: seq<Event>, task: nat, o: nat, k: nat, c: nat)
    requires c < |log| && TellsOf(log[c], o) && ReadBehind(log, log[c].task, k) && forall d :: c < d < |log| ==> !TellsOf(log[d], o)
    ensures !Overtaken(log, o, k) && !Missed(log, task, o, k)
  {
  }

  lemma OlderOvertakes(log: seq<Event>, o: nat, k: nat, a: nat, c: nat)
    requires a < |log| && TellsOf(log[a], o) && ReadBehind(log, log[a].task, k)
    requires c < |log| && TellsOf(log[c], o) && !ReadBehind(log, log[c].task, k) && forall d :: c < d < |log| ==> !TellsOf(log[d], o)
    ensures Overtaken(log, o, k)
  {
    assert a < c;
    assert forall d :: c <= d < |log| && TellsOf(log[d], o) ==> d == c;
  }

  lemma SomeTold(s: State, task: nat, o: nat, k: nat) returns (a: nat)
    requires Inv(s) && ReadBehind(s.log, task, k) && !Missed(s.log, task, o, k)
    requires ShownBy(s.log, task, o) || PassedOver(s.log, task, o)
    ensures a < |s.log| && TellsOf(s.log[a], o) && ReadBehind(s.log, s.log[a].task, k)
  {
    if PassedOver(s.log, task, o) {
      a :| 0 <= a < |s.log| && TellsOf(s.log[a], o) && ReadBehind(s.log, s.log[a].task, k);
    } else {
      var e :| e in s.log && e.Shown? && e.task == task && e.sub == o;
      a :| 0 <= a < |s.log| && s.log[a] == e;
    }
  }

  // ----- The client of an entry in the map -----

  /** The object in the map is the one the client was listed last. */
  ghost predicate CurrentOk(s: State) {
    forall j :: 0 <= j < |s.entries| && s.entries[j].live && s.entries[j].sub < |s.subs| ==>
      Told(s.log, s.subs[s.entries[j].sub].key).Some? && Told(s.log, s.subs[s.entries[j].sub].key).value.sub == s.entries[j].sub
  }

  lemma ToldGrows(log: seq<Event>, e: Event, key: Key)
    ensures var before := Told(log, key);
      Told(log + [e], key) == if ListsKey(e, key) then Some(Account(e.version, e.sub, []))
                              else if ShowsKey(e, key) && before.Some? then
                                Some(before.value.(tellings := before.value.tellings + [Telling(e.before, e.version)]))
                              else before
  {
    assert (log + [e])[..|log|] == log;
  }

  /** A step that adds no list to the log, and leaves the objects where they are. */
  lemma CurrentStays(s: State, t: State)
    requires CurrentOk(s) && Onward(s, t) && EntriesOk(s)
    requires forall o :: 0 <= o < |s.subs| ==> t.subs[o].key == s.subs[o].key
    requires t.log == s.log || (|t.log| == |s.log| + 1 && !t.log[|s.log|].Listed?)
    ensures CurrentOk(t)
  {
    forall j | 0 <= j < |t.entries| && t.entries[j].live
      ensures Told(t.log, s.subs[s.entries[j].sub].key).Some? && Told(t.log, s.subs[s.entries[j].sub].key).value.sub == s.entries[j].sub
    {
      if t.log != s.log {
        assert t.log == s.log + [t.log[|s.log|]];
        ToldGrows(s.log, t.log[|s.log|], s.subs[s.entries[j].sub].key);
      }
    }
  }

  lemma PickCurrent(s: State, task: nat, version: nat, next: nat)
    requires CurrentOk(s) && EntriesOk(s) && next <= |s.entries|
    ensures CurrentOk(Pick(s, task, version, next))
  {
    CurrentStays(s, Pick(s, task, version, next));
  }

  lemma SubscribeCurrent(s: State, task: nat, key: Key, version: nat)
    requires CurrentOk(s) && EntriesOk(s)
    ensures CurrentOk(Subscribe(s, task, key, version))
  {
    var t := Subscribe(s, task, key, version);
    if |t.subs| == |s.subs| { CurrentStays(s, t); }
    else {
      var e := t.log[|s.log|];
      forall j | 0 <= j < |t.entries| && t.entries[j].live
        ensures Told(t.log, t.subs[t.entries[j].sub].key).Some? && Told(t.log, t.subs[t.entries[j].sub].key).value.sub == t.entries[j].sub
      {
        ToldGrows(s.log, e, t.subs[t.entries[j].sub].key);
      }
    }
  }

  lemma ResumeCurrent(s: State, task: nat, allowed: bool)
    requires CurrentOk(s) && Inv(s) && task in s.tasks
    ensures CurrentOk(Resumed(s, task, allowed))
  {
    assert TaskOk(s, task, s.tasks[task]);
    match s.tasks[task]
    case Fetched(version) => PickCurrent(s, task, version, 0);
    case Serving(version, next, sub) =>
      var t := if allowed then Tell(s, task, sub, version) else Deleted(s, s.subs[sub].key.id);
      if allowed { TellKeeps(s, task, sub, version); } else { DeleteKeeps(s, s.subs[sub].key.id); }
      CurrentStays(s, t);
      PickCurrent(t, task, version, next);
    case Answered(key, version) => if allowed { SubscribeCurrent(s, task, key, version); } else { CurrentStays(s, s.(tasks := s.tasks - {task})); }
    case _ =>
  }

  lemma {:induction false} RunKeepsCurrent(actions: seq<Action>)
    ensures Inv(Run(Init(), actions)) && CurrentOk(Run(Init(), actions))
  {
    RunKeepsInv(actions);
    if actions != [] {
      var s, a := Run(Init(), actions[..|actions| - 1]), actions[|actions| - 1];
      RunKeepsCurrent(actions[..|actions| - 1]);
      if a.Resume? { if a.task in s.tasks { ResumeCurrent(s, a.task, a.allowed); } }
      else {
        if a.Release? { DeleteKeeps(s, a.id); }
        CurrentStays(s, Apply(s, a));
      }
    }
  }

  /** A client that no stale notice disturbed, of an object still in the map, once a publication that read
      behind the last change is through: it is up to date, whatever the catalogs contained, if and only
      if no older one overtook it and the publication did not miss it. */
  lemma UndisturbedUpToDateIff(actions: seq<Action>, task: nat, k: nat, j: nat, key: Key)
    requires var s := Run(Init(), actions);
      && LastChange(s.log, k) && Through(task) in s.log && ReadBehind(s.log, task, k)
      && j < |s.entries| && s.entries[j].live && s.entries[j].sub < |s.subs| && key == s.subs[s.entries[j].sub].key
      && Undisturbed(s.log, key)
    ensures var s := Run(Init(), actions); var o := s.entries[j].sub;
      && Told(s.log, key).Some? && InRange(Told(s.log, key).value.first, Told(s.log, key).value.tellings, Stores(s.log) + 1)
      && (UpToDate(s.log, key) <==> !Overtaken(s.log, o, k) && !Missed(s.log, task, o, k))
  {
    RunKeepsCurrent(actions);
    NewestSeenUnless(actions, task, k, j);
    UndisturbedIsSeen(actions, key);
  }

  /** An undisturbed client is up to date exactly if its object was shown the newest last. */
  lemma UndisturbedIsSeen(actions: seq<Action>, key: Key)
    requires var s := Run(Init(), actions); Told(s.log, key).Some? && Undisturbed(s.log, key)
    ensures var s := Run(Init(), actions); var a := Told(s.log, key).value;
      && a.sub < |s.subs| && InRange(a.first, a.tellings, Stores(s.log) + 1)
      && (UpToDate(s.log, key) <==> s.subs[a.sub].seen == s.stored)
  {
    RunKeepsInv(actions);
    var s := Run(Init(), actions);
    var a := Told(s.log, key).value;
    forall catalogs: seq<View> | |catalogs| == s.stored + 1 ensures ShowsVersion(s, key, catalogs) {
      UndisturbedShowsLast(actions, key, catalogs);
    }
    SeenDecides(s, key);
  }

  /** The client shows what its object was shown last. */
  ghost predicate ShowsVersion(s: State, key: Key, catalogs: seq<View>)
    requires Told(s.log, key).Some?
  {
    var a := Told(s.log, key).value;
    && a.sub < |s.subs| && s.subs[a.sub].seen < |catalogs| && InRange(a.first, a.tellings, |catalogs|)
    && Shows(s.log, key, catalogs) == catalogs[s.subs[a.sub].seen]
  }

  lemma SeenDecides(s: State, key: Key)
    requires Told(s.log, key).Some? && s.stored == Stores(s.log)
    requires forall catalogs: seq<View> :: |catalogs| == s.stored + 1 ==> ShowsVersion(s, key, catalogs)
    ensures var a := Told(s.log, key).value;
      && a.sub < |s.subs| && InRange(a.first, a.tellings, Stores(s.log) + 1)
      && (UpToDate(s.log, key) <==> s.subs[a.sub].seen == s.stored)
  {
    var a := Told(s.log, key).value;
    var plain := Within({}, s.stored + 1);
    assert ShowsVersion(s, key, plain);
    var told := Within({s.subs[a.sub].seen}, s.stored + 1);
    assert ShowsVersion(s, key, told);
    if UpToDate(s.log, key) {
      assert Shows(s.log, key, told) == told[Stores(s.log)];
      assert "a" in told[s.subs[a.sub].seen];
    } else {
      var catalogs: seq<View> :| |catalogs| == Stores(s.log) + 1 && Shows(s.log, key, catalogs) != catalogs[Stores(s.log)];
      assert ShowsVersion(s, key, catalogs);
    }
  }
}
