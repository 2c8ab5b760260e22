/** A run of the publications and listings in which a notice worked out for a replaced subscription stays
    on the client for good, behind a publication that read the newest catalog and was overtaken by nothing. */
module LabelStrayNotice {
  import opened VersionedStore
  import opened LabelViews
  import opened LabelPublishing
  import opened LabelFreshness

  lemma {:induction false} RunSplits(s: State, first: seq<Action>, later: seq<Action>)
    ensures Run(s, first + later) == Run(Run(s, first), later)
  {
    if later == [] {
      assert first + later == first;
    } else {
      RunSplits(s, first, later[..|later| - 1]);
      assert (first + later)[..|first + later| - 1] == first + later[..|later| - 1];
    }
  }

  lemma RunThree(s: State, a: Action, b: Action, c: Action)
    ensures Run(s, [a, b, c]) == Apply(Apply(Apply(s, a), b), c)
  {
    assert [a, b, c][..2] == [a, b] && [a, b][..1] == [a] && [a][..0] == [];
    assert Run(s, [a]) == Apply(s, a) && Run(s, [a, b]) == Apply(Run(s, [a]), b);
  }

  lemma RunTwo(s: State, a: Action, b: Action)
    ensures Run(s, [a, b]) == Apply(Apply(s, a), b)
  {
    assert [a, b][..1] == [a] && [a][..0] == [];
    assert Run(s, [a]) == Apply(s, a);
  }

  /** A client lists and subscribes. */
  function ListSteps(task: nat, key: Key): seq<Action> {
    [Action.List(task, key), ReadCatalog(task), Resume(task, true)]
  }

  /** A change is stored, read for publication, and the first subscription picked. */
  function PublishSteps(task: nat): seq<Action> {
    [Change(task), ReadCatalog(task), Resume(task, true)]
  }

  function Subscribed(key: Key): State {
    State(0, [Entry(key.id, 0, true)], [Sub(key, 0)], map[], {0}, [CatalogRead(0), Listed(key, 0, 0, 0)])
  }

  lemma FirstList(key: Key)
    ensures Run(Init(), ListSteps(0, key)) == Subscribed(key)
  {
    RunThree(Init(), Action.List(0, key), ReadCatalog(0), Resume(0, true));
    var s2 := Apply(Apply(Init(), Action.List(0, key)), ReadCatalog(0));
    assert s2.tasks == map[0 := Answered(key, 0)] && s2.log == [CatalogRead(0)];
    assert Subscribe(s2, 0, key, 0).tasks == map[];
  }

  function Relisting(key: Key): State {
    Subscribed(key).(tasks := map[1 := Answered(key, 0)], started := {0, 1}, log := Subscribed(key).log + [CatalogRead(1)])
  }

  lemma SecondList(key: Key)
    ensures Run(Subscribed(key), [Action.List(1, key), ReadCatalog(1)]) == Relisting(key)
  {
    RunTwo(Subscribed(key), Action.List(1, key), ReadCatalog(1));
    var t := Apply(Subscribed(key), Action.List(1, key));
    assert t.tasks == map[1 := Task.Lists(key)] && t.started == {0, 1};
  }

  function Picking(key: Key): State {
    State(1, [Entry(key.id, 0, true)], [Sub(key, 0)], map[1 := Answered(key, 0), 2 := Serving(1, 1, 0)], {0, 1, 2},
          Relisting(key).log + [Stored, CatalogRead(2), Picked(2, key.id, 0)])
  }

  lemma FirstPick(key: Key)
    ensures Run(Relisting(key), PublishSteps(2)) == Picking(key)
  {
    RunThree(Relisting(key), Change(2), ReadCatalog(2), Resume(2, true));
    var t := Apply(Apply(Relisting(key), Change(2)), ReadCatalog(2));
    assert t.tasks == map[1 := Answered(key, 0), 2 := Fetched(1)] && t.started == {0, 1, 2};
    assert NextLive(t.entries, 0) == 0;
    assert Pick(t, 2, 1, 0).tasks == map[1 := Answered(key, 0), 2 := Serving(1, 1, 0)];
    assert Relisting(key).log + [Stored] + [CatalogRead(2)] + [Picked(2, key.id, 0)] == Picking(key).log;
  }

  function Replaced(key: Key): State {
    State(1, [Entry(key.id, 1, true)], [Sub(key, 1), Sub(key, 0)], map[], {0, 1, 2},
          Picking(key).log + [Listed(key, 1, 1, 0), Shown(key, 2, 0, 0, 1), Through(2)])
  }

  /** The list resumes and replaces the object; then the publication shows the old one. */
  lemma OldObjectShown(key: Key)
    ensures Run(Picking(key), [Resume(1, true), Resume(2, true)]) == Replaced(key)
  {
    RunTwo(Picking(key), Resume(1, true), Resume(2, true));
    var t := Apply(Picking(key), Resume(1, true));
    assert t == Subscribe(Picking(key), 1, key, 0) && Find(Picking(key).entries, key.id) == 0;
    assert t.entries == [Entry(key.id, 1, true)] && t.tasks == map[2 := Serving(1, 1, 0)] && t.subs == [Sub(key, 0), Sub(key, 0)];
    var u := Tell(t, 2, 0, 1);
    assert u.subs == [Sub(key, 1), Sub(key, 0)] && NextLive(u.entries, 1) == 1;
    assert Pick(u, 2, 1, 1).tasks == map[];
    assert Picking(key).log + [Listed(key, 1, 1, 0)] + [Shown(key, 2, 0, 0, 1)] + [Through(2)] == Replaced(key).log;
  }

  function PickingAgain(key: Key): State {
    State(2, [Entry(key.id, 1, true)], [Sub(key, 1), Sub(key, 0)], map[3 := Serving(2, 1, 1)], {0, 1, 2, 3},
          Replaced(key).log + [Stored, CatalogRead(3), Picked(3, key.id, 1)])
  }

  lemma SecondPick(key: Key)
    ensures Run(Replaced(key), PublishSteps(3)) == PickingAgain(key)
  {
    RunThree(Replaced(key), Change(3), ReadCatalog(3), Resume(3, true));
    var t := Apply(Apply(Replaced(key), Change(3)), ReadCatalog(3));
    assert t.tasks == map[3 := Fetched(2)] && t.started == {0, 1, 2, 3} && NextLive(t.entries, 0) == 0;
    assert Pick(t, 3, 2, 0).tasks == map[3 := Serving(2, 1, 1)];
    assert Replaced(key).log + [Stored] + [CatalogRead(3)] + [Picked(3, key.id, 1)] == PickingAgain(key).log;
  }

  function Done(key: Key): State {
    State(2, [Entry(key.id, 1, true)], [Sub(key, 1), Sub(key, 2)], map[], {0, 1, 2, 3},
          PickingAgain(key).log + [Shown(key, 3, 1, 0, 2), Through(3)])
  }

  lemma NewObjectShown(key: Key)
    ensures Run(PickingAgain(key), [Resume(3, true)]) == Done(key)
  {
    var s := PickingAgain(key);
    assert [Resume(3, true)][..0] == [] && Run(s, [Resume(3, true)]) == Apply(s, Resume(3, true));
    var t := Tell(s, 3, 1, 2);
    assert t.subs == [Sub(key, 1), Sub(key, 2)] && NextLive(t.entries, 1) == 1;
    assert Pick(t, 3, 2, 1).tasks == map[];
    assert s.log + [Shown(key, 3, 1, 0, 2)] + [Through(3)] == Done(key).log;
  }

  /** Events by which this client is told nothing leave its account. */
  lemma {:induction false} AccountStays(log: seq<Event>, more: seq<Event>, key: Key)
    requires forall e :: e in more ==> !Tells(e)
    ensures Told(log + more, key) == Told(log, key)
  {
    if more == [] {
      assert log + more == log;
    } else {
      var last := |more| - 1;
      assert log + more == log + more[..last] + [more[last]] && more[last] in more;
      assert (log + more)[..|log + more| - 1] == log + more[..last];
      AccountStays(log, more[..last], key);
    }
  }

  /** What the client was told: the list of version 0, what leads from there to 1, and from 0 to 2. */
  lemma StrayAccount(key: Key)
    ensures Told(Done(key).log, key) == Some(Account(0, 1, [Telling(0, 1), Telling(0, 2)]))
  {
    var listed := Picking(key).log + [Listed(key, 1, 1, 0)];
    ToldGrows(Picking(key).log, Listed(key, 1, 1, 0), key);
    var shown := listed + [Shown(key, 2, 0, 0, 1)];
    ToldGrows(listed, Shown(key, 2, 0, 0, 1), key);
    assert Told(shown, key) == Some(Account(0, 1, [Telling(0, 1)])) by { assert [] + [Telling(0, 1)] == [Telling(0, 1)]; }
    var quiet := [Through(2), Stored, CatalogRead(3), Picked(3, key.id, 1)];
    AccountStays(shown, quiet, key);
    var all := shown + quiet + [Shown(key, 3, 1, 0, 2)];
    ToldGrows(shown + quiet, Shown(key, 3, 1, 0, 2), key);
    assert [Telling(0, 1)] + [Telling(0, 2)] == [Telling(0, 1), Telling(0, 2)];
    assert Told(all, key) == Some(Account(0, 1, [Telling(0, 1), Telling(0, 2)]));
    AccountStays(all, [Through(3)], key);
    assert all + [Through(3)] == Done(key).log;
  }

  const LABEL_A: View := map["A" := "red"]
  const LABELS_AB: View := map["A" := "red", "B" := "blue"]

  /** A run of the code: a publication that had picked a subscription shows its client a label after the
      client listed anew from before the change; the label is deleted, and the publication of that, which
      reads behind the last change, shows the new object, is through and is overtaken by nothing, finds
      nothing to tell. The client keeps the label, for contents as small as these. */
  lemma StrayNoticeStays(key: Key) returns (actions: seq<Action>)
    ensures var s := Run(Init(), actions);
      && Through(3) in s.log && ReadBehind(s.log, 3, 9) && LastChange(s.log, 9)
      && s.entries == [Entry(key.id, 1, true)] && s.subs == [Sub(key, 1), Sub(key, 2)] && s.stored == 2
      && Told(s.log, key) == Some(Account(0, 1, [Telling(0, 1), Telling(0, 2)]))
      && !Overtaken(s.log, 1, 9) && !Missed(s.log, 3, 1, 9)
    ensures Shows(Run(Init(), actions).log, key, [LABEL_A, LABELS_AB, LABEL_A]) == LABELS_AB
  {
    var again, rest := [Action.List(1, key), ReadCatalog(1)], [Resume(1, true), Resume(2, true)];
    var relisting := ListSteps(0, key) + again;
    var picking := relisting + PublishSteps(2);
    var replaced := picking + rest;
    var repicking := replaced + PublishSteps(3);
    actions := repicking + [Resume(3, true)];
    FirstList(key);
    SecondList(key);
    FirstPick(key);
    OldObjectShown(key);
    SecondPick(key);
    NewObjectShown(key);
    RunSplits(Init(), ListSteps(0, key), again);
    RunSplits(Init(), relisting, PublishSteps(2));
    RunSplits(Init(), picking, rest);
    RunSplits(Init(), replaced, PublishSteps(3));
    RunSplits(Init(), repicking, [Resume(3, true)]);
    StrayAccount(key);
    StrayEvents(key);
    NewestSeenUnless(actions, 3, 9, 0);
    StrayDisplay();
  }

  lemma StrayEvents(key: Key)
    ensures var log := Done(key).log; Through(3) in log && ReadBehind(log, 3, 9) && LastChange(log, 9)
  {
    var log := Done(key).log;
    assert log == Replaced(key).log + [Stored, CatalogRead(3), Picked(3, key.id, 1), Shown(key, 3, 1, 0, 2), Through(3)];
    assert |Replaced(key).log| == 9 && log[9] == Stored && log[10] == CatalogRead(3) && log[13] == Through(3);
    forall i | 9 < i < |log| ensures !log[i].Stored? {
      assert i == 10 || i == 11 || i == 12 || i == 13;
    }
  }

  lemma StrayDisplay()
    ensures Display([LABEL_A, LABELS_AB, LABEL_A], 0, [Telling(0, 1), Telling(0, 2)]) == LABELS_AB
  {
    assert [Telling(0, 1), Telling(0, 2)][..1] == [Telling(0, 1)] && [Telling(0, 1)][..0] == [];
    assert Display([LABEL_A, LABELS_AB, LABEL_A], 0, [Telling(0, 1)]) == Retold(LABEL_A, LABEL_A, LABELS_AB);
    RetoldFromItself(LABEL_A, LABELS_AB);
    assert Retold(LABELS_AB, LABEL_A, LABEL_A) == LABELS_AB;
  }
}
