/** What a client makes of a list of labels and of the notices behind it, when the notices may have been
    worked out against something else than what the client shows. */
module LabelViews {
  import opened VersionedStore
  import Labels = WorkspaceLabels

  type View = map<string, string>

  function Look(view: View, name: string): Option<string> {
    if name in view then Some(view[name]) else None
  }

  /** A client that shows `shown` is told what leads from `before` to `now`. */
  function Retold(shown: View, before: View, now: View): View {
    map name | name in shown.Keys + now.Keys && (if Look(before, name) == Look(now, name) then name in shown else name in now)
      :: if Look(before, name) == Look(now, name) then shown[name] else now[name]
  }

  function About(n: Labels.Notice): string {
    match n case Upsert(l) => l.name case Remove(name) => name
  }

  /** The last notice about a name decides it, whoever hears it. */
  lemma {:induction false} LastNoticeDecides(seen: View, shown: View, notices: seq<Labels.Notice>, name: string)
    ensures if exists n :: n in notices && About(n) == name
            then Look(Labels.HearAll(shown, notices), name) == Look(Labels.HearAll(seen, notices), name)
            else Look(Labels.HearAll(shown, notices), name) == Look(shown, name)
  {
    if notices != [] {
      var last := |notices| - 1;
      var n := notices[last];
      LastNoticeDecides(seen, shown, notices[..last], name);
      assert n in notices && forall m :: m in notices <==> m in notices[..last] || m == n;
      if About(n) == name {
        assert Look(Labels.HearAll(shown, notices), name) == Look(Labels.HearAll(seen, notices), name);
      } else {
        assert Look(Labels.HearAll(shown, notices), name) == Look(Labels.HearAll(shown, notices[..last]), name);
        assert Look(Labels.HearAll(seen, notices), name) == Look(Labels.HearAll(seen, notices[..last]), name);
      }
    }
  }

  /** The notices of a publication, heard by a client that does not show what they were worked out
      against: they say the new value of exactly the names that changed there. */
  lemma NoticesRetell(seen: View, shown: View, visible: seq<Labels.Label>, notices: seq<Labels.Notice>)
    requires Labels.HearAll(seen, notices) == Labels.AsMap(visible)
    requires forall n :: n in notices ==> Labels.Tells(seen, visible, Labels.AsMap(visible), n)
    ensures Labels.HearAll(shown, notices) == Retold(shown, seen, Labels.AsMap(visible))
  {
    var now, heard := Labels.AsMap(visible), Labels.HearAll(shown, notices);
    forall name ensures Look(heard, name) == Look(Retold(shown, seen, now), name) {
      LastNoticeDecides(seen, shown, notices, name);
      LastNoticeDecides(seen, seen, notices, name);
      if exists n :: n in notices && About(n) == name { ToldIsNew(seen, visible, notices, name); }
    }
    assert forall name :: name in heard <==> Look(heard, name).Some?;
    assert forall name :: name in Retold(shown, seen, now) <==> Look(Retold(shown, seen, now), name).Some?;
  }

  /** A name that was told is told something new. */
  lemma {:induction false} ToldIsNew(seen: View, visible: seq<Labels.Label>, notices: seq<Labels.Notice>, name: string)
    requires forall n :: n in notices ==> Labels.Tells(seen, visible, Labels.AsMap(visible), n)
    requires exists n :: n in notices && About(n) == name
    ensures Look(Labels.HearAll(seen, notices), name) != Look(seen, name)
  {
    var last := |notices| - 1;
    var n, earlier := notices[last], Labels.HearAll(seen, notices[..last]);
    assert n in notices && forall m :: m in notices <==> m in notices[..last] || m == n;
    assert Labels.Tells(seen, visible, Labels.AsMap(visible), n) && Labels.HearAll(seen, notices) == Labels.Hear(earlier, n);
    if About(n) != name {
      ToldIsNew(seen, visible, notices[..last], name);
      assert Look(Labels.Hear(earlier, n), name) == Look(earlier, name);
    }
  }

  // ----- Over any contents -----

  /** The client was told what leads from one version of the catalog to another. */
  datatype Telling = Telling(before: nat, now: nat)

  predicate InRange(first: nat, tellings: seq<Telling>, n: nat) {
    first < n && forall t :: t in tellings ==> t.before < n && t.now < n
  }

  /** What the client shows, having been listed one version and told these, `catalogs` being the contents
      of each version. */
  function Display(catalogs: seq<View>, first: nat, tellings: seq<Telling>): View
    requires InRange(first, tellings, |catalogs|)
  {
    if tellings == [] then catalogs[first]
    else
      var last := tellings[|tellings| - 1];
      Retold(Display(catalogs, first, tellings[..|tellings| - 1]), catalogs[last.before], catalogs[last.now])
  }

  /** The same of one name: `column` is its value in each version. */
  function Final(column: seq<Option<string>>, first: nat, tellings: seq<Telling>): Option<string>
    requires InRange(first, tellings, |column|)
  {
    if tellings == [] then column[first]
    else
      var last := tellings[|tellings| - 1];
      if column[last.before] == column[last.now] then Final(column, first, tellings[..|tellings| - 1]) else column[last.now]
  }

  function Column(catalogs: seq<View>, name: string): (column: seq<Option<string>>)
    ensures |column| == |catalogs| && forall v :: 0 <= v < |catalogs| ==> column[v] == Look(catalogs[v], name)
  {
    seq(|catalogs|, v requires 0 <= v < |catalogs| => Look(catalogs[v], name))
  }

  lemma {:induction false} DisplayByName(catalogs: seq<View>, first: nat, tellings: seq<Telling>, name: string)
    requires InRange(first, tellings, |catalogs|)
    ensures Look(Display(catalogs, first, tellings), name) == Final(Column(catalogs, name), first, tellings)
  {
    if tellings != [] { DisplayByName(catalogs, first, tellings[..|tellings| - 1], name); }
  }

  /** The versions one cannot tell apart by what the tellings say when none of them says anything. */
  function Alike(tellings: seq<Telling>, v: nat): (alike: set<nat>)
    ensures v in alike
  {
    if tellings == [] then {v}
    else
      var t, alike := tellings[0], Alike(tellings[1..], v);
      if t.before in alike || t.now in alike then alike + Alike(tellings[1..], t.before) + Alike(tellings[1..], t.now) else alike
  }

  lemma {:induction false} AlikeIsClosed(tellings: seq<Telling>, v: nat, t: Telling)
    requires t in tellings
    ensures t.before in Alike(tellings, v) <==> t.now in Alike(tellings, v)
  {
    var first := tellings[0];
    if t in tellings[1..] {
      AlikeIsClosed(tellings[1..], v, t);
      AlikeIsClosed(tellings[1..], first.before, t);
      AlikeIsClosed(tellings[1..], first.now, t);
    } else {
      assert tellings == [first] + tellings[1..];
    }
  }

  /** Tellings that say nothing of a name: its value is the same in versions that are alike. */
  predicate Silent(column: seq<Option<string>>, tellings: seq<Telling>) {
    forall t :: t in tellings ==> t.before < |column| && t.now < |column| && column[t.before] == column[t.now]
  }

  lemma {:induction false} AlikeIsSame(column: seq<Option<string>>, tellings: seq<Telling>, v: nat, w: nat)
    requires Silent(column, tellings) && v < |column| && w in Alike(tellings, v)
    ensures w < |column| && column[w] == column[v]
  {
    if tellings != [] {
      var t, rest := tellings[0], tellings[1..];
      assert t in tellings && forall r :: r in rest ==> r in tellings;
      var alike := Alike(rest, v);
      if w in alike { AlikeIsSame(column, rest, v, w); }
      else {
        if t.before in alike { AlikeIsSame(column, rest, v, t.before); } else { AlikeIsSame(column, rest, v, t.now); }
        if w in Alike(rest, t.before) { AlikeIsSame(column, rest, t.before, w); } else { AlikeIsSame(column, rest, t.now, w); }
      }
    }
  }

  /** What was told at i is the newest, or overruled by what was told behind it: in those tellings it
      leads to the newest version, or back to where it came from. */
  ghost predicate Overruled(tellings: seq<Telling>, i: nat, newest: nat)
    requires i < |tellings|
  {
    newest in Alike(tellings[i + 1..], tellings[i].now) || tellings[i].before in Alike(tellings[i + 1..], tellings[i].now)
  }

  ghost predicate AllOverruled(first: nat, tellings: seq<Telling>, newest: nat) {
    newest in Alike(tellings, first) && forall i :: 0 <= i < |tellings| ==> Overruled(tellings, i, newest)
  }

  /** Behind m nothing is said of the name any more. */
  lemma {:induction false} SettledIsNewest(column: seq<Option<string>>, first: nat, tellings: seq<Telling>, m: nat, newest: nat)
    requires InRange(first, tellings, |column|) && newest < |column| && m <= |tellings|
    requires AllOverruled(first, tellings, newest) && Silent(column, tellings[m..])
    ensures Final(column, first, tellings[..m]) == column[newest]
  {
    if m == 0 {
      assert tellings[0..] == tellings;
      AlikeIsSame(column, tellings, first, newest);
    } else {
      var t := tellings[m - 1];
      assert t in tellings && tellings[..m][..m - 1] == tellings[..m - 1] && Overruled(tellings, m - 1, newest);
      if column[t.before] == column[t.now] {
        assert tellings[m - 1..] == [t] + tellings[m..];
        SettledIsNewest(column, first, tellings, m - 1, newest);
      } else if newest in Alike(tellings[m..], t.now) {
        AlikeIsSame(column, tellings[m..], t.now, newest);
      } else {
        AlikeIsSame(column, tellings[m..], t.now, t.before);
      }
    }
  }

  /** A label that exists in these versions and no others. */
  function Within(versions: set<nat>, n: nat): (catalogs: seq<View>)
    ensures |catalogs| == n && forall v :: 0 <= v < n ==> catalogs[v] == if v in versions then map["a" := "b"] else map[]
  {
    seq(n, v => if v in versions then map["a" := "b"] else map[])
  }

  lemma {:induction false} SilentSaysNothing(column: seq<Option<string>>, first: nat, tellings: seq<Telling>, m: nat)
    requires InRange(first, tellings, |column|) && m <= |tellings| && Silent(column, tellings[m..])
    ensures InRange(first, tellings[..m], |column|) && Final(column, first, tellings) == Final(column, first, tellings[..m])
    decreases |tellings|
  {
    if m < |tellings| {
      var last := |tellings| - 1;
      assert tellings[m..][last - m] == tellings[last] && tellings[last] in tellings[m..];
      assert tellings[..last][m..] == tellings[m..][..last - m] && tellings[..last][..m] == tellings[..m];
      SilentSaysNothing(column, first, tellings[..last], m);
    } else {
      assert tellings[..m] == tellings;
    }
  }

  /** A telling that is not overruled: contents that leave the client with an old label. */
  lemma NotOverruledStays(first: nat, tellings: seq<Telling>, i: int, newest: nat, n: nat) returns (catalogs: seq<View>)
    requires InRange(first, tellings, n) && newest < n && -1 <= i < |tellings|
    requires if i < 0 then newest !in Alike(tellings, first) else !Overruled(tellings, i, newest)
    ensures |catalogs| == n && Display(catalogs, first, tellings) != catalogs[newest]
  {
    var m, told := i + 1, if i < 0 then first else tellings[i].now;
    assert tellings[0..] == tellings;
    catalogs := Within(Alike(tellings[m..], told), n);
    var column := Column(catalogs, "a");
    forall t | t in tellings[m..] ensures t.before < n && t.now < n && column[t.before] == column[t.now] {
      assert t in tellings;
      AlikeIsClosed(tellings[m..], told, t);
    }
    SilentSaysNothing(column, first, tellings, m);
    DisplayByName(catalogs, first, tellings, "a");
    if i >= 0 { assert tellings[..m][..i] == tellings[..i] && tellings[i] in tellings; }
  }

  /** Whatever the catalogs contain, the client shows the newest, if and only if all that it was told is
      overruled but the newest. */
  lemma ShowsNewestIff(first: nat, tellings: seq<Telling>, newest: nat, n: nat)
    requires InRange(first, tellings, n) && newest < n
    ensures (forall catalogs: seq<View> :: |catalogs| == n ==> Display(catalogs, first, tellings) == catalogs[newest]) <==>
            AllOverruled(first, tellings, newest)
  {
    if AllOverruled(first, tellings, newest) {
      forall catalogs: seq<View> | |catalogs| == n ensures Display(catalogs, first, tellings) == catalogs[newest] {
        forall name ensures Look(Display(catalogs, first, tellings), name) == Look(catalogs[newest], name) {
          DisplayByName(catalogs, first, tellings, name);
          assert tellings[|tellings|..] == [] && tellings[..|tellings|] == tellings;
          SettledIsNewest(Column(catalogs, name), first, tellings, |tellings|, newest);
        }
        SameLooks(Display(catalogs, first, tellings), catalogs[newest]);
      }
    } else {
      var i: int := if newest !in Alike(tellings, first) then -1
                    else var k :| 0 <= k < |tellings| && !Overruled(tellings, k, newest); k;
      var _ := NotOverruledStays(first, tellings, i, newest, n);
    }
  }

  lemma SameLooks(a: View, b: View)
    requires forall name :: Look(a, name) == Look(b, name)
    ensures a == b
  {
    assert forall name :: name in a <==> Look(a, name).Some?;
    assert forall name :: name in b <==> Look(b, name).Some?;
    forall name | name in a ensures a[name] == b[name] { assert Look(a, name) == Look(b, name); }
  }

  // ----- Tellings that follow on each other -----

  /** The version told last. */
  function LastTold(first: nat, tellings: seq<Telling>): nat {
    if tellings == [] then first else tellings[|tellings| - 1].now
  }

  ghost predicate Chained(first: nat, tellings: seq<Telling>) {
    forall i {:trigger tellings[i]} :: 0 <= i < |tellings| ==> tellings[i].before == LastTold(first, tellings[..i])
  }

  /** Then the client shows what it was told last. */
  lemma {:induction false} ChainShowsLast(catalogs: seq<View>, first: nat, tellings: seq<Telling>)
    requires InRange(first, tellings, |catalogs|) && Chained(first, tellings)
    ensures LastTold(first, tellings) < |catalogs| && Display(catalogs, first, tellings) == catalogs[LastTold(first, tellings)]
  {
    if tellings != [] {
      var last := |tellings| - 1;
      assert tellings[last] in tellings;
      forall i | 0 <= i < last ensures tellings[..last][i].before == LastTold(first, tellings[..last][..i]) {
        assert tellings[..last][..i] == tellings[..i] && tellings[..last][i] == tellings[i];
      }
      ChainShowsLast(catalogs, first, tellings[..last]);
      RetoldFromItself(catalogs[tellings[last].before], catalogs[tellings[last].now]);
    }
  }

  lemma RetoldFromItself(before: View, now: View)
    ensures Retold(before, before, now) == now
  {
    assert forall name :: name in Retold(before, before, now) <==> name in now;
  }
}
