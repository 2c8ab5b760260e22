/** What bounds an agent registry in memory: the cache of recent claims, the permits for claims on
    the store, and the bounded map over the items of a message. */
module ClaimLimits {
  import opened VersionedStore

  const CACHE_MS := 30000
  const MAX_CACHE := 4096
  const MAX_CONCURRENT := 8

  datatype Entry = Entry(key: string, until: int)

  predicate Unique(entries: seq<Entry>) {
    forall i, j :: 0 <= i < j < |entries| ==> entries[i].key != entries[j].key
  }

  function Drop(entries: seq<Entry>, key: string): (kept: seq<Entry>)
    ensures forall e :: e in kept <==> e in entries && e.key != key
    ensures Unique(entries) ==> Unique(kept)
    ensures |kept| <= |entries|
  {
    if entries == [] then []
    else
      var rest := Drop(entries[1..], key);
      assert entries == [entries[0]] + entries[1..];
      assert Unique(entries) ==> forall e :: e in entries[1..] ==> e.key != entries[0].key;
      if entries[0].key == key then rest else [entries[0]] + rest
  }

  function Youngest(entries: seq<Entry>): seq<Entry> {
    if |entries| > MAX_CACHE then entries[|entries| - MAX_CACHE..] else entries
  }

  /** The claims a registry remembers, oldest first. */
  class Cache {
    var entries: seq<Entry>

    predicate Valid()
      reads this
    {
      |entries| <= MAX_CACHE && Unique(entries)
    }

    constructor ()
      ensures Valid() && entries == []
    {
      entries := [];
    }

    method Forget(key: string)
      requires Valid()
      modifies this
      ensures Valid() && entries == Drop(old(entries), key)
    {
      entries := Drop(entries, key);
    }

    /** The claim becomes the youngest; beyond the limit the oldest go, and nothing else changes. */
    method Remember(key: string, now: int)
      requires Valid()
      modifies this
      ensures Valid() && entries == Youngest(Drop(old(entries), key) + [Entry(key, now + 30_000)])
    {
      entries := Drop(entries, key) + [Entry(key, now + CACHE_MS)];
      ghost var all := entries;
      while |entries| > MAX_CACHE
        invariant |entries| <= |all| && Unique(all) && entries == all[|all| - |entries|..]
        invariant |entries| >= MAX_CACHE || entries == all
        decreases |entries|
      {
        entries := entries[1..];
      }
    }
  }

  /** Permits for claims on the store, handed over in order of arrival. */
  class Permits {
    var active: nat
    var waiters: seq<nat>
    var holders: set<nat>   // the tasks running with a permit

    /** Exactly the holders are counted, never more than eight, and nobody waits while one is free. */
    ghost predicate Valid()
      reads this
    {
      && |holders| == active <= MAX_CONCURRENT && (waiters != [] ==> active == MAX_CONCURRENT)
      && (forall i :: 0 <= i < |waiters| ==> waiters[i] !in holders)
      && (forall i, j :: 0 <= i < j < |waiters| ==> waiters[i] != waiters[j])
    }

    constructor ()
      ensures Valid() && active == 0 && waiters == [] && holders == {}
    {
      active, waiters, holders := 0, [], {};
    }

    method Acquire(t: nat) returns (granted: bool)
      requires Valid() && t !in holders && t !in waiters
      modifies this
      ensures Valid() && (granted <==> old(active) < MAX_CONCURRENT)
      ensures granted ==> holders == old(holders) + {t} && waiters == old(waiters)
      ensures !granted ==> holders == old(holders) && waiters == old(waiters) + [t]
    {
      if active >= MAX_CONCURRENT {
        waiters := waiters + [t];
        return false;
      }
      active, holders := active + 1, holders + {t};
      granted := true;
    }

    /** The permit passes to the first waiter; only without one does it become free. */
    method Release(t: nat) returns (next: Option<nat>)
      requires Valid() && t in holders
      modifies this
      ensures Valid()
      ensures old(waiters) == [] ==> next.None? && holders == old(holders) - {t} && waiters == []
      ensures old(waiters) != [] ==> next == Some(old(waiters)[0]) && waiters == old(waiters)[1..] &&
                                     holders == old(holders) - {t} + {next.value}
    {
      if waiters == [] {
        active, holders := active - 1, holders - {t};
        return None;
      }
      next := Some(waiters[0]);
      holders := holders - {t} + {waiters[0]};
      waiters := waiters[1..];
    }
  }

  lemma NotEmpty(s: set<nat>)
    requires |s| > 0
    ensures exists x :: x in s
  {
    var x :| x in s;
  }

  /** No permit is lost and no waiter forgotten: once every holder releases, in whatever order, all
      have run, each waiter in its turn, and the count is back at zero. */
  method Drain(permits: Permits) returns (served: seq<nat>)
    requires permits.Valid()
    modifies permits
    ensures permits.Valid() && permits.active == 0 && permits.waiters == []
    ensures served == old(permits.waiters)
  {
    served := [];
    while permits.active > 0
      invariant permits.Valid() && served + permits.waiters == old(permits.waiters)
      decreases permits.active + |permits.waiters|
    {
      NotEmpty(permits.holders);
      var t :| t in permits.holders;
      var next := permits.Release(t);
      if next.Some? { served := served + [next.value]; }
    }
  }

  // ----- mapBounded -----

  /** Up to eight workers share a counter; each takes the next index, and writes the result of its
      item there, in whatever order the results come. The output is the map of the input in order,
      every item was mapped exactly once, and never more than eight at a time. */
  method MapBounded<T, R(0)>(values: seq<T>, f: T -> R) returns (output: array<R>, ghost mapped: seq<nat>, ghost peak: nat)
    ensures output.Length == |values| && forall i :: 0 <= i < |values| ==> output[i] == f(values[i])
    ensures |mapped| == |values| && forall i, j :: 0 <= i < j < |mapped| ==> mapped[i] != mapped[j]
    ensures forall i :: i in mapped ==> i < |values|
    ensures peak <= MAX_CONCURRENT
  {
    output := new R[|values|];
    var next, running: set<nat> := 0, {};
    mapped, peak := [], 0;
    while next < |values| || running != {}
      invariant 0 <= next <= |values| && |running| <= MAX_CONCURRENT && peak <= MAX_CONCURRENT
      invariant forall i :: i in running ==> i < next
      invariant forall i :: 0 <= i < next && i !in running ==> output[i] == f(values[i])
      invariant |mapped| == next && forall i :: 0 <= i < next ==> mapped[i] == i
      decreases |values| - next, |running|
    {
      var take: bool := *;
      if next < |values| && |running| < MAX_CONCURRENT && (take || running == {}) {
        running, mapped := running + {next}, mapped + [next];
        next := next + 1;
        peak := if |running| > peak then |running| else peak;
      } else {
        if next < |values| && |running| >= MAX_CONCURRENT { NotEmpty(running); }
        var i :| i in running;
        output[i] := f(values[i]);
        running := running - {i};
      }
    }
  }
}
