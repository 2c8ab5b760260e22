/** Session-local pages of a directory listing: immutable snapshots under a small budget, and
    cursors that walk each of them to its end. */
module DirectoryPages {
  import opened VersionedStore

  const MAX_SNAPSHOTS := 4
  const MAX_SNAPSHOT_BYTES := 6 * 1024 * 1024
  const MAX_ROWS := 10000
  const MAX_TOTAL_BYTES := 12 * 1024 * 1024
  const TTL_MS := 5 * 60000

  datatype Cursor = Cursor(token: nat, offset: nat)
  datatype Request = Request(limit: nat, cursor: Option<Cursor>)

  /** The rows of one listing and what goes with every page of it. */
  datatype Listing<T, S> = Listing(key: nat, rows: seq<T>, sync: Option<S>)

  datatype Snapshot<T> = Snapshot(id: nat, key: nat, rows: seq<T>, expiresAt: int, bytes: nat)

  datatype Page<T, S> = Page(entries: seq<T>, sync: Option<S>, next: Option<Cursor>, prev: Option<Cursor>, hasMore: bool)

  function Total<T(!new)>(snapshots: seq<Snapshot<T>>): nat {
    if snapshots == [] then 0 else snapshots[0].bytes + Total(snapshots[1..])
  }

  function Live<T>(snapshots: seq<Snapshot<T>>, now: int): seq<Snapshot<T>> {
    if snapshots == [] then []
    else if snapshots[0].expiresAt <= now then Live(snapshots[1..], now)
    else [snapshots[0]] + Live(snapshots[1..], now)
  }

  function Ids<T>(snapshots: seq<Snapshot<T>>): set<nat> {
    set i | 0 <= i < |snapshots| :: snapshots[i].id
  }

  ghost predicate Distinct<T(!new)>(snapshots: seq<Snapshot<T>>) {
    forall i, j :: 0 <= i < j < |snapshots| ==> snapshots[i].id != snapshots[j].id
  }

  lemma LiveAreLeft<T(!new)>(snapshots: seq<Snapshot<T>>, now: int)
    ensures var live := Live(snapshots, now); |live| <= |snapshots| && Total(live) <= Total(snapshots)
    ensures forall s :: s in Live(snapshots, now) <==> s in snapshots && s.expiresAt > now
    ensures Distinct(snapshots) ==> Distinct(Live(snapshots, now))
  {
    LiveIsLess(snapshots, now);
    LiveMembers(snapshots, now);
    if Distinct(snapshots) { LiveDistinct(snapshots, now); }
  }

  lemma {:induction false} LiveIsLess<T(!new)>(snapshots: seq<Snapshot<T>>, now: int)
    ensures var live := Live(snapshots, now); |live| <= |snapshots| && Total(live) <= Total(snapshots)
  {
    if snapshots != [] { LiveIsLess(snapshots[1..], now); }
  }

  lemma {:induction false} LiveMembers<T(!new)>(snapshots: seq<Snapshot<T>>, now: int)
    ensures forall s :: s in Live(snapshots, now) <==> s in snapshots && s.expiresAt > now
  {
    if snapshots != [] {
      LiveMembers(snapshots[1..], now);
      assert snapshots == [snapshots[0]] + snapshots[1..];
    }
  }

  lemma {:induction false} LiveDistinct<T(!new)>(snapshots: seq<Snapshot<T>>, now: int)
    requires Distinct(snapshots)
    ensures Distinct(Live(snapshots, now))
  {
    if snapshots != [] {
      LiveDistinct(snapshots[1..], now);
      LiveMembers(snapshots[1..], now);
      var rest := Live(snapshots[1..], now);
      forall j | 0 <= j < |rest| ensures rest[j].id != snapshots[0].id { assert rest[j] in snapshots[1..]; }
    }
  }

  lemma {:induction false} TotalAppends<T(!new)>(snapshots: seq<Snapshot<T>>, s: Snapshot<T>)
    ensures Total(snapshots + [s]) == Total(snapshots) + s.bytes
  {
    if snapshots == [] { assert (snapshots + [s])[1..] == []; }
    else {
      TotalAppends(snapshots[1..], s);
      assert (snapshots + [s])[1..] == snapshots[1..] + [s];
    }
  }

  /** The page of a listing from `offset` on. */
  function PageOf<T(!new), S(!new)>(listing: Listing<T, S>, id: nat, offset: nat, limit: nat): Page<T, S>
    requires offset <= |listing.rows|
  {
    var end := offset + limit;
    var last := if end < |listing.rows| then end else |listing.rows|;
    Page(listing.rows[offset..last], listing.sync,
         if end < |listing.rows| then Some(Cursor(id, end)) else None,
         if offset > 0 then Some(Cursor(id, if offset > limit then offset - limit else 0)) else None,
         end < |listing.rows|)
  }

  /** Every page but the first has a previous one: a whole page back it leads here again, and otherwise
      it is the first. */
  lemma PreviousLeadsBack<T(!new), S(!new)>(listing: Listing<T, S>, id: nat, offset: nat, limit: nat)
    requires offset < |listing.rows| && limit > 0
    ensures var page := PageOf(listing, id, offset, limit);
      if offset == 0 then page.prev.None?
      else if offset < limit then page.prev == Some(Cursor(id, 0))
      else
        && page.prev.Some? && page.prev.value.offset <= |listing.rows|
        && var before := PageOf(listing, id, page.prev.value.offset, limit);
           before.next == Some(Cursor(id, offset)) && before.entries + page.entries == listing.rows[offset - limit..offset + |page.entries|]
  {
    if offset >= limit {
      var end := offset + |PageOf(listing, id, offset, limit).entries|;
      assert listing.rows[offset - limit..offset] + listing.rows[offset..end] == listing.rows[offset - limit..end];
    }
  }

  function SyncOf<S>(syncs: map<nat, S>, id: nat): Option<S> {
    if id in syncs then Some(syncs[id]) else None
  }

  /** Each snapshot is still the listing it was taken of, and only snapshots have a sync. */
  ghost predicate StoreOk<T(!new), S(!new)>(snapshots: seq<Snapshot<T>>, syncs: map<nat, S>, listings: map<nat, Listing<T, S>>) {
    && Distinct(snapshots)
    && (forall s :: s in snapshots ==> s.id in listings && listings[s.id] == Listing(s.key, s.rows, SyncOf(syncs, s.id)))
    && syncs.Keys <= Ids(snapshots)
  }

  /** Fewer snapshots, and the syncs of those. */
  lemma FewerOk<T(!new), S(!new)>(snapshots: seq<Snapshot<T>>, syncs: map<nat, S>, listings: map<nat, Listing<T, S>>,
                                  fewer: seq<Snapshot<T>>, left: map<nat, S>)
    requires StoreOk(snapshots, syncs, listings) && Distinct(fewer) && forall s :: s in fewer ==> s in snapshots
    requires left.Keys == syncs.Keys * Ids(fewer) && forall id :: id in left ==> left[id] == syncs[id]
    ensures StoreOk(fewer, left, listings)
  {
    forall s | s in fewer ensures s.id in listings && listings[s.id] == Listing(s.key, s.rows, SyncOf(left, s.id)) {
      assert s.id in Ids(fewer);
    }
  }

  lemma OneMoreOk<T(!new), S(!new)>(snapshots: seq<Snapshot<T>>, syncs: map<nat, S>, listings: map<nat, Listing<T, S>>,
                                    id: nat, listing: Listing<T, S>, s: Snapshot<T>)
    requires StoreOk(snapshots, syncs, listings) && id !in listings && s.id == id && s.key == listing.key && s.rows == listing.rows
    ensures StoreOk(snapshots + [s], if listing.sync.Some? then syncs[id := listing.sync.value] else syncs, listings[id := listing])
  {
    var more := snapshots + [s];
    assert id !in Ids(snapshots);
    assert Ids(more) == Ids(snapshots) + {id} by {
      assert more[|snapshots|] == s;
      assert forall i :: 0 <= i < |snapshots| ==> more[i] == snapshots[i];
    }
    assert forall r :: r in more ==> r == s || r in snapshots;
    assert forall r :: r in snapshots ==> r.id != id;
  }

  // ----- The table of snapshots, as a value -----

  datatype Table<T> = Table(snapshots: seq<Snapshot<T>>, nextId: nat)

  /** A request of the session: a first page, or a later one. */
  datatype Call<T, S> =
    | FirstCall(listing: Listing<T, S>, bytes: nat, limit: Option<nat>, at: int)
    | NextCall(key: nat, cursor: Cursor, step: nat, at: int)

  predicate TooLarge<T, S>(listing: Listing<T, S>, bytes: nat) {
    bytes > MAX_SNAPSHOT_BYTES || |listing.rows| > MAX_ROWS
  }

  /** The request leaves a snapshot behind. */
  predicate Takes<T, S>(call: Call<T, S>) {
    call.FirstCall? && !TooLarge(call.listing, call.bytes) && call.limit.Some? && |call.listing.rows| > call.limit.value
  }

  /** The oldest go until a new one fits. */
  function Evicted<T(!new)>(snapshots: seq<Snapshot<T>>, bytes: nat): seq<Snapshot<T>> {
    if snapshots != [] && (|snapshots| >= MAX_SNAPSHOTS || Total(snapshots) + bytes > MAX_TOTAL_BYTES)
    then Evicted(snapshots[1..], bytes) else snapshots
  }

  /** Only the oldest are dropped. */
  lemma {:induction false} EvictedIsEnd<T(!new)>(snapshots: seq<Snapshot<T>>, bytes: nat) returns (n: nat)
    ensures n <= |snapshots| && Evicted(snapshots, bytes) == snapshots[n..]
  {
    n := 0;
    if Evicted(snapshots, bytes) != snapshots {
      var k := EvictedIsEnd(snapshots[1..], bytes);
      n := k + 1;
    }
  }

  function Called<T(!new), S(!new)>(t: Table<T>, call: Call<T, S>): Table<T> {
    var live := Live(t.snapshots, call.at);
    if Takes(call) then
      var s := Snapshot(t.nextId, call.listing.key, call.listing.rows, call.at + TTL_MS, call.bytes);
      Table(Evicted(live, call.bytes) + [s], t.nextId + 1)
    else Table(live, if call.FirstCall? && !TooLarge(call.listing, call.bytes) then t.nextId + 1 else t.nextId)
  }

  function CalledAll<T(!new), S(!new)>(t: Table<T>, calls: seq<Call<T, S>>): Table<T>
    decreases |calls|
  {
    if calls == [] then t else CalledAll(Called(t, calls[0]), calls[1..])
  }

  /** A snapshot is there, and not expired. */
  ghost predicate Held<T(!new)>(t: Table<T>, id: nat, now: int) {
    exists s :: s in t.snapshots && s.id == id && s.expiresAt > now
  }

  /** A walk's request for a later page: what the session served before it, its limit and its time. */
  datatype Turn<T, S> = Turn(before: seq<Call<T, S>>, limit: nat, at: int)

  /** The table after n of the walk's requests. */
  function AfterTurns<T(!new), S(!new)>(t: Table<T>, turns: seq<Turn<T, S>>, n: nat): Table<T>
    requires n <= |turns|
    decreases n, 0
  {
    if n == 0 then t else Called(TableAt(t, turns, n - 1), Later(turns[n - 1]))
  }

  /** The table as the walk's n-th request finds it. */
  function TableAt<T(!new), S(!new)>(t: Table<T>, turns: seq<Turn<T, S>>, n: nat): Table<T>
    requires n < |turns|
    decreases n, 1
  {
    CalledAll(AfterTurns(t, turns, n), turns[n].before)
  }

  /** The request itself, whose cursor does not matter to the table. */
  function Later<T, S>(turn: Turn<T, S>): Call<T, S> {
    NextCall(0, Cursor(0, 0), turn.limit, turn.at)
  }

  // ----- How long a snapshot stays -----

  lemma {:induction false} LiveSplits<T(!new)>(a: seq<Snapshot<T>>, b: seq<Snapshot<T>>, now: int)
    ensures Live(a + b, now) == Live(a, now) + Live(b, now)
  {
    if a == [] {
      assert a + b == b;
    } else {
      LiveSplits(a[1..], b, now);
      assert (a + b)[1..] == a[1..] + b && (a + b)[0] == a[0];
      assert [a[0]] + Live(a[1..], now) + Live(b, now) == [a[0]] + (Live(a[1..], now) + Live(b, now));
    }
  }

  lemma {:induction false} TotalSplits<T(!new)>(a: seq<Snapshot<T>>, b: seq<Snapshot<T>>)
    ensures Total(a + b) == Total(a) + Total(b)
  {
    if a == [] {
      assert a + b == b;
    } else {
      TotalSplits(a[1..], b);
      assert (a + b)[1..] == a[1..] + b;
    }
  }

  /** The snapshot s with what was taken after it: at most `count` more, of at most `bytes` together. */
  ghost predicate Within<T(!new)>(snapshots: seq<Snapshot<T>>, s: Snapshot<T>, count: nat, bytes: nat) {
    exists i :: WithinAt(snapshots, i, s, count, bytes)
  }

  ghost predicate WithinAt<T(!new)>(snapshots: seq<Snapshot<T>>, i: int, s: Snapshot<T>, count: nat, bytes: nat) {
    0 <= i < |snapshots| && snapshots[i] == s && |snapshots| - i - 1 <= count && Total(snapshots[i + 1..]) <= bytes
  }

  /** Eviction spares s as long as it fits beside what was taken after it and what is taken now. */
  lemma {:induction false} EvictionSpares<T(!new)>(older: seq<Snapshot<T>>, s: Snapshot<T>, newer: seq<Snapshot<T>>, bytes: nat)
    returns (left: seq<Snapshot<T>>)
    requires |newer| + 1 < MAX_SNAPSHOTS && s.bytes + Total(newer) + bytes <= MAX_TOTAL_BYTES
    ensures Evicted(older + [s] + newer, bytes) == left + [s] + newer
  {
    var all := older + [s] + newer;
    if older == [] {
      assert all[1..] == newer && all == [s] + newer;
      left := [];
    } else if |all| >= MAX_SNAPSHOTS || Total(all) + bytes > MAX_TOTAL_BYTES {
      assert all[1..] == older[1..] + [s] + newer;
      left := EvictionSpares(older[1..], s, newer, bytes);
    } else {
      left := older;
    }
  }

  function Taken<T, S>(calls: seq<Call<T, S>>): (nat, nat) {
    if calls == [] then (0, 0)
    else
      var rest := Taken(calls[1..]);
      if Takes(calls[0]) then (rest.0 + 1, rest.1 + calls[0].bytes) else rest
  }

  /** What is live around s, before its time. */
  lemma LiveAround<T(!new)>(snapshots: seq<Snapshot<T>>, i: nat, now: int)
    requires i < |snapshots| && now < snapshots[i].expiresAt
    ensures Live(snapshots, now) == Live(snapshots[..i], now) + [snapshots[i]] + Live(snapshots[i + 1..], now)
    ensures var newer := Live(snapshots[i + 1..], now);
      |newer| <= |snapshots| - i - 1 && Total(newer) <= Total(snapshots[i + 1..])
  {
    assert snapshots == snapshots[..i] + snapshots[i..] && snapshots[i..][1..] == snapshots[i + 1..];
    LiveSplits(snapshots[..i], snapshots[i..], now);
    LiveAreLeft(snapshots[i + 1..], now);
  }

  /** One more request before the snapshot expires. */
  lemma CallSpares<T(!new), S(!new)>(t: Table<T>, call: Call<T, S>, s: Snapshot<T>, count: nat, bytes: nat)
    requires Within(t.snapshots, s, count, bytes) && call.at < s.expiresAt
    requires Takes(call) ==> count + 1 < MAX_SNAPSHOTS && s.bytes + bytes + call.bytes <= MAX_TOTAL_BYTES
    ensures Within(Called(t, call).snapshots, s, if Takes(call) then count + 1 else count, if Takes(call) then bytes + call.bytes else bytes)
  {
    var i :| WithinAt(t.snapshots, i, s, count, bytes);
    LiveAround(t.snapshots, i, call.at);
    var older, newer := Live(t.snapshots[..i], call.at), Live(t.snapshots[i + 1..], call.at);
    if Takes(call) {
      TakeSpares(older, s, newer, Snapshot(t.nextId, call.listing.key, call.listing.rows, call.at + TTL_MS, call.bytes));
      WithinMore(Called(t, call).snapshots, s, |newer| + 1, Total(newer) + call.bytes, count + 1, bytes + call.bytes);
    } else {
      SitsAt(older, s, newer);
      WithinMore(Called(t, call).snapshots, s, |newer|, Total(newer), count, bytes);
    }
  }

  lemma TakeSpares<T(!new)>(older: seq<Snapshot<T>>, s: Snapshot<T>, newer: seq<Snapshot<T>>, taken: Snapshot<T>)
    requires |newer| + 1 < MAX_SNAPSHOTS && s.bytes + Total(newer) + taken.bytes <= MAX_TOTAL_BYTES
    ensures Within(Evicted(older + [s] + newer, taken.bytes) + [taken], s, |newer| + 1, Total(newer) + taken.bytes)
  {
    var left := EvictionSpares(older, s, newer, taken.bytes);
    SitsBefore(left, s, newer, taken);
  }

  lemma SitsBefore<T(!new)>(older: seq<Snapshot<T>>, s: Snapshot<T>, newer: seq<Snapshot<T>>, taken: Snapshot<T>)
    ensures Within(older + [s] + newer + [taken], s, |newer| + 1, Total(newer) + taken.bytes)
  {
    var all := older + [s] + newer + [taken];
    TotalAppends(newer, taken);
    assert all[|older|] == s && all[|older| + 1..] == newer + [taken];
    assert WithinAt(all, |older|, s, |newer| + 1, Total(newer) + taken.bytes);
  }

  lemma WithinMore<T(!new)>(snapshots: seq<Snapshot<T>>, s: Snapshot<T>, count: nat, bytes: nat, more: nat, moreBytes: nat)
    requires Within(snapshots, s, count, bytes) && count <= more && bytes <= moreBytes
    ensures Within(snapshots, s, more, moreBytes)
  {
    var i :| WithinAt(snapshots, i, s, count, bytes);
    assert WithinAt(snapshots, i, s, more, moreBytes);
  }

  lemma SitsAt<T(!new)>(older: seq<Snapshot<T>>, s: Snapshot<T>, newer: seq<Snapshot<T>>)
    ensures Within(older + [s] + newer, s, |newer|, Total(newer))
  {
    var all := older + [s] + newer;
    assert all[|older|] == s && all[|older| + 1..] == newer;
    assert WithinAt(all, |older|, s, |newer|, Total(newer));
  }

  lemma {:induction false} CallsSpare<T(!new), S(!new)>(t: Table<T>, calls: seq<Call<T, S>>, s: Snapshot<T>, count: nat, bytes: nat)
    requires Within(t.snapshots, s, count, bytes) && forall c :: c in calls ==> c.at < s.expiresAt
    requires count + Taken(calls).0 < MAX_SNAPSHOTS && s.bytes + bytes + Taken(calls).1 <= MAX_TOTAL_BYTES
    ensures Within(CalledAll(t, calls).snapshots, s, count + Taken(calls).0, bytes + Taken(calls).1)
    decreases |calls|
  {
    if calls != [] {
      CallSpares(t, calls[0], s, count, bytes);
      CallsSpare(Called(t, calls[0]), calls[1..], s, if Takes(calls[0]) then count + 1 else count,
                 if Takes(calls[0]) then bytes + calls[0].bytes else bytes);
    }
  }

  /** What was taken before the walk's n-th request. */
  function TakenBy<T, S>(turns: seq<Turn<T, S>>, n: nat): (nat, nat)
    requires n <= |turns|
  {
    if n == 0 then (0, 0)
    else (TakenBy(turns, n - 1).0 + Taken(turns[n - 1].before).0, TakenBy(turns, n - 1).1 + Taken(turns[n - 1].before).1)
  }

  lemma {:induction false} TakenGrows<T, S>(turns: seq<Turn<T, S>>, m: nat, n: nat)
    requires m <= n <= |turns|
    ensures TakenBy(turns, m).0 <= TakenBy(turns, n).0 && TakenBy(turns, m).1 <= TakenBy(turns, n).1
  {
    if m < n { TakenGrows(turns, m, n - 1); }
  }

  /** Within five minutes of the first page, with fewer than four further listings kept, which fit the
      byte budget together with the first. */
  ghost predicate Gentle<T(!new), S(!new)>(bytes: nat, start: int, turns: seq<Turn<T, S>>) {
    && (forall turn :: turn in turns ==> turn.at < start + TTL_MS && forall c :: c in turn.before ==> c.at < start + TTL_MS)
    && TakenBy(turns, |turns|).0 < MAX_SNAPSHOTS && bytes + TakenBy(turns, |turns|).1 <= MAX_TOTAL_BYTES
  }

  /** Then every request of the walk finds its snapshot. */
  lemma {:induction false} GentleHolds<T(!new), S(!new)>(t: Table<T>, s: Snapshot<T>, turns: seq<Turn<T, S>>, n: nat)
    requires t.snapshots != [] && t.snapshots[|t.snapshots| - 1] == s && n < |turns| && Gentle(s.bytes, s.expiresAt - TTL_MS, turns)
    ensures Within(TableAt(t, turns, n).snapshots, s, TakenBy(turns, n + 1).0, TakenBy(turns, n + 1).1)
    ensures Held(TableAt(t, turns, n), s.id, turns[n].at)
    decreases n
  {
    if n == 0 {
      assert t.snapshots == t.snapshots[..|t.snapshots| - 1] + [s] + [];
      SitsAt(t.snapshots[..|t.snapshots| - 1], s, []);
    } else {
      GentleHolds(t, s, turns, n - 1);
      assert turns[n - 1] in turns;
      CallSpares(TableAt(t, turns, n - 1), Later(turns[n - 1]), s, TakenBy(turns, n).0, TakenBy(turns, n).1);
    }
    TurnSpares(AfterTurns(t, turns, n), s, turns, n);
  }

  lemma TurnSpares<T(!new), S(!new)>(t: Table<T>, s: Snapshot<T>, turns: seq<Turn<T, S>>, n: nat)
    requires n < |turns| && Gentle(s.bytes, s.expiresAt - TTL_MS, turns)
    requires Within(t.snapshots, s, TakenBy(turns, n).0, TakenBy(turns, n).1)
    ensures Within(CalledAll(t, turns[n].before).snapshots, s, TakenBy(turns, n + 1).0, TakenBy(turns, n + 1).1)
    ensures Held(CalledAll(t, turns[n].before), s.id, turns[n].at)
  {
    TakenGrows(turns, n + 1, |turns|);
    assert turns[n] in turns;
    CallsSpare(t, turns[n].before, s, TakenBy(turns, n).0, TakenBy(turns, n).1);
    assert s in CalledAll(t, turns[n].before).snapshots;
  }

  class Pages<T(!new), S(!new)> {
    var snapshots: seq<Snapshot<T>>
    var syncs: map<nat, S>
    var nextId: nat
    ghost var listings: map<nat, Listing<T, S>>   // everything ever listed, by id

    /** Few snapshots, within the byte budget, each with its own sync. */
    ghost predicate Valid()
      reads this
    {
      && |snapshots| <= MAX_SNAPSHOTS && Total(snapshots) <= MAX_TOTAL_BYTES
      && StoreOk(snapshots, syncs, listings)
      && (forall id :: id in listings ==> id < nextId)
    }

    function Rows(): Table<T>
      reads this
    {
      Table(snapshots, nextId)
    }

    constructor ()
      ensures Valid() && snapshots == [] && listings == map[]
    {
      snapshots, syncs, nextId, listings := [], map[], 0, map[];
    }

    /** Expired snapshots go, and their syncs with them. */
    method Expire(now: int)
      requires Valid()
      modifies this`snapshots, this`syncs
      ensures Valid() && snapshots == Live(old(snapshots), now)
    {
      LiveAreLeft(snapshots, now);
      var live := Live(snapshots, now);
      var left := map id | id in syncs && id in Ids(live) :: syncs[id];
      FewerOk(snapshots, syncs, listings, live, left);
      snapshots, syncs := live, left;
    }

    method DropOldest()
      requires Valid() && snapshots != []
      modifies this`snapshots, this`syncs
      ensures Valid() && snapshots == old(snapshots)[1..]
    {
      RestIds(snapshots);
      FewerOk(snapshots, syncs, listings, snapshots[1..], syncs - {snapshots[0].id});
      snapshots, syncs := snapshots[1..], syncs - {snapshots[0].id};
    }

    /** The oldest snapshots go until a new one of `bytes` fits. */
    method Evict(bytes: nat)
      requires Valid() && bytes <= MAX_SNAPSHOT_BYTES
      modifies this`snapshots, this`syncs
      ensures Valid() && |snapshots| < MAX_SNAPSHOTS && Total(snapshots) + bytes <= MAX_TOTAL_BYTES
      ensures snapshots == Evicted(old(snapshots), bytes)
    {
      ghost var before := snapshots;
      while |snapshots| >= MAX_SNAPSHOTS || Total(snapshots) + bytes > MAX_TOTAL_BYTES
        invariant Valid() && Evicted(snapshots, bytes) == Evicted(before, bytes)
        decreases |snapshots|
      {
        DropOldest();
      }
    }

    /** A first page: the listing is kept only when it does not fit the page. None when it is too large. */
    method First(listing: Listing<T, S>, bytes: nat, limit: Option<nat>, now: int) returns (page: Option<Page<T, S>>, id: nat)
      requires Valid()
      modifies this
      ensures Valid() && (page.None? <==> bytes > MAX_SNAPSHOT_BYTES || |listing.rows| > MAX_ROWS)
      ensures page.Some? ==> page.value == PageOf(listing, id, 0, if limit.Some? then limit.value else |listing.rows|)
      ensures page.Some? ==> id == old(nextId)
      ensures listings == if page.Some? && page.value.next.Some? then old(listings)[id := listing] else old(listings)
      ensures Rows() == Called(old(Rows()), FirstCall(listing, bytes, limit, now))
    {
      Expire(now);
      if bytes > MAX_SNAPSHOT_BYTES || |listing.rows| > MAX_ROWS { return None, 0; }
      id := nextId;
      nextId := nextId + 1;
      if limit.Some? && |listing.rows| > limit.value {
        Evict(bytes);
        Keep(id, listing, bytes, now);
      }
      page := Some(PageOf(listing, id, 0, if limit.Some? then limit.value else |listing.rows|));
    }

    method Keep(id: nat, listing: Listing<T, S>, bytes: nat, now: int)
      requires Valid() && |snapshots| < MAX_SNAPSHOTS && Total(snapshots) + bytes <= MAX_TOTAL_BYTES
      requires id < nextId && id !in listings
      modifies this`snapshots, this`syncs, this`listings
      ensures Valid() && listings == old(listings)[id := listing]
      ensures snapshots == old(snapshots) + [Snapshot(id, listing.key, listing.rows, now + TTL_MS, bytes)]
    {
      var s := Snapshot(id, listing.key, listing.rows, now + TTL_MS, bytes);
      TotalAppends(snapshots, s);
      OneMoreOk(snapshots, syncs, listings, id, listing, s);
      snapshots := snapshots + [s];
      if listing.sync.Some? { syncs := syncs[id := listing.sync.value]; }
      listings := listings[id := listing];
    }

    /** The snapshot of a token, by its place. */
    method Find(token: nat) returns (i: nat)
      ensures i <= |snapshots| && (i < |snapshots| ==> snapshots[i].id == token)
      ensures i == |snapshots| ==> forall s :: s in snapshots ==> s.id != token
    {
      i := 0;
      while i < |snapshots| && snapshots[i].id != token
        invariant i <= |snapshots| && forall k :: 0 <= k < i ==> snapshots[k].id != token
      {
        i := i + 1;
      }
    }

    /** A later page: the cursor's snapshot must be there, of the same listing key, and reach so far. */
    method Next(key: nat, cursor: Cursor, limit: nat, now: int) returns (page: Option<Page<T, S>>)
      requires Valid()
      modifies this`snapshots, this`syncs
      ensures Valid() && Rows() == Called(old(Rows()), Call<T, S>.NextCall(key, cursor, limit, now))
      ensures page.Some? <==> exists s :: s in snapshots && s.id == cursor.token && s.key == key && cursor.offset < |s.rows|
      ensures page.Some? ==> cursor.token in listings && cursor.offset <= |listings[cursor.token].rows| &&
                             page.value == PageOf(listings[cursor.token], cursor.token, cursor.offset, limit)
    {
      Expire(now);
      var i := Find(cursor.token);
      if i == |snapshots| { return None; }
      var s := snapshots[i];
      if s.key != key || cursor.offset >= |s.rows| {
        SameSnapshot(snapshots, s);
        return None;
      }
      assert s in snapshots;
      page := Some(PageOf(Listing(key, s.rows, SyncOf(syncs, s.id)), cursor.token, cursor.offset, limit));
    }
  }

  lemma SameSnapshot<T(!new)>(snapshots: seq<Snapshot<T>>, s: Snapshot<T>)
    requires Distinct(snapshots) && s in snapshots
    ensures forall r :: r in snapshots && r.id == s.id ==> r == s
  {
  }

  lemma RestIds<T(!new)>(snapshots: seq<Snapshot<T>>)
    requires Distinct(snapshots) && snapshots != []
    ensures Ids(snapshots) == Ids(snapshots[1..]) + {snapshots[0].id} && snapshots[0].id !in Ids(snapshots[1..])
    ensures forall s :: s in snapshots[1..] ==> s in snapshots
  {
    var rest := snapshots[1..];
    assert forall i :: 0 < i < |snapshots| ==> snapshots[i] == rest[i - 1];
  }

  /** A page was taken from row `start` on; what the client knows then. */
  ghost predicate Walked<T(!new), S(!new)>(pages: Pages<T, S>, listing: Listing<T, S>, id: nat, current: Page<T, S>, done: nat)
    reads pages
  {
    && done <= |listing.rows| && current.sync == listing.sync
    && (current.next.None? ==> done == |listing.rows|)
    && (current.next.Some? ==>
          current.next == Some(Cursor(id, done)) && done < |listing.rows| && id in pages.listings && pages.listings[id] == listing)
  }

  ghost predicate AllThe<S(!new)>(syncs: seq<Option<S>>, sync: Option<S>) {
    forall i :: 0 <= i < |syncs| ==> syncs[i] == sync
  }

  /** One request of the session. */
  method Serve<T(!new), S(!new)>(pages: Pages<T, S>, call: Call<T, S>)
    requires pages.Valid()
    modifies pages
    ensures pages.Valid() && pages.Rows() == Called(old(pages.Rows()), call)
    ensures forall k :: k in old(pages.listings) ==> k in pages.listings && pages.listings[k] == old(pages.listings)[k]
  {
    match call
    case FirstCall(listing, bytes, limit, at) => var _, _ := pages.First(listing, bytes, limit, at);
    case NextCall(key, cursor, step, at) => var _ := pages.Next(key, cursor, step, at);
  }

  method ServeAll<T(!new), S(!new)>(pages: Pages<T, S>, calls: seq<Call<T, S>>)
    requires pages.Valid()
    modifies pages
    ensures pages.Valid() && pages.Rows() == CalledAll(old(pages.Rows()), calls)
    ensures forall k :: k in old(pages.listings) ==> k in pages.listings && pages.listings[k] == old(pages.listings)[k]
  {
    assert calls[0..] == calls;
    for n := 0 to |calls|
      invariant pages.Valid() && CalledAll(pages.Rows(), calls[n..]) == CalledAll(old(pages.Rows()), calls)
      invariant forall k :: k in old(pages.listings) ==> k in pages.listings && pages.listings[k] == old(pages.listings)[k]
    {
      assert calls[n..][1..] == calls[n + 1..];
      Serve(pages, calls[n]);
    }
  }

  /** The walk's next request: served exactly if its snapshot is held. */
  method FollowOne<T(!new), S(!new)>(pages: Pages<T, S>, listing: Listing<T, S>, id: nat, cursor: Cursor, turn: Turn<T, S>, ghost done: nat)
    returns (page: Option<Page<T, S>>, ghost end: nat)
    requires pages.Valid() && turn.limit > 0 && cursor == Cursor(id, done) && done < |listing.rows|
    requires id in pages.listings && pages.listings[id] == listing
    modifies pages
    ensures pages.Valid() && pages.Rows() == Called(CalledAll(old(pages.Rows()), turn.before), Later(turn))
    ensures page.Some? <==> Held(CalledAll(old(pages.Rows()), turn.before), id, turn.at)
    ensures page.Some? ==> done < end && Walked(pages, listing, id, page.value, end) && page.value.entries == listing.rows[done..end]
  {
    ServeAll(pages, turn.before);
    HeldIsServed(pages.Rows(), pages.syncs, pages.listings, id, listing, turn.at);
    page := pages.Next(listing.key, cursor, turn.limit, turn.at);
    end := if done + turn.limit < |listing.rows| then done + turn.limit else |listing.rows|;
  }

  /** A held snapshot of the listing answers the request; another would not have its id. */
  lemma HeldIsServed<T(!new), S(!new)>(found: Table<T>, syncs: map<nat, S>, listings: map<nat, Listing<T, S>>, id: nat, listing: Listing<T, S>, now: int)
    requires StoreOk(found.snapshots, syncs, listings) && id in listings && listings[id] == listing
    ensures Held(found, id, now) <==> exists s :: s in Live(found.snapshots, now) && s.id == id
    ensures forall s :: s in Live(found.snapshots, now) && s.id == id ==> s.key == listing.key && s.rows == listing.rows
  {
    LiveAreLeft(found.snapshots, now);
  }

  /** A client follows nextCursor from the first page on, at any positive limits and times, while the
      session serves anything else in between. What it gets are the rows from the first on, in order and
      none twice, with the listing's sync on every page. A request is refused exactly when the snapshot
      is no longer held; as long as none is, the client gets all rows within as many requests as there
      are rows. Within the five minutes, and with fewer than four other listings kept that fit the byte
      budget, none is. */
  method Follow<T(!new), S(!new)>(pages: Pages<T, S>, listing: Listing<T, S>, bytes: nat, limit: nat, now: int, turns: seq<Turn<T, S>>)
    returns (rows: seq<T>, syncs: seq<Option<S>>, requests: nat, refused: bool, ghost id: nat)
    requires pages.Valid() && bytes <= MAX_SNAPSHOT_BYTES && |listing.rows| <= MAX_ROWS
    requires limit > 0 && forall turn :: turn in turns ==> turn.limit > 0
    modifies pages
    ensures pages.Valid() && rows <= listing.rows && requests <= |turns| && id == old(pages.nextId)
    ensures AllThe(syncs, listing.sync)
    ensures |syncs| == if refused then requests else requests + 1
    ensures var start := Called(old(pages.Rows()), FirstCall(listing, bytes, Some(limit), now));
      refused <==> !HeldThrough(start, turns, requests, id)
    ensures !refused && |turns| >= |listing.rows| ==> rows == listing.rows
    ensures Gentle(bytes, now, turns) ==> !refused
  {
    var page, token := pages.First(listing, bytes, Some(limit), now);
    id := token;
    ghost var done: nat := if page.value.next.Some? then limit else |listing.rows|;
    assert page.value.entries == listing.rows[..done];
    ghost var start := pages.Rows();
    rows, syncs, requests, refused := FollowFrom(pages, listing, token, page.value, turns, done);
    if Gentle(bytes, now, turns) && page.value.next.Some? {
      ghost var s := Snapshot(token, listing.key, listing.rows, now + TTL_MS, bytes);
      assert start.snapshots[|start.snapshots| - 1] == s;
      GentleHoldsThrough(start, s, turns, requests);
    }
  }

  /** The first n requests found the snapshot. */
  ghost predicate HeldThrough<T(!new), S(!new)>(t: Table<T>, turns: seq<Turn<T, S>>, n: nat, id: nat)
    requires n <= |turns|
  {
    n == 0 || (HeldThrough(t, turns, n - 1, id) && Held(TableAt(t, turns, n - 1), id, turns[n - 1].at))
  }

  lemma {:induction false} GentleHoldsThrough<T(!new), S(!new)>(t: Table<T>, s: Snapshot<T>, turns: seq<Turn<T, S>>, n: nat)
    requires t.snapshots != [] && t.snapshots[|t.snapshots| - 1] == s && n <= |turns| && Gentle(s.bytes, s.expiresAt - TTL_MS, turns)
    ensures HeldThrough(t, turns, n, s.id)
  {
    if n > 0 {
      GentleHoldsThrough(t, s, turns, n - 1);
      GentleHolds(t, s, turns, n - 1);
    }
  }

  /** The n-th request, all before it having been served. */
  method FollowTurn<T(!new), S(!new)>(pages: Pages<T, S>, listing: Listing<T, S>, id: nat, cursor: Cursor, turns: seq<Turn<T, S>>, n: nat,
                                      ghost table: Table<T>, ghost done: nat)
    returns (page: Option<Page<T, S>>, ghost end: nat)
    requires pages.Valid() && n < |turns| && turns[n].limit > 0 && cursor == Cursor(id, done) && done < |listing.rows|
    requires id in pages.listings && pages.listings[id] == listing && pages.Rows() == AfterTurns(table, turns, n)
    requires HeldThrough(table, turns, n, id)
    modifies pages
    ensures pages.Valid() && pages.Rows() == AfterTurns(table, turns, n + 1)
    ensures page.Some? <==> HeldThrough(table, turns, n + 1, id)
    ensures page.Some? ==> done < end && Walked(pages, listing, id, page.value, end) && page.value.entries == listing.rows[done..end]
  {
    page, end := FollowOne(pages, listing, id, cursor, turns[n], done);
  }

  method FollowFrom<T(!new), S(!new)>(pages: Pages<T, S>, listing: Listing<T, S>, id: nat, first: Page<T, S>, turns: seq<Turn<T, S>>,
                                      ghost start: nat)
    returns (rows: seq<T>, syncs: seq<Option<S>>, requests: nat, refused: bool)
    requires pages.Valid() && Walked(pages, listing, id, first, start) && first.entries == listing.rows[..start]
    requires (start > 0 || first.next.None?) && forall turn :: turn in turns ==> turn.limit > 0
    modifies pages
    ensures pages.Valid() && rows <= listing.rows && requests <= |turns|
    ensures AllThe(syncs, listing.sync)
    ensures |syncs| == if refused then requests else requests + 1
    ensures refused <==> !HeldThrough(old(pages.Rows()), turns, requests, id)
    ensures !refused && |turns| >= |listing.rows| ==> rows == listing.rows
    ensures first.next.None? ==> requests == 0
  {
    var current := first;
    ghost var done: nat, table := start, pages.Rows();
    rows, syncs, requests, refused := first.entries, [first.sync], 0, false;
    while current.next.Some? && requests < |turns| && !refused
      invariant pages.Valid() && done <= |listing.rows| && rows == listing.rows[..done]
      invariant !refused ==> Walked(pages, listing, id, current, done)
      invariant requests <= |turns| && |syncs| == (if refused then requests else requests + 1) && AllThe(syncs, listing.sync)
      invariant !refused ==> (current.next.None? || done > requests) && pages.Rows() == AfterTurns(table, turns, requests)
      invariant refused <==> !HeldThrough(table, turns, requests, id)
      invariant first.next.None? ==> requests == 0 && current == first
      decreases |turns| - requests
    {
      var after: Option<Page<T, S>>;
      ghost var end: nat;
      assert turns[requests] in turns;
      after, end := FollowTurn(pages, listing, id, current.next.value, turns, requests, table, done);
      requests := requests + 1;
      if after.None? {
        refused := true;
      } else {
        RowsJoin(listing.rows, done, end);
        current, rows, syncs, done := after.value, rows + after.value.entries, syncs + [after.value.sync], end;
      }
    }
  }

  lemma RowsJoin<T(!new)>(rows: seq<T>, i: nat, j: nat)
    requires i <= j <= |rows|
    ensures rows[..i] + rows[i..j] == rows[..j]
  {
  }
}
