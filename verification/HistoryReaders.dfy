/** The queue in front of retained-history reads: one reader per workspace at a time, four in all,
    even when a queued call is cancelled before those ahead of it have finished. */
module HistoryReaders {
  import opened VersionedStore

  const CAPACITY := 4

  datatype Phase = Queued | Reading | Ended

  /** A call, in order of arrival. `previous` is the call whose tail it waits for. */
  datatype Call = Call(uid: string, previous: Option<nat>, phase: Phase)

  /** The tail of a call: its own turn is released, and so is the tail it was chained to. */
  predicate Resolved(calls: seq<Call>, i: nat)
    requires i < |calls|
  {
    && calls[i].phase == Ended
    && (calls[i].previous.Some? ==> calls[i].previous.value < i && Resolved(calls, calls[i].previous.value))
  }

  /** The wait of a queued call is over: the tail ahead of it resolved. */
  predicate TurnCame(calls: seq<Call>, i: nat)
    requires i < |calls|
  {
    calls[i].previous.Some? ==> calls[i].previous.value < |calls| && Resolved(calls, calls[i].previous.value)
  }

  function Open(calls: seq<Call>): nat {
    if calls == [] then 0 else Open(calls[..|calls| - 1]) + if calls[|calls| - 1].phase == Ended then 0 else 1
  }

  /** Every call of the workspace before number n has ended. */
  predicate EarlierEnded(calls: seq<Call>, uid: string, n: nat) {
    forall k :: 0 <= k < |calls| && k < n && calls[k].uid == uid ==> calls[k].phase == Ended
  }

  predicate NoneBetween(calls: seq<Call>, uid: string, i: nat, j: nat) {
    forall k :: 0 <= k < |calls| && i < k < j ==> calls[k].uid != uid
  }

  predicate CallOk(calls: seq<Call>, i: nat)
    requires i < |calls|
  {
    var c := calls[i];
    && (c.previous.Some? ==> c.previous.value < i && calls[c.previous.value].uid == c.uid && NoneBetween(calls, c.uid, c.previous.value, i))
    && (c.previous.None? ==> EarlierEnded(calls, c.uid, i))
    && (c.phase == Reading ==> EarlierEnded(calls, c.uid, i))
  }

  predicate CallsOk(calls: seq<Call>) {
    forall i :: 0 <= i < |calls| ==> CallOk(calls, i)
  }

  predicate TailsOk(calls: seq<Call>, tails: map<string, nat>) {
    && (forall uid :: uid in tails ==>
          tails[uid] < |calls| && calls[tails[uid]].uid == uid && NoneBetween(calls, uid, tails[uid], |calls|))
    && (forall k :: 0 <= k < |calls| && calls[k].uid !in tails ==> calls[k].phase == Ended)
  }

  /** A resolved tail vouches for every call of the workspace up to it. */
  lemma {:induction false} ResolvedMeansEnded(calls: seq<Call>, i: nat)
    requires CallsOk(calls) && i < |calls| && Resolved(calls, i)
    ensures EarlierEnded(calls, calls[i].uid, i + 1)
  {
    assert CallOk(calls, i);
    if calls[i].previous.Some? { ResolvedMeansEnded(calls, calls[i].previous.value); }
  }

  lemma {:induction false} OpenMoves(calls: seq<Call>, i: nat, phase: Phase)
    requires i < |calls|
    ensures Open(calls[i := calls[i].(phase := phase)]) ==
            Open(calls) - (if calls[i].phase == Ended then 0 else 1) + if phase == Ended then 0 else 1
  {
    var moved := calls[i := calls[i].(phase := phase)];
    if i == |calls| - 1 {
      assert moved[..|calls| - 1] == calls[..|calls| - 1];
    } else {
      OpenMoves(calls[..|calls| - 1], i, phase);
      assert moved[..|calls| - 1] == calls[..|calls| - 1][i := calls[i].(phase := phase)];
    }
  }

  /** A new call behind the workspace's tail, or, when it has none, with nothing of it open. */
  lemma ArrivalOk(calls: seq<Call>, tails: map<string, nat>, uid: string)
    requires CallsOk(calls) && TailsOk(calls, tails)
    ensures var call := if uid in tails then Call(uid, Some(tails[uid]), Queued) else Call(uid, None, Reading);
      CallsOk(calls + [call]) && TailsOk(calls + [call], tails[uid := |calls|])
  {
    var call := if uid in tails then Call(uid, Some(tails[uid]), Queued) else Call(uid, None, Reading);
    var more := calls + [call];
    forall i | 0 <= i < |more| ensures CallOk(more, i) {
      if i < |calls| { assert CallOk(calls, i); }
    }
  }

  /** A call moves on; nothing it promised before is lost, if a read starts only with nothing open. */
  lemma MoveOk(calls: seq<Call>, tails: map<string, nat>, i: nat, phase: Phase)
    requires CallsOk(calls) && TailsOk(calls, tails) && i < |calls| && calls[i].phase != Ended
    requires phase == Ended || (phase == Reading && EarlierEnded(calls, calls[i].uid, i))
    ensures var moved := calls[i := calls[i].(phase := phase)]; CallsOk(moved) && TailsOk(moved, tails)
  {
    var moved := calls[i := calls[i].(phase := phase)];
    forall k | 0 <= k < |moved| ensures CallOk(moved, k) { assert CallOk(calls, k); }
  }

  // ----- What holds after every step -----

  /** A step of one call; one that is not due leaves all as it is. */
  datatype Op = Arrive(uid: string) | Wake(i: nat) | End(i: nat) | Settle(uid: string)

  datatype Moment = Moment(active: nat, tails: map<string, nat>, calls: seq<Call>)

  /** What a step does. */
  function After(m: Moment, op: Op): Moment {
    match op
    case Arrive(uid) =>
      if m.active >= CAPACITY then m
      else Moment(m.active + 1, m.tails[uid := |m.calls|],
                  m.calls + [if uid in m.tails then Call(uid, Some(m.tails[uid]), Queued) else Call(uid, None, Reading)])
    case Wake(i) =>
      if i < |m.calls| && m.calls[i].phase == Queued && TurnCame(m.calls, i) then m.(calls := m.calls[i := m.calls[i].(phase := Reading)]) else m
    case End(i) =>
      if i < |m.calls| && m.calls[i].phase != Ended && m.active > 0 then
        m.(active := m.active - 1, calls := m.calls[i := m.calls[i].(phase := Ended)])
      else m
    case Settle(uid) =>
      if uid in m.tails && m.tails[uid] < |m.calls| && Resolved(m.calls, m.tails[uid]) then m.(tails := m.tails - {uid}) else m
  }

  /** The calls that were admitted and have not ended. */
  function OpenOf(calls: seq<Call>): (open: set<nat>)
    ensures forall k :: k in open <==> 0 <= k < |calls| && calls[k].phase != Ended
  {
    set k: nat | k < |calls| && calls[k].phase != Ended
  }

  lemma {:induction false} OpenCounts(calls: seq<Call>)
    ensures Open(calls) == |OpenOf(calls)|
  {
    if calls == [] {
      assert OpenOf(calls) == {};
    } else {
      var last := |calls| - 1;
      OpenCounts(calls[..last]);
      assert OpenOf(calls) == OpenOf(calls[..last]) + if calls[last].phase == Ended then {} else {last};
    }
  }

  /** At most four calls are open, and they are what is counted; no two reads of one workspace overlap,
      and a read comes behind every earlier call of the workspace; and a queued call goes on exactly
      when those have ended, whatever was cancelled between. */
  ghost predicate Orderly(m: Moment) {
    && m.active == |OpenOf(m.calls)| <= CAPACITY
    && (forall i, j :: 0 <= i < j < |m.calls| && m.calls[i].uid == m.calls[j].uid ==>
          !(m.calls[i].phase == Reading && m.calls[j].phase == Reading))
    && (forall j :: 0 <= j < |m.calls| && m.calls[j].phase == Reading ==> EarlierEnded(m.calls, m.calls[j].uid, j))
    && (forall j :: 0 <= j < |m.calls| && m.calls[j].phase == Queued ==>
          (TurnCame(m.calls, j) <==> EarlierEnded(m.calls, m.calls[j].uid, j)))
  }

  /** The tail of a call whose workspace has nothing open up to it is resolved. */
  lemma {:induction false} EndedMeansResolved(calls: seq<Call>, i: nat)
    requires CallsOk(calls) && i < |calls| && EarlierEnded(calls, calls[i].uid, i + 1)
    ensures Resolved(calls, i)
  {
    assert CallOk(calls, i);
    if calls[i].previous.Some? { EndedMeansResolved(calls, calls[i].previous.value); }
  }

  lemma TurnCameIff(calls: seq<Call>, j: nat)
    requires CallsOk(calls) && j < |calls|
    ensures TurnCame(calls, j) <==> EarlierEnded(calls, calls[j].uid, j)
  {
    assert CallOk(calls, j);
    if calls[j].previous.Some? {
      var p := calls[j].previous.value;
      if Resolved(calls, p) { ResolvedMeansEnded(calls, p); }
      if EarlierEnded(calls, calls[j].uid, j) { EndedMeansResolved(calls, p); }
    }
  }

  lemma ValidIsOrderly(m: Moment)
    requires CallsOk(m.calls) && m.active == Open(m.calls) <= CAPACITY
    ensures Orderly(m)
  {
    OpenCounts(m.calls);
    forall j | 0 <= j < |m.calls|
      ensures m.calls[j].phase == Reading ==> EarlierEnded(m.calls, m.calls[j].uid, j)
      ensures TurnCame(m.calls, j) <==> EarlierEnded(m.calls, m.calls[j].uid, j)
    {
      assert CallOk(m.calls, j);
      TurnCameIff(m.calls, j);
    }
  }

  /** The reader slots of one gateway. Its methods are the points between a call's awaits; any number
      of calls take them in any order. */
  class Readers {
    var active: nat                // activeHistoryReaders
    var tails: map<string, nat>    // historyReaderTails
    var arrivals: nat              // names the next call's promise
    var calls: seq<Call>           // the promises of the calls, in the order of their arrival

    ghost predicate Valid()
      reads this
    {
      CallsOk(calls) && TailsOk(calls, tails) && active == Open(calls) <= CAPACITY && arrivals == |calls|
    }

    function Now(): Moment
      reads this
    {
      Moment(active, tails, calls)
    }

    constructor ()
      ensures Valid() && calls == [] && active == 0
    {
      active, tails, arrivals, calls := 0, map[], 0, [];
    }

    /** A call arrives: refused at capacity, else behind the workspace's tail or straight to its read. */
    method Arrive(uid: string) returns (admitted: bool, waits: bool)
      requires Valid()
      modifies this
      ensures Valid() && (admitted <==> old(active) < CAPACITY)
      ensures !admitted ==> Now() == old(Now())
      ensures admitted ==> active == old(active) + 1 && (waits <==> uid in old(tails)) && tails == old(tails)[uid := |old(calls)|]
      ensures admitted && waits ==> calls == old(calls) + [Call(uid, Some(old(tails)[uid]), Queued)]
      ensures admitted && !waits ==> calls == old(calls) + [Call(uid, None, Reading)]
    {
      if active >= CAPACITY { return false, false; }
      active := active + 1;
      admitted, waits := true, uid in tails;
      ArrivalOk(calls, tails, uid);
      ghost var before := calls;
      calls := calls + [if waits then Call(uid, Some(tails[uid]), Queued) else Call(uid, None, Reading)];
      assert calls[..|before|] == before;
      tails, arrivals := tails[uid := arrivals], arrivals + 1;
    }

    /** A queued call's wait is over: the tail ahead of it resolved. */
    method Wake(i: nat)
      requires Valid() && i < |calls| && calls[i].phase == Queued
      requires TurnCame(calls, i)
      modifies this`calls
      ensures Valid() && calls == old(calls)[i := old(calls)[i].(phase := Reading)]
    {
      assert CallOk(calls, i);
      if calls[i].previous.Some? { ResolvedMeansEnded(calls, calls[i].previous.value); }
      OpenMoves(calls, i, Reading);
      MoveOk(calls, tails, i, Reading);
      calls := calls[i := calls[i].(phase := Reading)];
    }

    /** The `finally` of a call, finished, failed or cancelled, whether or not it ever got its turn. */
    method End(i: nat)
      requires Valid() && i < |calls| && calls[i].phase != Ended
      modifies this`calls, this`active
      ensures Valid() && calls == old(calls)[i := old(calls)[i].(phase := Ended)] && active == old(active) - 1
    {
      OpenMoves(calls, i, Ended);
      MoveOk(calls, tails, i, Ended);
      calls := calls[i := calls[i].(phase := Ended)];
      active := active - 1;
    }

    /** A resolved tail that is still the workspace's last is forgotten. */
    method Settle(uid: string)
      requires Valid() && uid in tails && Resolved(calls, tails[uid])
      modifies this`tails
      ensures Valid() && tails == old(tails) - {uid}
    {
      ResolvedMeansEnded(calls, tails[uid]);
      tails := tails - {uid};
    }

    /** One step of one call, if it is due. */
    method Step(op: Op)
      requires Valid()
      modifies this
      ensures Valid() && Now() == After(old(Now()), op)
    {
      match op
      case Arrive(uid) => var _, _ := Arrive(uid);
      case Wake(i) => if i < |calls| && calls[i].phase == Queued && TurnCame(calls, i) { Wake(i); }
      case End(i) => if i < |calls| && calls[i].phase != Ended { End(i); }
      case Settle(uid) => if uid in tails && Resolved(calls, tails[uid]) { Settle(uid); }
    }

    /** Any number of calls, in any order of their steps: at the start and after every step at most four
        are open, which is what is counted, no two reads of one workspace overlap, and no call waits
        for nothing. */
    method Serve(ops: seq<Op>) returns (seen: seq<Moment>)
      requires Valid()
      modifies this
      ensures Valid() && |seen| == |ops| + 1
      ensures seen[0] == old(Now()) && seen[|ops|] == Now()
      ensures forall k :: 0 <= k < |ops| ==> seen[k + 1] == After(seen[k], ops[k])
      ensures forall k :: 0 <= k < |seen| ==> Orderly(seen[k])
    {
      seen := [Now()];
      ValidIsOrderly(Now());
      for n := 0 to |ops|
        invariant Valid() && |seen| == n + 1
        invariant seen[0] == old(Now()) && seen[n] == Now()
        invariant forall k :: 0 <= k < n ==> seen[k + 1] == After(seen[k], ops[k])
        invariant forall k :: 0 <= k < |seen| ==> Orderly(seen[k])
      {
        Step(ops[n]);
        seen := seen + [Now()];
        ValidIsOrderly(Now());
      }
    }
  }
}
