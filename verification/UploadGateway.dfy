/** Every session of a gateway over the one budget they share: whatever they do, in whatever order, the
    shared counter is exactly what they hold together, and within its limits. */
module UploadGateway {
  import opened VersionedStore
  import opened UploadFrames
  import opened UploadStaging

  function Sum(held: seq<int>): int {
    if held == [] then 0 else held[0] + Sum(held[1..])
  }

  lemma {:induction false} SumMoves(held: seq<int>, i: nat, value: int)
    requires i < |held|
    ensures Sum(held[i := value]) == Sum(held) - held[i] + value
  {
    if i > 0 {
      SumMoves(held[1..], i - 1, value);
      assert held[i := value][1..] == held[1..][i - 1 := value];
    } else {
      assert held[0 := value][1..] == held[1..];
    }
  }

  lemma {:induction false} SumAppends(held: seq<int>, value: int)
    ensures Sum(held + [value]) == Sum(held) + value
  {
    if held == [] { assert (held + [value])[1..] == []; }
    else {
      SumAppends(held[1..], value);
      assert (held + [value])[1..] == held[1..] + [value];
    }
  }

  lemma {:induction false} SumNonNegative(held: seq<int>)
    requires forall i :: 0 <= i < |held| ==> held[i] >= 0
    ensures Sum(held) >= 0
  {
    if held != [] { SumNonNegative(held[1..]); }
  }

  const NOTHING: set<Staged> := {}

  /** What the sessions may do between two awaits of a hand-over: clients connect, announce and send
      files, sweeps and disconnects clear them, and other hand-overs take and give back theirs. */
  datatype Op =
    | Connect
    | Announce(i: nat, request: Request, now: int)
    | Receive(i: nat, frame: Option<Frame>, now: int)
    | Sweep(i: nat, now: int, closes: bool)
    | TakeOut(i: nat, handle: Handle)
    | Return(i: nat, k: nat)

  /** An attachment that names a staged file, the request ID drawn for the daemon, and what everybody
      else does before and after its frames go out. */
  datatype Attachment = Attachment(handle: Handle, newId: string, before: seq<Op>, after: seq<Op>)

  /** The frames of the rows, for the attachments that name them, in order. */
  function FramesOfAll(attachments: seq<Attachment>, rows: seq<Staged>): seq<Frame>
    requires |rows| <= |attachments|
  {
    if rows == [] then []
    else
      var last := |rows| - 1;
      FramesOfAll(attachments, rows[..last]) + FramesOf(rows[last].file.(id := attachments[last].newId), rows[last].content)
  }

  /** The rows are those the attachments name, one after the other, each handed out now for the first
      time: before it was handed out `was`, afterwards `now`. */
  ghost predicate HandedOut(attachments: seq<Attachment>, rows: seq<Staged>, was: set<nat>, now: set<nat>) {
    if rows == [] then was <= now
    else
      var last := |rows| - 1;
      && last < |attachments| && HandleOf(rows[last]) == attachments[last].handle
      && rows[last].id in now && HandedOut(attachments, rows[..last], was, now - {rows[last].id})
  }

  /** So no file is handed out twice, nor one that was handed out before. */
  lemma {:induction false} HandedOutOnce(attachments: seq<Attachment>, rows: seq<Staged>, was: set<nat>, now: set<nat>)
    requires HandedOut(attachments, rows, was, now)
    ensures |rows| <= |attachments| && was <= now
    ensures forall n :: 0 <= n < |rows| ==> HandleOf(rows[n]) == attachments[n].handle
    ensures forall n :: 0 <= n < |rows| ==> rows[n].id !in was && rows[n].id in now
    ensures forall m, n :: 0 <= m < n < |rows| ==> rows[m].id != rows[n].id
  {
    if rows != [] { HandedOutOnce(attachments, rows[..|rows| - 1], was, now - {rows[|rows| - 1].id}); }
  }

  lemma {:induction false} HandedOutMore(attachments: seq<Attachment>, rows: seq<Staged>, was: set<nat>, now: set<nat>, earlier: set<nat>, later: set<nat>)
    requires HandedOut(attachments, rows, was, now) && earlier <= was && now <= later
    ensures HandedOut(attachments, rows, earlier, later)
  {
    if rows != [] {
      var id := rows[|rows| - 1].id;
      HandedOutMore(attachments, rows[..|rows| - 1], was, now - {id}, earlier, later - {id});
    }
  }

  /** And their frames went out in this order behind those sent before; then `rest`, of a file that was
      not sent to the end. */
  ghost predicate Delivered(attachments: seq<Attachment>, rows: seq<Staged>, prior: seq<Frame>, rest: seq<Frame>, frames: seq<Frame>)
    requires |rows| <= |attachments|
  {
    frames == prior + FramesOfAll(attachments, rows) + rest
  }

  lemma OneMoreOut(attachments: seq<Attachment>, rows: seq<Staged>, was: set<nat>, now: set<nat>, row: Staged, later: set<nat>)
    requires HandedOut(attachments, rows, was, now) && |rows| < |attachments| && now <= later
    requires HandleOf(row) == attachments[|rows|].handle && row.id !in now && row.id in later
    ensures HandedOut(attachments, rows + [row], was, later)
  {
    assert (rows + [row])[..|rows|] == rows;
    HandedOutMore(attachments, rows, was, now, was, later - {row.id});
  }

  lemma OneMoreDelivered(attachments: seq<Attachment>, rows: seq<Staged>, row: Staged, prior: seq<Frame>, frames: seq<Frame>)
    requires |rows| < |attachments| && Delivered(attachments, rows, prior, [], frames)
    ensures Delivered(attachments, rows + [row], prior, [], frames + FramesOf(row.file.(id := attachments[|rows|].newId), row.content))
  {
    assert (rows + [row])[..|rows|] == rows;
  }

  /** What a step leaves of session s: still in order, what the others hold is untouched, its transfers
      are its earlier ones or new, and its files in flight stay so but for those of `gone`. */
  twostate predicate Moved(s: Session, gone: set<Staged>)
    reads s, s.pending, s.budget
  {
    && s.Valid() && s.Others() == old(s.Others()) && s.budget.reservedBytes <= MAX_TOTAL
    && (forall t :: t in s.pending ==> t in old(s.pending) || (fresh(t) && fresh(t.buffer)))
    && old(s.consumed) <= s.consumed
    && (forall row :: row in old(s.inFlight) && row !in gone ==> row in s.inFlight)
  }

  twostate predicate SameRows(x: Session)
    reads x
  {
    && x.pending == old(x.pending) && x.staged == old(x.staged)
    && x.inFlight == old(x.inFlight) && x.consumed == old(x.consumed)
  }

  /** What each step does to its session, the contracts of `Session` in short. */
  twostate predicate Announces(s: Session, request: Request, now: int)
    reads s, s.pending, s.budget, set t | t in s.pending :: t.buffer
  {
    var pending, staged := LivePending(old(s.pending), now), LiveStaged(old(s.staged), now);
    var admitted := |s.pending| > |pending|;
    && s.staged == staged && s.inFlight == old(s.inFlight)
    && (admitted <==> Admissible(request, pending, staged, s.budget.reservedBytes - if admitted then request.size else 0))
    && if admitted then s.pending[..|s.pending| - 1] == pending && s.pending[|s.pending| - 1].request == request
       else s.pending == pending
  }

  twostate predicate Receives(s: Session, frame: Option<Frame>, now: int)
    reads s
  {
    var pending, staged := LivePending(old(s.pending), now), LiveStaged(old(s.staged), now);
    && s.inFlight == old(s.inFlight)
    && if s.staged == staged then s.pending == pending
       else frame.Some? && |s.staged| == |staged| + 1 && s.staged[..|staged|] == staged && |s.pending| == |pending| - 1
  }

  twostate predicate Sweeps(s: Session, now: int, closes: bool)
    reads s
  {
    && s.pending == (if closes then [] else LivePending(old(s.pending), now))
    && s.staged == (if closes then [] else LiveStaged(old(s.staged), now)) && s.inFlight == old(s.inFlight)
  }

  predicate Matches(rows: seq<Staged>, handle: Handle) {
    exists r :: r in rows && HandleOf(r) == handle
  }

  twostate predicate TakesOut(s: Session, handle: Handle)
    reads s
  {
    && s.pending == old(s.pending) && (forall r :: r in s.staged ==> r in old(s.staged))
    && if Matches(old(s.staged), handle) then handle.id in s.consumed && |s.inFlight| == |old(s.inFlight)| + 1 &&
                                                forall r :: r in old(s.staged) && r.id != handle.id ==> r in s.staged
       else s.staged == old(s.staged) && s.inFlight == old(s.inFlight)
  }

  twostate predicate GivesBack(s: Session, k: nat)
    reads s
  {
    && s.pending == old(s.pending) && s.staged == old(s.staged) && k < |old(s.inFlight)|
    && s.inFlight == old(s.inFlight)[..k] + old(s.inFlight)[k + 1..]
  }

  /** `binary`, among other sessions whose transfers are not those of `s`. */
  method TakeFrame(s: Session, frame: Option<Frame>, now: int, ghost others: set<Session>)
    requires s.Valid() && s.budget.reservedBytes <= MAX_TOTAL && s !in others && forall x :: x in others ==> x.Valid()
    requires forall x, t :: x in others && t in x.pending ==> t !in s.pending
    modifies s, s.budget, s.pending, set t | t in s.pending :: t.buffer
    ensures Moved(s, NOTHING) && Receives(s, frame, now)
    ensures forall x :: x in others ==> SameRows(x) && x.Valid()
  {
    var _, _ := s.Binary(frame, now);
    forall x | x in others ensures SameRows(x) && x.Valid() {
      assert old(x.Valid()) && unchanged(x);
      forall t | t in x.pending ensures t.Valid() { assert t !in old(s.pending); }
    }
  }

  method AdmitUpload(s: Session, request: Request, now: int)
    requires s.Valid() && s.budget.reservedBytes <= MAX_TOTAL
    modifies s`pending, s`staged, s.budget
    ensures Moved(s, NOTHING) && Announces(s, request, now)
  {
    var _ := s.Begin(request, now);
  }

  method SweepRows(s: Session, now: int, closes: bool)
    requires s.Valid() && s.budget.reservedBytes <= MAX_TOTAL
    modifies s`pending, s`staged, s.budget
    ensures Moved(s, NOTHING) && Sweeps(s, now, closes)
  {
    s.Expire(now);
    if closes { s.Clear(); }
  }

  method GiveBack(s: Session, k: nat)
    requires s.Valid() && s.budget.reservedBytes <= MAX_TOTAL && k < |s.inFlight|
    modifies s`inFlight, s.budget
    ensures Moved(s, {old(s.inFlight[k])}) && old(s.inFlight[k]) !in s.inFlight && GivesBack(s, k)
  {
    ghost var before := s.inFlight;
    OneLess(before, k);
    s.GiveBack(k);
    forall row | row in before && row != before[k] ensures row in s.inFlight {
      var n :| 0 <= n < |before| && before[n] == row;
      assert row.id != before[k].id;
    }
  }

  class Gateway {
    const budget: Budget
    var sessions: seq<Session>
    ghost var owner: map<Transfer, Session>   // of every pending transfer
    ghost var Repr: set<object>

    ghost function Held(): (held: seq<int>)
      reads this, sessions
      ensures |held| == |sessions| && forall i :: 0 <= i < |held| ==> held[i] == sessions[i].Held()
    {
      seq(|sessions|, i requires 0 <= i < |sessions| reads this, sessions => sessions[i].Held())
    }

    ghost predicate Distinct()
      reads this
    {
      forall i, j :: 0 <= i < j < |sessions| ==> sessions[i] != sessions[j]
    }

    /** The session is in order, and its transfers are its own. */
    ghost predicate SessionOk(s: Session)
      reads this, s, owner.Keys
    {
      s.budget == budget && (forall t :: t in s.pending ==> t in owner && owner[t] == s) && s.Valid()
    }

    ghost predicate AllOk()
      reads this, sessions, owner.Keys
    {
      forall s :: s in sessions ==> SessionOk(s)
    }

    /** The counter is what the sessions hold together. */
    ghost predicate Counted()
      reads this, budget, sessions
    {
      budget.reservedBytes == Sum(Held()) && budget.reservedBytes <= MAX_TOTAL
    }

    ghost predicate Footprint()
      reads this
    {
      && this !in Repr && budget in Repr && (forall s :: s in sessions ==> s in Repr)
      && (forall t :: t in owner ==> t in Repr && t.buffer in Repr)
    }

    ghost predicate Valid()
      reads this, Repr
    {
      Footprint() && Distinct() && AllOk() && Counted()
    }

    constructor ()
      ensures Valid() && sessions == [] && budget.reservedBytes == 0 && fresh(Repr)
    {
      budget := new Budget();
      sessions, owner, Repr := [], map[], {budget};
    }

    /** The counter stays within 0..64 MiB. */
    lemma ReservedInRange()
      requires Valid()
      ensures 0 <= budget.reservedBytes <= 64 * 1024 * 1024
    {
      forall i | 0 <= i < |sessions| ensures Held()[i] >= 0 {
        assert SessionOk(sessions[i]);
        PendingNonNegative(sessions[i].pending);
      }
      SumNonNegative(Held());
    }

    /** A client connects. */
    method Open()
      requires Valid()
      modifies this`sessions, this`Repr
      ensures Valid() && |sessions| == |old(sessions)| + 1 && sessions[..|old(sessions)|] == old(sessions)
      ensures budget.reservedBytes == old(budget.reservedBytes) && fresh(sessions[|old(sessions)|])
      ensures Repr == old(Repr) + {sessions[|old(sessions)|]} && owner == old(owner)
    {
      var s := new Session(budget);
      sessions, Repr := sessions + [s], Repr + {s};
      SessionOpened(s);
    }

    /** A session that holds nothing joined. */
    twostate lemma SessionOpened(new s: Session)
      requires old(Valid()) && sessions == old(sessions) + [s] && fresh(s) && owner == old(owner) && Repr == old(Repr) + {s}
      requires s.budget == budget && s.pending == [] && s.Valid() && s.Held() == 0 && budget.reservedBytes == old(budget.reservedBytes)
      requires forall x :: x in old(sessions) ==> SessionOk(x) && x.Held() == old(x.Held())
      ensures Valid()
    {
      ghost var before := old(Held());
      assert Held() == before + [0];
      SumAppends(before, 0);
    }

    /** Session i moved, within the rules a session keeps; the others did not. */
    twostate lemma SessionMoved(i: nat)
      requires old(Valid()) && sessions == old(sessions) && i < |sessions| && Footprint() && AllOk()
      requires sessions[i].Others() == old(sessions[i].Others()) && budget.reservedBytes <= MAX_TOTAL
      requires forall j :: 0 <= j < |sessions| && j != i ==> sessions[j].Held() == old(sessions[j].Held())
      ensures Valid()
    {
      ghost var before := old(Held());
      assert old(SessionOk(sessions[i])) && SessionOk(sessions[i]);
      assert Held() == before[i := sessions[i].Held()];
      SumMoves(before, i, sessions[i].Held());
    }

    /** The transfers of s are entered as its own, and no others. */
    twostate predicate Owned(s: Session)
      reads this, s
    {
      && Repr == old(Repr) + (set t | t in s.pending) + (set t | t in s.pending :: t.buffer)
      && (forall t :: t in s.pending ==> t in owner && owner[t] == s)
      && (forall t :: t in old(owner) && t !in s.pending ==> t in owner && owner[t] == old(owner)[t])
      && (forall t :: t in owner ==> t in old(owner) || t in s.pending)
    }

    /** Session i moved; the transfers it has now are its own. */
    twostate lemma SessionStepped(i: nat, new gone: set<Staged>)
      requires old(Valid()) && sessions == old(sessions) && i < |sessions| && Moved(sessions[i], gone)
      requires Owned(sessions[i])
      requires forall x :: x in sessions && x != sessions[i] ==> SameRows(x) && x.Valid()
      ensures Valid() && StepOf(i, gone)
    {
      FootprintStepped(i);
      OwnersStepped(i);
      assert SessionOk(sessions[i]);
      OthersHeld(i);
      SessionMoved(i);
    }

    /** What session i has besides is new, and all of it in the footprint. */
    twostate lemma FootprintStepped(i: nat)
      requires old(Valid()) && sessions == old(sessions) && i < |sessions| && Owned(sessions[i])
      requires forall t :: t in sessions[i].pending ==> t in old(sessions[i].pending) || (fresh(t) && fresh(t.buffer))
      ensures Footprint() && fresh(Repr - old(Repr))
    {
      assert old(SessionOk(sessions[i]));
      forall t | t in old(sessions[i].pending) ensures t in old(Repr) && t.buffer in old(Repr) { assert t in old(owner); }
    }

    twostate lemma OthersHeld(i: nat)
      requires old(Distinct()) && sessions == old(sessions) && i < |sessions|
      requires forall x :: x in sessions && x != sessions[i] ==> SameRows(x)
      ensures forall j :: 0 <= j < |sessions| && j != i ==> sessions[j].Held() == old(sessions[j].Held())
    {
      forall j | 0 <= j < |sessions| && j != i ensures sessions[j].Held() == old(sessions[j].Held()) {
        assert sessions[j] != sessions[i] && SameRows(sessions[j]);
      }
    }

    twostate lemma OwnersStepped(i: nat)
      requires old(Valid()) && sessions == old(sessions) && i < |sessions| && sessions[i].Valid()
      requires forall t :: t in sessions[i].pending ==> t in old(sessions[i].pending) || fresh(t)
      requires Owned(sessions[i])
      requires forall x :: x in sessions && x != sessions[i] ==> SameRows(x) && x.Valid()
      ensures AllOk()
    {
      assert old(SessionOk(sessions[i]));
      forall x | x in sessions ensures SessionOk(x) {
        assert old(SessionOk(x));
        if x != sessions[i] {
          forall t | t in x.pending ensures t in owner && owner[t] == x {
            assert SameRows(x);
            assert t in old(x.pending);
            assert t in old(owner) && old(owner[t]) == x;
          }
        }
      }
    }

    /** The transfers of the session are not those of another. */
    lemma OwnTransfers(s: Session, x: Session)
      requires AllOk() && s in sessions && x in sessions && x != s
      ensures forall t :: t in x.pending ==> t !in s.pending
    {
      assert SessionOk(s) && SessionOk(x);
    }

    /** The session takes over the transfers it has. */
    method Own(s: Session)
      modifies this`owner, this`Repr
      ensures Owned(s)
    {
      owner := owner + map t | t in s.pending :: s;
      Repr := Repr + (set t | t in s.pending) + (set t | t in s.pending :: t.buffer);
    }

    /** A file of session i is in flight. */
    ghost predicate Flying(i: nat, row: Staged)
      reads this, sessions
    {
      i < |sessions| && row in sessions[i].inFlight
    }

    /** Sessions are only added, and whatever is used besides is new. */
    twostate predicate Grown()
      reads this
    {
      |old(sessions)| <= |sessions| && sessions[..|old(sessions)|] == old(sessions) && fresh(Repr - old(Repr))
    }

    /** What every step keeps: besides, an ID that was handed out stays so. */
    twostate predicate Onward()
      reads this, sessions
    {
      && Grown()
      && (forall i :: 0 <= i < |old(sessions)| ==> old(sessions[i].consumed) <= sessions[i].consumed)
    }

    /** The step was one of session i, which kept its files in flight but for `gone`. */
    twostate predicate StepOf(i: nat, gone: set<Staged>)
      requires i < |sessions|
      reads this, sessions
    {
      && sessions == old(sessions) && fresh(Repr - old(Repr))
      && (forall x :: x in old(sessions) && x != sessions[i] ==> SameRows(x))
      && old(sessions[i].consumed) <= sessions[i].consumed
      && (forall row :: row in old(sessions[i].inFlight) && row !in gone ==> row in sessions[i].inFlight)
    }

    twostate lemma StepIsOnward(i: nat, new gone: set<Staged>)
      requires old(Valid()) && i < |sessions| && StepOf(i, gone)
      ensures Onward()
      ensures forall j, row :: old(Flying(j, row)) && (j != i || row !in gone) ==> Flying(j, row)
    {
      assert old(SessionOk(sessions[i]));
      forall j | 0 <= j < |sessions| && j != i
        ensures sessions[j].inFlight == old(sessions[j].inFlight) && sessions[j].consumed == old(sessions[j].consumed)
      {
        var x := sessions[j];
        assert old(Distinct()) && x in old(sessions) && x != sessions[i];
        assert SameRows(x);
      }
    }

    twostate lemma OpenIsOnward()
      requires |sessions| == |old(sessions)| + 1 && sessions[..|old(sessions)|] == old(sessions)
      requires fresh(sessions[|old(sessions)|]) && Repr == old(Repr) + {sessions[|old(sessions)|]}
      requires forall x :: x in old(sessions) ==> SameRows(x)
      ensures Onward()
      ensures forall j, row :: old(Flying(j, row)) ==> Flying(j, row)
    {
      forall j | 0 <= j < |old(sessions)| ensures sessions[j] == old(sessions[j]) && SameRows(sessions[j]) {
        assert sessions[j] == sessions[..|old(sessions)|][j] && old(sessions)[j] in old(sessions);
      }
    }

    method Announced(i: nat, request: Request, now: int)
      requires Valid() && i < |sessions|
      modifies this`owner, this`Repr, budget, sessions[i]
      ensures Valid() && StepOf(i, NOTHING) && Announces(sessions[i], request, now)
    {
      assert SessionOk(sessions[i]);
      AdmitUpload(sessions[i], request, now);
      Own(sessions[i]);
      SessionStepped(i, NOTHING);
    }

    /** The sessions but s: in order, and without the transfers of s. */
    lemma OthersApart(s: Session, others: set<Session>)
      requires AllOk() && s in sessions && others == (set x | x in sessions && x != s)
      ensures forall x :: x in others ==> x.Valid()
      ensures forall x, t :: x in others && t in x.pending ==> t !in s.pending
    {
      forall x | x in others ensures x.Valid() && forall t :: t in x.pending ==> t !in s.pending {
        assert SessionOk(x);
        OwnTransfers(s, x);
      }
    }

    method Received(i: nat, frame: Option<Frame>, now: int)
      requires Valid() && i < |sessions|
      modifies this`owner, this`Repr, budget, sessions[i], sessions[i].pending, set t | t in sessions[i].pending :: t.buffer
      ensures Valid() && StepOf(i, NOTHING) && Receives(sessions[i], frame, now)
    {
      ghost var others := set x | x in sessions && x != sessions[i];
      OthersApart(sessions[i], others);
      assert SessionOk(sessions[i]);
      TakeFrame(sessions[i], frame, now, others);
      Own(sessions[i]);
      forall x | x in sessions && x != sessions[i] ensures SameRows(x) && x.Valid() { assert x in others; }
      SessionStepped(i, NOTHING);
    }

    method Swept(i: nat, now: int, closes: bool)
      requires Valid() && i < |sessions|
      modifies this`owner, this`Repr, budget, sessions[i]
      ensures Valid() && StepOf(i, NOTHING) && Sweeps(sessions[i], now, closes)
    {
      assert SessionOk(sessions[i]);
      SweepRows(sessions[i], now, closes);
      Own(sessions[i]);
      SessionStepped(i, NOTHING);
    }

    method TakenOut(i: nat, handle: Handle) returns (found: Option<Staged>)
      requires Valid() && i < |sessions|
      modifies this`owner, this`Repr, sessions[i]
      ensures Valid() && StepOf(i, NOTHING) && TakesOut(sessions[i], handle)
      ensures found.Some? ==> found.value in old(sessions[i].staged) && HandleOf(found.value) == handle
      ensures found.Some? ==> Flying(i, found.value) && handle.id !in old(sessions[i].consumed) && handle.id in sessions[i].consumed
      ensures found.None? <==> forall r :: r in old(sessions[i].staged) ==> HandleOf(r) != handle
    {
      assert SessionOk(sessions[i]);
      found := sessions[i].Consume(handle);
      Own(sessions[i]);
      SessionStepped(i, NOTHING);
    }

    method Returned(i: nat, k: nat)
      requires Valid() && i < |sessions| && k < |sessions[i].inFlight|
      modifies this`owner, this`Repr, budget, sessions[i]
      ensures Valid() && StepOf(i, {old(sessions[i].inFlight[k])})
      ensures old(sessions[i].inFlight[k]) !in sessions[i].inFlight && GivesBack(sessions[i], k)
    {
      ghost var gone := {sessions[i].inFlight[k]};
      assert SessionOk(sessions[i]);
      GiveBack(sessions[i], k);
      Own(sessions[i]);
      SessionStepped(i, gone);
    }

    /** Somebody is there to make the step, and it is not giving back `mine`. */
    predicate Due(op: Op, mine: Option<(nat, Staged)>)
      reads this, sessions
    {
      op.Connect? ||
      (op.i < |sessions| && (op.Return? ==> op.k < |sessions[op.i].inFlight| && mine != Some((op.i, sessions[op.i].inFlight[op.k]))))
    }

    /** The step was made. */
    twostate predicate Did(op: Op)
      reads this, sessions, budget, Repr
    {
      && (op.Connect? ==> |sessions| == |old(sessions)| + 1)
      && (!op.Connect? ==> sessions == old(sessions) && op.i < |sessions|)
      && match op
         case Connect => true
         case Announce(i, request, now) => Footprint() && SessionOk(sessions[i]) && Announces(sessions[i], request, now)
         case Receive(i, frame, now) => Receives(sessions[i], frame, now)
         case Sweep(i, now, closes) => Sweeps(sessions[i], now, closes)
         case TakeOut(i, handle) => TakesOut(sessions[i], handle)
         case Return(i, k) => GivesBack(sessions[i], k)
    }

    /** One step of anybody, but for giving back the file `mine` of a hand-over in progress. */
    method Do(op: Op, mine: Option<(nat, Staged)>)
      requires Valid()
      modifies this, Repr
      ensures Valid() && Onward() && (old(Due(op, mine)) ==> Did(op))
      ensures mine.Some? && old(Flying(mine.value.0, mine.value.1)) ==> Flying(mine.value.0, mine.value.1)
    {
      if op.Connect? {
        Open();
        OpenIsOnward();
        return;
      }
      if !Due(op, mine) { return; }
      assert SessionOk(sessions[op.i]);
      match op
      case Announce(i, request, now) =>
        Announced(i, request, now);
        StepIsOnward(i, NOTHING);
      case Receive(i, frame, now) =>
        Received(i, frame, now);
        StepIsOnward(i, NOTHING);
      case Sweep(i, now, closes) =>
        Swept(i, now, closes);
        StepIsOnward(i, NOTHING);
      case TakeOut(i, handle) =>
        var _ := TakenOut(i, handle);
        StepIsOnward(i, NOTHING);
      case Return(i, k) =>
        ghost var gone := {sessions[i].inFlight[k]};
        Returned(i, k);
        StepIsOnward(i, gone);
    }

    /** Any steps, in any order: the counter is what the sessions hold, and within 0..64 MiB, after
        every one of them. */
    method Serve(ops: seq<Op>, mine: Option<(nat, Staged)>)
      requires Valid()
      modifies this, Repr
      ensures Valid() && Onward() && budget.reservedBytes == Sum(Held()) && 0 <= budget.reservedBytes <= 64 * 1024 * 1024
      ensures mine.Some? && old(Flying(mine.value.0, mine.value.1)) ==> Flying(mine.value.0, mine.value.1)
    {
      for n := 0 to |ops|
        invariant Valid() && Onward()
        invariant mine.Some? && old(Flying(mine.value.0, mine.value.1)) ==> Flying(mine.value.0, mine.value.1)
      {
        Do(ops[n], mine);
      }
      ReservedInRange();
    }

    method FindFlying(i: nat, row: Staged) returns (k: nat)
      requires Flying(i, row)
      ensures k < |sessions[i].inFlight| && sessions[i].inFlight[k] == row
    {
      k := 0;
      while sessions[i].inFlight[k] != row
        invariant k < |sessions[i].inFlight| && row in sessions[i].inFlight[k..]
        decreases |sessions[i].inFlight| - k
      {
        k := k + 1;
      }
    }

    /** The end of a hand-over: everybody goes on, then its bytes are given back. */
    method Finish(i: nat, row: Staged, after: seq<Op>)
      requires Valid() && Flying(i, row)
      modifies this, Repr
      ensures Valid() && Onward() && i < |sessions| && row !in sessions[i].inFlight
    {
      Serve(after, Some((i, row)));
      var k := FindFlying(i, row);
      ghost var gone := {row};
      label Found:
      Returned(i, k);
      StepIsOnward@Found(i, gone);
    }

    /** Everybody goes on, the frames of the file are sent, and the hand-over ends. */
    method PassOn(i: nat, row: Staged, a: Attachment, backend: Backend) returns (sent: bool)
      requires Valid() && Flying(i, row) && backend !in Repr && Checked(backend.events) && row.file.size == |row.content|
      modifies this, Repr, backend
      ensures Valid() && Onward() && i < |sessions| && row !in sessions[i].inFlight && Checked(backend.events)
      ensures sent ==> FramesIn(backend.events) == old(FramesIn(backend.events)) + FramesOf(row.file.(id := a.newId), row.content)
      ensures old(FramesIn(backend.events)) <= FramesIn(backend.events) && (backend.reliable ==> sent)
    {
      Serve(a.before, Some((i, row)));
      sent := SendFile(backend, row.file.(id := a.newId), row.content);
      Finish(i, row, a.after);
    }

    /** `replace` for one attachment: the file is taken out, and passed on. */
    method HandOver(i: nat, a: Attachment, backend: Backend) returns (replaced: bool, ghost row: Option<Staged>)
      requires Valid() && i < |sessions| && backend !in Repr && Checked(backend.events)
      modifies this, Repr, backend
      ensures Valid() && Onward() && Checked(backend.events)
      ensures row.None? <==> forall r :: r in old(sessions[i].staged) ==> HandleOf(r) != a.handle
      ensures row.Some? ==> row.value in old(sessions[i].staged) && HandleOf(row.value) == a.handle
      ensures row.Some? ==> a.handle.id !in old(sessions[i].consumed) && a.handle.id in sessions[i].consumed && !Flying(i, row.value)
      ensures replaced ==> row.Some?
      ensures replaced ==> FramesIn(backend.events) == old(FramesIn(backend.events)) + FramesOf(row.value.file.(id := a.newId), row.value.content)
      ensures backend.reliable ==> (replaced <==> row.Some?)
      ensures old(FramesIn(backend.events)) <= FramesIn(backend.events)
    {
      assert SessionOk(sessions[i]);
      var found := TakenOut(i, a.handle);
      row := found;
      StepIsOnward(i, NOTHING);
      if found.None? { return false, None; }
      replaced := PassOn(i, found.value, a, backend);
    }

    /** `replace`: a sweep, then the attachments one after the other up to the first that fails. Whatever
        everybody else does meanwhile, the daemon got the frames of the staged files in order, each file
        handed out to this message alone. */
    method Replace(i: nat, now: int, attachments: seq<Attachment>, backend: Backend) returns (ok: bool, ghost rows: seq<Staged>, ghost rest: seq<Frame>)
      requires Valid() && i < |sessions| && backend !in Repr && Checked(backend.events)
      modifies this, Repr, backend
      ensures Valid() && fresh(Repr - old(Repr)) && i < |sessions| && sessions[i] == old(sessions[i]) && Checked(backend.events)
      ensures HandedOut(attachments, rows, old(sessions[i].consumed), sessions[i].consumed)
      ensures |rows| <= |attachments| && (ok <==> |rows| == |attachments|)
      ensures Delivered(attachments, rows, old(FramesIn(backend.events)), rest, FramesIn(backend.events)) && (ok ==> rest == [])
    {
      ghost var before := sessions[i].consumed;
      Swept(i, now, false);
      StepIsOnward(i, NOTHING);
      ghost var swept := sessions[i].consumed;
      ok, rows, rest := ReplaceAll(i, attachments, backend);
      HandedOutMore(attachments, rows, swept, sessions[i].consumed, before, sessions[i].consumed);
    }

    method HandNext(i: nat, n: nat, attachments: seq<Attachment>, backend: Backend, ghost rows: seq<Staged>,
                    ghost was: set<nat>, ghost prior: seq<Frame>)
      returns (ok: bool, ghost more: seq<Staged>, ghost rest: seq<Frame>)
      requires Valid() && i < |sessions| && backend !in Repr && Checked(backend.events) && |rows| == n < |attachments|
      requires HandedOut(attachments, rows, was, sessions[i].consumed)
      requires Delivered(attachments, rows, prior, [], FramesIn(backend.events))
      modifies this, Repr, backend
      ensures Valid() && Grown() && Checked(backend.events) && i < |sessions|
      ensures |more| == n + (if ok then 1 else 0) && HandedOut(attachments, more, was, sessions[i].consumed)
      ensures Delivered(attachments, more, prior, rest, FramesIn(backend.events)) && (ok ==> rest == [])
    {
      ghost var before := sessions[i].consumed;
      ghost var row: Option<Staged>;
      ghost var sent := FramesIn(backend.events);
      ok, row := HandOver(i, attachments[n], backend);
      more, rest := rows, FramesIn(backend.events)[|sent|..];
      if ok {
        OneMoreOut(attachments, rows, was, before, row.value, sessions[i].consumed);
        OneMoreDelivered(attachments, rows, row.value, prior, sent);
        more, rest := rows + [row.value], [];
      } else {
        HandedOutMore(attachments, rows, was, before, was, sessions[i].consumed);
      }
    }

    method ReplaceAll(i: nat, attachments: seq<Attachment>, backend: Backend) returns (ok: bool, ghost rows: seq<Staged>, ghost rest: seq<Frame>)
      requires Valid() && i < |sessions| && backend !in Repr && Checked(backend.events)
      modifies this, Repr, backend
      ensures Valid() && fresh(Repr - old(Repr)) && i < |sessions| && sessions[i] == old(sessions[i]) && Checked(backend.events)
      ensures HandedOut(attachments, rows, old(sessions[i].consumed), sessions[i].consumed)
      ensures |rows| <= |attachments| && (ok <==> |rows| == |attachments|)
      ensures Delivered(attachments, rows, old(FramesIn(backend.events)), rest, FramesIn(backend.events)) && (ok ==> rest == [])
    {
      ok, rows, rest := true, [], [];
      ghost var was, prior := sessions[i].consumed, FramesIn(backend.events);
      var n := 0;
      while n < |attachments| && ok
        invariant Valid() && fresh(Repr - old(Repr)) && i < |sessions| && sessions[i] == old(sessions[i])
        invariant Checked(backend.events) && |rows| <= n <= |attachments|
        invariant ok <==> |rows| == n
        invariant HandedOut(attachments, rows, was, sessions[i].consumed)
        invariant Delivered(attachments, rows, prior, rest, FramesIn(backend.events)) && (ok ==> rest == [])
      {
        ok, rows, rest := HandNext(i, n, attachments, backend, rows, was, prior);
        n := n + 1;
      }
    }
  }
}
