/** Upload staging of one session, and the byte budget it shares with every other session: what is
    pending, staged and in flight is always exactly what the session holds of the budget. */
module UploadStaging {
  import opened VersionedStore
  import opened UploadFrames

  const MAX_FILE := 32 * 1024 * 1024
  const MAX_TOTAL := 64 * 1024 * 1024
  const MAX_ENTRIES := 16
  const TTL_MS := 5 * 60000
  const RECHECK_BYTES := 1024 * 1024

  /** The bytes reserved over all sessions. */
  class Budget {
    var reservedBytes: int

    constructor ()
      ensures reservedBytes == 0
    {
      reservedBytes := 0;
    }
  }

  /** One pending transfer, its buffer allocated at the declared size and filled in place. */
  class Transfer {
    const request: Request
    const expiresAt: int
    const buffer: array<byte>
    var begun: bool
    var bytes: nat
    var chunks: nat

    ghost predicate Valid()
      reads this
    {
      request.size >= 0 && buffer.Length == request.size && bytes <= buffer.Length
    }

    ghost function State(): Progress
      requires Valid()
      reads this, buffer
    {
      Progress(request, begun, buffer[..bytes], chunks)
    }

    constructor (request: Request, expiresAt: int)
      requires request.size >= 0
      ensures Valid() && State() == Fresh(request) && fresh(buffer)
      ensures this.request == request && this.expiresAt == expiresAt
    {
      this.request, this.expiresAt := request, expiresAt;
      buffer := new byte[request.size];
      begun, bytes, chunks := false, 0, 0;
    }

    /** One frame, as `binary` handles it for this transfer. */
    method Take(frame: Frame) returns (accepted: bool, complete: bool)
      requires Valid()
      modifies this, buffer
      ensures Valid()
      ensures match Accept(old(State()), frame)
        case Continue(p) => accepted && !complete && State() == p
        case Complete(content) => accepted && complete && content == buffer[..] && State() == old(State())
        case Refused(p) => !accepted && !complete && State() == p
    {
      complete := false;
      if frame.FileBegin? {
        if begun || frame.size != request.size || frame.mime != request.mimeType || frame.fileName != request.fileName ||
           frame.modifiedAt != request.modifiedAt || frame.encoding != "binary" { return false, false; }
        begun := true;
        return true, false;
      }
      if !begun { return false, false; }
      if frame.FileChunk? {
        var n := |frame.payload|;
        if n == 0 || n > MAX_CHUNK || bytes + n > request.size { return false, false; }
        chunks := chunks + 1;
        if chunks > MaxChunks(request.size) { return false, false; }
        Set(frame.payload);
        return true, false;
      }
      if bytes != request.size { return false, false; }
      assert buffer[..bytes] == buffer[..];
      return true, true;
    }

    /** `buffer.set(payload, bytes)`, and the count moved on. */
    method Set(payload: seq<byte>)
      requires Valid() && bytes + |payload| <= buffer.Length
      modifies buffer, this`bytes
      ensures Valid() && bytes == old(bytes) + |payload|
      ensures buffer[..bytes] == old(buffer[..bytes]) + payload
    {
      var start := bytes;
      for i := 0 to |payload|
        invariant buffer[..start] == old(buffer[..bytes])
        invariant buffer[start..start + i] == payload[..i]
      {
        buffer[start + i] := payload[i];
        assert buffer[start..start + i + 1] == buffer[start..start + i] + [payload[i]];
      }
      bytes := start + |payload|;
      assert buffer[..bytes] == buffer[..start] + buffer[start..bytes];
    }
  }

  /** A complete file, waiting for the operation that names it. */
  datatype Staged = Staged(id: nat, file: Request, content: seq<byte>, expiresAt: int)

  /** What a client names a staged file by. */
  datatype Handle = Handle(id: nat, fileName: string, mimeType: string, size: int, path: nat)

  function HandleOf(row: Staged): Handle {
    Handle(row.id, row.file.fileName, row.file.mimeType, row.file.size, row.id)
  }

  datatype Answer = Ignored | Handled | Stored(id: nat) | Rejected

  function PendingTotal(rows: seq<Transfer>): int {
    if rows == [] then 0 else rows[0].request.size + PendingTotal(rows[1..])
  }

  function StagedTotal(rows: seq<Staged>): nat {
    if rows == [] then 0 else |rows[0].content| + StagedTotal(rows[1..])
  }

  function LivePending(rows: seq<Transfer>, now: int): (live: seq<Transfer>)
    ensures |live| <= |rows| && forall t :: t in live ==> t in rows
  {
    if rows == [] then []
    else if rows[0].expiresAt <= now then LivePending(rows[1..], now)
    else [rows[0]] + LivePending(rows[1..], now)
  }

  function LiveStaged(rows: seq<Staged>, now: int): (live: seq<Staged>)
    ensures |live| <= |rows| && forall r :: r in live ==> r in rows
  {
    if rows == [] then []
    else if rows[0].expiresAt <= now then LiveStaged(rows[1..], now)
    else [rows[0]] + LiveStaged(rows[1..], now)
  }

  ghost predicate Apart(a: Transfer, b: Transfer) {
    a != b && a.buffer != b.buffer && a.request.id != b.request.id
  }

  ghost predicate Distinct(rows: seq<Transfer>) {
    forall i, j :: 0 <= i < j < |rows| ==> Apart(rows[i], rows[j])
  }

  ghost predicate DistinctFiles(rows: seq<Staged>) {
    forall i, j :: 0 <= i < j < |rows| ==> rows[i].id != rows[j].id
  }

  lemma {:induction false} LivePendingDistinct(rows: seq<Transfer>, now: int)
    requires Distinct(rows)
    ensures Distinct(LivePending(rows, now))
  {
    if rows != [] {
      LivePendingDistinct(rows[1..], now);
      var live := LivePending(rows[1..], now);
      forall j | 0 <= j < |live| ensures live[j] in rows[1..] { assert live[j] in live; }
    }
  }

  lemma {:induction false} LiveStagedDistinct(rows: seq<Staged>, now: int)
    requires DistinctFiles(rows)
    ensures DistinctFiles(LiveStaged(rows, now))
  {
    if rows != [] {
      LiveStagedDistinct(rows[1..], now);
      var live := LiveStaged(rows[1..], now);
      forall j | 0 <= j < |live| ensures live[j] in rows[1..] { assert live[j] in live; }
    }
  }

  lemma {:induction false} PendingSplits(rows: seq<Transfer>, i: nat)
    requires i < |rows|
    ensures PendingTotal(rows) == rows[i].request.size + PendingTotal(rows[..i] + rows[i + 1..])
  {
    if i == 0 {
      assert rows[..0] + rows[1..] == rows[1..];
    } else {
      PendingSplits(rows[1..], i - 1);
      assert (rows[..i] + rows[i + 1..])[1..] == rows[1..][..i - 1] + rows[1..][i..];
    }
  }

  lemma {:induction false} StagedSplits(rows: seq<Staged>, i: nat)
    requires i < |rows|
    ensures StagedTotal(rows) == |rows[i].content| + StagedTotal(rows[..i] + rows[i + 1..])
  {
    if i == 0 {
      assert rows[..0] + rows[1..] == rows[1..];
    } else {
      StagedSplits(rows[1..], i - 1);
      assert (rows[..i] + rows[i + 1..])[1..] == rows[1..][..i - 1] + rows[1..][i..];
    }
  }

  lemma {:induction false} PendingAppends(rows: seq<Transfer>, row: Transfer)
    ensures PendingTotal(rows + [row]) == PendingTotal(rows) + row.request.size
  {
    if rows == [] { assert (rows + [row])[1..] == []; }
    else {
      PendingAppends(rows[1..], row);
      assert (rows + [row])[1..] == rows[1..] + [row];
    }
  }

  lemma {:induction false} StagedAppends(rows: seq<Staged>, row: Staged)
    ensures StagedTotal(rows + [row]) == StagedTotal(rows) + |row.content|
  {
    if rows == [] { assert (rows + [row])[1..] == []; }
    else {
      StagedAppends(rows[1..], row);
      assert (rows + [row])[1..] == rows[1..] + [row];
    }
  }

  lemma {:induction false} PendingNonNegative(rows: seq<Transfer>)
    requires forall t :: t in rows ==> t.request.size >= 0
    ensures PendingTotal(rows) >= 0
  {
    if rows != [] { PendingNonNegative(rows[1..]); }
  }

  lemma OneLess(rows: seq<Staged>, i: nat)
    requires DistinctFiles(rows) && i < |rows|
    ensures forall r :: r in rows[..i] + rows[i + 1..] <==> r in rows && r.id != rows[i].id
    ensures DistinctFiles(rows[..i] + rows[i + 1..])
  {
    var rest := rows[..i] + rows[i + 1..];
    forall r | r in rows && r.id != rows[i].id ensures r in rest {
      var k :| 0 <= k < |rows| && rows[k] == r;
      assert rest[if k < i then k else k - 1] == r;
    }
  }

  predicate Bad(name: string) {
    '/' in name || '\\' in name || '\r' in name || '\n' in name
  }

  /** The checks on an announced upload. */
  predicate WellFormed(request: Request) {
    && 0 <= request.size <= MAX_FILE && |request.id| <= 255
    && 0 < |request.fileName| <= 255 && !Bad(request.fileName)
    && 0 < |request.mimeType| <= 200 && '\r' !in request.mimeType && '\n' !in request.mimeType
  }

  /** There is room for one more file of this size, among `entries` rows of `total` bytes. */
  predicate Fits(request: Request, entries: nat, total: int, reserved: int) {
    entries < MAX_ENTRIES && total + request.size <= MAX_TOTAL && reserved + request.size <= MAX_TOTAL
  }

  predicate IdTaken(rows: seq<Transfer>, id: string) {
    exists t :: t in rows && t.request.id == id
  }

  /** What `begin` checks, on the session's live rows and what is reserved by everybody. */
  predicate Admissible(request: Request, pending: seq<Transfer>, staged: seq<Staged>, reserved: int) {
    && !IdTaken(pending, request.id) && WellFormed(request)
    && Fits(request, |pending| + |staged|, PendingTotal(pending) + StagedTotal(staged), reserved)
  }

  class Session {
    const budget: Budget
    var pending: seq<Transfer>
    var staged: seq<Staged>
    var nextId: nat
    var inFlight: seq<Staged>   // what each hand-over in progress took
    ghost var consumed: set<nat>

    /** What this session holds of the budget. */
    ghost function Held(): int
      reads this
    {
      PendingTotal(pending) + StagedTotal(staged) + StagedTotal(inFlight)
    }

    /** What all other sessions hold. */
    ghost function Others(): int
      reads this, budget
    {
      budget.reservedBytes - Held()
    }

    ghost predicate Valid()
      reads this, pending
    {
      && Distinct(pending) && DistinctFiles(staged)
      && (forall t :: t in pending ==> t.Valid())
      && |pending| + |staged| <= MAX_ENTRIES
      && (forall r :: r in staged ==> r.id < nextId && r.id !in consumed && |r.content| == r.file.size)
      && (forall id :: id in consumed ==> id < nextId)
      && DistinctFiles(inFlight) && (forall r :: r in inFlight ==> r.id in consumed)
    }

    constructor (budget: Budget)
      ensures Valid() && this.budget == budget && Held() == 0 && pending == [] && staged == []
    {
      this.budget := budget;
      pending, staged, nextId, inFlight, consumed := [], [], 0, [], {};
    }

    /** Expired transfers and files are dropped, and their bytes given back. */
    method Expire(now: int)
      requires Valid()
      modifies this`pending, this`staged, budget
      ensures Valid() && Others() == old(Others())
      ensures pending == LivePending(old(pending), now) && staged == LiveStaged(old(staged), now)
      ensures budget.reservedBytes <= old(budget.reservedBytes)
    {
      LivePendingDistinct(pending, now);
      LiveStagedDistinct(staged, now);
      ExpirePending(now);
      ExpireStaged(now);
    }

    method ExpirePending(now: int)
      requires forall t :: t in pending ==> t.Valid()
      modifies this`pending, budget
      ensures pending == LivePending(old(pending), now) && Others() == old(Others())
      ensures budget.reservedBytes <= old(budget.reservedBytes)
    {
      var rows, i := pending, 0;
      var live: seq<Transfer> := [];
      while i < |rows|
        invariant 0 <= i <= |rows| && pending == old(pending) && live + LivePending(rows[i..], now) == LivePending(rows, now)
        invariant budget.reservedBytes - PendingTotal(live) - PendingTotal(rows[i..]) == old(budget.reservedBytes) - PendingTotal(rows)
        invariant budget.reservedBytes <= old(budget.reservedBytes)
      {
        assert rows[i..] == [rows[i]] + rows[i + 1..];
        if rows[i].expiresAt <= now {
          assert rows[i].Valid();
          budget.reservedBytes := budget.reservedBytes - rows[i].request.size;
        } else {
          PendingAppends(live, rows[i]);
          live := live + [rows[i]];
        }
        i := i + 1;
      }
      pending := live;
    }

    method ExpireStaged(now: int)
      modifies this`staged, budget
      ensures staged == LiveStaged(old(staged), now) && Others() == old(Others())
      ensures budget.reservedBytes <= old(budget.reservedBytes)
    {
      var rows, i := staged, 0;
      var live: seq<Staged> := [];
      while i < |rows|
        invariant 0 <= i <= |rows| && staged == old(staged) && live + LiveStaged(rows[i..], now) == LiveStaged(rows, now)
        invariant budget.reservedBytes - StagedTotal(live) - StagedTotal(rows[i..]) == old(budget.reservedBytes) - StagedTotal(rows)
        invariant budget.reservedBytes <= old(budget.reservedBytes)
      {
        assert rows[i..] == [rows[i]] + rows[i + 1..];
        if rows[i].expiresAt <= now {
          budget.reservedBytes := budget.reservedBytes - |rows[i].content|;
        } else {
          StagedAppends(live, rows[i]);
          live := live + [rows[i]];
        }
        i := i + 1;
      }
      staged := live;
    }

    /** An announced upload takes its whole size out of the budget, or changes nothing more. */
    method Begin(request: Request, now: int) returns (ok: bool)
      requires Valid()
      modifies this`pending, this`staged, budget
      ensures Valid() && Others() == old(Others())
      ensures staged == LiveStaged(old(staged), now)
      ensures !ok ==> pending == LivePending(old(pending), now)
      ensures ok ==> WellFormed(request) && |pending| > 0 && pending[..|pending| - 1] == LivePending(old(pending), now)
      ensures ok ==> pending[|pending| - 1].State() == Fresh(request) && fresh(pending[|pending| - 1])
      ensures forall t :: t in pending ==> t in old(pending) || (fresh(t) && fresh(t.buffer))
      ensures ok ==> budget.reservedBytes <= MAX_TOTAL && PendingTotal(pending) + StagedTotal(staged) <= MAX_TOTAL
      ensures ok ==> pending[|pending| - 1].expiresAt == now + 300_000
      ensures ok <==> Admissible(request, LivePending(old(pending), now), LiveStaged(old(staged), now),
                                 budget.reservedBytes - if ok then request.size else 0)
      ensures !ok ==> budget.reservedBytes <= old(budget.reservedBytes)
    {
      Expire(now);
      ok := MayAdmit(request);
      if ok { Admit(request, now + TTL_MS); }
    }

    method MayAdmit(request: Request) returns (ok: bool)
      ensures ok <==> Admissible(request, pending, staged, budget.reservedBytes)
    {
      if IdTaken(pending, request.id) || !WellFormed(request) { return false; }
      if |pending| + |staged| >= MAX_ENTRIES || PendingTotal(pending) + StagedTotal(staged) + request.size > MAX_TOTAL ||
         budget.reservedBytes + request.size > MAX_TOTAL { return false; }
      ok := true;
    }

    /** The transfer is entered, and its size reserved. */
    method Admit(request: Request, expiresAt: int)
      requires Valid() && WellFormed(request) && |pending| + |staged| < MAX_ENTRIES
      requires forall t :: t in pending ==> t.request.id != request.id
      modifies this`pending, budget
      ensures Valid() && Others() == old(Others()) && Held() == old(Held()) + request.size
      ensures budget.reservedBytes == old(budget.reservedBytes) + request.size
      ensures |pending| == |old(pending)| + 1 && pending[..|old(pending)|] == old(pending)
      ensures fresh(pending[|old(pending)|]) && fresh(pending[|old(pending)|].buffer) && pending[|old(pending)|].State() == Fresh(request)
      ensures pending[|old(pending)|].expiresAt == expiresAt
    {
      var row := new Transfer(request, expiresAt);
      PendingAppends(pending, row);
      pending := pending + [row];
      budget.reservedBytes := budget.reservedBytes + request.size;
    }

    method Find(id: string) returns (i: nat)
      requires Valid()
      ensures i <= |pending| && (i < |pending| ==> pending[i].request.id == id)
      ensures i == |pending| ==> forall t :: t in pending ==> t.request.id != id
    {
      i := 0;
      while i < |pending|
        invariant i <= |pending| && forall k :: 0 <= k < i ==> pending[k].request.id != id
      {
        if pending[i].request.id == id { return; }
        i := i + 1;
      }
    }

    /** A binary frame (None when it does not decode). The transfer it names, if there is one, takes
        it as `Accept` says and no other is touched; a complete file moves from pending to staged with
        exactly the bytes accepted, and the budget does not notice. */
    method Binary(frame: Option<Frame>, now: int) returns (answer: Answer, ghost row: Option<Transfer>)
      requires Valid()
      modifies this, budget, pending, set t | t in pending :: t.buffer
      ensures Valid() && Others() == old(Others()) && budget.reservedBytes <= old(budget.reservedBytes)
      ensures inFlight == old(inFlight) && consumed == old(consumed) && forall t :: t in pending ==> t in old(pending)
      ensures row.None? ==> answer == (if frame.None? then Ignored else Rejected)
      ensures row.Some? ==> row.value in LivePending(old(pending), now) && frame.Some? && row.value.Valid() && old(row.value.Valid())
      ensures row.Some? ==> match Accept(old(row.value.State()), frame.value)
        case Continue(p) => answer == Handled && row.value in pending && row.value.State() == p
        case Refused(p) => answer == Rejected && row.value in pending && row.value.State() == p
        case Complete(content) =>
          && answer == Stored(old(nextId)) && row.value !in pending
          && staged == LiveStaged(old(staged), now) + [Staged(old(nextId), row.value.request, content, now + 300_000)]
      ensures !answer.Stored? ==> staged == LiveStaged(old(staged), now) && pending == LivePending(old(pending), now)
      ensures answer.Stored? ==> |pending| == |LivePending(old(pending), now)| - 1
    {
      row := None;
      Expire(now);
      if frame.None? { return Ignored, None; }
      var i := Find(frame.value.id);
      if i == |pending| { return Rejected, None; }
      row := Some(pending[i]);
      assert pending[i].Valid();
      var accepted, complete := pending[i].Take(frame.value);
      if !accepted { return Rejected, row; }
      if !complete { return Handled, row; }
      Stage(i, now);
      answer := Stored(nextId - 1);
    }

    /** The transfer at i is complete. */
    method Stage(i: nat, now: int)
      requires Valid() && i < |pending| && pending[i].bytes == pending[i].request.size
      modifies this`pending, this`staged, this`nextId
      ensures Valid() && Others() == old(Others()) && nextId == old(nextId) + 1
      ensures pending == old(pending)[..i] + old(pending)[i + 1..]
      ensures staged == old(staged) + [Staged(old(nextId), old(pending)[i].request, old(pending)[i].buffer[..], now + TTL_MS)]
    {
      var row := pending[i];
      var file := Staged(nextId, row.request, row.buffer[..], now + TTL_MS);
      assert row.Valid() && |file.content| == row.request.size;
      PendingSplits(pending, i);
      StagedAppends(staged, file);
      pending := pending[..i] + pending[i + 1..];
      staged := staged + [file];
      nextId := nextId + 1;
      assert forall r :: r in staged ==> r in old(staged) || r == file;
    }

    /** A staged file is handed out once, to a handle that names it in every field: from here on it is in
        flight, and its id never comes back. */
    method Consume(handle: Handle) returns (found: Option<Staged>)
      requires Valid()
      modifies this`staged, this`inFlight, this`consumed
      ensures Valid() && Held() == old(Held())
      ensures found.Some? ==> found.value in old(staged) && HandleOf(found.value) == handle
      ensures found.Some? ==> handle.id !in old(consumed) && consumed == old(consumed) + {handle.id} && inFlight == old(inFlight) + [found.value]
      ensures found.None? ==> staged == old(staged) && inFlight == old(inFlight) && consumed == old(consumed)
      ensures found.None? <==> forall r :: r in old(staged) ==> HandleOf(r) != handle
      ensures found.Some? ==> forall r :: r in staged <==> r in old(staged) && r.id != handle.id
    {
      for i := 0 to |staged|
        invariant forall k :: 0 <= k < i ==> staged[k].id != handle.id
        invariant staged == old(staged) && inFlight == old(inFlight) && consumed == old(consumed)
      {
        var row := staged[i];
        if row.id == handle.id {
          if row.file.fileName != handle.fileName || row.file.mimeType != handle.mimeType || row.file.size != handle.size || row.id != handle.path {
            return None;
          }
          found := Some(row);
          TakeOut(i);
          return;
        }
      }
      found := None;
    }

    /** The staged file at i is in flight from here on. */
    method TakeOut(i: nat)
      requires Valid() && i < |staged|
      modifies this`staged, this`inFlight, this`consumed
      ensures Valid() && Held() == old(Held())
      ensures staged == old(staged)[..i] + old(staged)[i + 1..] && inFlight == old(inFlight) + [old(staged)[i]]
      ensures consumed == old(consumed) + {old(staged)[i].id}
      ensures forall r :: r in staged <==> r in old(staged) && r.id != old(staged)[i].id
    {
      StagedSplits(staged, i);
      OneLess(staged, i);
      StagedAppends(inFlight, staged[i]);
      var row := staged[i];
      staged := staged[..i] + staged[i + 1..];
      inFlight := inFlight + [row];
      consumed := consumed + {row.id};
    }

    /** The `finally` of a hand-over, however it ended: the file's bytes are given back, and it is not in
        flight any more. */
    method GiveBack(k: nat)
      requires Valid() && k < |inFlight|
      modifies this`inFlight, budget
      ensures Valid() && Others() == old(Others()) && inFlight == old(inFlight)[..k] + old(inFlight)[k + 1..]
      ensures budget.reservedBytes == old(budget.reservedBytes) - |old(inFlight)[k].content|
    {
      StagedSplits(inFlight, k);
      OneLess(inFlight, k);
      budget.reservedBytes := budget.reservedBytes - |inFlight[k].content|;
      inFlight := inFlight[..k] + inFlight[k + 1..];
    }

    /** The session closes: everything but what is in flight is given back. */
    method Clear()
      requires Valid()
      modifies this`pending, this`staged, budget
      ensures Valid() && Others() == old(Others()) && pending == [] && staged == [] && Held() == StagedTotal(inFlight)
      ensures budget.reservedBytes <= old(budget.reservedBytes)
    {
      PendingNonNegative(pending);
      budget.reservedBytes := budget.reservedBytes - PendingTotal(pending) - StagedTotal(staged);
      pending, staged := [], [];
    }
  }

  // ----- Handing a file to the daemon -----

  datatype Event = Validated | Sent(frame: Frame)

  /** The frames among the events. */
  function FramesIn(events: seq<Event>): seq<Frame> {
    if events == [] then []
    else FramesIn(events[..|events| - 1]) + if events[|events| - 1].Sent? then [events[|events| - 1].frame] else []
  }

  /** Chunk bytes sent since the last validation. */
  function Unchecked(events: seq<Event>): nat {
    if events == [] then 0
    else
      match events[|events| - 1]
      case Validated => 0
      case Sent(frame) => Unchecked(events[..|events| - 1]) + if frame.FileChunk? then |frame.payload| else 0
  }

  /** At no point was more than a mebibyte of the file sent unvalidated. */
  ghost predicate Checked(events: seq<Event>) {
    forall n {:trigger events[..n]} :: 0 <= n <= |events| ==> Unchecked(events[..n]) <= RECHECK_BYTES
  }

  lemma EventsGrow(events: seq<Event>, e: Event)
    ensures FramesIn(events + [e]) == FramesIn(events) + if e.Sent? then [e.frame] else []
    ensures Unchecked(events + [e]) ==
            if e.Validated? then 0 else Unchecked(events) + if e.frame.FileChunk? then |e.frame.payload| else 0
    ensures Checked(events) && Unchecked(events + [e]) <= RECHECK_BYTES ==> Checked(events + [e])
  {
    assert (events + [e])[..|events|] == events;
    if Checked(events) && Unchecked(events + [e]) <= RECHECK_BYTES {
      forall n | 0 <= n <= |events + [e]| ensures Unchecked((events + [e])[..n]) <= RECHECK_BYTES {
        if n <= |events| { assert (events + [e])[..n] == events[..n]; } else { assert (events + [e])[..n] == events + [e]; }
      }
    }
  }

  /** The connection to the daemon, and the caller's check that it may still be used; a reliable one
      never fails. */
  class Backend {
    const reliable: bool
    var events: seq<Event>

    constructor (reliable: bool)
      ensures events == [] && this.reliable == reliable
    {
      this.reliable := reliable;
      events := [];
    }

    method Validate() returns (ok: bool)
      modifies this
      ensures events == old(events) + [Validated] && (reliable ==> ok)
    {
      events := events + [Validated];
      ok := *;
      ok := ok || reliable;
    }

    method Send(frame: Frame) returns (ok: bool)
      modifies this
      ensures events == old(events) + [Sent(frame)] && (reliable ==> ok)
    {
      events := events + [Sent(frame)];
      ok := *;
      ok := ok || reliable;
    }
  }

  /** `replace`, for one file in flight: begin, the chunks, a validation at least every mebibyte, and
      end. If it returns true the daemon was sent exactly the frames of the file. */
  method SendFile(backend: Backend, request: Request, content: seq<byte>) returns (sent: bool)
    requires request.size == |content| && Checked(backend.events)
    modifies backend
    ensures Checked(backend.events)
    ensures sent ==> FramesIn(backend.events) == old(FramesIn(backend.events)) + FramesOf(request, content)
    ensures old(FramesIn(backend.events)) <= FramesIn(backend.events) <= old(FramesIn(backend.events)) + FramesOf(request, content)
    ensures backend.reliable ==> sent
    ensures sent ==> |backend.events| >= 2 && backend.events[|backend.events| - 2].Validated?
  {
    ghost var prior := FramesIn(backend.events);
    assert FramesOf(request, content) == [BeginOf(request)] + Chunks(request.id, content) + [FileEnd(request.id)];
    sent := SendChecked(backend, BeginOf(request));
    if !sent { return; }
    sent := SendChunks(backend, request, content, prior);
    if !sent { return; }
    sent := SendChecked(backend, FileEnd(request.id));
  }

  /** A frame that is no chunk, behind a validation. */
  method SendChecked(backend: Backend, frame: Frame) returns (ok: bool)
    requires !frame.FileChunk? && Checked(backend.events)
    modifies backend
    ensures Checked(backend.events) && (backend.reliable ==> ok)
    ensures ok ==> FramesIn(backend.events) == old(FramesIn(backend.events)) + [frame] && Unchecked(backend.events) == 0
    ensures old(FramesIn(backend.events)) <= FramesIn(backend.events) <= old(FramesIn(backend.events)) + [frame]
    ensures ok ==> |backend.events| >= 2 && backend.events[|backend.events| - 2].Validated?
  {
    ok := Recheck(backend);
    if !ok { return; }
    EventsGrow(backend.events, Sent(frame));
    ok := backend.Send(frame);
  }

  method Recheck(backend: Backend) returns (ok: bool)
    requires Checked(backend.events)
    modifies backend
    ensures Checked(backend.events) && Unchecked(backend.events) == 0 && FramesIn(backend.events) == FramesIn(old(backend.events))
    ensures backend.events == old(backend.events) + [Validated] && (backend.reliable ==> ok)
  {
    EventsGrow(backend.events, Validated);
    ok := backend.Validate();
  }

  method SendChunk(backend: Backend, frame: Frame) returns (ok: bool)
    requires frame.FileChunk? && Checked(backend.events) && Unchecked(backend.events) + |frame.payload| <= RECHECK_BYTES
    modifies backend
    ensures Checked(backend.events) && Unchecked(backend.events) == Unchecked(old(backend.events)) + |frame.payload|
    ensures FramesIn(backend.events) == FramesIn(old(backend.events)) + [frame] && (backend.reliable ==> ok)
  {
    EventsGrow(backend.events, Sent(frame));
    ok := backend.Send(frame);
  }

  /** One round of the loop: a validation when a mebibyte has gone out since the last, then a chunk. */
  method NextChunkSent(backend: Backend, id: string, content: seq<byte>, offset: nat, checkedBytes: nat, ghost full: nat)
    returns (ok: bool, end: nat, after: nat, ghost fullAfter: nat)
    requires offset < |content| && Checked(backend.events) && Unchecked(backend.events) == checkedBytes
    requires checkedBytes == MAX_CHUNK * full && full <= 4
    modifies backend
    ensures Checked(backend.events)
    ensures end == if offset + MAX_CHUNK < |content| then offset + MAX_CHUNK else |content|
    ensures ok ==> Unchecked(backend.events) == after && (end < |content| ==> after == MAX_CHUNK * fullAfter && fullAfter <= 4)
    ensures ok ==> FramesIn(backend.events) == FramesIn(old(backend.events)) + [FileChunk(id, content[offset..end])]
    ensures !ok ==> !backend.reliable && FramesIn(old(backend.events)) <= FramesIn(backend.events) <= FramesIn(old(backend.events)) + [FileChunk(id, content[offset..end])]
  {
    after, fullAfter := checkedBytes, full;
    end := if offset + MAX_CHUNK < |content| then offset + MAX_CHUNK else |content|;
    if checkedBytes >= RECHECK_BYTES {
      ok := Recheck(backend);
      if !ok { return; }
      after, fullAfter := 0, 0;
    }
    var chunk := content[offset..end];
    ok := SendChunk(backend, FileChunk(id, chunk));
    after, fullAfter := after + |chunk|, fullAfter + 1;
  }

  method SendChunks(backend: Backend, request: Request, content: seq<byte>, ghost prior: seq<Frame>) returns (ok: bool)
    requires Checked(backend.events) && Unchecked(backend.events) == 0 && FramesIn(backend.events) == prior + [BeginOf(request)]
    modifies backend
    ensures Checked(backend.events) && prior <= FramesIn(backend.events) <= prior + [BeginOf(request)] + Chunks(request.id, content)
    ensures backend.reliable ==> ok
    ensures ok ==> FramesIn(backend.events) == prior + [BeginOf(request)] + Chunks(request.id, content)
  {
    var offset, checkedBytes := 0, 0;
    ghost var full: nat, done: seq<Frame> := 0, [];
    assert content[0..] == content;
    while offset < |content|
      invariant 0 <= offset <= |content| && Checked(backend.events)
      invariant Unchecked(backend.events) == checkedBytes
      invariant offset < |content| ==> checkedBytes == MAX_CHUNK * full && full <= 4
      invariant FramesIn(backend.events) == prior + [BeginOf(request)] + done
      invariant done + Chunks(request.id, content[offset..]) == Chunks(request.id, content)
    {
      var sent, end, after;
      ghost var fullAfter;
      sent, end, after, fullAfter := NextChunkSent(backend, request.id, content, offset, checkedBytes, full);
      NextChunk(request.id, content, offset, end);
      ghost var frame := FileChunk(request.id, content[offset..end]);
      ChunkDone(done, frame, Chunks(request.id, content[offset..]), Chunks(request.id, content[end..]));
      if !sent {
        Longer(prior + [BeginOf(request)], done, frame, Chunks(request.id, content[end..]));
        return false;
      }
      checkedBytes, full, done := after, fullAfter, done + [frame];
      offset := end;
    }
    assert content[offset..] == [];
    ok := true;
  }

  lemma Longer(first: seq<Frame>, done: seq<Frame>, frame: Frame, later: seq<Frame>)
    ensures first + done + [frame] <= first + (done + [frame] + later)
  {
  }

  lemma ChunkDone(done: seq<Frame>, frame: Frame, rest: seq<Frame>, later: seq<Frame>)
    requires rest == [frame] + later
    ensures done + rest == done + [frame] + later
  {
  }

  lemma NextChunk(id: string, content: seq<byte>, offset: nat, end: nat)
    requires offset < |content| && end == (if offset + MAX_CHUNK < |content| then offset + MAX_CHUNK else |content|)
    ensures Chunks(id, content[offset..]) == [FileChunk(id, content[offset..end])] + Chunks(id, content[end..])
  {
    var rest := content[offset..];
    if |rest| > MAX_CHUNK {
      assert rest[..MAX_CHUNK] == content[offset..end] && rest[MAX_CHUNK..] == content[end..];
    } else {
      assert rest == content[offset..end] && content[end..] == [];
    }
  }

  /** What the daemon makes of a file handed to it, if it accepts as the gateway's own receiver does:
      the frames sent are taken one by one and rebuild the staged bytes. */
  lemma HandedOverFileRebuilds(events: seq<Event>, request: Request, content: seq<byte>)
    requires request.size == |content| && FramesIn(events) == FramesOf(request, content)
    ensures Feed(Fresh(request), FramesIn(events)) == Complete(content)
  {
    SentFramesRebuild(request, content);
  }
}
