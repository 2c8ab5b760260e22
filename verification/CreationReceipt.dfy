/** The receipt of one keyed agent create, and any number of callers presenting it.

    Whoever creates the receipt sends the create to the backend and stores the answer; whoever
    finds it replays the stored answer, or reports the outcome as unknown. */
module CreationReceipt {
  import opened VersionedStore

  /** The response a caller gets, and what of it is retained. */
  datatype Response = Response(agent: nat, detail: nat)

  function Retained(r: Response): Response {
    r.(detail := 0)
  }

  datatype Receipt = Receipt(uid: nat, fingerprint: nat, response: Option<Response>)

  datatype Task =
    | Claiming(fingerprint: nat)
    | Comparing(fingerprint: nat)
    | Prepared(row: Versioned<Receipt>)
    | Awaiting(row: Versioned<Receipt>)
    | Storing(row: Versioned<Receipt>, response: Response)

  datatype Event =
    | Claimed(uid: nat, fingerprint: nat)
    | Sent(uid: nat)
    | Answered(uid: nat, response: Response)
    | Replayed(uid: nat, fingerprint: nat, response: Response)
    | Removed(uid: nat)

  datatype State = State(next: nat, cell: Option<Versioned<Receipt>>, tasks: map<nat, Task>, log: seq<Event>)

  datatype Action =
    | Start(t: nat, fingerprint: nat)
    | Step(t: nat)
    | Reply(t: nat, response: Response)
    | Throw(t: nat, applied: bool)
    | Remove

  function Init(): State {
    State(0, None, map[], [])
  }

  function Go(s: State, t: nat, task: Task): State {
    s.(tasks := s.tasks[t := task])
  }

  function End(s: State, t: nat): State {
    s.(tasks := s.tasks - {t})
  }

  predicate Current(s: State, row: Versioned<Receipt>) {
    VersionOf(s.cell) == Some(row.version)
  }

  function Store(s: State, receipt: Receipt): State {
    s.(cell := Some(Versioned(s.next, receipt)), next := s.next + 1)
  }

  function Claim(s: State, fingerprint: nat): State {
    Store(s, Receipt(s.next, fingerprint, None)).(log := s.log + [Claimed(s.next, fingerprint)])
  }

  function Keep(s: State, row: Versioned<Receipt>, response: Response): State {
    if Current(s, row) then Store(s, row.value.(response := Some(Retained(response)))) else s
  }

  /** The conflicting receipt, compared with the request. */
  function Compare(s: State, t: nat, fingerprint: nat): State {
    if s.cell.None? || s.cell.value.value.fingerprint != fingerprint || s.cell.value.value.response.None? then End(s, t)
    else
      var found := s.cell.value.value;
      End(s, t).(log := s.log + [Replayed(found.uid, fingerprint, found.response.value)])
  }

  function Advance(s: State, t: nat): State
    requires t in s.tasks
  {
    match s.tasks[t]
    case Claiming(fingerprint) =>
      if s.cell.Some? then Go(s, t, Comparing(fingerprint))
      else
        var u := Claim(s, fingerprint);
        Go(u, t, Prepared(u.cell.value))
    case Comparing(fingerprint) => Compare(s, t, fingerprint)
    case Prepared(row) => Go(s, t, Awaiting(row)).(log := s.log + [Sent(row.value.uid)])
    case Awaiting(_) => s
    case Storing(row, response) => End(Keep(s, row, response), t)
  }

  function Apply(s: State, action: Action): State {
    match action
    case Start(t, fingerprint) => if t in s.tasks then s else Go(s, t, Claiming(fingerprint))
    case Step(t) => if t in s.tasks then Advance(s, t) else s
    case Reply(t, response) =>
      if t in s.tasks && s.tasks[t].Awaiting? then
        var row := s.tasks[t].row;
        Go(s, t, Storing(row, response)).(log := s.log + [Answered(row.value.uid, response)])
      else s
    case Throw(t, applied) =>
      if t !in s.tasks then s
      else if applied && s.tasks[t].Claiming? && s.cell.None? then End(Claim(s, s.tasks[t].fingerprint), t)
      else if applied && s.tasks[t].Storing? then End(Keep(s, s.tasks[t].row, s.tasks[t].response), t)
      else End(s, t)
    case Remove =>
      if s.cell.None? then s
      else s.(cell := None, next := s.next + 1, log := s.log + [Removed(s.cell.value.value.uid)])
  }

  function Run(s: State, actions: seq<Action>): State
    decreases |actions|
  {
    if actions == [] then s else Run(Apply(s, actions[0]), actions[1..])
  }
}

/** One backend create per kept receipt, and replays that repeat its answer. */
module CreationReceiptProof {
  import opened VersionedStore
  import opened CreationReceipt

  ghost predicate EventOk(before: seq<Event>, e: Event) {
    match e
    case Claimed(uid, _) => forall d :: d in before && d.Claimed? ==> d.uid != uid && Removed(d.uid) in before
    case Sent(uid) => e !in before && exists f: nat :: Claimed(uid, f) in before
    case Answered(uid, _) => Sent(uid) in before
    case Replayed(uid, fingerprint, response) =>
      Claimed(uid, fingerprint) in before && Removed(uid) !in before &&
      exists r: Response :: Answered(uid, r) in before && response == Retained(r)
    case Removed(_) => true
  }

  ghost predicate LogOk(log: seq<Event>) {
    forall i {:trigger log[..i]} :: 0 <= i < |log| ==> EventOk(log[..i], log[i])
  }

  ghost predicate ReceiptOk(log: seq<Event>, receipt: Receipt) {
    && Claimed(receipt.uid, receipt.fingerprint) in log
    && (receipt.response.Some? ==> exists r: Response :: Answered(receipt.uid, r) in log && receipt.response.value == Retained(r))
  }

  ghost predicate Holds(task: Task) {
    task.Prepared? || task.Awaiting? || task.Storing?
  }

  ghost predicate TaskOk(s: State, task: Task) {
    Holds(task) ==>
      && task.row.version < s.next && task.row.value.uid < s.next && (Current(s, task.row) ==> s.cell.value == task.row)
      && ReceiptOk(s.log, task.row.value)
      && (task.Prepared? ==> Sent(task.row.value.uid) !in s.log)
      && (task.Awaiting? ==> Sent(task.row.value.uid) in s.log)
      && (task.Storing? ==> Answered(task.row.value.uid, task.response) in s.log)
  }

  /** One caller holds a receipt it created. */
  ghost predicate Apart(s: State) {
    forall t, w :: t in s.tasks && w in s.tasks && t != w && Holds(s.tasks[t]) && Holds(s.tasks[w]) ==>
      s.tasks[t].row.value.uid != s.tasks[w].row.value.uid
  }

  ghost predicate CellOk(s: State) {
    && (forall e :: e in s.log ==> e.uid < s.next)
    && (forall e :: e in s.log && e.Claimed? ==> Removed(e.uid) in s.log || (s.cell.Some? && s.cell.value.value.uid == e.uid))
    && (s.cell.Some? ==>
          && s.cell.value.version < s.next && s.cell.value.value.uid < s.next
          && Removed(s.cell.value.value.uid) !in s.log && ReceiptOk(s.log, s.cell.value.value))
  }

  ghost predicate Tasks(s: State) {
    forall t :: t in s.tasks ==> TaskOk(s, s.tasks[t])
  }

  ghost predicate Inv(s: State) {
    LogOk(s.log) && CellOk(s) && Tasks(s) && Apart(s)
  }

  lemma LogOkGrows(log: seq<Event>, e: Event)
    requires LogOk(log) && EventOk(log, e)
    ensures LogOk(log + [e])
    ensures forall d :: d in log + [e] <==> d in log || d == e
  {
    forall i | 0 <= i < |log + [e]| ensures EventOk((log + [e])[..i], (log + [e])[i]) {
      if i < |log| { assert (log + [e])[..i] == log[..i]; } else { assert (log + [e])[..i] == log; }
    }
  }

  ghost predicate Later(s: State, u: State) {
    && s.next <= u.next && (forall e :: e in s.log ==> e in u.log)
    && (u.cell == s.cell || u.cell.None? || u.cell.value.version >= s.next)
  }

  lemma ReceiptKept(s: State, u: State, receipt: Receipt)
    requires ReceiptOk(s.log, receipt) && Later(s, u)
    ensures ReceiptOk(u.log, receipt)
  {
    if receipt.response.Some? {
      var r: Response :| Answered(receipt.uid, r) in s.log && receipt.response.value == Retained(r);
      assert Answered(receipt.uid, r) in u.log;
    }
  }

  lemma TasksKept(s: State, u: State, t: nat)
    requires Tasks(s) && Later(s, u)
    requires forall c :: c in u.tasks && c != t ==> c in s.tasks && u.tasks[c] == s.tasks[c]
    requires forall c :: c in u.tasks && c != t && u.tasks[c].Prepared? ==> Sent(u.tasks[c].row.value.uid) !in u.log
    requires t in u.tasks ==> TaskOk(u, u.tasks[t])
    ensures Tasks(u)
  {
    forall c | c in u.tasks ensures TaskOk(u, u.tasks[c]) {
      if c != t && Holds(u.tasks[c]) {
        assert TaskOk(s, s.tasks[c]);
        ReceiptKept(s, u, u.tasks[c].row.value);
      }
    }
  }

  lemma ClaimKeeps(s: State, u: State, t: nat, fingerprint: nat)
    requires Inv(s) && s.cell.None?
    requires u == Claim(s, fingerprint).(tasks := u.tasks)
    requires u.tasks == s.tasks - {t} || u.tasks == s.tasks[t := Prepared(u.cell.value)]
    ensures Inv(u)
  {
    LogOkGrows(s.log, Claimed(s.next, fingerprint));
    forall c | c in s.tasks && Holds(s.tasks[c]) ensures s.tasks[c].row.value.uid < s.next { assert TaskOk(s, s.tasks[c]); }
    TasksKept(s, u, t);
  }

  /** The answer is stored over the receipt, if that is still the one created. */
  lemma KeepKeeps(s: State, t: nat)
    requires Inv(s) && t in s.tasks && s.tasks[t].Storing?
    ensures Inv(End(Keep(s, s.tasks[t].row, s.tasks[t].response), t))
  {
    var Storing(row, response) := s.tasks[t];
    var u := End(Keep(s, row, response), t);
    assert TaskOk(s, s.tasks[t]);
    assert Answered(row.value.uid, response) in u.log;
    TasksKept(s, u, t);
  }

  /** An event about a receipt that changes no receipt. */
  lemma EventKeeps(s: State, u: State, t: nat, e: Event)
    requires Inv(s) && EventOk(s.log, e) && !e.Claimed? && !e.Removed? && e.uid < s.next
    requires u == s.(log := s.log + [e], tasks := u.tasks)
    requires u.tasks == s.tasks - {t} ||
      (t in s.tasks && t in u.tasks && u.tasks == s.tasks[t := u.tasks[t]] && TaskOk(u, u.tasks[t]) &&
       Holds(s.tasks[t]) && Holds(u.tasks[t]) && u.tasks[t].row.value.uid == s.tasks[t].row.value.uid)
    requires e.Sent? ==> t in s.tasks && Holds(s.tasks[t]) && s.tasks[t].row.value.uid == e.uid
    ensures Inv(u)
  {
    LogOkGrows(s.log, e);
    if s.cell.Some? { ReceiptKept(s, u, s.cell.value.value); }
    forall c | c in u.tasks && c != t && u.tasks[c].Prepared? ensures Sent(u.tasks[c].row.value.uid) !in u.log {
      assert TaskOk(s, s.tasks[c]);
    }
    TasksKept(s, u, t);
  }

  lemma RemoveKeeps(s: State)
    requires Inv(s) && s.cell.Some?
    ensures Inv(Apply(s, Remove))
  {
    var u, e := Apply(s, Remove), Removed(s.cell.value.value.uid);
    LogOkGrows(s.log, e);
    forall c | c in u.tasks ensures TaskOk(u, u.tasks[c]) {
      assert TaskOk(s, s.tasks[c]);
      if Holds(u.tasks[c]) { ReceiptKept(s, u, u.tasks[c].row.value); }
    }
  }

  lemma NothingStored(s: State, u: State, t: nat)
    requires Inv(s) && u == s.(tasks := u.tasks)
    requires u.tasks == s.tasks - {t} || (t in u.tasks && u.tasks == s.tasks[t := u.tasks[t]] && !Holds(u.tasks[t]))
    ensures Inv(u)
  {
    forall c | c in u.tasks && c != t && u.tasks[c].Prepared? ensures Sent(u.tasks[c].row.value.uid) !in u.log {
      assert TaskOk(s, s.tasks[c]);
    }
    TasksKept(s, u, t);
  }

  lemma SendKeeps(s: State, t: nat)
    requires Inv(s) && t in s.tasks && s.tasks[t].Prepared?
    ensures Inv(Advance(s, t))
  {
    assert TaskOk(s, s.tasks[t]);
    var u, row := Advance(s, t), s.tasks[t].row;
    LogOkGrows(s.log, Sent(row.value.uid));
    ReceiptKept(s, u, row.value);
    assert Claimed(row.value.uid, row.value.fingerprint) in s.log;
    EventKeeps(s, u, t, Sent(row.value.uid));
  }

  lemma ReplyKeeps(s: State, t: nat, response: Response)
    requires Inv(s) && t in s.tasks && s.tasks[t].Awaiting?
    ensures Inv(Apply(s, Reply(t, response)))
  {
    assert TaskOk(s, s.tasks[t]);
    var u, row := Apply(s, Reply(t, response)), s.tasks[t].row;
    LogOkGrows(s.log, Answered(row.value.uid, response));
    ReceiptKept(s, u, row.value);
    EventKeeps(s, u, t, Answered(row.value.uid, response));
  }

  lemma StepKeepsInv(s: State, action: Action)
    requires Inv(s)
    ensures Inv(Apply(s, action))
  {
    var u := Apply(s, action);
    match action
    case Start(t, _) => if t !in s.tasks { NothingStored(s, u, t); }
    case Step(t) => if t in s.tasks { AdvanceKeeps(s, t); }
    case Reply(t, response) => if t in s.tasks && s.tasks[t].Awaiting? { ReplyKeeps(s, t, response); }
    case Throw(t, applied) =>
      if t in s.tasks {
        if applied && s.tasks[t].Claiming? && s.cell.None? { ClaimKeeps(s, u, t, s.tasks[t].fingerprint); }
        else if applied && s.tasks[t].Storing? { KeepKeeps(s, t); }
        else { NothingStored(s, u, t); }
      }
    case Remove => if s.cell.Some? { RemoveKeeps(s); }
  }

  lemma AdvanceKeeps(s: State, t: nat)
    requires Inv(s) && t in s.tasks
    ensures Inv(Advance(s, t))
  {
    var task, u := s.tasks[t], Advance(s, t);
    if task.Claiming? && s.cell.None? { ClaimKeeps(s, u, t, task.fingerprint); }
    else if task.Prepared? { SendKeeps(s, t); }
    else if task.Storing? { KeepKeeps(s, t); }
    else if task.Awaiting? {}
    else if u.log == s.log { NothingStored(s, u, t); }
    else { EventKeeps(s, u, t, u.log[|s.log|]); }
  }

  lemma {:induction false} RunKeepsInv(s: State, actions: seq<Action>)
    requires Inv(s)
    ensures Inv(Run(s, actions))
    decreases |actions|
  {
    if actions != [] {
      StepKeepsInv(s, actions[0]);
      RunKeepsInv(Apply(s, actions[0]), actions[1..]);
    }
  }

  /** The receipt behind a send. */
  lemma ClaimOf(log: seq<Event>, i: nat) returns (c: nat)
    requires LogOk(log) && i < |log| && log[i].Sent?
    ensures c < i && log[c].Claimed? && log[c].uid == log[i].uid
  {
    assert EventOk(log[..i], log[i]);
    var f: nat :| Claimed(log[i].uid, f) in log[..i];
    c :| 0 <= c < i && log[..i][c] == Claimed(log[i].uid, f);
  }

  /** A backend create is sent at most once per kept receipt: a second send is for another
      receipt, claimed after one of the two was removed. */
  lemma SentOncePerKeptReceipt(actions: seq<Action>, i: nat, j: nat)
    requires var log := Run(Init(), actions).log; i < j < |log| && log[i].Sent? && log[j].Sent?
    ensures var log := Run(Init(), actions).log;
      log[i].uid != log[j].uid && (Removed(log[i].uid) in log[..j] || Removed(log[j].uid) in log[..j])
  {
    RunKeepsInv(Init(), actions);
    var log := Run(Init(), actions).log;
    assert EventOk(log[..j], log[j]) && log[..j][i] == log[i];
    var a := ClaimOf(log, i);
    var b := ClaimOf(log, j);
    var lo, hi := if a < b then a else b, if a < b then b else a;
    assert EventOk(log[..hi], log[hi]);
    if lo < hi { assert log[..hi][lo] == log[lo]; }
    assert log[..hi] == log[..j][..hi];
  }

  /** A replay returns what is retained of the backend's own answer to the one request with this
      fingerprint, and sends nothing. */
  lemma ReplaysRepeatTheAnswer(actions: seq<Action>, i: nat)
    requires var log := Run(Init(), actions).log; i < |log| && log[i].Replayed?
    ensures var log := Run(Init(), actions).log;
      && Claimed(log[i].uid, log[i].fingerprint) in log[..i] && Removed(log[i].uid) !in log[..i]
      && exists r: Response :: Answered(log[i].uid, r) in log[..i] && log[i].response == Retained(r)
  {
    RunKeepsInv(Init(), actions);
    var log := Run(Init(), actions).log;
    assert EventOk(log[..i], log[i]);
  }

  function Answering(t: nat, fingerprint: nat, response: Response): seq<Action> {
    [Start(t, fingerprint), Step(t), Step(t), Reply(t, response), Step(t)]
  }

  function Asking(t: nat, fingerprint: nat): seq<Action> {
    [Start(t, fingerprint), Step(t), Step(t)]
  }

  lemma RunLast(s: State, first: seq<Action>, last: Action)
    ensures Run(s, first + [last]) == Apply(Run(s, first), last)
    decreases |first|
  {
    if first == [] {
      assert first + [last] == [last] && Run(Apply(s, last), [last][1..]) == Apply(s, last);
    } else {
      assert (first + [last])[1..] == first[1..] + [last];
      RunLast(Apply(s, first[0]), first[1..], last);
    }
  }

  /** A create whose answer arrives undisturbed is sent once, and its answer is kept. */
  lemma SoloAnswers(s: State, t: nat, fingerprint: nat, response: Response)
    requires t !in s.tasks && s.cell.None?
    ensures Run(s, Answering(t, fingerprint, response)) ==
      s.(cell := Some(Versioned(s.next + 1, Receipt(s.next, fingerprint, Some(Retained(response))))), next := s.next + 2,
         log := s.log + [Claimed(s.next, fingerprint), Sent(s.next), Answered(s.next, response)])
  {
    var p := Answering(t, fingerprint, response);
    var row := Versioned(s.next, Receipt(s.next, fingerprint, None));
    var s2 := Apply(Apply(s, p[0]), p[1]);
    assert s2.tasks == s.tasks[t := Prepared(row)];
    var s4 := Apply(Apply(s2, p[2]), p[3]);
    assert s4.tasks == s.tasks[t := Storing(row, response)];
    assert Apply(s4, p[4]).tasks == s.tasks;
    RunLast(s, [], p[0]);
    RunLast(s, [p[0]], p[1]);
    RunLast(s, [p[0], p[1]], p[2]);
    RunLast(s, [p[0], p[1], p[2]], p[3]);
    RunLast(s, [p[0], p[1], p[2], p[3]], p[4]);
    assert p == [p[0], p[1], p[2], p[3]] + [p[4]] && [p[0], p[1], p[2], p[3]] == [p[0], p[1], p[2]] + [p[3]];
    assert [p[0], p[1], p[2]] == [p[0], p[1]] + [p[2]] && [p[0], p[1]] == [p[0]] + [p[1]] && [p[0]] == [] + [p[0]];
  }

  /** Asked again, the same request gets the kept answer and a different one nothing; a create without
      an answer is not sent again. Nothing but the note of the replay changes. */
  lemma SoloReplays(s: State, t: nat, fingerprint: nat)
    requires t !in s.tasks && s.cell.Some?
    ensures var found := s.cell.value.value;
      Run(s, Asking(t, fingerprint)) ==
        if found.fingerprint == fingerprint && found.response.Some?
        then s.(log := s.log + [Replayed(found.uid, fingerprint, found.response.value)]) else s
  {
    var p := Asking(t, fingerprint);
    var s2 := Apply(Apply(s, p[0]), p[1]);
    assert s2.tasks == s.tasks[t := Comparing(fingerprint)];
    assert Apply(s2, p[2]).tasks == s.tasks;
    RunLast(s, [], p[0]);
    RunLast(s, [p[0]], p[1]);
    RunLast(s, [p[0], p[1]], p[2]);
    assert p == [p[0], p[1]] + [p[2]] && [p[0], p[1]] == [p[0]] + [p[1]] && [p[0]] == [] + [p[0]];
  }
}
