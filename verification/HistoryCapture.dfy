/** Capturing transcripts from a running daemon, page by page and under budgets, and publishing
    the receipt of a capture. */
module HistoryCapture {
  import opened VersionedStore
  import opened RetainedHistory

  const MAX_AGENTS := 100
  const MAX_AGENT_BYTES := 2 * 1024 * 1024
  const MAX_SNAPSHOT_BYTES := 8 * 1024 * 1024
  const SNAPSHOT_MARGIN := 65536
  const PAGE_SIZE := 50
  const MAX_ENTRIES := 1000

  /** A daemon's answer to one timeline request. */
  datatype Reply = Reply(epoch: nat, window: Window, hasOlder: bool, startCursor: Option<Cursor>, entries: seq<Entry>)

  function Size(entries: seq<Entry>): nat {
    if entries == [] then 0 else entries[0].size + Size(entries[1..])
  }

  /** What a faithful daemon answers while its timeline is `rows`. */
  function Served(rows: seq<Entry>, epoch: nat, window: Window, before: Option<Cursor>): Reply {
    var older := if before.Some? then FilterBefore(rows, before.value.at) else rows;
    var entries := LastRows(older, PAGE_SIZE);
    Reply(epoch, window, |older| > PAGE_SIZE, if entries == [] then None else Some(Cursor(epoch, entries[0].seqStart)), entries)
  }

  /** The native daemon of one agent. Its rows change only as its next sequence number grows; a steady
      one always answers, and does not move. `answered` is what its rows were at each answer. */
  class Daemon {
    const faithful: bool
    const steady: bool
    var rows: seq<Entry>
    var window: Window
    const epoch: nat
    ghost var answered: seq<seq<Entry>>

    constructor (faithful: bool, steady: bool, epoch: nat, rows: seq<Entry>, window: Window)
      ensures this.faithful == faithful && this.steady == steady
      ensures this.epoch == epoch && this.rows == rows && this.window == window
    {
      this.faithful, this.steady, this.epoch, this.rows, this.window := faithful, steady, epoch, rows, window;
      answered := [];
    }

    /** Its rows are in order. */
    predicate Valid()
      reads this
    {
      Ordered(rows)
    }

    predicate Grows(rows: seq<Entry>, window: Window, later: (seq<Entry>, Window)) {
      later == (rows, window) || (later.1.nextSeq > window.nextSeq && Ordered(later.0))
    }

    predicate MayAnswer(reply: Reply, before: Option<Cursor>)
      reads this
    {
      faithful ==> reply == Served(rows, epoch, window, before)
    }

    /** A request fails, or is answered; a daemon that is not faithful answers anything. */
    method Fetch(before: Option<Cursor>) returns (reply: Option<Reply>)
      requires Valid()
      modifies this
      ensures Valid() && window.nextSeq >= old(window.nextSeq)
      ensures window.nextSeq == old(window.nextSeq) ==> window == old(window) && rows == old(rows)
      ensures faithful && reply.Some? ==> reply.value == Served(rows, epoch, window, before)
      ensures steady ==> reply.Some? && rows == old(rows) && window == old(window)
      ensures answered == if reply.Some? then old(answered) + [rows] else old(answered)
    {
      var failed: bool := *;
      if failed && !steady { return None; }
      var later: (seq<Entry>, Window) :| Grows(rows, window, later) && (steady ==> later == (rows, window))
        by { assert Grows(rows, window, (rows, window)); }
      assert Grows(rows, window, later);
      rows, window := later.0, later.1;
      var answer: Reply :| MayAnswer(answer, before) by { assert MayAnswer(Served(rows, epoch, window, before), before); }
      assert MayAnswer(answer, before);
      reply, answered := Some(answer), answered + [rows];
    }
  }

  datatype Capture = Capture(first: Reply, entries: seq<Entry>, truncated: bool)

  ghost predicate Budgeted(entries: seq<Entry>) {
    |entries| <= MAX_ENTRIES && Size(entries) <= MAX_AGENT_BYTES
  }

  /** The capture is a stretch of `whole` up to its end, and all of it unless truncated. */
  ghost predicate SuffixOf(entries: seq<Entry>, truncated: bool, whole: seq<Entry>) {
    exists k :: 0 <= k <= |whole| && entries == whole[k..] && (!truncated ==> k == 0)
  }

  /** The capture ends with the page that the budgets refused, and holds every page after it. */
  ghost predicate EndsAtBudget(entries: seq<Entry>, whole: seq<Entry>, pages: nat) {
    && PAGE_SIZE * pages <= |whole| && entries == whole[|whole| - PAGE_SIZE * pages..]
    && !Budgeted(whole[Max0(|whole| - PAGE_SIZE * pages - PAGE_SIZE)..])
  }

  /** The whole timeline, or, marked as truncated, as many pages from its end as the budgets take. */
  ghost predicate Largest(entries: seq<Entry>, truncated: bool, whole: seq<Entry>) {
    if truncated then exists pages: nat :: EndsAtBudget(entries, whole, pages) else entries == whole
  }

  lemma OlderPage(whole: seq<Entry>, k: nat, epoch: nat, window: Window) returns (j: nat)
    requires Ordered(whole) && k < |whole|
    ensures var page := Served(whole, epoch, window, Some(Cursor(epoch, whole[k].seqStart)));
      && j <= k && page.entries == whole[j..k] && (page.hasOlder <==> j > 0) && (k > 0 ==> j < k)
      && (j < k ==> page.startCursor == Some(Cursor(epoch, whole[j].seqStart))) && j == Max0(k - PAGE_SIZE)
  {
    BeforeIsPrefix(whole, k);
    j := Max0(k - PAGE_SIZE);
  }

  lemma {:induction false} SuffixSize(rows: seq<Entry>, k: nat)
    requires k <= |rows|
    ensures Size(rows[k..]) <= Size(rows)
  {
    if k > 0 {
      SuffixSize(rows[1..], k - 1);
      assert rows[k..] == rows[1..][k - 1..];
    } else {
      assert rows[0..] == rows;
    }
  }

  lemma StretchJoins(whole: seq<Entry>, j: nat, k: nat)
    requires j <= k <= |whole|
    ensures whole[j..k] + whole[k..] == whole[j..]
  {
  }

  /** The page is within the budgets, and is the oldest or leads on. */
  ghost predicate Goes(entries: seq<Entry>, page: Reply, seen: set<Cursor>) {
    && Budgeted(page.entries + entries)
    && (page.hasOlder ==> page.startCursor.Some? && page.entries != [] && page.startCursor.value !in seen)
  }

  /** One page in front of the entries so far, and whether an older page may follow: not when that
      exceeds the budgets, nor when the page leads nowhere or back, which falls back to the first. */
  method TakePage(baseline: Reply, entries: seq<Entry>, page: Reply, seen: set<Cursor>)
    returns (grown: seq<Entry>, truncated: bool, more: bool)
    requires Budgeted(entries) && (page.hasOlder && page.startCursor.Some? && page.startCursor.value in seen ==> Budgeted(baseline.entries))
    ensures Budgeted(grown)
    ensures truncated <==> !Goes(entries, page, seen)
    ensures !Budgeted(page.entries + entries) ==> grown == entries
    ensures more ==> page.startCursor.Some?
    ensures truncated ==> !more && (grown == entries || grown == baseline.entries || (grown == page.entries + entries && page.hasOlder))
    ensures !truncated ==> grown == page.entries + entries && (more <==> page.hasOlder)
    ensures more ==> |grown| > |entries|
  {
    grown, truncated, more := page.entries + entries, false, false;
    if Size(grown) > MAX_AGENT_BYTES || |grown| > MAX_ENTRIES { return entries, true, false; }
    if !page.hasOlder { return; }
    if page.startCursor.None? || page.entries == [] {
      truncated := true;
    } else if page.startCursor.value in seen {
      grown, truncated := baseline.entries, true;
    } else {
      more := true;
    }
  }

  // ----- A faithful daemon -----

  /** The cursor of the oldest row captured, row k. */
  function CursorAt(whole: seq<Entry>, epoch: nat, k: nat): Option<Cursor>
    requires k <= |whole|
  {
    if k == |whole| then None else Some(Cursor(epoch, whole[k].seqStart))
  }

  ghost predicate SeenBehind(seen: set<Cursor>, whole: seq<Entry>, k: nat)
    requires k <= |whole|
  {
    forall c :: c in seen ==> k < |whole| && c.at >= whole[k].seqStart
  }

  lemma TailIsSuffix(whole: seq<Entry>, epoch: nat, window: Window)
    ensures SuffixOf(Served(whole, epoch, window, None).entries, true, whole)
  {
    var k := Max0(|whole| - PAGE_SIZE);
    assert Served(whole, epoch, window, None).entries == whole[k..];
  }

  /** The page before row k, and before the end, is the rows right before it. */
  lemma PageIsStretch(whole: seq<Entry>, k: nat, epoch: nat, window: Window) returns (j: nat)
    requires Ordered(whole) && k <= |whole|
    ensures var page := Served(whole, epoch, window, CursorAt(whole, epoch, k));
      && j <= k && page.entries == whole[j..k] && (page.hasOlder <==> j > 0) && (k > 0 ==> j < k)
      && j == Max0(k - PAGE_SIZE)
      && (j < k ==> page.startCursor == Some(Cursor(epoch, whole[j].seqStart)) && (k < |whole| ==> whole[j].seqStart < whole[k].seqStart))
  {
    if k < |whole| {
      j := OlderPage(whole, k, epoch, window);
      OrderedAt(whole, j, k);
    } else {
      j := Max0(|whole| - PAGE_SIZE);
    }
  }

  /** What a page of a faithful daemon makes of the capture; it goes exactly if the budgets take it. */
  lemma PageGoesIff(whole: seq<Entry>, k: nat, epoch: nat, window: Window, seen: set<Cursor>)
    requires Ordered(whole) && k <= |whole| && SeenBehind(seen, whole, k)
    ensures var page := Served(whole, epoch, window, CursorAt(whole, epoch, k)); var j := Max0(k - PAGE_SIZE);
      && page.entries + whole[k..] == whole[j..]
      && (Goes(whole[k..], page, seen) <==> Budgeted(whole[j..]))
      && (page.hasOlder <==> j > 0)
      && (j > 0 ==> page.startCursor == CursorAt(whole, epoch, j) && page.startCursor.Some? &&
                    SeenBehind(seen + {page.startCursor.value}, whole, j))
  {
    var j := PageIsStretch(whole, k, epoch, window);
    StretchJoins(whole, j, k);
  }

  /** The timeline is still the one of the first page, or its next sequence number has grown. */
  ghost predicate Unmoved(d: Daemon, whole: seq<Entry>, opening: Window)
    reads d
  {
    && d.window.nextSeq >= opening.nextSeq
    && (d.window.nextSeq == opening.nextSeq ==> d.rows == whole && d.window == opening)
  }

  /** How far the loop is on a faithful daemon whose timeline was `whole` at the first page: it holds the
      last `pages` pages. */
  ghost predicate Progress(whole: seq<Entry>, epoch: nat, first: Reply, entries: seq<Entry>, pages: nat, before: Option<Cursor>,
                           seen: set<Cursor>, truncated: bool, more: bool) {
    && Ordered(whole) && first == Served(whole, epoch, first.window, None)
    && (more ==> Holds(whole, epoch, entries, pages, before, seen))
    && (!more ==> SuffixOf(entries, truncated, whole))
  }

  ghost predicate Holds(whole: seq<Entry>, epoch: nat, entries: seq<Entry>, pages: nat, before: Option<Cursor>, seen: set<Cursor>) {
    && PAGE_SIZE * pages <= |whole|
    && var k := |whole| - PAGE_SIZE * pages;
      entries == whole[k..] && before == CursorAt(whole, epoch, k) && SeenBehind(seen, whole, k)
  }

  lemma FallsBack(whole: seq<Entry>, epoch: nat, first: Reply, pages: nat, before: Option<Cursor>, seen: set<Cursor>)
    requires Ordered(whole) && first == Served(whole, epoch, first.window, None)
    ensures Progress(whole, epoch, first, first.entries, pages, before, seen, true, false)
  {
    TailIsSuffix(whole, epoch, first.window);
  }

  lemma LargestIsSuffix(entries: seq<Entry>, truncated: bool, whole: seq<Entry>)
    requires Largest(entries, truncated, whole)
    ensures SuffixOf(entries, truncated, whole)
    ensures Budgeted(whole) ==> !truncated
  {
    if truncated {
      var pages: nat :| EndsAtBudget(entries, whole, pages);
      SuffixSize(whole, Max0(|whole| - PAGE_SIZE * pages - PAGE_SIZE));
    } else {
      assert entries == whole[0..];
    }
  }

  /** A page is taken and, if an older one may follow, its cursor is next. `faithful`: it is a faithful
      daemon's, and the last `pages` pages of its timeline are captured. */
  method NextPage(baseline: Reply, entries: seq<Entry>, page: Reply, before: Option<Cursor>, seen: set<Cursor>,
                  ghost faithful: bool, ghost whole: seq<Entry>, ghost pages: nat, ghost epoch: nat)
    returns (grown: seq<Entry>, truncated: bool, more: bool, next: Option<Cursor>, marked: set<Cursor>)
    requires Budgeted(entries) && (seen == {} || Budgeted(baseline.entries))
    requires faithful ==> Ordered(whole) && Holds(whole, epoch, entries, pages, before, seen)
    requires faithful ==> baseline == Served(whole, epoch, baseline.window, None) && page == Served(whole, epoch, baseline.window, before)
    ensures Budgeted(grown) && (more ==> |grown| > |entries| && next.Some? && Budgeted(page.entries + entries))
    ensures faithful ==> Progress(whole, epoch, baseline, grown, pages + 1, next, marked, truncated, more)
    ensures faithful && !more ==> Largest(grown, truncated, whole)
  {
    grown, truncated, more := TakePage(baseline, entries, page, seen);
    next, marked := None, seen;
    if more { next, marked := page.startCursor, seen + {page.startCursor.value}; }
    if faithful {
      if more { PageLeadsOn(whole, epoch, baseline.window, entries, pages, before, seen); }
      else {
        PageEnds(whole, epoch, baseline.window, entries, pages, before, seen, grown, truncated);
        LargestIsSuffix(grown, truncated, whole);
      }
    }
  }

  /** A page with an older one before it, taken: one page more is held. */
  lemma PageLeadsOn(whole: seq<Entry>, epoch: nat, window: Window, entries: seq<Entry>, pages: nat, before: Option<Cursor>, seen: set<Cursor>)
    requires Ordered(whole) && Holds(whole, epoch, entries, pages, before, seen)
    requires Goes(entries, Served(whole, epoch, window, before), seen) && Served(whole, epoch, window, before).hasOlder
    ensures var page := Served(whole, epoch, window, before);
      Holds(whole, epoch, page.entries + entries, pages + 1, page.startCursor, seen + {page.startCursor.value})
  {
    PageGoesIff(whole, |whole| - PAGE_SIZE * pages, epoch, window, seen);
  }

  /** A page behind which the loop ends: all is held, or the budgets refused the page. */
  lemma PageEnds(whole: seq<Entry>, epoch: nat, window: Window, entries: seq<Entry>, pages: nat, before: Option<Cursor>, seen: set<Cursor>,
                 grown: seq<Entry>, truncated: bool)
    requires Ordered(whole) && Holds(whole, epoch, entries, pages, before, seen)
    requires var page := Served(whole, epoch, window, before);
      && (truncated <==> !Goes(entries, page, seen)) && (!Budgeted(page.entries + entries) ==> grown == entries)
      && (!truncated ==> grown == page.entries + entries && !page.hasOlder)
    ensures Largest(grown, truncated, whole)
  {
    PageGoesIff(whole, |whole| - PAGE_SIZE * pages, epoch, window, seen);
    if truncated { assert EndsAtBudget(grown, whole, pages); } else { assert whole[0..] == whole; }
  }

  /** The page loop for one agent. None when the first page fails. Whatever the daemon answers, the
      loop ends and stays within its budgets. A faithful daemon's capture is a contiguous suffix of
      the timeline as it stood at the first answer to this call, and the whole of it unless marked
      truncated. If the daemon holds still, it is the whole timeline when the budgets take it, and
      else as many pages from its end as they take. */
  method CaptureTimeline(d: Daemon) returns (result: Option<Capture>, ghost whole: seq<Entry>)
    requires d.Valid()
    modifies d
    ensures old(d.answered) <= d.answered
    ensures result.Some? ==> |d.answered| > |old(d.answered)| && whole == d.answered[|old(d.answered)|]
    ensures result.Some? ==> Budgeted(result.value.entries)
    ensures result.Some? && d.faithful ==> SuffixOf(result.value.entries, result.value.truncated, whole)
    ensures d.Valid() && (d.steady ==> d.rows == old(d.rows))
    ensures d.faithful && d.steady ==> result.Some? && Largest(result.value.entries, result.value.truncated, old(d.rows))
  {
    whole := [];
    var entries: seq<Entry> := [];
    var first: Option<Reply> := None;
    var before: Option<Cursor> := None;
    var truncated, more := false, true;
    var seen: set<Cursor> := {};
    ghost var pages: nat, start := 0, |d.answered|;
    ghost var calm := d.faithful && d.steady;
    while more
      invariant d.Valid() && Budgeted(entries)
      invariant old(d.answered) <= d.answered && (first.Some? ==> |d.answered| > start && whole == d.answered[start])
      invariant first.None? ==> entries == [] && before.None? && more && !truncated && seen == {} && |d.answered| == start
      invariant first.Some? && more ==> Budgeted(first.value.entries)
      invariant d.faithful && first.Some? ==> Progress(whole, d.epoch, first.value, entries, pages, before, seen, truncated, more)
      invariant d.faithful && first.Some? ==> Unmoved(d, whole, first.value.window)
      invariant d.steady ==> d.rows == old(d.rows) && (first.Some? ==> whole == d.rows)
      invariant calm && first.Some? ==> first.value.window == d.window && (!more ==> Largest(entries, truncated, whole))
      decreases if more then 1 + MAX_ENTRIES - |entries| else 0
    {
      var page := d.Fetch(before);
      if page.None? && first.None? { return None, whole; }
      if page.None? || (first.Some? && (first.value.epoch != page.value.epoch || first.value.window.nextSeq != page.value.window.nextSeq)) {
        entries, truncated, more := first.value.entries, true, false;
        if d.faithful { FallsBack(whole, d.epoch, first.value, pages, before, seen); }
      } else {
        if first.None? {
          first, whole, pages := page, d.rows, 0;
          assert whole[|whole|..] == [] && page.value.entries + [] == page.value.entries;
        }
        entries, truncated, more, before, seen :=
          NextPage(first.value, entries, page.value, before, seen, d.faithful, whole, pages, d.epoch);
        pages := pages + 1;
      }
    }
    result := Some(Capture(first.value, entries, truncated));
  }

  // ----- The snapshot of a workspace -----

  function SnapshotSize(agents: seq<Capture>): nat {
    if agents == [] then 0 else Size(agents[0].entries) + SnapshotSize(agents[1..])
  }

  lemma {:induction false} SnapshotSizeGrows(agents: seq<Capture>, agent: Capture)
    ensures SnapshotSize(agents + [agent]) == SnapshotSize(agents) + Size(agent.entries)
  {
    if agents != [] {
      SnapshotSizeGrows(agents[1..], agent);
      assert (agents + [agent])[1..] == agents[1..] + [agent];
    } else {
      assert (agents + [agent])[1..] == [];
    }
  }

  /** The sizes of the timelines from number i on. */
  function RowsSize(timelines: seq<seq<Entry>>, i: nat): nat
    requires i <= |timelines|
    decreases |timelines| - i
  {
    if i == |timelines| then 0 else Size(timelines[i]) + RowsSize(timelines, i + 1)
  }

  ghost function Timelines(daemons: seq<Daemon>): (timelines: seq<seq<Entry>>)
    reads daemons
    ensures |timelines| == |daemons| && forall i :: 0 <= i < |daemons| ==> timelines[i] == daemons[i].rows
  {
    seq(|daemons|, i requires 0 <= i < |daemons| reads daemons => daemons[i].rows)
  }

  ghost predicate AllFaithful(daemons: seq<Daemon>) {
    forall d :: d in daemons ==> d.faithful
  }

  /** Every daemon holds still and answers faithfully, and all their timelines fit the budgets. */
  ghost predicate AllFit(daemons: seq<Daemon>, timelines: seq<seq<Entry>>) {
    && AllFaithful(daemons) && (forall d :: d in daemons ==> d.steady)
    && |timelines| <= MAX_AGENTS && RowsSize(timelines, 0) <= MAX_SNAPSHOT_BYTES - SNAPSHOT_MARGIN
    && forall t :: t in timelines ==> Budgeted(t)
  }

  ghost predicate AllBudgeted(agents: seq<Capture>) {
    && |agents| <= MAX_AGENTS && SnapshotSize(agents) <= MAX_SNAPSHOT_BYTES - SNAPSHOT_MARGIN
    && forall c :: c in agents ==> Budgeted(c.entries)
  }

  /** What each daemon's rows were at each of its answers. */
  ghost function Logs(daemons: seq<Daemon>): (logs: seq<seq<seq<Entry>>>)
    reads daemons
    ensures |logs| == |daemons| && forall i :: 0 <= i < |daemons| ==> logs[i] == daemons[i].answered
  {
    seq(|daemons|, i requires 0 <= i < |daemons| reads daemons => daemons[i].answered)
  }

  ghost predicate LogsGrow(before: seq<seq<seq<Entry>>>, after: seq<seq<seq<Entry>>>) {
    |before| == |after| && forall i :: 0 <= i < |before| ==> before[i] <= after[i]
  }

  /** The daemon answered since, when its rows were these. */
  ghost predicate AnsweredSince(before: seq<seq<Entry>>, after: seq<seq<Entry>>, whole: seq<Entry>) {
    exists n :: |before| <= n < |after| && after[n] == whole
  }

  /** Each capture is of a daemon of its own, in the order of the listing: a suffix of its timeline as it
      stood at an answer to this call. */
  ghost predicate AllCaptured(before: seq<seq<seq<Entry>>>, after: seq<seq<seq<Entry>>>, faithful: seq<bool>, agents: seq<Capture>,
                              sources: seq<nat>, wholes: seq<seq<Entry>>) {
    && |before| == |after| == |faithful| && |sources| == |wholes| == |agents|
    && (forall j :: 0 <= j < |agents| ==> sources[j] < |after|)
    && (forall j, k :: 0 <= j < k < |agents| ==> sources[j] < sources[k])
    && forall j :: 0 <= j < |agents| ==> CapturedFrom(before, after, faithful, agents[j], sources[j], wholes[j])
  }

  ghost predicate CapturedFrom(before: seq<seq<seq<Entry>>>, after: seq<seq<seq<Entry>>>, faithful: seq<bool>, c: Capture, i: nat, whole: seq<Entry>)
    requires |before| == |after| == |faithful| && i < |after|
  {
    AnsweredSince(before[i], after[i], whole) && (faithful[i] ==> SuffixOf(c.entries, c.truncated, whole))
  }

  lemma StillCaptured(before: seq<seq<seq<Entry>>>, middle: seq<seq<seq<Entry>>>, after: seq<seq<seq<Entry>>>, faithful: seq<bool>,
                      c: Capture, i: nat, whole: seq<Entry>)
    requires |before| == |middle| == |faithful| && i < |middle| && CapturedFrom(before, middle, faithful, c, i, whole) && LogsGrow(middle, after)
    ensures CapturedFrom(before, after, faithful, c, i, whole)
  {
    var n :| |before[i]| <= n < |middle[i]| && middle[i][n] == whole;
    assert after[i][n] == whole;
  }

  /** One more capture, of a daemon later in the listing. */
  lemma OneMoreCaptured(before: seq<seq<seq<Entry>>>, middle: seq<seq<seq<Entry>>>, after: seq<seq<seq<Entry>>>, faithful: seq<bool>,
                        agents: seq<Capture>, sources: seq<nat>, wholes: seq<seq<Entry>>, c: Capture, i: nat, whole: seq<Entry>)
    requires AllCaptured(before, middle, faithful, agents, sources, wholes) && LogsGrow(before, middle) && LogsGrow(middle, after)
    requires i < |after| && (forall j :: 0 <= j < |sources| ==> sources[j] < i) && CapturedFrom(middle, after, faithful, c, i, whole)
    ensures AllCaptured(before, after, faithful, agents, sources, wholes)
    ensures AllCaptured(before, after, faithful, agents + [c], sources + [i], wholes + [whole])
  {
    forall j | 0 <= j < |agents| ensures CapturedFrom(before, after, faithful, agents[j], sources[j], wholes[j]) {
      StillCaptured(before, middle, after, faithful, agents[j], sources[j], wholes[j]);
    }
    var n :| |middle[i]| <= n < |after[i]| && after[i][n] == whole;
    assert AnsweredSince(before[i], after[i], whole);
  }

  lemma AllStillCaptured(before: seq<seq<seq<Entry>>>, middle: seq<seq<seq<Entry>>>, after: seq<seq<seq<Entry>>>, faithful: seq<bool>,
                         agents: seq<Capture>, sources: seq<nat>, wholes: seq<seq<Entry>>)
    requires AllCaptured(before, middle, faithful, agents, sources, wholes) && LogsGrow(middle, after)
    ensures AllCaptured(before, after, faithful, agents, sources, wholes)
  {
    forall j | 0 <= j < |agents| ensures CapturedFrom(before, after, faithful, agents[j], sources[j], wholes[j]) {
      StillCaptured(before, middle, after, faithful, agents[j], sources[j], wholes[j]);
    }
  }

  ghost function Faithful(daemons: seq<Daemon>): seq<bool> {
    seq(|daemons|, i requires 0 <= i < |daemons| => daemons[i].faithful)
  }

  /** The first timelines, whole. */
  ghost predicate AllWhole(agents: seq<Capture>, timelines: seq<seq<Entry>>) {
    |agents| <= |timelines| && forall i :: 0 <= i < |agents| ==> agents[i].entries == timelines[i] && !agents[i].truncated
  }

  /** What the snapshot may still take is at least what is still to come. */
  lemma NextFits(agents: seq<Capture>, timelines: seq<seq<Entry>>, c: Capture)
    requires |agents| < |timelines| && AllFitSoFar(timelines, agents, |agents|) && c.entries == timelines[|agents|] && !c.truncated
    ensures AllFitSoFar(timelines, agents + [c], |agents| + 1)
  {
    SnapshotSizeGrows(agents, c);
  }

  /** What was captured of the first `i` daemons, whose answers so far are `logs`. */
  ghost predicate CapturedSoFar(start: seq<seq<seq<Entry>>>, logs: seq<seq<seq<Entry>>>, faithful: seq<bool>, agents: seq<Capture>,
                                sources: seq<nat>, wholes: seq<seq<Entry>>, i: nat) {
    && LogsGrow(start, logs) && AllCaptured(start, logs, faithful, agents, sources, wholes)
    && |agents| <= i && forall j :: 0 <= j < |sources| ==> sources[j] < i
  }

  /** Everything so far, and room for everything to come. */
  ghost predicate AllFitSoFar(timelines: seq<seq<Entry>>, agents: seq<Capture>, i: nat)
    requires i <= |timelines|
  {
    |agents| == i && AllWhole(agents, timelines) && SnapshotSize(agents) + RowsSize(timelines, i) <= MAX_SNAPSHOT_BYTES - SNAPSHOT_MARGIN
  }

  /** The agents of one listing. An agent whose first page fails is skipped, or fails the capture when
      nothing was captured yet; the capture stops at the first agent over the snapshot's budget. When
      the daemons hold still and everything fits, everything is captured. */
  method CaptureAgents(daemons: seq<Daemon>)
    returns (result: Option<seq<Capture>>, ghost sources: seq<nat>, ghost wholes: seq<seq<Entry>>)
    requires forall d :: d in daemons ==> d.Valid()
    modifies daemons
    ensures result.Some? ==> AllBudgeted(result.value) && |result.value| <= |daemons|
    ensures result.Some? ==> AllCaptured(old(Logs(daemons)), Logs(daemons), Faithful(daemons), result.value, sources, wholes)
    ensures AllFit(daemons, old(Timelines(daemons))) ==>
      result.Some? && |result.value| == |daemons| && AllWhole(result.value, old(Timelines(daemons)))
  {
    ghost var timelines, start, logs := Timelines(daemons), Logs(daemons), Logs(daemons);
    ghost var fits := AllFit(daemons, timelines);
    sources, wholes := [], [];
    var agents: seq<Capture> := [];
    var i, exhausted, failed := 0, false, false;
    while i < |daemons| && !exhausted && !failed
      decreases |daemons| - i, !exhausted
      invariant 0 <= i <= |daemons| && AllBudgeted(agents) && logs == Logs(daemons)
      invariant forall d :: d in daemons ==> d.Valid()
      invariant CapturedSoFar(start, logs, Faithful(daemons), agents, sources, wholes, i)
      invariant fits ==> Timelines(daemons) == timelines && !exhausted && !failed && AllFitSoFar(timelines, agents, i)
    {
      if i + 1 > MAX_AGENTS {
        exhausted := true;
      } else {
        failed, agents, exhausted, sources, wholes := CaptureNext(daemons, i, agents, start, sources, wholes, timelines);
        logs := Logs(daemons);
        i := i + 1;
      }
    }
    result := if failed then None else Some(agents);
  }

  /** The agent after the first `i`. */
  method CaptureNext(daemons: seq<Daemon>, i: nat, agents: seq<Capture>, ghost start: seq<seq<seq<Entry>>>, ghost sources: seq<nat>,
                     ghost wholes: seq<seq<Entry>>, ghost timelines: seq<seq<Entry>>)
    returns (failed: bool, more: seq<Capture>, exhausted: bool, ghost moreSources: seq<nat>, ghost moreWholes: seq<seq<Entry>>)
    requires i < |daemons| && i < MAX_AGENTS && AllBudgeted(agents) && forall d :: d in daemons ==> d.Valid()
    requires CapturedSoFar(start, Logs(daemons), Faithful(daemons), agents, sources, wholes, i)
    requires AllFit(daemons, timelines) ==> timelines == Timelines(daemons) && AllFitSoFar(timelines, agents, i)
    modifies daemons
    ensures AllBudgeted(more) && forall d :: d in daemons ==> d.Valid()
    ensures CapturedSoFar(start, Logs(daemons), Faithful(daemons), more, moreSources, moreWholes, i + 1)
    ensures AllFit(daemons, timelines) ==>
      timelines == Timelines(daemons) && !exhausted && !failed && AllFitSoFar(timelines, more, i + 1)
  {
    ghost var middle := Logs(daemons);
    var captured, whole := CaptureAgent(daemons, i);
    failed, more, exhausted, moreSources, moreWholes :=
      KeepAgent(i, agents, captured, start, middle, Logs(daemons), Faithful(daemons), sources, wholes, whole, AllFit(daemons, timelines), timelines);
  }

  /** What the capture of the agent behind the first `i` makes of the agents so far. */
  method KeepAgent(i: nat, agents: seq<Capture>, captured: Option<Capture>,
                   ghost start: seq<seq<seq<Entry>>>, ghost middle: seq<seq<seq<Entry>>>, ghost after: seq<seq<seq<Entry>>>,
                   ghost faithful: seq<bool>, ghost sources: seq<nat>, ghost wholes: seq<seq<Entry>>, ghost whole: seq<Entry>,
                   ghost fits: bool, ghost timelines: seq<seq<Entry>>)
    returns (failed: bool, more: seq<Capture>, exhausted: bool, ghost moreSources: seq<nat>, ghost moreWholes: seq<seq<Entry>>)
    requires i < MAX_AGENTS && AllBudgeted(agents) && (captured.Some? ==> Budgeted(captured.value.entries))
    requires CapturedSoFar(start, middle, faithful, agents, sources, wholes, i) && LogsGrow(middle, after)
    requires captured.Some? ==> i < |after| && CapturedFrom(middle, after, faithful, captured.value, i, whole)
    requires fits ==> i < |timelines| && AllFitSoFar(timelines, agents, i)
    requires fits ==> captured.Some? && captured.value.entries == timelines[i] && !captured.value.truncated
    ensures AllBudgeted(more) && CapturedSoFar(start, after, faithful, more, moreSources, moreWholes, i + 1)
    ensures fits ==> !exhausted && !failed && AllFitSoFar(timelines, more, i + 1)
  {
    failed, more, exhausted, moreSources, moreWholes := false, agents, false, sources, wholes;
    SkippedSoFar(start, middle, after, faithful, agents, sources, wholes, i);
    if captured.None? {
      failed := agents == [];
      return;
    }
    more, exhausted := AddAgent(agents, captured.value);
    if fits { NextFits(agents, timelines, captured.value); }
    if !exhausted {
      AddedSoFar(start, middle, after, faithful, agents, sources, wholes, i, captured.value, whole);
      moreSources, moreWholes := sources + [i], wholes + [whole];
    }
  }

  lemma SkippedSoFar(start: seq<seq<seq<Entry>>>, middle: seq<seq<seq<Entry>>>, after: seq<seq<seq<Entry>>>, faithful: seq<bool>,
                     agents: seq<Capture>, sources: seq<nat>, wholes: seq<seq<Entry>>, i: nat)
    requires CapturedSoFar(start, middle, faithful, agents, sources, wholes, i) && LogsGrow(middle, after)
    ensures CapturedSoFar(start, after, faithful, agents, sources, wholes, i + 1)
  {
    AllStillCaptured(start, middle, after, faithful, agents, sources, wholes);
  }

  lemma AddedSoFar(start: seq<seq<seq<Entry>>>, middle: seq<seq<seq<Entry>>>, after: seq<seq<seq<Entry>>>, faithful: seq<bool>,
                   agents: seq<Capture>, sources: seq<nat>, wholes: seq<seq<Entry>>, i: nat, c: Capture, whole: seq<Entry>)
    requires CapturedSoFar(start, middle, faithful, agents, sources, wholes, i) && LogsGrow(middle, after)
    requires i < |after| && CapturedFrom(middle, after, faithful, c, i, whole)
    ensures CapturedSoFar(start, after, faithful, agents + [c], sources + [i], wholes + [whole], i + 1)
  {
    OneMoreCaptured(start, middle, after, faithful, agents, sources, wholes, c, i, whole);
  }

  /** One more agent, unless that exceeds the snapshot's budget. */
  method AddAgent(agents: seq<Capture>, captured: Capture) returns (more: seq<Capture>, exhausted: bool)
    requires AllBudgeted(agents) && |agents| < MAX_AGENTS && Budgeted(captured.entries)
    ensures exhausted <==> SnapshotSize(agents + [captured]) > MAX_SNAPSHOT_BYTES - SNAPSHOT_MARGIN
    ensures AllBudgeted(more) && more == if exhausted then agents else agents + [captured]
  {
    more := agents + [captured];
    exhausted := SnapshotSize(more) > MAX_SNAPSHOT_BYTES - SNAPSHOT_MARGIN;
    if exhausted { more := agents; }
  }

  /** One of the daemons; the others may be the same object, and move only with it. */
  method CaptureAgent(daemons: seq<Daemon>, i: nat) returns (captured: Option<Capture>, ghost whole: seq<Entry>)
    requires i < |daemons| && forall d :: d in daemons ==> d.Valid()
    modifies daemons
    ensures (forall d :: d in daemons ==> d.Valid()) && LogsGrow(old(Logs(daemons)), Logs(daemons))
    ensures captured.Some? ==> Budgeted(captured.value.entries)
    ensures captured.Some? ==> CapturedFrom(old(Logs(daemons)), Logs(daemons), Faithful(daemons), captured.value, i, whole)
    ensures AllFit(daemons, old(Timelines(daemons))) ==>
      && Timelines(daemons) == old(Timelines(daemons)) && captured.Some?
      && captured.value.entries == Timelines(daemons)[i] && !captured.value.truncated
  {
    ghost var timelines := Timelines(daemons);
    assert timelines[i] in timelines && daemons[i] in daemons;
    captured, whole := CaptureTimeline(daemons[i]);
    if AllFit(daemons, timelines) {
      assert Timelines(daemons) == timelines;
      LargestIsSuffix(captured.value.entries, captured.value.truncated, timelines[i]);
    }
  }
}
