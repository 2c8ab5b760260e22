/** Pages of a retained transcript: what one request selects, and what walking the pages yields. */
module RetainedHistory {
  import opened VersionedStore

  const MAX_PAGE := 200

  /** A projected row covers the events seqStart..seqEnd; `size` is its encoded length. */
  datatype Entry = Entry(seqStart: int, seqEnd: int, size: nat)

  datatype Cursor = Cursor(epoch: nat, at: int)
  datatype Window = Window(minSeq: int, maxSeq: int, nextSeq: int)
  datatype History = History(epoch: nat, window: Window, entries: seq<Entry>, truncated: bool)

  datatype Direction = Tail | Before | After
  datatype Problem = NoSnapshot | OverBudget | NotRetained
  datatype Request = Request(direction: Direction, cursor: Option<Cursor>, limit: Option<int>)
  datatype Page = Page(entries: seq<Entry>, reset: bool, staleCursor: bool, gap: bool, startCursor: Option<Cursor>,
                       endCursor: Option<Cursor>, hasOlder: bool, hasNewer: bool, error: Option<Problem>)

  /** Rows in order, none overlapping another. */
  predicate Ordered(rows: seq<Entry>) {
    rows != [] ==>
      && rows[0].seqStart <= rows[0].seqEnd
      && (|rows| > 1 ==> rows[0].seqEnd < rows[1].seqStart)
      && Ordered(rows[1..])
  }

  lemma {:induction false} OrderedAt(rows: seq<Entry>, i: nat, j: nat)
    requires Ordered(rows) && i <= j < |rows|
    ensures rows[i].seqStart <= rows[i].seqEnd && rows[j].seqStart <= rows[j].seqEnd
    ensures i < j ==> rows[i].seqEnd < rows[j].seqStart
  {
    if i > 0 {
      OrderedAt(rows[1..], i - 1, j - 1);
    } else if j > 0 {
      OrderedAt(rows[1..], 0, j - 1);
    }
  }

  function FilterBefore(rows: seq<Entry>, point: int): seq<Entry> {
    if rows == [] then []
    else (if rows[0].seqEnd < point then [rows[0]] else []) + FilterBefore(rows[1..], point)
  }

  function FilterAfter(rows: seq<Entry>, point: int): seq<Entry> {
    if rows == [] then []
    else (if rows[0].seqStart > point then [rows[0]] else []) + FilterAfter(rows[1..], point)
  }

  function LastRows(rows: seq<Entry>, n: nat): seq<Entry> {
    if |rows| <= n then rows else rows[|rows| - n..]
  }

  function FirstRows(rows: seq<Entry>, n: nat): seq<Entry> {
    if |rows| <= n then rows else rows[..n]
  }

  function Limit(request: Request): nat {
    if request.limit.Some? && request.limit.value > 0 then
      if request.limit.value < MAX_PAGE then request.limit.value else MAX_PAGE
    else MAX_PAGE
  }

  function MinSaved(h: History): int {
    if h.entries == [] then h.window.minSeq else h.entries[0].seqStart
  }

  function MaxSaved(h: History): int {
    if h.entries == [] then h.window.maxSeq else h.entries[|h.entries| - 1].seqEnd
  }

  predicate Stale(h: History, request: Request) {
    request.cursor.Some? && request.cursor.value.epoch != h.epoch
  }

  predicate AfterGap(h: History, request: Request) {
    request.direction.After? && request.cursor.Some? && !Stale(h, request) && h.truncated && request.cursor.value.at < MinSaved(h) - 1
  }

  function Effective(h: History, request: Request): Direction {
    if Stale(h, request) || AfterGap(h, request) then Tail else request.direction
  }

  function Selected(h: History, request: Request): seq<Entry> {
    match Effective(h, request)
    case Tail => LastRows(h.entries, Limit(request))
    case Before => LastRows(FilterBefore(h.entries, if request.cursor.Some? then request.cursor.value.at else h.window.nextSeq), Limit(request))
    case After => FirstRows(FilterAfter(h.entries, if request.cursor.Some? then request.cursor.value.at else 0), Limit(request))
  }

  predicate BeforeGap(h: History, request: Request) {
    Effective(h, request).Before? && request.cursor.Some? && request.cursor.value.at <= MinSaved(h) && h.truncated
  }

  /** The history's own problem, if it cannot be served at all. */
  function Unserved(h: History): Option<Problem> {
    if h.truncated && h.entries == [] && h.window.maxSeq > 0 then Some(OverBudget) else None
  }

  function PageOf(h: History, request: Request): Page {
    PageWith(h, request, Selected(h, request))
  }

  /** The page of the rows selected. */
  function PageWith(h: History, request: Request, selected: seq<Entry>): Page {
    var error := Unserved(h);
    Page(if error.Some? then [] else selected, Stale(h, request) || AfterGap(h, request), Stale(h, request),
         BeforeGap(h, request) || AfterGap(h, request),
         if selected == [] then None else Some(Cursor(h.epoch, selected[0].seqStart)),
         if selected == [] then None else Some(Cursor(h.epoch, selected[|selected| - 1].seqEnd)),
         selected != [] && (selected[0].seqStart > MinSaved(h) || h.truncated),
         selected != [] && selected[|selected| - 1].seqEnd < MaxSaved(h),
         if error.Some? then error else if BeforeGap(h, request) then Some(NotRetained) else None)
  }

  // ----- Walking the pages -----

  /** Start cursors followed backwards; older pages go in front. */
  function WalkBack(fetch: Cursor -> Page, page: Page, fuel: nat): seq<Entry>
    decreases fuel
  {
    if fuel == 0 || !page.hasOlder || page.startCursor.None? then page.entries
    else WalkBack(fetch, fetch(page.startCursor.value), fuel - 1) + page.entries
  }

  /** End cursors followed forwards. */
  function WalkOn(fetch: Cursor -> Page, page: Page, fuel: nat): seq<Entry>
    decreases fuel
  {
    if fuel == 0 || !page.hasNewer || page.endCursor.None? then page.entries
    else page.entries + WalkOn(fetch, fetch(page.endCursor.value), fuel - 1)
  }

  /** The requests of one walk. */
  function Fetch(h: History, direction: Direction, limit: Option<int>): Cursor -> Page {
    (cursor: Cursor) => PageOf(h, Request(direction, Some(cursor), limit))
  }

  /** What is before the start of row k is rows[..k]. */
  lemma {:induction false} BeforeIsPrefix(rows: seq<Entry>, k: nat)
    requires Ordered(rows) && k < |rows|
    ensures FilterBefore(rows, rows[k].seqStart) == rows[..k]
  {
    if k == 0 {
      forall i | 0 <= i < |rows| ensures rows[i].seqEnd >= rows[0].seqStart { OrderedAt(rows, 0, i); }
      NothingBefore(rows, rows[0].seqStart);
    } else {
      OrderedAt(rows, 0, k);
      BeforeIsPrefix(rows[1..], k - 1);
      assert rows[..k] == [rows[0]] + rows[1..][..k - 1];
    }
  }

  lemma {:induction false} NothingBefore(rows: seq<Entry>, point: int)
    requires forall i :: 0 <= i < |rows| ==> rows[i].seqEnd >= point
    ensures FilterBefore(rows, point) == []
  {
    if rows != [] { NothingBefore(rows[1..], point); }
  }

  /** What is after the end of row k is rows[k + 1..]. */
  lemma {:induction false} AfterIsSuffix(rows: seq<Entry>, k: nat)
    requires Ordered(rows) && k < |rows|
    ensures FilterAfter(rows, rows[k].seqEnd) == rows[k + 1..]
  {
    OrderedAt(rows, 0, k);
    if k == 0 {
      forall i | 0 <= i < |rows[1..]| ensures rows[1..][i].seqStart > rows[0].seqEnd { OrderedAt(rows, 0, i + 1); }
      AllAfter(rows[1..], rows[0].seqEnd);
    } else {
      AfterIsSuffix(rows[1..], k - 1);
    }
  }

  lemma {:induction false} AllAfter(rows: seq<Entry>, point: int)
    requires forall i :: 0 <= i < |rows| ==> rows[i].seqStart > point
    ensures FilterAfter(rows, point) == rows
  {
    if rows != [] { AllAfter(rows[1..], point); }
  }

  function Max0(n: int): nat {
    if n < 0 then 0 else n
  }

  /** A page of rows j..k, reached backwards. */
  ghost predicate BackPage(h: History, page: Page, j: nat, k: nat) {
    && j <= k <= |h.entries| && (k > 0 ==> j < k)
    && page.entries == h.entries[j..k]
    && (j < k ==> page.startCursor == Some(Cursor(h.epoch, h.entries[j].seqStart)))
    && (page.hasOlder ==> j < k) && (j > 0 ==> page.hasOlder)
  }

  /** A page of rows k..j, reached forwards. */
  ghost predicate OnPage(h: History, page: Page, k: nat, j: nat) {
    && k <= j <= |h.entries| && (k < |h.entries| ==> k < j)
    && page.entries == h.entries[k..j]
    && (k < j ==> page.endCursor == Some(Cursor(h.epoch, h.entries[j - 1].seqEnd)))
    && (page.hasNewer <==> k < j < |h.entries|)
  }

  ghost predicate EndsAt(h: History, page: Page, k: nat) {
    exists j: nat :: BackPage(h, page, j, k)
  }

  ghost predicate BeginsAt(h: History, page: Page, k: nat) {
    exists j: nat :: OnPage(h, page, k, j)
  }

  /** Whatever row a cursor names, the page fetched ends, or begins, right beside it. */
  ghost predicate ServesBack(h: History, fetch: Cursor -> Page) {
    forall k {:trigger fetch(Cursor(h.epoch, h.entries[k].seqStart))} :: 0 <= k < |h.entries| ==>
      EndsAt(h, fetch(Cursor(h.epoch, h.entries[k].seqStart)), k)
  }

  ghost predicate ServesOn(h: History, fetch: Cursor -> Page) {
    forall k {:trigger fetch(Cursor(h.epoch, h.entries[k].seqEnd))} :: 0 <= k < |h.entries| ==>
      BeginsAt(h, fetch(Cursor(h.epoch, h.entries[k].seqEnd)), k + 1)
  }

  lemma PageBefore(h: History, k: nat, limit: Option<int>) returns (j: nat)
    requires Ordered(h.entries) && k < |h.entries|
    ensures BackPage(h, PageOf(h, Request(Before, Some(Cursor(h.epoch, h.entries[k].seqStart)), limit)), j, k)
  {
    var request := Request(Before, Some(Cursor(h.epoch, h.entries[k].seqStart)), limit);
    BeforeIsPrefix(h.entries, k);
    j := Max0(k - Limit(request));
    assert Selected(h, request) == h.entries[j..k];
    if j > 0 { OrderedAt(h.entries, 0, j); }
  }

  lemma PageTail(h: History, limit: Option<int>) returns (j: nat)
    requires Ordered(h.entries)
    ensures BackPage(h, PageOf(h, Request(Tail, None, limit)), j, |h.entries|)
  {
    var request := Request(Tail, None, limit);
    j := Max0(|h.entries| - Limit(request));
    assert Selected(h, request) == h.entries[j..];
    if j > 0 { OrderedAt(h.entries, 0, j); }
  }

  lemma FirstOfSuffix(rows: seq<Entry>, k: nat, n: nat)
    requires k <= |rows|
    ensures FirstRows(rows[k..], n) == if |rows| - k <= n then rows[k..] else rows[k..k + n]
  {
  }

  lemma SelectedAfter(h: History, request: Request, k: nat)
    requires Ordered(h.entries) && k < |h.entries| && request.direction.After?
    requires request.cursor == Some(Cursor(h.epoch, h.entries[k].seqEnd))
    ensures Selected(h, request) == FirstRows(h.entries[k + 1..], Limit(request))
  {
    AfterIsSuffix(h.entries, k);
    OrderedAt(h.entries, 0, k);
    assert Effective(h, request) == After;
  }

  lemma PageAfter(h: History, k: nat, limit: Option<int>) returns (j: nat)
    requires Ordered(h.entries) && k < |h.entries|
    ensures OnPage(h, PageOf(h, Request(After, Some(Cursor(h.epoch, h.entries[k].seqEnd)), limit)), k + 1, j)
  {
    var request, m := Request(After, Some(Cursor(h.epoch, h.entries[k].seqEnd)), limit), |h.entries|;
    SelectedAfter(h, request, k);
    FirstOfSuffix(h.entries, k + 1, Limit(request));
    j := if m - (k + 1) <= Limit(request) then m else k + 1 + Limit(request);
    if j < m { OrderedAt(h.entries, j - 1, m - 1); }
    SelectionIsPage(h, request, k + 1, j);
  }

  /** Rows k..j selected forwards make the page of rows k..j. */
  lemma SelectionIsPage(h: History, request: Request, k: nat, j: nat)
    requires k <= j <= |h.entries| && (k < |h.entries| ==> k < j) && Selected(h, request) == h.entries[k..j]
    requires k < j < |h.entries| ==> h.entries[j - 1].seqEnd < h.entries[|h.entries| - 1].seqStart
    requires j == |h.entries| || h.entries[|h.entries| - 1].seqStart <= h.entries[|h.entries| - 1].seqEnd
    ensures OnPage(h, PageOf(h, request), k, j)
  {
    RowsMakePage(h, request, k, j, h.entries[k..j]);
  }

  lemma RowsMakePage(h: History, request: Request, k: nat, j: nat, rows: seq<Entry>)
    requires k <= j <= |h.entries| && (k < |h.entries| ==> k < j) && rows == h.entries[k..j]
    requires k < j < |h.entries| ==> h.entries[j - 1].seqEnd < h.entries[|h.entries| - 1].seqStart
    requires j == |h.entries| || h.entries[|h.entries| - 1].seqStart <= h.entries[|h.entries| - 1].seqEnd
    ensures OnPage(h, PageWith(h, request, rows), k, j)
  {
    if k < j {
      assert rows[0] == h.entries[k] && rows[|rows| - 1] == h.entries[j - 1];
    } else {
      assert rows == [];
    }
  }

  lemma AllRowsAfterZero(rows: seq<Entry>)
    requires Ordered(rows) && (rows != [] ==> rows[0].seqStart > 0)
    ensures FilterAfter(rows, 0) == rows
  {
    forall i | 0 <= i < |rows| ensures rows[i].seqStart > 0 { OrderedAt(rows, 0, i); }
    AllAfter(rows, 0);
  }

  lemma PageFront(h: History, limit: Option<int>) returns (j: nat)
    requires Ordered(h.entries) && (h.entries != [] ==> h.entries[0].seqStart > 0)
    ensures OnPage(h, PageOf(h, Request(After, None, limit)), 0, j)
  {
    var request, m := Request(After, None, limit), |h.entries|;
    AllRowsAfterZero(h.entries);
    j := if m <= Limit(request) then m else Limit(request);
    assert Selected(h, request) == h.entries[0..j];
    if 0 < j < m { OrderedAt(h.entries, j - 1, m - 1); }
    if m > 0 { OrderedAt(h.entries, m - 1, m - 1); }
    SelectionIsPage(h, request, 0, j);
  }

  lemma {:induction false} BackFromPage(h: History, fetch: Cursor -> Page, page: Page, j: nat, k: nat, fuel: nat)
    requires ServesBack(h, fetch) && BackPage(h, page, j, k) && fuel >= k
    ensures WalkBack(fetch, page, fuel) == h.entries[..k]
    decreases fuel
  {
    if page.hasOlder {
      var older := fetch(Cursor(h.epoch, h.entries[j].seqStart));
      assert EndsAt(h, older, j);
      var i: nat :| BackPage(h, older, i, j);
      BackFromPage(h, fetch, older, i, j, fuel - 1);
      assert h.entries[..j] + h.entries[j..k] == h.entries[..k];
    }
  }

  lemma RowsJoin(rows: seq<Entry>, k: nat, j: nat)
    requires k <= j <= |rows|
    ensures rows[k..j] + rows[j..] == rows[k..]
  {
  }

  lemma {:induction false} OnFromPage(h: History, fetch: Cursor -> Page, page: Page, k: nat, j: nat, fuel: nat)
    requires ServesOn(h, fetch) && OnPage(h, page, k, j) && fuel >= |h.entries| - k
    ensures WalkOn(fetch, page, fuel) == h.entries[k..]
    decreases fuel
  {
    if page.hasNewer {
      var newer := fetch(Cursor(h.epoch, h.entries[j - 1].seqEnd));
      assert BeginsAt(h, newer, j - 1 + 1);
      var i: nat :| OnPage(h, newer, j - 1 + 1, i);
      OnFromPage(h, fetch, newer, j, i, fuel - 1);
      RowsJoin(h.entries, k, j);
    }
  }

  lemma FetchServesBack(h: History, limit: Option<int>)
    requires Ordered(h.entries)
    ensures ServesBack(h, Fetch(h, Before, limit))
  {
    forall k | 0 <= k < |h.entries|
      ensures EndsAt(h, Fetch(h, Before, limit)(Cursor(h.epoch, h.entries[k].seqStart)), k)
    {
      var j := PageBefore(h, k, limit);
      assert BackPage(h, Fetch(h, Before, limit)(Cursor(h.epoch, h.entries[k].seqStart)), j, k);
    }
  }

  lemma FetchServesOn(h: History, limit: Option<int>)
    requires Ordered(h.entries)
    ensures ServesOn(h, Fetch(h, After, limit))
  {
    forall k | 0 <= k < |h.entries|
      ensures BeginsAt(h, Fetch(h, After, limit)(Cursor(h.epoch, h.entries[k].seqEnd)), k + 1)
    {
      var j := PageAfter(h, k, limit);
      assert OnPage(h, Fetch(h, After, limit)(Cursor(h.epoch, h.entries[k].seqEnd)), k + 1, j);
    }
  }

  /** From the tail back, every stored row comes exactly once, in order, at any limit and whether or
      not the history is truncated; the walk ends within one request per row. */
  lemma TailWalkIsWhole(h: History, limit: Option<int>, fuel: nat)
    requires Ordered(h.entries) && fuel >= |h.entries|
    ensures WalkBack(Fetch(h, Before, limit), PageOf(h, Request(Tail, None, limit)), fuel) == h.entries
  {
    var j := PageTail(h, limit);
    FetchServesBack(h, limit);
    BackFromPage(h, Fetch(h, Before, limit), PageOf(h, Request(Tail, None, limit)), j, |h.entries|, fuel);
    assert h.entries[..|h.entries|] == h.entries;
  }

  /** From the front on, without a cursor, every stored row comes exactly once and in order if and
      only if none starts at or before event zero: the request then means "after 0". */
  lemma FrontWalkIsWhole(h: History, limit: Option<int>, fuel: nat)
    requires Ordered(h.entries) && fuel >= |h.entries|
    ensures WalkOn(Fetch(h, After, limit), PageOf(h, Request(After, None, limit)), fuel) == h.entries <==>
            (h.entries == [] || h.entries[0].seqStart > 0)
  {
    var page := PageOf(h, Request(After, None, limit));
    if h.entries == [] || h.entries[0].seqStart > 0 {
      var j := PageFront(h, limit);
      FetchServesOn(h, limit);
      OnFromPage(h, Fetch(h, After, limit), page, 0, j, fuel);
      assert h.entries[0..] == h.entries;
    } else {
      FilteredAfter(h.entries, 0);
      WalkOnStarts(Fetch(h, After, limit), page, fuel);
      assert forall r :: r in page.entries ==> r in FilterAfter(h.entries, 0);
    }
  }

  lemma WalkOnStarts(fetch: Cursor -> Page, page: Page, fuel: nat)
    requires page.hasNewer ==> page.entries != []
    ensures page.entries == [] ==> WalkOn(fetch, page, fuel) == []
    ensures page.entries != [] ==> WalkOn(fetch, page, fuel) != [] && WalkOn(fetch, page, fuel)[0] == page.entries[0]
  {
  }

  lemma {:induction false} FilteredAfter(rows: seq<Entry>, point: int)
    ensures forall r :: r in FilterAfter(rows, point) ==> r.seqStart > point
  {
    if rows != [] { FilteredAfter(rows[1..], point); }
  }
}
