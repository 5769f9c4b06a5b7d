/**
 * The windowed task list of `frontend/src/app/tasks/task-data-source.ts`: a sparse array sized to
 * the server's count, filled by pages that arrive, fail or come back empty in any order.
 */
module TaskDataSource {
  import opened Options

  const PAGE_SIZE := 50
  const BUFFER_PAGES := 1

  datatype Task = Task(id: int, body: string)

  datatype Page = Page(count: nat, results: seq<Task>)

  datatype Range = Range(start: int, end: int)

  function PageOf(index: int): nat {
    if index / PAGE_SIZE > 0 then index / PAGE_SIZE else 0
  }

  /** A page of a range, or of the buffer of one page on either side. */
  predicate InWindow(range: Range, page: nat) {
    var startPage := PageOf(range.start);
    var endPage := PageOf(if range.end - 1 > range.start then range.end - 1 else range.start);
    startPage - BUFFER_PAGES <= page <= endPage + BUFFER_PAGES
  }

  /**
   * The window is every page of fifty rows that is on, or next to a page on, which a row in view is; an
   * empty view has its first row in view, and what is before the list counts as its first row.
   */
  lemma WindowMeans(range: Range, page: nat)
    ensures var first := if range.start > 0 then range.start else 0;
      var last := if range.end - 1 > range.start then range.end - 1 else range.start;
      InWindow(range, page) <==> first < (page + 2) * 50 && (page - 1) * 50 <= if last > 0 then last else 0
  {
  }

  /** The requests sent while one set of fetched pages grew into another. */
  function Sent(before: set<nat>, after: set<nat>): multiset<nat> {
    multiset(after - before)
  }

  lemma SentInTurn(before: set<nat>, between: set<nat>, after: set<nat>)
    requires before <= between <= after
    ensures Sent(before, between) + Sent(between, after) == Sent(before, after)
  {
    assert after - before == (between - before) + (after - between);
  }

  lemma SentNone(pages: set<nat>)
    ensures Sent(pages, pages) == multiset{} && Sent({}, pages) == multiset(pages)
  {
    assert pages - {} == pages;
  }

  /** Every row of a range is on a page of its window. */
  lemma RowInWindow(range: Range, i: nat)
    requires range.start <= i < range.end
    ensures InWindow(range, PageOf(i)) && PageOf(i) * PAGE_SIZE <= i < (PageOf(i) + 1) * PAGE_SIZE
  {
  }

  /** An array assignment; past the end it lengthens the array. */
  function SetAt(data: seq<Option<Task>>, index: nat, task: Task): (r: seq<Option<Task>>)
    ensures |r| == if index < |data| then |data| else index + 1
    ensures forall i :: 0 <= i < |r| ==> r[i] == if i == index then Some(task) else if i < |data| then data[i] else None
  {
    if index < |data| then data[index := Some(task)]
    else data + seq(index - |data|, _ => None) + [Some(task)]
  }

  /** Setting an array's length. */
  function Resize(data: seq<Option<Task>>, length: nat): (r: seq<Option<Task>>)
    ensures |r| == length
    ensures forall i :: 0 <= i < length ==> r[i] == if i < |data| then data[i] else None
  {
    if length <= |data| then data[..length] else data + seq(length - |data|, _ => None)
  }

  /** The array once a response has told the count: made by the first one, resized by the first after a refresh. */
  function Sized(
      data: seq<Option<Task>>, total: int, initialised: bool, reconciling: bool, count: nat): (r: seq<Option<Task>>)
    ensures |r| == if !initialised || (reconciling && count != total) then count else |data|
    ensures forall i :: 0 <= i < |r| ==> r[i] == if initialised && i < |data| then data[i] else None
  {
    if !initialised then seq(count, _ => None)
    else if reconciling && count != total then Resize(data, count)
    else data
  }

  /** The array after a page's rows have been stored from an index on. */
  function Filled(data: seq<Option<Task>>, from: nat, results: seq<Task>): (r: seq<Option<Task>>)
    ensures |r| == if results == [] || from + |results| <= |data| then |data| else from + |results|
    ensures forall i :: 0 <= i < |r| ==>
      r[i] == if from <= i < from + |results| then Some(results[i - from]) else if i < |data| then data[i] else None
  {
    if results == [] then data
    else SetAt(Filled(data, from, results[..|results| - 1]), from + |results| - 1, results[|results| - 1])
  }

  /** What a server holding `rows` answers to a request for a page. */
  function Answer(rows: seq<Task>, page: nat): Page {
    var from := if page * PAGE_SIZE < |rows| then page * PAGE_SIZE else |rows|;
    var to := if from + PAGE_SIZE < |rows| then from + PAGE_SIZE else |rows|;
    Page(|rows|, rows[from..to])
  }

  /** The loaded slots of an array hold the server's rows. */
  ghost predicate Mirrors(data: seq<Option<Task>>, rows: seq<Task>) {
    |data| == |rows| && forall i :: 0 <= i < |data| && data[i].Some? ==> data[i].value == rows[i]
  }

  predicate LoadedIn(data: seq<Option<Task>>, page: nat) {
    forall i :: page * PAGE_SIZE <= i < (page + 1) * PAGE_SIZE && i < |data| ==> data[i].Some?
  }

  /** Storing the server's answer keeps the agreement, loads the page and unloads nothing. */
  lemma AnswerFits(data: seq<Option<Task>>, rows: seq<Task>, page: nat)
    requires Mirrors(data, rows)
    ensures var after := Filled(data, page * PAGE_SIZE, Answer(rows, page).results);
      && Mirrors(after, rows) && LoadedIn(after, page)
      && forall p: nat :: LoadedIn(data, p) ==> LoadedIn(after, p)
  {
    hide Filled;
    var after := Filled(data, page * PAGE_SIZE, Answer(rows, page).results);
    forall p: nat | LoadedIn(data, p) ensures LoadedIn(after, p) {
    }
  }

  class DataSource {
    var cachedData: seq<Option<Task>>
    var fetchedPages: set<nat>
    var lastRange: Range
    var total: int
    var initialised: bool
    var reconciling: bool
    /** The subscriptions to the loader that have not been called back yet. */
    var inFlight: multiset<nat>
    /** The requests sent, and the failures received, since the fetched pages were last cleared. */
    ghost var sent: multiset<nat>
    ghost var failed: multiset<nat>

    constructor ()
      ensures Inv([]) && inFlight == multiset{} && !initialised
    {
      cachedData, fetchedPages, lastRange := [], {}, Range(0, PAGE_SIZE);
      total, initialised, reconciling := 0, false, false;
      inFlight, sent, failed := multiset{}, multiset{}, multiset{};
    }

    /** Once initialised the list agrees with the server: its length, its total and every loaded slot. */
    ghost predicate Agrees(rows: seq<Task>)
      reads this`cachedData, this`total, this`initialised
    {
      if initialised then total == |rows| && Mirrors(cachedData, rows) else cachedData == [] && total == 0
    }

    /** A page is not sent for again unless a request for it failed. */
    ghost predicate Frugal()
      reads this`sent, this`failed, this`fetchedPages
    {
      forall p: nat :: sent[p] <= failed[p] + if p in fetchedPages then 1 else 0
    }

    /** A page counted as fetched is loaded or on its way. */
    ghost predicate Accounted()
      reads this`cachedData, this`initialised, this`fetchedPages, this`inFlight
    {
      forall p: nat :: p in fetchedPages ==> p in inFlight || (initialised && LoadedIn(cachedData, p))
    }

    ghost predicate Inv(rows: seq<Task>)
      reads this
    {
      Agrees(rows) && Frugal() && Accounted()
    }

    /** A page the list would send for, were it not fetched. */
    predicate Asks(page: nat)
      reads this`initialised, this`total
    {
      !initialised || page * PAGE_SIZE < total
    }

    method FetchPage(page: nat)
      modifies this`fetchedPages, this`inFlight, this`sent
      ensures fetchedPages == old(fetchedPages) + if initialised && page * 50 >= total then {} else {page}
      ensures inFlight == old(inFlight) + if page in old(fetchedPages) || page !in fetchedPages then multiset{}
          else multiset{page}
      ensures inFlight == old(inFlight) + Sent(old(fetchedPages), fetchedPages)
      ensures old(Frugal()) ==> Frugal()
      ensures old(Accounted()) ==> Accounted()
    {
      if page in fetchedPages {
        return;
      }
      if initialised && page * PAGE_SIZE >= total {
        return;
      }
      assert fetchedPages + {page} - fetchedPages == {page} && fetchedPages - fetchedPages == {};
      fetchedPages := fetchedPages + {page};
      inFlight := inFlight + multiset{page};
      sent := sent + multiset{page};
    }

    /** Every page of the range and the buffer around it, unless it is past the known end. */
    method FetchRange(range: Range)
      modifies this`fetchedPages, this`inFlight, this`sent
      ensures forall p: nat :: p in fetchedPages <==> p in old(fetchedPages) || (InWindow(range, p) && Asks(p))
      ensures inFlight == old(inFlight) + Sent(old(fetchedPages), fetchedPages)
      ensures old(Frugal()) ==> Frugal()
      ensures old(Accounted()) ==> Accounted()
    {
      var startPage := PageOf(range.start);
      var endPage := PageOf(if range.end - 1 > range.start then range.end - 1 else range.start);
      var page := startPage - BUFFER_PAGES;
      hide Frugal, Accounted, Sent;
      SentNone(fetchedPages);
      while page <= endPage + BUFFER_PAGES
        invariant startPage - BUFFER_PAGES <= page <= endPage + BUFFER_PAGES + 1
        invariant forall p: nat ::
            p in fetchedPages <==> p in old(fetchedPages) || (InWindow(range, p) && p < page && Asks(p))
        invariant inFlight == old(inFlight) + Sent(old(fetchedPages), fetchedPages)
        invariant old(Frugal()) ==> Frugal()
        invariant old(Accounted()) ==> Accounted()
        decreases endPage + BUFFER_PAGES - page
      {
        ghost var before := fetchedPages;
        if page >= 0 {
          FetchPage(page);
        }
        SentNone(fetchedPages);
        SentInTurn(old(fetchedPages), before, fetchedPages);
        page := page + 1;
      }
    }

    /** The first page and the visible range. */
    method FetchVisible()
      modifies this`fetchedPages, this`inFlight, this`sent
      ensures forall p: nat ::
          p in fetchedPages <==> p in old(fetchedPages) || ((p == 0 || InWindow(lastRange, p)) && Asks(p))
      ensures inFlight == old(inFlight) + Sent(old(fetchedPages), fetchedPages)
      ensures old(Frugal()) ==> Frugal()
      ensures old(Accounted()) ==> Accounted()
    {
      hide Frugal, Accounted, InWindow, Sent;
      FetchPage(0);
      ghost var first := fetchedPages;
      FetchRange(lastRange);
      SentInTurn(old(fetchedPages), first, fetchedPages);
    }

    method Connect()
      modifies this
      ensures fetchedPages == old(fetchedPages) + if initialised && total <= 0 then {} else {0}
      ensures forall rows :: old(Inv(rows)) ==> Inv(rows)
    {
      FetchPage(0);
    }

    method OnRange(range: Range)
      modifies this`lastRange, this`fetchedPages, this`inFlight, this`sent
      ensures lastRange == range
      ensures forall p: nat :: p in fetchedPages <==> p in old(fetchedPages) || (InWindow(range, p) && Asks(p))
      ensures inFlight == old(inFlight) + Sent(old(fetchedPages), fetchedPages)
      ensures forall rows :: old(Inv(rows)) ==> Inv(rows)
    {
      lastRange := range;
      FetchRange(range);
    }

    method ClearFetched()
      modifies this`fetchedPages, this`sent, this`failed
      ensures fetchedPages == {} && Frugal() && Accounted()
    {
      fetchedPages, sent, failed := {}, multiset{}, multiset{};
    }

    method Refresh()
      modifies this`fetchedPages, this`sent, this`failed, this`reconciling, this`inFlight
      ensures initialised ==>
        reconciling && forall p: nat :: p in fetchedPages <==> (p == 0 || InWindow(lastRange, p)) && Asks(p)
      ensures initialised ==> inFlight == old(inFlight) + multiset(fetchedPages)
      ensures !initialised ==> reconciling == old(reconciling) && fetchedPages == old(fetchedPages) + {0}
      ensures !initialised ==> inFlight == old(inFlight) + Sent(old(fetchedPages), fetchedPages)
      ensures forall rows :: old(Inv(rows)) ==> Inv(rows)
    {
      hide Agrees, Frugal, Accounted, InWindow, Sent;
      if !initialised {
        FetchPage(0);
        return;
      }
      ClearFetched();
      reconciling := true;
      FetchVisible();
      SentNone(fetchedPages);
    }

    method Reset()
      modifies this
      ensures cachedData == [] && total == 0 && !initialised && lastRange == old(lastRange)
      ensures reconciling == old(reconciling)
      ensures forall p: nat :: p in fetchedPages <==> p == 0 || InWindow(lastRange, p)
      ensures inFlight == old(inFlight) + multiset(fetchedPages)
      ensures forall rows :: Inv(rows)
    {
      hide Frugal, Accounted, InWindow, Sent;
      cachedData, total, initialised := [], 0, false;
      ClearFetched();
      FetchVisible();
      SentNone(fetchedPages);
    }

    /** The error callback, and the success callback's way out for an empty response. */
    method OnError(page: nat)
      requires page in inFlight
      modifies this`inFlight, this`fetchedPages, this`failed
      ensures inFlight == old(inFlight) - multiset{page} && fetchedPages == old(fetchedPages) - {page}
      ensures forall rows :: old(Inv(rows)) ==> Inv(rows)
    {
      inFlight := inFlight - multiset{page};
      fetchedPages := fetchedPages - {page};
      failed := failed + multiset{page};
    }

    /** The first page sizes the list; the first after a refresh resizes it. */
    method AdoptCount(count: nat)
      modifies this`cachedData, this`total, this`initialised, this`reconciling
      ensures initialised && reconciling == (old(reconciling) && !old(initialised))
      ensures total == if old(initialised) && !old(reconciling) then old(total) else count
      ensures cachedData == Sized(old(cachedData), old(total), old(initialised), old(reconciling), count)
      ensures forall rows: seq<Task> :: old(Agrees(rows)) && count == |rows| ==> Agrees(rows)
    {
      if !initialised {
        total := count;
        cachedData := seq(count, _ => None);
        initialised := true;
      } else if reconciling {
        reconciling := false;
        if count != total {
          total := count;
          cachedData := Resize(cachedData, count);
        }
      }
    }

    method StoreRows(page: nat, results: seq<Task>)
      modifies this`cachedData
      ensures cachedData == Filled(old(cachedData), page * PAGE_SIZE, results)
    {
      hide Filled;
      for i := 0 to |results|
        invariant cachedData == Filled(old(cachedData), page * PAGE_SIZE, results[..i])
      {
        FilledNext(old(cachedData), page * PAGE_SIZE, results, i);
        cachedData := SetAt(cachedData, page * PAGE_SIZE + i, results[i]);
      }
      assert results[..|results|] == results;
    }

    /** The success callback with a page of results. */
    method OnPage(page: nat, result: Page, ghost rows: seq<Task>)
      requires page in inFlight
      modifies this`inFlight, this`cachedData, this`total, this`initialised, this`reconciling
      ensures inFlight == old(inFlight) - multiset{page} && initialised
      ensures reconciling == (old(reconciling) && !old(initialised))
      ensures total == if old(initialised) && !old(reconciling) then old(total) else result.count
      ensures cachedData == Filled(Sized(old(cachedData), old(total), old(initialised), old(reconciling), result.count),
        page * PAGE_SIZE, result.results)
      ensures old(Inv(rows)) && result == Answer(rows, page) ==> Inv(rows)
    {
      hide Filled, Mirrors, Answer, LoadedIn, Frugal;
      inFlight := inFlight - multiset{page};
      AdoptCount(result.count);
      ghost var before := cachedData;
      StoreRows(page, result.results);
      if old(Inv(rows)) && result == Answer(rows, page) {
        assert result.count == |rows| by { AnswerCount(rows, page); }
        AnswerFits(before, rows, page);
      }
    }

    /** `taskAt`. */
    function TaskAt(index: int): Option<Task>
      reads this`cachedData
    {
      if 0 <= index < |cachedData| then cachedData[index] else None
    }

    /** `replace`.  If the server has changed the row too, the list agrees with what it now holds. */
    method Replace(task: Task, ghost rows: seq<Task>)
      modifies this`cachedData
      ensures old(Inv(rows)) && DistinctIds(rows) ==> Inv(Replaced(rows, task)) && DistinctIds(Replaced(rows, task))
      ensures var k := FindSlot(old(cachedData), Some(task.id));
        cachedData == if k < 0 then old(cachedData) else old(cachedData)[k := Some(task)]
    {
      hide FindSlot;
      var index := FindSlot(cachedData, Some(task.id));
      if Mirrors(cachedData, rows) && DistinctIds(rows) { ReplacedMirrors(cachedData, rows, task); }
      if index != -1 {
        cachedData := cachedData[index := Some(task)];
      }
    }

    /** The slot is cut out, the total lowered and the visible range asked for again. */
    method DropSlot(index: nat)
      requires index < |cachedData|
      modifies this`cachedData, this`total, this`fetchedPages, this`sent, this`failed, this`inFlight
      ensures cachedData == old(cachedData)[..index] + old(cachedData)[index + 1..]
      ensures total == if old(total) > 0 then old(total) - 1 else old(total)
      ensures forall p: nat :: p in fetchedPages <==> InWindow(lastRange, p) && Asks(p)
      ensures inFlight == old(inFlight) + multiset(fetchedPages)
      ensures Frugal() && Accounted()
    {
      hide Frugal, Accounted, Sent, InWindow;
      cachedData := cachedData[..index] + cachedData[index + 1..];
      if total > 0 {
        total := total - 1;
      }
      ClearFetched();
      FetchRange(lastRange);
      SentNone(fetchedPages);
    }

    /**
     * `removeById`.  If the server has dropped the row too, the list agrees with what the server now
     * holds.
     */
    method RemoveById(id: Option<int>, ghost rows: seq<Task>)
      modifies this`cachedData, this`total, this`fetchedPages, this`sent, this`failed, this`inFlight
      ensures var k := FindSlot(old(cachedData), id);
        cachedData == if k < 0 then old(cachedData) else old(cachedData)[..k] + old(cachedData)[k + 1..]
      ensures FindSlot(old(cachedData), id) >= 0 ==>
        && total == (if old(total) > 0 then old(total) - 1 else old(total))
        && (forall p: nat :: p in fetchedPages <==> InWindow(lastRange, p) && Asks(p))
        && inFlight == old(inFlight) + multiset(fetchedPages)
      ensures FindSlot(old(cachedData), id) < 0 ==>
        total == old(total) && fetchedPages == old(fetchedPages) && inFlight == old(inFlight)
      ensures old(Inv(rows)) && DistinctIds(rows) && id.Some? && FindSlot(old(cachedData), id) >= 0 ==>
          Inv(Without(rows, id.value))
      ensures FindSlot(old(cachedData), id) < 0 && old(Inv(rows)) ==> Inv(rows)
    {
      hide Frugal, Accounted, FindSlot, Without, InWindow, Mirrors, DistinctIds, Asks, Matches;
      var index := FindSlot(cachedData, id);
      if index == -1 {
        return;
      }
      ghost var before := cachedData;
      SlotFound(before, rows, id);
      DropSlot(index);
    }

    /** With nothing in flight, the visible rows are all there and are the server's. */
    lemma AtRest(rows: seq<Task>, range: Range)
      requires Inv(rows) && initialised && inFlight == multiset{}
      requires forall p: nat :: InWindow(range, p) && Asks(p) ==> p in fetchedPages
      ensures forall i :: range.start <= i < range.end && 0 <= i < |rows| ==> TaskAt(i) == Some(rows[i])
    {
      forall i | range.start <= i < range.end && 0 <= i < |rows| ensures TaskAt(i) == Some(rows[i]) {
        RowInWindow(range, i);
        assert PageOf(i) in fetchedPages && LoadedIn(cachedData, PageOf(i));
      }
    }
  }

  predicate Matches(slot: Option<Task>, id: Option<int>) {
    if slot.Some? then id == Some(slot.value.id) else id.None?
  }

  /** `findIndex`: the first slot with the id; an undefined id is found at the first empty slot. */
  function FindSlot(data: seq<Option<Task>>, id: Option<int>): (k: int)
    ensures -1 <= k < |data| && (k >= 0 ==> (if data[k].Some? then Some(data[k].value.id) else None) == id)
    ensures forall i :: 0 <= i < (if k < 0 then |data| else k) ==>
        (if data[i].Some? then Some(data[i].value.id) else None) != id
  {
    if data == [] then -1
    else if Matches(data[0], id) then 0
    else
      var k := FindSlot(data[1..], id);
      assert forall i :: 1 <= i < |data| ==> data[i] == data[1..][i - 1];
      if k < 0 then -1 else k + 1
  }

  ghost predicate DistinctIds(rows: seq<Task>) {
    forall i, j :: 0 <= i < j < |rows| ==> rows[i].id != rows[j].id
  }

  /** The server's list once it has dropped a task. */
  function Without(rows: seq<Task>, id: int): seq<Task> {
    if rows == [] then []
    else (if rows[0].id == id then [] else [rows[0]]) + Without(rows[1..], id)
  }

  lemma {:induction false} WithoutNone(rows: seq<Task>, id: int)
    requires forall i :: 0 <= i < |rows| ==> rows[i].id != id
    ensures Without(rows, id) == rows
  {
    if rows == [] {
    } else {
      WithoutNone(rows[1..], id);
    }
  }

  lemma {:induction false} WithoutIs(rows: seq<Task>, k: nat)
    requires k < |rows| && DistinctIds(rows)
    ensures Without(rows, rows[k].id) == rows[..k] + rows[k + 1..]
  {
    if k == 0 {
      WithoutNone(rows[1..], rows[0].id);
    } else {
      WithoutIs(rows[1..], k - 1);
      assert rows[..k] + rows[k + 1..] == [rows[0]] + (rows[1..][..k - 1] + rows[1..][k..]);
    }
  }

  lemma SlotRemoved(data: seq<Option<Task>>, rows: seq<Task>, id: int, k: nat)
    requires Mirrors(data, rows) && DistinctIds(rows) && k < |data| && Matches(data[k], Some(id))
    ensures Mirrors(data[..k] + data[k + 1..], Without(rows, id)) && |Without(rows, id)| == |rows| - 1
  {
    WithoutIs(rows, k);
  }

  /** What removing the found slot leaves agrees with the list without the task. */
  lemma SlotFound(data: seq<Option<Task>>, rows: seq<Task>, id: Option<int>)
    requires FindSlot(data, id) >= 0
    ensures var k := FindSlot(data, id);
      Mirrors(data, rows) && DistinctIds(rows) && id.Some? ==>
        Mirrors(data[..k] + data[k + 1..], Without(rows, id.value))
            && |Without(rows, id.value)| == |rows| - 1 == |data| - 1
  {
    if Mirrors(data, rows) && DistinctIds(rows) && id.Some? { SlotRemoved(data, rows, id.value, FindSlot(data, id)); }
  }

  /** The server's list once it has changed a task. */
  function Replaced(rows: seq<Task>, task: Task): (r: seq<Task>)
    ensures |r| == |rows|
    ensures forall i :: 0 <= i < |rows| ==> r[i] == if rows[i].id == task.id then task else rows[i]
  {
    seq(|rows|, i requires 0 <= i < |rows| => if rows[i].id == task.id then task else rows[i])
  }

  /** What the viewport, the user and the network can do; the last two happen on the server too. */
  datatype Event =
    | Connects | RangeChange(range: Range) | Arrives(page: nat) | Fails(page: nat) | Refreshes | Resets
    | Replaces(task: Task) | Removes(id: int)

  /** The server's list after some events. */
  function ServerAfter(rows: seq<Task>, events: seq<Event>): seq<Task> {
    if events == [] then rows
    else
      var before := ServerAfter(rows, events[..|events| - 1]);
      match events[|events| - 1]
      case Replaces(task) => Replaced(before, task)
      case Removes(id) => Without(before, id)
      case _ => before
  }

  /** The event can happen: an answer to nothing cannot, nor can a change of the list while requests are in flight. */
  predicate Possible(source: DataSource, e: Event)
    reads source
  {
    match e
    case Arrives(page) => page in source.inFlight
    case Fails(page) => page in source.inFlight
    case Replaces(_) => source.inFlight == multiset{}
    case Removes(id) => source.inFlight == multiset{} && FindSlot(source.cachedData, Some(id)) >= 0
    case _ => true
  }

  lemma ReplacedMirrors(data: seq<Option<Task>>, rows: seq<Task>, task: Task)
    requires Mirrors(data, rows) && DistinctIds(rows)
    ensures var k := FindSlot(data, Some(task.id));
      Mirrors(if k < 0 then data else data[k := Some(task)], Replaced(rows, task)) && DistinctIds(Replaced(rows, task))
  {
    var k := FindSlot(data, Some(task.id));
    forall i | 0 <= i < |rows| && data[i].Some? && rows[i].id == task.id ensures i == k {
      assert Matches(data[i], Some(task.id));
    }
  }

  lemma {:induction false} WithoutDistinct(rows: seq<Task>, id: int)
    requires DistinctIds(rows)
    ensures DistinctIds(Without(rows, id)) && forall t :: t in Without(rows, id) ==> t in rows
  {
    if rows == [] {
    } else {
      var rest := Without(rows[1..], id);
      assert DistinctIds(rows[1..]);
      WithoutDistinct(rows[1..], id);
      forall t | t in rest ensures t in rows && t.id != rows[0].id {
        assert t in rows[1..];
      }
      hide DistinctIds;
      if rows[0].id != id { DistinctWith(rows[0], rest); }
    }
  }

  lemma DistinctWith(first: Task, rest: seq<Task>)
    requires DistinctIds(rest) && forall t :: t in rest ==> t.id != first.id
    ensures DistinctIds([first] + rest)
  {
    forall i | 0 <= i < |rest| ensures rest[i].id != first.id { assert rest[i] in rest; }
  }

  /**
   * Any events in any order keep the agreement with the server's list, which `taken`, the events that
   * could happen, may have changed.
   */
  method Session(source: DataSource, rows: seq<Task>, events: seq<Event>) returns (taken: seq<Event>)
    requires source.Inv(rows) && DistinctIds(rows)
    modifies source
    ensures source.Inv(ServerAfter(rows, taken))
  {
    hide Replaced, Without, DistinctIds, FindSlot;
    taken := [];
    var now := rows;
    for i := 0 to |events|
      invariant now == ServerAfter(rows, taken) && source.Inv(now) && DistinctIds(now)
    {
      if Possible(source, events[i]) {
        now := Take(source, now, events[i]);
        assert (taken + [events[i]])[..|taken|] == taken;
        taken := taken + [events[i]];
      }
    }
  }

  /** One event. */
  method Take(source: DataSource, rows: seq<Task>, e: Event) returns (now: seq<Task>)
    requires source.Inv(rows) && DistinctIds(rows) && Possible(source, e)
    modifies source
    ensures now == (match e case Replaces(task) => Replaced(rows, task) case Removes(id) => Without(rows,
        id) case _ => rows)
    ensures source.Inv(now) && DistinctIds(now)
  {
    now := rows;
    match e {
      case Connects => source.Connect();
      case RangeChange(range) => source.OnRange(range);
      case Arrives(page) => source.OnPage(page, Answer(rows, page), rows);
      case Fails(page) => source.OnError(page);
      case Refreshes => source.Refresh();
      case Resets => source.Reset();
      case Replaces(task) =>
        now := Replaced(rows, task);
        source.Replace(task, rows);
      case Removes(id) =>
        now := Without(rows, id);
        WithoutDistinct(rows, id);
        source.RemoveById(Some(id), rows);
    }
  }

  lemma AnswerCount(rows: seq<Task>, page: nat)
    ensures Answer(rows, page).count == |rows|
  {
  }

  lemma FilledNext(data: seq<Option<Task>>, from: nat, results: seq<Task>, i: nat)
    requires i < |results|
    ensures Filled(data, from, results[..i + 1]) == SetAt(Filled(data, from, results[..i]), from + i, results[i])
  {
    assert results[..i + 1][..i] == results[..i];
  }
}
