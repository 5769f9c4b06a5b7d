/**
 * The Notion sync of `integrations/notion/sync.py`: its tables, the Notion database, and what each
 * persisted step makes of them.
 *
 * Times are microseconds.  Notion keeps the exact time of a page's last edit to itself and reports
 * it rounded down to the minute; what a page says is one opaque value.
 */
module Notion {
  import opened Options

  const MINUTE := 60_000_000
  const BOOTSTRAP_BATCH := 50

  datatype Task = Task(changed: int, content: string)

  datatype Editor = Bot | Person

  datatype Page = Page(content: string, edited: int, editor: Editor, trashed: bool)

  /** A `NotionTaskLink`, kept under its page's id; without a task it is a tombstone. */
  datatype Link = Link(pk: int, task: Option<int>, remote: Option<int>, local: Option<int>)

  /** `volunhub` holds the tasks that carry a VolunHub link; `botKnown` says whether the connection has a bot id. */
  datatype World = World(
    botKnown: bool,
    tasks: map<int, Task>, volunhub: set<int>, links: map<int, Link>, cursor: int,
    pages: map<int, Page>,
    clock: int, notionClock: int,
    nextTask: int, nextLink: int, nextPage: int)

  function Floor(t: int): (r: int)
    ensures r <= t < r + 60_000_000 && r % 60_000_000 == 0
  {
    t - t % MINUTE
  }

  /** The page's `last_edited_time`. */
  function LastEdited(page: Page): int {
    Floor(page.edited)
  }

  // ------------------------------------------------------------------ conflicts

  predicate IsOwnEdit(w: World, page: Page) {
    w.botKnown && page.editor == Bot
  }

  predicate RemoteChanged(link: Link, page: Page) {
    link.remote.None? || LastEdited(page) > link.remote.value
  }

  predicate LocalChanged(link: Link, task: Task) {
    link.local.None? || task.changed > link.local.value
  }

  predicate OrganizerWins(localChangedAt: int, pageEdited: int) {
    Floor(localChangedAt) == Floor(pageEdited) || localChangedAt > pageEdited
  }

  /**
   * Notion wins a conflict exactly when its edit fell in a later minute than the local one, and so
   * was truly later, whatever the rounding hid.
   */
  lemma NotionWinsOnlyIfLater(task: Task, page: Page)
    ensures !OrganizerWins(task.changed, LastEdited(page)) <==> Floor(task.changed) + MINUTE <= LastEdited(page)
    ensures !OrganizerWins(task.changed, LastEdited(page)) ==> task.changed < page.edited
    ensures task.changed >= page.edited ==> OrganizerWins(task.changed, LastEdited(page))
  {
    FloorOfFloor(page.edited);
    if Floor(task.changed) < LastEdited(page) { MinutesApart(Floor(task.changed), LastEdited(page)); }
  }

  lemma FloorOfFloor(t: int)
    ensures Floor(Floor(t)) == Floor(t)
  {
  }

  lemma MinutesApart(a: int, b: int)
    requires a % MINUTE == 0 && b % MINUTE == 0 && a < b
    ensures a + MINUTE <= b
  {
  }

  // ------------------------------------------------------------------ the tables

  /** The row the link's foreign key leads to. */
  function TaskOf(w: World, link: Link): Option<Task> {
    if link.task.Some? && link.task.value in w.tasks then Some(w.tasks[link.task.value]) else None
  }

  predicate IsLinked(w: World, task: int) {
    Some(task) in (set p | p in w.links :: w.links[p].task)
  }

  /** `_mirrorable_tasks`. */
  predicate IsMirrorable(w: World, task: int) {
    task in w.tasks && task !in w.volunhub
  }

  /** `_stamp`. */
  function Stamped(w: World, page: int, edited: int, changed: Option<int>): World
    requires page in w.links
  {
    var link := w.links[page];
    w.(links := w.links[page := link.(remote := Some(edited), local := if changed.Some? then changed else link.local)])
  }

  /** A new task, changed now. */
  function WithTask(w: World, content: string): World {
    w.(tasks := w.tasks[w.nextTask := Task(w.clock + 1, content)], clock := w.clock + 1, nextTask := w.nextTask + 1)
  }

  /** A new link row, not yet stamped. */
  function WithLink(w: World, task: int, page: int): World {
    w.(links := w.links[page := Link(w.nextLink, Some(task), None, None)], nextLink := w.nextLink + 1)
  }

  /** The task is deleted, and the link left behind as a tombstone. */
  function WithoutTask(w: World, task: int): World {
    w.(tasks := w.tasks - {task}, volunhub := w.volunhub - {task},
       links := map p | p in w.links :: if w.links[p].task == Some(task) then w.links[p].(task := None) else w.links[p])
  }

  function WithoutLink(w: World, page: int): World {
    w.(links := w.links - {page})
  }

  // ------------------------------------------------------------------ pages

  /** A page with new properties, last edited now. */
  function WithPage(w: World, page: int, content: string, editor: Editor): World {
    w.(pages := w.pages[page := Page(content, w.notionClock, editor, page in w.pages && w.pages[page].trashed)])
  }

  function NewPage(w: World, content: string, editor: Editor): World {
    w.(pages := w.pages[w.nextPage := Page(content, w.notionClock, editor, false)], nextPage := w.nextPage + 1)
  }

  function WithTrash(w: World, page: int, trashed: bool): World {
    if page in w.pages then w.(pages := w.pages[page := w.pages[page].(trashed := trashed)]) else w
  }

  predicate IsLive(w: World, page: int) {
    page in w.pages && !w.pages[page].trashed
  }

  // ------------------------------------------------------------------ pull

  /** `_create_task_from_page`. */
  function Imported(w: World, id: int, page: Page): World {
    Stamped(WithLink(WithTask(w, page.content), w.nextTask, id), id, LastEdited(page), Some(w.clock + 1))
  }

  /** The page overwrites the task; a task that says the same already is not saved. */
  function Overwritten(w: World, id: int, task: int, page: Page): World
    requires id in w.links && task in w.tasks
  {
    if w.tasks[task].content == page.content then Stamped(w, id, LastEdited(page), Some(w.tasks[task].changed))
    else Stamped(w.(tasks := w.tasks[task := Task(w.clock + 1, page.content)], clock := w.clock + 1),
                 id, LastEdited(page), Some(w.clock + 1))
  }

  /** The page is seen as changed by someone else, and the task does not win. */
  predicate NotionPrevails(w: World, link: Link, task: Task, page: Page) {
    && !IsOwnEdit(w, page) && RemoteChanged(link, page)
    && !(LocalChanged(link, task) && OrganizerWins(task.changed, LastEdited(page)))
  }

  /** `_apply_page`, one transaction. */
  function Applied(w: World, id: int, page: Page): World {
    if id !in w.links then (if IsOwnEdit(w, page) then w else Imported(w, id, page))
    else match TaskOf(w, w.links[id])
      case None => w
      case Some(task) =>
        if IsOwnEdit(w, page) then Stamped(w, id, LastEdited(page), None)
        else if NotionPrevails(w, w.links[id], task, page) then Overwritten(w, id, w.links[id].task.value, page)
        else w
  }

  /** The pages of a query, in turn. */
  function Pulled(w: World, listing: seq<int>): World {
    if listing == [] then w
    else
      var before := Pulled(w, listing[..|listing| - 1]);
      var id := listing[|listing| - 1];
      if id in before.pages then Applied(before, id, before.pages[id]) else before
  }

  // ------------------------------------------------------------------ calls that can fail

  /** How a call to Notion ends; `Lost` took effect, but the answer did not arrive. */
  datatype Fate = Done | Refused | Lost

  datatype Call = Retrieve(page: int) | Trash(page: int) | Create(task: int) | Update(page: int) | Relate(page: int)

  type Fates = Call -> Fate

  /** A trashed or unknown page cannot be written. */
  function WriteFate(w: World, page: int, fate: Fate): Fate {
    if IsLive(w, page) then fate else Refused
  }

  /** Links whose page was not listed and turns out to be trashed. */
  predicate IsReaped(w: World, seen: set<int>, fates: Fates, id: int) {
    && id in w.links && id !in seen && TaskOf(w, w.links[id]).Some?
    && fates(Retrieve(id)) == Done && id in w.pages && w.pages[id].trashed
  }

  /** `_reap_missing_pages`: those links go, and their tasks with them. */
  function Reaped(w: World, seen: set<int>, fates: Fates): World {
    var gone := set id | id in w.links && IsReaped(w, seen, fates, id);
    var tasks := set id | id in gone :: w.links[id].task.value;
    w.(tasks := w.tasks - tasks, volunhub := w.volunhub - tasks, links := w.links - gone)
  }

  // ------------------------------------------------------------------ push

  predicate IsTombstone(w: World, id: int) {
    id in w.links && w.links[id].task.None?
  }

  /** Push, first part: the pages of tombstones are trashed, and the tombstones dropped even if that fails. */
  function Buried(w: World, fates: Fates): World {
    w.(pages := map p | p in w.pages ::
         if IsTombstone(w, p) && fates(Trash(p)) != Refused then w.pages[p].(trashed := true) else w.pages[p],
       links := map p | p in w.links && !IsTombstone(w, p) :: w.links[p])
  }

  /** `_create_page`. */
  function CreatedPage(w: World, task: int, fate: Fate): World {
    if task !in w.tasks || fate == Refused then w
    else
      var sent := NewPage(w, w.tasks[task].content, Bot);
      if fate == Lost then sent
      else Stamped(WithLink(sent, task, w.nextPage), w.nextPage, Floor(w.notionClock), Some(w.tasks[task].changed))
  }

  /** Push, second part. */
  function CreatedPages(w: World, tasks: seq<int>, fates: Fates): World {
    if tasks == [] then w
    else
      var task := tasks[|tasks| - 1];
      CreatedPage(CreatedPages(w, tasks[..|tasks| - 1], fates), task, fates(Create(task)))
  }

  function Updated(w: World, id: int, fate: Fate): World {
    if id !in w.links then w
    else match TaskOf(w, w.links[id])
      case None => w
      case Some(task) =>
        if !LocalChanged(w.links[id], task) || WriteFate(w, id, fate) == Refused then w
        else
          var sent := WithPage(w, id, task.content, Bot);
          if fate == Lost then sent else Stamped(sent, id, Floor(w.notionClock), Some(task.changed))
  }

  /** Push, third part. */
  function UpdatedPages(w: World, ids: seq<int>, fates: Fates): World {
    if ids == [] then w
    else
      var id := ids[|ids| - 1];
      Updated(UpdatedPages(w, ids[..|ids| - 1], fates), id, fates(Update(id)))
  }

  function Related(w: World, id: int, fate: Fate): World {
    if id !in w.links then w
    else match TaskOf(w, w.links[id])
      case None => w
      case Some(task) =>
        if WriteFate(w, id, fate) == Refused then w
        else
          var sent := WithPage(w, id, w.pages[id].content, Bot);
          if fate == Lost then sent else Stamped(sent, id, Floor(w.notionClock), Some(task.changed))
  }

  /** `_link_parents`, for the new pages whose task has a mirrored parent. */
  function RelatedPages(w: World, ids: seq<int>, fates: Fates): World {
    if ids == [] then w
    else
      var id := ids[|ids| - 1];
      Related(RelatedPages(w, ids[..|ids| - 1], fates), id, fates(Relate(id)))
  }
}
