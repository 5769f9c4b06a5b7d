/**
 * The Notion sync as interleaved steps: any number of workers in the middle of a push or of the
 * bootstrap, the pages of a query applied long after it was answered, the user on both sides, the
 * VolunHub sync importing tasks and in the middle of merges, and workers dying between any two steps.
 *
 * A worker holds one task on its way to Notion; a run that has loaded several, or that remembers a
 * created page to relate it later, is several workers.
 * The histories record what happened.  No step depends on them but `Apply` and `Reap`, which act on
 * a version of a page that Notion had at some time.
 */
module NotionProtocol {
  import opened Options
  import opened Notion

  /** A version of a task, by the time of its change. */
  datatype Version = Version(task: int, changed: int, content: string)

  /**
   * A version on its way to Notion as its worker loaded it: the page and the link row, once known,
   * and the time Notion reported for the last write.
   */
  datatype Job = Job(version: Version, page: Option<int>, pk: Option<int>, reply: Option<int>)

  /** A bootstrap in a worker's memory: the cursor as last saved, the rest of the batch, its last task. */
  datatype Boot = Boot(cursor: int, rest: seq<Version>, last: int)

  datatype Worker = Worker(job: Option<Job>, boot: Option<Boot>)

  /**
   * A task that a VolunHub run has read with its link and is merging: what the merge will save of it,
   * if anything, which is decided when it is read, and whether it has.
   */
  datatype Merge = Merge(task: int, saves: Option<string>, saved: bool)

  /**
   * The user's versions of tasks, what was written to which page, the versions of pages, the user's
   * versions that a page's version overwrote, and the tasks whose upload failed.
   */
  datatype History = History(
    edits: set<Version>,
    sent: set<(Version, int)>,
    pages: set<(int, Page)>,
    overwritten: set<(Version, int, Page)>,
    failed: set<int>)

  datatype System = System(world: World, workers: map<int, Worker>, merges: map<int, Merge>, history: History)

  datatype Step =
    | NewTask(content: string) | ChangeTask(task: int, content: string) | DeleteTask(task: int)
    | ImportFromVolunHub(content: string)
    | ReadLink(m: int, task: int, saves: Option<string>) | SaveMerged(m: int) | SaveLink(m: int) | DropMerge(m: int)
    | NewNotionPage(content: string) | ChangePage(page: int, content: string) | TrashPage(page: int, trashed: bool)
    | Wait(local: nat, notion: nat)
    | Apply(page: int, seen: Page) | Reap(page: int, seen: Page) | Bury(page: int) | DropTombstone(page: int)
    | Load(w: int, page: int) | LoadNew(w: int, task: int)
    | Send(w: int, fate: Fate) | AddLink(w: int) | Stamp(w: int) | Relate(w: int, fate: Fate) | Finish(w: int)
    | StartBoot(w: int) | LoadBatch(w: int, batch: seq<int>) | TakeNext(w: int) | SaveCursor(w: int)
    | Remember(w: int, later: int) | Restart(w: int)

  // ------------------------------------------------------------------ the steps

  function VersionOf(w: World, task: int): Version
    requires task in w.tasks
  {
    Version(task, w.tasks[task].changed, w.tasks[task].content)
  }

  /** The page as it now is joins the history. */
  function Seen(s: System, w: World, page: int): System {
    s.(world := w, history := s.history.(pages := s.history.pages + if page in w.pages then {(page, w.pages[page])}
        else {}))
  }

  /** A user's change of a task, new or not. */
  function Changed(s: System, w: World, task: int): System
    requires task in w.tasks
  {
    s.(world := w, history := s.history.(edits := s.history.edits + {VersionOf(w, task)}))
  }

  function ChangedTask(w: World, task: int, content: string): World {
    w.(tasks := w.tasks[task := Task(w.clock + 1, content)], clock := w.clock + 1)
  }

  function Imports(w: World, content: string): World {
    WithTask(w, content).(volunhub := w.volunhub + {w.nextTask})
  }

  predicate YetToSave(merge: Merge) {
    merge.saves.Some? && !merge.saved
  }

  /** The merge saves its task, which inserts one that has been deleted again. */
  function SavesMerged(s: System, m: int): System
    requires m in s.merges && YetToSave(s.merges[m])
  {
    var merge := s.merges[m];
    s.(world := ChangedTask(s.world, merge.task, merge.saves.value), merges := s.merges[m := merge.(saved := true)])
  }

  /** The merge saves its link, which points at its task again; a task that is gone kills the run. */
  function SavesLink(s: System, m: int): System
    requires m in s.merges
  {
    var task := s.merges[m].task;
    s.(world := if task in s.world.tasks then s.world.(volunhub := s.world.volunhub + {task}) else s.world,
       merges := s.merges - {m})
  }

  /** The user deletes a task that a merge has read and is yet to save. */
  predicate Snatches(s: System, step: Step) {
    step.DeleteTask? && exists m :: m in s.merges && YetToSave(s.merges[m]) && s.merges[m].task == step.task
  }

  /** The user's version that applying the page overwrites, if there is one Notion does not have. */
  function OverwrittenBy(w: World, id: int, page: Page): set<(Version, int, Page)> {
    if id !in w.links || TaskOf(w, w.links[id]).None? then {}
    else
      var task := TaskOf(w, w.links[id]).value;
      if NotionPrevails(w, w.links[id], task, page) && LocalChanged(w.links[id], task)
      then {(VersionOf(w, w.links[id].task.value), id, page)} else {}
  }

  function Reaps(w: World, page: int, seen: Page): World {
    if page in w.links && TaskOf(w, w.links[page]).Some? && seen.trashed
    then WithoutLink(WithoutTask(w, w.links[page].task.value), page) else w
  }

  function Put(s: System, w: int, worker: Worker): System {
    s.(workers := s.workers[w := worker])
  }

  /** A worker that starts or dies. */
  function Dead(s: System, w: int): System {
    Put(s, w, Worker(None, None))
  }

  /** The job's content is written to a page, which answers unless the answer is lost. */
  function Written(s: System, w: int, world: World, page: int, fate: Fate): System
    requires w in s.workers && s.workers[w].job.Some?
  {
    var job := s.workers[w].job.value;
    var written := Seen(s, world, page);
    Put(written.(history := written.history.(sent := s.history.sent + {(job.version, page)})), w,
        s.workers[w].(job := if fate == Done
            then Some(job.(page := Some(page), reply := Some(Floor(s.world.notionClock)))) else None))
  }

  /** `create_page` failed, as far as the worker knows. */
  function Failed(s: System, task: int): System {
    s.(history := s.history.(failed := s.history.failed + {task}))
  }

  /** `create_page` for a new task, `update_page` for a linked one. */
  function Sends(s: System, w: int, fate: Fate): System
    requires w in s.workers && s.workers[w].job.Some?
  {
    var job := s.workers[w].job.value;
    var dropped := Put(s, w, s.workers[w].(job := None));
    if job.page.None? then
      if fate == Refused then Failed(dropped, job.version.task)
      else
        var written := Written(s, w, NewPage(s.world, job.version.content, Bot), s.world.nextPage, fate);
        if fate == Lost then Failed(written, job.version.task) else written
    else if WriteFate(s.world, job.page.value, fate) == Refused then dropped
    else Written(s, w, WithPage(s.world, job.page.value, job.version.content, Bot), job.page.value, fate)
  }

  /** `NotionTaskLink.objects.create`; a broken constraint kills the run. */
  function AddsLink(s: System, w: int): System
    requires w in s.workers && s.workers[w].job.Some? && s.workers[w].job.value.page.Some?
  {
    var job := s.workers[w].job.value;
    if job.version.task in s.world.tasks && !IsLinked(s.world, job.version.task) && job.page.value !in s.world.links
    then Put(s.(world := WithLink(s.world, job.version.task, job.page.value)), w,
             s.workers[w].(job := Some(job.(pk := Some(s.world.nextLink)))))
    else Dead(s, w)
  }

  /** `_stamp` with what was loaded; a link row that is gone kills the run. */
  function Stamps(s: System, w: int): System
    requires w in s.workers && s.workers[w].job.Some?
    requires var job := s.workers[w].job.value; job.page.Some? && job.pk.Some? && job.reply.Some?
  {
    var job := s.workers[w].job.value;
    if job.page.value in s.world.links && s.world.links[job.page.value].pk == job.pk.value
    then s.(world := Stamped(s.world, job.page.value, job.reply.value, Some(job.version.changed)))
    else Dead(s, w)
  }

  /** The parent relation is written to a page that was just created. */
  function Relates(s: System, w: int, fate: Fate): System
    requires w in s.workers && s.workers[w].job.Some? && s.workers[w].job.value.page.Some?
  {
    var job := s.workers[w].job.value;
    if WriteFate(s.world, job.page.value, fate) == Refused then Put(s, w, s.workers[w].(job := None))
    else
      var world := WithPage(s.world, job.page.value, s.world.pages[job.page.value].content, Bot);
      Put(Seen(s, world, job.page.value), w,
          s.workers[w].(job := if fate == Done then Some(job.(reply := Some(Floor(s.world.notionClock)))) else None))
  }

  /** The next tasks after the cursor, in the order of their keys. */
  predicate IsBatch(w: World, cursor: int, batch: seq<int>) {
    && |batch| <= BOOTSTRAP_BATCH
    && (forall i, j :: 0 <= i < j < |batch| ==> batch[i] < batch[j])
    && (forall t :: t in batch ==> IsMirrorable(w, t) && t > cursor)
    && (forall t :: t in w.tasks && IsMirrorable(w, t) && t > cursor ==>
          t in batch || (|batch| == BOOTSTRAP_BATCH && t > batch[|batch| - 1]))
  }

  function Versions(w: World, batch: seq<int>): seq<Version>
    requires forall t :: t in batch ==> t in w.tasks
  {
    seq(|batch|, i requires 0 <= i < |batch| => VersionOf(w, batch[i]))
  }

  /** A link exists already, or the task is to be uploaded. */
  function Takes(s: System, w: int): System
    requires w in s.workers && s.workers[w].boot.Some? && s.workers[w].boot.value.rest != []
  {
    var boot := s.workers[w].boot.value;
    Put(s, w, Worker(if IsLinked(s.world, boot.rest[0].task) then None else Some(Job(boot.rest[0], None, None, None)),
                     Some(boot.(rest := boot.rest[1..]))))
  }

  predicate HasJob(s: System, w: int) {
    w in s.workers && s.workers[w].job.Some?
  }

  /** The worker's job has a link row and an answer to stamp on it. */
  predicate HasLinkedJob(s: System, w: int) {
    HasJob(s, w) && var job := s.workers[w].job.value; job.page.Some? && job.pk.Some? && job.reply.Some?
  }

  predicate IsIdle(s: System, w: int) {
    w in s.workers && s.workers[w].job.None?
  }

  predicate IsFree(s: System, w: int) {
    IsIdle(s, w) && s.workers[w].boot.None?
  }

  /** A bootstrap that has dealt with all of its batch. */
  predicate IsBetween(s: System, w: int) {
    IsIdle(s, w) && s.workers[w].boot.Some? && s.workers[w].boot.value.rest == []
  }

  /** One step; a step that is not enabled changes nothing. */
  function Next(s: System, step: Step): System {
    var w := s.world;
    match step
    case NewTask(content) => Changed(s, WithTask(w, content), w.nextTask)
    case ChangeTask(task, content) => if task in w.tasks then Changed(s, ChangedTask(w, task, content), task) else s
    case DeleteTask(task) => s.(world := WithoutTask(w, task))
    case ImportFromVolunHub(content) => s.(world := Imports(w, content))
    case ReadLink(m, task, saves) =>
      if m !in s.merges && task in w.tasks && task in w.volunhub
      then s.(merges := s.merges[m := Merge(task, saves, false)]) else s
    case SaveMerged(m) => if m in s.merges && YetToSave(s.merges[m]) then SavesMerged(s, m) else s
    case SaveLink(m) => if m in s.merges && !YetToSave(s.merges[m]) then SavesLink(s, m) else s
    case DropMerge(m) => s.(merges := s.merges - {m})
    case NewNotionPage(content) => Seen(s, NewPage(w, content, Person), w.nextPage)
    case ChangePage(page, content) => if page in w.pages then Seen(s, WithPage(w, page, content, Person), page) else s
    case TrashPage(page, trashed) => Seen(s, WithTrash(w, page, trashed), page)
    case Wait(local, notion) => s.(world := w.(clock := w.clock + local, notionClock := w.notionClock + notion))
    case Apply(page, seen) =>
      if (page, seen) in s.history.pages
      then s.(world := Applied(w, page, seen),
              history := s.history.(overwritten := s.history.overwritten + OverwrittenBy(w, page, seen)))
      else s
    case Reap(page, seen) => if (page, seen) in s.history.pages then s.(world := Reaps(w, page, seen)) else s
    case Bury(page) => if IsTombstone(w, page) then Seen(s, WithTrash(w, page, true), page) else s
    case DropTombstone(page) => if IsTombstone(w, page) then s.(world := WithoutLink(w, page)) else s
    case Load(k, page) =>
      if IsFree(s, k) && page in w.links && TaskOf(w, w.links[page]).Some?
          && LocalChanged(w.links[page], TaskOf(w, w.links[page]).value)
      then Put(s, k, Worker(Some(Job(VersionOf(w, w.links[page].task.value), Some(page), Some(w.links[page].pk),
          None)), None))
      else s
    case LoadNew(k, task) =>
      if IsFree(s, k) && IsMirrorable(w, task) && !IsLinked(w, task)
      then Put(s, k, Worker(Some(Job(VersionOf(w, task), None, None, None)), None)) else s
    case Send(k, fate) => if HasJob(s, k) && s.workers[k].job.value.reply.None? then Sends(s, k, fate) else s
    case AddLink(k) =>
      if HasJob(s, k) && s.workers[k].job.value.page.Some? && s.workers[k].job.value.pk.None? then AddsLink(s, k) else s
    case Stamp(k) => if HasLinkedJob(s, k) then Stamps(s, k) else s
    case Relate(k, fate) => if HasLinkedJob(s, k) then Relates(s, k, fate) else s
    case Finish(k) => if HasLinkedJob(s, k) then Put(s, k, s.workers[k].(job := None)) else s
    case StartBoot(k) => if IsFree(s, k) then Put(s, k, Worker(None, Some(Boot(w.cursor, [], w.cursor)))) else s
    case LoadBatch(k, batch) =>
      if IsBetween(s, k) && s.workers[k].boot.value.cursor == s.workers[k].boot.value.last
         && batch != [] && IsBatch(w, s.workers[k].boot.value.cursor, batch)
      then Put(s, k, Worker(None, Some(s.workers[k].boot.value.(rest := Versions(w, batch),
          last := batch[|batch| - 1]))))
      else s
    case TakeNext(k) =>
      if IsIdle(s, k) && s.workers[k].boot.Some? && s.workers[k].boot.value.rest != [] then Takes(s, k) else s
    case SaveCursor(k) =>
      if IsBetween(s, k)
      then Put(s.(world := w.(cursor := s.workers[k].boot.value.last)), k,
               Worker(None, Some(s.workers[k].boot.value.(cursor := s.workers[k].boot.value.last))))
      else s
    case Remember(k, later) =>
      if HasLinkedJob(s, k) && IsFree(s, later) then Put(s, later, s.workers[k].(boot := None)) else s
    case Restart(k) => Dead(s, k)
  }

  function Run(s: System, steps: seq<Step>): System {
    if steps == [] then s else Next(Run(s, steps[..|steps| - 1]), steps[|steps| - 1])
  }

  /** No task is deleted between the reading of its VolunHub link and a save by its merge. */
  ghost predicate NoneSnatched(s: System, steps: seq<Step>) {
    forall i :: 0 <= i < |steps| ==> !Snatches(Run(s, steps[..i]), steps[i])
  }
}
