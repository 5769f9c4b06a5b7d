/**
 * What every interleaving of the Notion sync, the VolunHub sync and the user keeps, as long as the user
 * deletes no task that a VolunHub merge has read and is yet to save: one owner and one link for each
 * task, no local edit dropped, and no task missed by the bootstrap.  Exactly such a delete breaks it.
 */
module NotionSafety {
  import opened Options
  import opened Notion
  import opened NotionProtocol

  // ------------------------------------------------------------------ the invariant

  /** The tables' constraints, and no task with both a VolunHub and a Notion link. */
  ghost predicate Tables(w: World) {
    && (forall p :: p in w.links && w.links[p].task.Some? ==>
         w.links[p].task.value in w.tasks && w.links[p].task.value !in w.volunhub)
    && (forall p, q :: p in w.links && q in w.links && p != q && w.links[p].task.Some? ==>
        w.links[p].task != w.links[q].task)
    && (forall p :: p in w.links ==> w.links[p].pk < w.nextLink)
    && (forall p, q :: p in w.links && q in w.links && p != q ==> w.links[p].pk != w.links[q].pk)
    && (forall t :: t in w.tasks ==> t < w.nextTask && w.tasks[t].changed <= w.clock)
    && (forall p :: p in w.links && w.links[p].local.Some? ==> w.links[p].local.value <= w.clock)
    && (forall t :: t in w.volunhub ==> t < w.nextTask)
  }

  /** Page `p` mirrors the task. */
  predicate Mirrors(w: World, p: int, task: int) {
    p in w.links && w.links[p].task == Some(task)
  }

  /** A version the task has had: no later than the one it has, and the same if it is as late. */
  ghost predicate Had(w: World, v: Version) {
    && v.task < w.nextTask && v.changed <= w.clock
    && (v.task in w.tasks ==> v.changed <= w.tasks[v.task].changed)
    && (v.task in w.tasks && v.changed == w.tasks[v.task].changed ==> v.content == w.tasks[v.task].content)
  }

  /** The next push sends the version: it is the task's own, and the task has no link or one that is behind. */
  ghost predicate Pending(w: World, v: Version) {
    && v.task in w.tasks && w.tasks[v.task].changed == v.changed
    && (forall p :: Mirrors(w, p, v.task) ==> w.links[p].local.None? || w.links[p].local.value < v.changed)
  }

  ghost predicate Superseded(h: History, v: Version) {
    exists e :: e in h.edits && e.task == v.task && e.changed > v.changed
  }

  /** It was written to the page that mirrors its task. */
  ghost predicate WasSent(w: World, h: History, v: Version) {
    exists p :: Mirrors(w, p, v.task) && (v, p) in h.sent
  }

  ghost predicate WasOverwritten(h: History, v: Version) {
    exists o :: o in h.overwritten && o.0 == v
  }

  ghost predicate Accounted(w: World, h: History, v: Version) {
    v.task in w.tasks && v.task !in w.volunhub ==>
      Pending(w, v) || Superseded(h, v) || WasSent(w, h, v) || WasOverwritten(h, v)
  }

  /** A version of the page that somebody else made after the task's. */
  predicate TrulyLater(w: World, h: History, o: (Version, int, Page)) {
    (o.1, o.2) in h.pages && o.0.changed < o.2.edited && (w.botKnown ==> o.2.editor == Person)
  }

  ghost predicate HistoryOk(w: World, h: History) {
    && (forall v :: v in h.edits ==> Had(w, v) && Accounted(w, h, v))
    && (forall o :: o in h.overwritten ==> TrulyLater(w, h, o))
  }

  ghost predicate JobOk(w: World, h: History, job: Job) {
    && Had(w, job.version) && job.version.task !in w.volunhub
    && (job.reply.Some? ==> job.page.Some? && (job.version, job.page.value) in h.sent)
    && (job.pk.Some? ==> job.page.Some? && job.pk.value < w.nextLink)
    && (job.page.Some? && job.pk.None? ==> job.reply.Some?)
    && (job.pk.Some? ==> forall p :: p in w.links && w.links[p].pk == job.pk.value ==>
         p == job.page.value && (w.links[p].task == Some(job.version.task) || w.links[p].task.None?))
    && (job.pk.Some? ==> Handled(w, h, job.version.task))
  }

  /** The bootstrap is done with the task: it has a page, or its upload failed. */
  ghost predicate Handled(w: World, h: History, task: int) {
    IsMirrorable(w, task) ==> IsLinked(w, task) || task in h.failed
  }

  ghost predicate CursorOk(w: World, h: History, cursor: int) {
    cursor < w.nextTask && forall t :: t in w.tasks && t <= cursor ==> Handled(w, h, t)
  }

  /** The task is still to be dealt with by this bootstrap. */
  predicate InHand(worker: Worker, task: int) {
    || (worker.job.Some? && worker.job.value.version.task == task)
    || (worker.boot.Some? && task in (set v | v in worker.boot.value.rest :: v.task))
  }

  ghost predicate WorkerOk(w: World, h: History, worker: Worker) {
    && (worker.job.Some? ==> JobOk(w, h, worker.job.value))
    && (worker.boot.Some? ==>
      var boot := worker.boot.value;
      && CursorOk(w, h, boot.cursor) && boot.cursor <= boot.last < w.nextTask
      && (forall v :: v in boot.rest ==> Had(w, v) && v.task !in w.volunhub)
      && (forall t :: t in w.tasks && t <= boot.last ==> Handled(w, h, t) || InHand(worker, t)))
  }

  /** A merge's task is VolunHub's as long as it exists, and exists as long as the merge will save it. */
  ghost predicate MergeOk(w: World, merge: Merge) {
    && merge.task < w.nextTask && (merge.task in w.tasks ==> merge.task in w.volunhub)
    && (YetToSave(merge) ==> merge.task in w.tasks)
  }

  ghost predicate Sound(s: System) {
    && Tables(s.world) && HistoryOk(s.world, s.history) && CursorOk(s.world, s.history, s.world.cursor)
    && (forall k :: k in s.workers ==> WorkerOk(s.world, s.history, s.workers[k]))
    && (forall m :: m in s.merges ==> MergeOk(s.world, s.merges[m]))
  }

  // ------------------------------------------------------------------ what every step keeps of the tables

  /** Keys are not reused, tasks change only forwards, and links stay with their tasks. */
  ghost predicate Evolves(w: World, w': World) {
    && Tables(w')
    && w'.botKnown == w.botKnown
    && w.clock <= w'.clock && w.nextTask <= w'.nextTask && w.nextLink <= w'.nextLink
    && (forall t :: t in w'.tasks && t < w.nextTask ==>
         t in w.tasks && (w'.tasks[t] == w.tasks[t] || w'.tasks[t].changed > w.clock))
    && (forall t :: t in w'.volunhub && t < w.nextTask ==> t in w.volunhub)
    && (forall t :: t in w.volunhub && t in w'.tasks ==> t in w'.volunhub)
    && (forall p :: p in w'.links && w'.links[p].pk < w.nextLink ==>
         p in w.links && w.links[p].pk == w'.links[p].pk
             && (w'.links[p].task == w.links[p].task || w'.links[p].task.None?))
    && (forall p, t :: Mirrors(w, p, t) && t in w'.tasks ==> Mirrors(w', p, t))
  }

  ghost predicate Grows(h: History, h': History) {
    && h.edits <= h'.edits && h.sent <= h'.sent && h.pages <= h'.pages
    && h.overwritten <= h'.overwritten && h.failed <= h'.failed
  }

  lemma HadLater(w: World, w': World, v: Version)
    requires Evolves(w, w') && Had(w, v)
    ensures Had(w', v)
  {
  }

  lemma LinkedMirrors(w: World, t: int)
    ensures IsLinked(w, t) <==> exists p :: Mirrors(w, p, t)
  {
    if IsLinked(w, t) {
      var p :| p in w.links && w.links[p].task == Some(t);
      assert Mirrors(w, p, t);
    }
    if p :| Mirrors(w, p, t) { assert w.links[p].task == Some(t); }
  }

  lemma HandledLater(w: World, w': World, h: History, h': History, t: int)
    requires Evolves(w, w') && Grows(h, h') && t < w.nextTask && Handled(w, h, t)
    ensures Handled(w', h', t)
  {
    LinkedMirrors(w, t);
    LinkedMirrors(w', t);
    if IsMirrorable(w', t) && t !in h'.failed {
      assert IsMirrorable(w, t);
      var p :| Mirrors(w, p, t);
      assert Mirrors(w', p, t);
    }
  }

  lemma CursorLater(w: World, w': World, h: History, h': History, cursor: int)
    requires Evolves(w, w') && Grows(h, h') && CursorOk(w, h, cursor)
    ensures CursorOk(w', h', cursor)
  {
    hide Handled;
    forall t | t in w'.tasks && t <= cursor ensures Handled(w', h', t) { HandledLater(w, w', h, h', t); }
  }

  lemma JobLater(w: World, w': World, h: History, h': History, job: Job)
    requires Evolves(w, w') && Grows(h, h') && JobOk(w, h, job)
    ensures JobOk(w', h', job)
  {
    HadLater(w, w', job.version);
    if job.pk.Some? { HandledLater(w, w', h, h', job.version.task); }
    hide Handled, Had, Tables, IsMirrorable, IsLinked;
  }

  lemma WorkerLater(w: World, w': World, h: History, h': History, worker: Worker)
    requires Evolves(w, w') && Grows(h, h') && WorkerOk(w, h, worker)
    ensures WorkerOk(w', h', worker)
  {
    hide JobOk, Handled, CursorOk, Had, InHand;
    if worker.job.Some? { JobLater(w, w', h, h', worker.job.value); }
    if worker.boot.Some? {
      var boot := worker.boot.value;
      CursorLater(w, w', h, h', boot.cursor);
      forall v | v in boot.rest ensures Had(w', v) && v.task !in w'.volunhub {
        HadLater(w, w', v);
        HadKey(w, v);
      }
      forall t | t in w'.tasks && t <= boot.last ensures Handled(w', h', t) || InHand(worker, t) {
        if Handled(w, h, t) { HandledLater(w, w', h, h', t); }
      }
    }
  }

  lemma MergeLater(w: World, w': World, merge: Merge)
    requires Evolves(w, w') && MergeOk(w, merge) && (YetToSave(merge) ==> merge.task in w'.tasks)
    ensures MergeOk(w', merge)
  {
  }

  /** No task goes that a merge is yet to save. */
  ghost predicate Spares(s: System, w: World) {
    forall m :: m in s.merges && YetToSave(s.merges[m]) ==> s.merges[m].task in w.tasks
  }

  lemma KeptIsSpared(s: System, w: World)
    requires Sound(s) && s.world.tasks.Keys <= w.tasks.Keys
    ensures Spares(s, w)
  {
  }

  lemma HadKey(w: World, v: Version)
    requires Had(w, v)
    ensures v.task < w.nextTask
  {
  }

  /** The task and the local watermark of its link are as they were, or its link is new and not stamped. */
  ghost predicate Untouched(w: World, w': World, t: int) {
    t in w.tasks && t in w'.tasks && t !in w'.volunhub ==>
      && w'.tasks[t] == w.tasks[t]
      && forall p :: Mirrors(w', p, t) ==>
          (Mirrors(w, p, t) && w.links[p].local == w'.links[p].local) || w'.links[p].local.None?
  }

  lemma AccountedLater(w: World, w': World, h: History, h': History, v: Version)
    requires Evolves(w, w') && Grows(h, h') && Untouched(w, w', v.task) && v.task < w.nextTask && Accounted(w, h, v)
    ensures Accounted(w', h', v)
  {
    if v.task in w'.tasks && v.task !in w'.volunhub {
      if Superseded(h, v) {
        var e :| e in h.edits && e.task == v.task && e.changed > v.changed;
        assert e in h'.edits;
      } else if WasSent(w, h, v) {
        var p :| Mirrors(w, p, v.task) && (v, p) in h.sent;
        assert Mirrors(w', p, v.task) && (v, p) in h'.sent;
      } else if WasOverwritten(h, v) {
        var o :| o in h.overwritten && o.0 == v;
        assert o in h'.overwritten;
      }
    }
  }

  /** A step of the tables leaves everything sound if it accounts for what it touches. */
  lemma TablesStep(s: System, s': System)
    requires Sound(s) && s'.workers == s.workers && s'.merges == s.merges && Spares(s, s'.world)
    requires s'.world.cursor == s.world.cursor || CursorOk(s'.world, s'.history, s'.world.cursor)
    requires Evolves(s.world, s'.world) && Grows(s.history, s'.history)
    requires forall v :: v in s'.history.edits ==>
      (v in s.history.edits && Untouched(s.world, s'.world, v.task))
          || (Had(s'.world, v) && Accounted(s'.world, s'.history, v))
    requires forall o :: o in s'.history.overwritten ==>
        o in s.history.overwritten || TrulyLater(s'.world, s'.history, o)
    ensures Sound(s')
  {
    hide Tables, Had, Accounted, Untouched, WorkerOk, CursorOk, MergeOk;
    var w, w', h, h' := s.world, s'.world, s.history, s'.history;
    forall m | m in s'.merges ensures MergeOk(w', s'.merges[m]) { MergeLater(w, w', s.merges[m]); }
    assert Tables(w') by { EvolvedTables(w, w'); }
    CursorLater(w, w', h, h', w.cursor);
    forall k | k in s'.workers ensures WorkerOk(w', h', s'.workers[k]) { WorkerLater(w, w', h, h', s.workers[k]); }
    forall v | v in h'.edits ensures Had(w', v) && Accounted(w', h', v) {
      if v in h.edits && Untouched(w, w', v.task) {
        HadLater(w, w', v);
        HadKey(w, v);
        AccountedLater(w, w', h, h', v);
      }
    }
  }

  lemma EvolvedTables(w: World, w': World)
    requires Evolves(w, w')
    ensures Tables(w')
  {
  }

  /** A step of one worker leaves everything sound if the worker is. */
  lemma WorkerStep(s: System, s': System, k: int, worker: Worker)
    requires Sound(s) && s'.world == s.world && s'.workers == s.workers[k := worker] && s'.merges == s.merges
    requires Grows(s.history, s'.history)
    requires s'.history.edits == s.history.edits && s'.history.overwritten == s.history.overwritten
    requires WorkerOk(s'.world, s'.history, worker)
    ensures Sound(s')
  {
    hide Tables, Had, WorkerOk, CursorOk, MergeOk;
    var w, h, h' := s.world, s.history, s'.history;
    EvolvesItself(w);
    CursorLater(w, w, h, h', w.cursor);
    forall j | j in s'.workers ensures WorkerOk(w, h', s'.workers[j]) {
      if j != k { WorkerLater(w, w, h, h', s.workers[j]); }
    }
    forall v | v in h'.edits ensures Had(w, v) && Accounted(w, h', v) {
      HadKey(w, v);
      UntouchedItself(w, v.task);
      AccountedLater(w, w, h, h', v);
    }
  }

  lemma EvolvesItself(w: World)
    requires Tables(w)
    ensures Evolves(w, w)
  {
  }

  lemma UntouchedItself(w: World, t: int)
    ensures Untouched(w, w, t)
  {
  }

  // ------------------------------------------------------------------ the user, and the VolunHub sync

  /** A user's change of a task, new or not: it is pending, and earlier ones are superseded. */
  lemma UserChange(s: System, w: World, task: int)
    requires Sound(s) && Evolves(s.world, w) && w.cursor == s.world.cursor && s.world.tasks.Keys <= w.tasks.Keys
    requires task in w.tasks && w.tasks[task].changed > s.world.clock
    requires forall t :: t != task ==> Untouched(s.world, w, t)
    requires forall p :: Mirrors(w, p, task) ==> LocalChanged(w.links[p], w.tasks[task])
    ensures Sound(Changed(s, w, task))
  {
    var s' := Changed(s, w, task);
    var now := VersionOf(w, task);
    hide Evolves, Untouched;
    forall v | v in s'.history.edits && !(v in s.history.edits && Untouched(s.world, w, v.task))
      ensures Had(w, v) && Accounted(w, s'.history, v)
    {
      if v == now {
        assert task < w.nextTask && w.tasks[task].changed <= w.clock by { EvolvedTables(s.world, w); }
        assert Pending(w, v);
      } else {
        HadLater(s.world, w, v);
        assert now in s'.history.edits && now.changed > v.changed;
        assert Superseded(s'.history, v);
      }
    }
    KeptIsSpared(s, w);
    hide Sound, HistoryOk, Spares;
    TablesStep(s, s');
  }

  lemma NewTaskSound(s: System, content: string)
    requires Sound(s)
    ensures Sound(Changed(s, WithTask(s.world, content), s.world.nextTask))
  {
    var w := WithTask(s.world, content);
    assert forall p :: !Mirrors(w, p, s.world.nextTask);
    UserChange(s, w, s.world.nextTask);
  }

  lemma ChangeTaskSound(s: System, task: int, content: string)
    requires Sound(s) && task in s.world.tasks
    ensures Sound(Changed(s, ChangedTask(s.world, task, content), task))
  {
    UserChange(s, ChangedTask(s.world, task, content), task);
  }

  /** A step that no version notices. */
  lemma QuietStep(s: System, s': System)
    requires Sound(s) && s'.workers == s.workers && s'.merges == s.merges && s'.world.cursor == s.world.cursor
    requires s.world.tasks.Keys <= s'.world.tasks.Keys || Spares(s, s'.world)
    requires Evolves(s.world, s'.world) && Grows(s.history, s'.history)
    requires s'.history.edits == s.history.edits && s'.history.overwritten == s.history.overwritten
    requires forall t :: t < s.world.nextTask ==> Untouched(s.world, s'.world, t)
    ensures Sound(s')
  {
    hide Untouched, Accounted, Evolves, Spares;
    if s.world.tasks.Keys <= s'.world.tasks.Keys { KeptIsSpared(s, s'.world); }
    forall v | v in s'.history.edits ensures Untouched(s.world, s'.world, v.task) { HadKey(s.world, v); }
    TablesStep(s, s');
  }

  lemma DeleteTaskSound(s: System, task: int)
    requires Sound(s) && !Snatches(s, DeleteTask(task))
    ensures Sound(s.(world := WithoutTask(s.world, task)))
  {
    OthersSpared(s, task);
    hide Sound, Tables, Evolves, Untouched, WithoutTask, Spares, Snatches;
    TablesOf(s);
    WithoutTaskEvolves(s.world, task);
    WithoutTaskCursor(s.world, task);
    QuietStep(s, s.(world := WithoutTask(s.world, task)));
  }

  lemma OthersSpared(s: System, task: int)
    requires Sound(s) && !Snatches(s, DeleteTask(task))
    ensures Spares(s, WithoutTask(s.world, task))
  {
  }

  lemma WithoutTaskCursor(w: World, task: int)
    ensures WithoutTask(w, task).cursor == w.cursor
  {
  }

  lemma WithoutTaskEvolves(w: World, task: int)
    requires Tables(w)
    ensures Evolves(w, WithoutTask(w, task)) && forall t :: Untouched(w, WithoutTask(w, task), t)
  {
    hide Tables;
    WithoutTaskTables(w, task);
    var w' := WithoutTask(w, task);
    assert forall p, t :: Mirrors(w', p, t) <==> Mirrors(w, p, t) && t != task;
  }

  lemma WithoutTaskTables(w: World, task: int)
    requires Tables(w)
    ensures Tables(WithoutTask(w, task))
  {
  }

  lemma ImportSound(s: System, content: string)
    requires Sound(s)
    ensures Sound(s.(world := Imports(s.world, content)))
  {
    hide Sound, Tables, Evolves, Untouched, WithTask;
    TablesOf(s);
    ImportsEvolves(s.world, content);
    QuietStep(s, s.(world := Imports(s.world, content)));
  }

  lemma ImportsEvolves(w: World, content: string)
    requires Tables(w)
    ensures Evolves(w, Imports(w, content)) && Imports(w, content).cursor == w.cursor
    ensures w.tasks.Keys <= Imports(w, content).tasks.Keys
    ensures forall t :: t < w.nextTask ==> Untouched(w, Imports(w, content), t)
  {
    hide Tables;
    ImportsTables(w, content);
    KeysOf(w);
    assert forall p, t :: Mirrors(Imports(w, content), p, t) <==> Mirrors(w, p, t);
  }

  lemma ImportsTables(w: World, content: string)
    requires Tables(w)
    ensures Tables(Imports(w, content))
  {
  }

  lemma DropTombstoneSound(s: System, page: int)
    requires Sound(s) && IsTombstone(s.world, page)
    ensures Sound(s.(world := WithoutLink(s.world, page)))
  {
    hide Sound, Tables, Evolves, Untouched;
    TablesOf(s);
    WithoutLinkEvolves(s.world, page);
    QuietStep(s, s.(world := WithoutLink(s.world, page)));
  }

  lemma WithoutLinkEvolves(w: World, page: int)
    requires Tables(w) && IsTombstone(w, page)
    ensures Evolves(w, WithoutLink(w, page)) && forall t :: Untouched(w, WithoutLink(w, page), t)
  {
    assert forall p, t :: Mirrors(WithoutLink(w, page), p, t) <==> Mirrors(w, p, t);
  }

  /** A task with a Notion link is not VolunHub's, so no merge has read it. */
  lemma LinkedIsNotSnatched(s: System, page: int)
    requires Sound(s) && page in s.world.links && s.world.links[page].task.Some?
    ensures !Snatches(s, DeleteTask(s.world.links[page].task.value))
  {
  }

  /** Reaping deletes the task, which leaves a tombstone, and then drops that. */
  lemma ReapSound(s: System, page: int, seen: Page)
    requires Sound(s)
    ensures Sound(s.(world := Reaps(s.world, page, seen)))
  {
    hide Sound;
    if page in s.world.links && TaskOf(s.world, s.world.links[page]).Some? && seen.trashed {
      var task := s.world.links[page].task.value;
      LinkedIsNotSnatched(s, page);
      DeleteTaskSound(s, task);
      DropTombstoneSound(s.(world := WithoutTask(s.world, task)), page);
    }
  }

  /** Pages and clocks are of no concern to the tables. */
  lemma PageStepSound(s: System, s': System)
    requires Sound(s) && s'.workers == s.workers && s'.merges == s.merges && Grows(s.history, s'.history)
    requires s'.history.edits == s.history.edits && s'.history.overwritten == s.history.overwritten
    requires s'.world.clock >= s.world.clock
    requires s'.world == s.world.(pages := s'.world.pages, clock := s'.world.clock,
        notionClock := s'.world.notionClock, nextPage := s'.world.nextPage)
    ensures Sound(s')
  {
    assert Tables(s.world);
    hide Sound;
    QuietStep(s, s');
  }

  // ------------------------------------------------------------------ pull

  lemma ImportedSound(s: System, id: int, page: Page)
    requires Sound(s) && id !in s.world.links
    ensures Sound(s.(world := Imported(s.world, id, page)))
  {
    ImportedEvolves(s.world, id, page) by { assert Tables(s.world); }
    hide Sound, Evolves, Untouched;
    QuietStep(s, s.(world := Imported(s.world, id, page)));
  }

  lemma ImportedEvolves(w: World, id: int, page: Page)
    requires Tables(w) && id !in w.links
    ensures Evolves(w, Imported(w, id, page))
    ensures forall t :: t < w.nextTask ==> Untouched(w, Imported(w, id, page), t)
  {
    hide Tables;
    ImportedTables(w, id, page);
    KeysOf(w);
    var w' := Imported(w, id, page);
    var task, link := Task(w.clock + 1, page.content),
        Link(w.nextLink, Some(w.nextTask), Some(LastEdited(page)), Some(w.clock + 1));
    assert w' == w.(tasks := w.tasks[w.nextTask := task], links := w.links[id := link],
                    clock := w.clock + 1, nextTask := w.nextTask + 1, nextLink := w.nextLink + 1);
    hide Imported;
    assert forall p, t :: Mirrors(w, p, t) ==> Mirrors(w', p, t);
    assert forall p, t :: Mirrors(w', p, t) ==> Mirrors(w, p, t) || t == w.nextTask;
  }

  lemma KeysOf(w: World)
    requires Tables(w)
    ensures forall t :: t in w.tasks || t in w.volunhub ==> t < w.nextTask
  {
  }

  lemma ImportedTables(w: World, id: int, page: Page)
    requires Tables(w) && id !in w.links
    ensures Tables(Imported(w, id, page))
  {
  }

  lemma EchoSound(s: System, id: int, page: Page)
    requires Sound(s) && id in s.world.links
    ensures Sound(s.(world := Stamped(s.world, id, LastEdited(page), None)))
  {
    hide Sound, Tables, Evolves, Untouched;
    TablesOf(s);
    EchoEvolves(s.world, id, page);
    QuietStep(s, s.(world := Stamped(s.world, id, LastEdited(page), None)));
  }

  /** An echo moves the remote watermark only. */
  lemma EchoEvolves(w: World, id: int, page: Page)
    requires Tables(w) && id in w.links
    ensures var w' := Stamped(w, id, LastEdited(page), None); Evolves(w, w') && forall t :: Untouched(w, w', t)
  {
    hide Tables, Floor;
    EchoTables(w, id, page);
    assert forall p, t :: Mirrors(Stamped(w, id, LastEdited(page), None), p, t) <==> Mirrors(w, p, t);
  }

  lemma EchoTables(w: World, id: int, page: Page)
    requires Tables(w) && id in w.links
    ensures Tables(Stamped(w, id, LastEdited(page), None))
  {
    hide Floor;
  }

  lemma OverwriteEvolves(w: World, id: int, task: int, page: Page)
    requires Tables(w) && Mirrors(w, id, task) && task in w.tasks
    ensures Evolves(w, Overwritten(w, id, task, page))
    ensures forall t :: t != task ==> Untouched(w, Overwritten(w, id, task, page), t)
  {
    RowEvolves(w, Overwritten(w, id, task, page), id);
  }

  /** A link is stamped, and its task perhaps rewritten, with a time that has come. */
  lemma RowEvolves(w: World, w': World, id: int)
    requires Tables(w) && id in w.links && id in w'.links && TaskOf(w, w.links[id]).Some?
    requires var task := w.links[id].task.value;
      task in w'.tasks && (w'.tasks[task] == w.tasks[task] || w.clock < w'.tasks[task].changed <= w'.clock)
      && w' == w.(clock := w'.clock, tasks := w.tasks[task := w'.tasks[task]], links := w.links[id := w'.links[id]])
    requires w.clock <= w'.clock && w'.links[id].pk == w.links[id].pk && w'.links[id].task == w.links[id].task
    requires w'.links[id].local.Some? ==> w'.links[id].local.value <= w'.clock
    ensures Evolves(w, w')
    ensures forall t :: t != w.links[id].task.value ==> Untouched(w, w', t)
  {
    assert Tables(w') by { RowTables(w, w', id); }
    hide Tables, TaskOf;
    assert forall p, t :: Mirrors(w', p, t) <==> Mirrors(w, p, t);
  }

  lemma RowTables(w: World, w': World, id: int)
    requires Tables(w) && id in w.links && id in w'.links && TaskOf(w, w.links[id]).Some?
    requires var task := w.links[id].task.value;
      task in w'.tasks && w'.tasks[task].changed <= w'.clock
      && w' == w.(clock := w'.clock, tasks := w.tasks[task := w'.tasks[task]], links := w.links[id := w'.links[id]])
    requires w.clock <= w'.clock && w'.links[id].pk == w.links[id].pk && w'.links[id].task == w.links[id].task
    requires w'.links[id].local.Some? ==> w'.links[id].local.value <= w'.clock
    ensures Tables(w')
  {
  }

  lemma OverwriteAccounts(s: System, id: int, page: Page, v: Version)
    requires Sound(s) && id in s.world.links && TaskOf(s.world, s.world.links[id]).Some? && v in s.history.edits
    requires NotionPrevails(s.world, s.world.links[id], TaskOf(s.world, s.world.links[id]).value, page)
    requires s.world.links[id].task == Some(v.task)
    ensures var h := s.history;
      Accounted(Overwritten(s.world, id, v.task, page),
          h.(overwritten := h.overwritten + OverwrittenBy(s.world, id, page)), v)
  {
    var w, h := s.world, s.history;
    var w' := Overwritten(w, id, v.task, page);
    var h' := h.(overwritten := h.overwritten + OverwrittenBy(w, id, page));
    assert Mirrors(w, id, v.task);
    if Pending(w, v) {
      assert v == VersionOf(w, v.task) && (v, id, page) in h'.overwritten;
      assert WasOverwritten(h', v);
    } else if Superseded(h, v) {
      assert Superseded(h', v);
    } else if WasSent(w, h, v) {
      var p :| Mirrors(w, p, v.task) && (v, p) in h.sent;
      assert Mirrors(w', p, v.task);
    } else {
      var o :| o in h.overwritten && o.0 == v;
      assert o in h'.overwritten;
    }
  }

  lemma OverwriteIsLater(w: World, w': World, h: History, id: int, page: Page)
    requires w'.botKnown == w.botKnown && (id, page) in h.pages
    ensures forall o :: o in OverwrittenBy(w, id, page) ==> TrulyLater(w', h, o)
  {
    if id in w.links && TaskOf(w, w.links[id]).Some? { NotionWinsOnlyIfLater(TaskOf(w, w.links[id]).value, page); }
  }

  /** The page overwrites the task: what the task says was known to Notion, or is older than the page. */
  lemma OverwriteSound(s: System, id: int, page: Page)
    requires Sound(s) && (id, page) in s.history.pages
    requires id in s.world.links && TaskOf(s.world, s.world.links[id]).Some?
    requires NotionPrevails(s.world, s.world.links[id], TaskOf(s.world, s.world.links[id]).value, page)
    ensures Sound(s.(world := Overwritten(s.world, id, s.world.links[id].task.value, page),
                     history := s.history.(overwritten := s.history.overwritten + OverwrittenBy(s.world, id, page))))
  {
    var w, h := s.world, s.history;
    var task := w.links[id].task.value;
    var w' := Overwritten(w, id, task, page);
    var h' := h.(overwritten := h.overwritten + OverwrittenBy(w, id, page));
    OverwriteEvolves(w, id, task, page);
    hide Evolves, Untouched, Overwritten;
    forall v | v in h.edits && v.task == task ensures Had(w', v) && Accounted(w', h', v) {
      HadLater(w, w', v);
      OverwriteAccounts(s, id, page, v);
    }
    OverwriteIsLater(w, w', h', id, page);
    hide Sound, HistoryOk, OverwrittenBy;
    TablesStep(s, s.(world := w', history := h'));
  }

  lemma AppliedSound(s: System, id: int, page: Page)
    requires Sound(s) && (id, page) in s.history.pages
    ensures Sound(Next(s, Apply(id, page)))
  {
    var w := s.world;
    assert s.(history := s.history.(overwritten := s.history.overwritten + {})) == s;
    hide Sound, Overwritten, Imported, Stamped;
    if id !in w.links {
      if !IsOwnEdit(w, page) { ImportedSound(s, id, page); }
    } else if TaskOf(w, w.links[id]).Some? {
      if IsOwnEdit(w, page) {
        EchoSound(s, id, page);
      } else if NotionPrevails(w, w.links[id], TaskOf(w, w.links[id]).value, page) {
        OverwriteSound(s, id, page);
      }
    }
  }

  // ------------------------------------------------------------------ push

  /** What a stamp reports as sent was sent, so whatever is still pending afterwards is what was not. */
  lemma StampSound(s: System, k: int)
    requires Sound(s) && HasLinkedJob(s, k)
    ensures Sound(Stamps(s, k))
  {
    var job, w, h := s.workers[k].job.value, s.world, s.history;
    var page := job.page.value;
    if page in w.links && w.links[page].pk == job.pk.value {
      var w' := Stamped(w, page, job.reply.value, Some(job.version.changed));
      StampEvolves(w, h, job);
      hide Evolves, Stamped;
      forall v | v in h.edits && !Untouched(w, w', v.task) ensures Had(w', v) && Accounted(w', h, v) {
        HadLater(w, w', v);
        StampAccounts(w, h, job, v);
      }
      hide Sound, Untouched;
      TablesStep(s, s.(world := w'));
    } else {
      DeadSound(s, k);
    }
  }

  lemma StampEvolves(w: World, h: History, job: Job)
    requires Tables(w) && JobOk(w, h, job) && job.pk.Some? && job.reply.Some?
    requires job.page.value in w.links && w.links[job.page.value].pk == job.pk.value
    ensures var w' := Stamped(w, job.page.value, job.reply.value, Some(job.version.changed));
      Evolves(w, w') && forall t :: Untouched(w, w', t) || w.links[job.page.value].task == Some(t)
  {
    var page := job.page.value;
    var w' := Stamped(w, page, job.reply.value, Some(job.version.changed));
    if w.links[page].task.Some? {
      assert w'.tasks == w.tasks[job.version.task := w.tasks[job.version.task]];
      RowEvolves(w, w', page);
    } else {
      TombstoneEvolves(w, w', page);
    }
    hide Tables, Evolves, Untouched;
  }

  lemma TombstoneEvolves(w: World, w': World, id: int)
    requires Tables(w) && IsTombstone(w, id) && id in w'.links && w' == w.(links := w.links[id := w'.links[id]])
    requires w'.links[id].pk == w.links[id].pk && w'.links[id].task.None?
    requires w'.links[id].local.Some? ==> w'.links[id].local.value <= w.clock
    ensures Evolves(w, w') && forall t :: Untouched(w, w', t)
  {
    assert forall p, t :: Mirrors(w', p, t) <==> Mirrors(w, p, t);
  }

  lemma StampAccounts(w: World, h: History, job: Job, v: Version)
    requires Tables(w) && JobOk(w, h, job) && job.pk.Some? && job.reply.Some? && Had(w, v) && Accounted(w, h, v)
    requires job.page.value in w.links && w.links[job.page.value].pk == job.pk.value
    requires w.links[job.page.value].task == Some(v.task)
    ensures Accounted(Stamped(w, job.page.value, job.reply.value, Some(job.version.changed)), h, v)
  {
    var page := job.page.value;
    var w' := Stamped(w, page, job.reply.value, Some(job.version.changed));
    assert v.task == job.version.task;
    assert Mirrors(w', page, v.task);
    assert forall p :: Mirrors(w', p, v.task) ==> p == page;
    if WasSent(w, h, v) {
      var p :| Mirrors(w, p, v.task) && (v, p) in h.sent;
      assert p == page;
    }
  }

  lemma DeadSound(s: System, k: int)
    requires Sound(s)
    ensures Sound(Dead(s, k))
  {
    WorkerStep(s, Dead(s, k), k, Worker(None, None));
  }

  lemma LinkSound(s: System, k: int)
    requires Sound(s) && HasJob(s, k) && s.workers[k].job.value.page.Some? && s.workers[k].job.value.pk.None?
    ensures Sound(AddsLink(s, k))
  {
    var worker, w := s.workers[k], s.world;
    var job := worker.job.value;
    var task, page := job.version.task, job.page.value;
    if task in w.tasks && !IsLinked(w, task) && page !in w.links {
      var linked := worker.(job := Some(job.(pk := Some(w.nextLink))));
      var between := s.(world := WithLink(w, task, page));
      WorkerIsOk(s, k);
      TablesOf(s);
      hide Sound, WorkerOk, Tables, Evolves, Untouched, WithLink, IsLinked, JobOk;
      JobIsOk(w, s.history, worker);
      LinkEvolves(w, task, page);
      WithLinkCursor(w, task, page);
      QuietStep(s, between);
      WorkerIsOk(between, k);
      LinkedOk(w, s.history, worker);
      WorkerStep(between, AddsLink(s, k), k, linked);
    } else {
      DeadSound(s, k);
    }
  }

  lemma WithLinkCursor(w: World, task: int, page: int)
    ensures WithLink(w, task, page).cursor == w.cursor
  {
  }

  lemma JobIsOk(w: World, h: History, worker: Worker)
    requires WorkerOk(w, h, worker) && worker.job.Some?
    ensures worker.job.value.version.task !in w.volunhub
  {
  }

  /** A job whose link has just been created knows it. */
  lemma LinkedOk(w: World, h: History, worker: Worker)
    requires Tables(w) && worker.job.Some? && worker.job.value.page.Some? && worker.job.value.pk.None?
    requires worker.job.value.page.value !in w.links
    requires WorkerOk(WithLink(w, worker.job.value.version.task, worker.job.value.page.value), h, worker)
    ensures var job := worker.job.value;
      WorkerOk(WithLink(w, job.version.task, job.page.value), h, worker.(job := Some(job.(pk := Some(w.nextLink)))))
  {
    var job := worker.job.value;
    var w' := WithLink(w, job.version.task, job.page.value);
    assert Mirrors(w', job.page.value, job.version.task);
    LinkedMirrors(w', job.version.task);
    PksOf(w);
    hide Tables, Had, CursorOk;
  }

  lemma LinkEvolves(w: World, task: int, page: int)
    requires Tables(w) && task in w.tasks && task !in w.volunhub && !IsLinked(w, task) && page !in w.links
    ensures Evolves(w, WithLink(w, task, page)) && forall t :: Untouched(w, WithLink(w, task, page), t)
  {
    hide Tables, IsLinked;
    LinkedMirrors(w, task);
    LinkTables(w, task, page);
    PksOf(w);
    var w' := WithLink(w, task, page);
    assert forall p, t :: Mirrors(w, p, t) ==> Mirrors(w', p, t);
    assert forall p, t :: Mirrors(w', p, t) ==> Mirrors(w, p, t) || (p == page && t == task);
  }

  lemma PksOf(w: World)
    requires Tables(w)
    ensures forall p :: p in w.links ==> w.links[p].pk < w.nextLink
  {
  }

  lemma LinkTables(w: World, task: int, page: int)
    requires Tables(w) && task in w.tasks && task !in w.volunhub && page !in w.links && forall p :: !Mirrors(w, p, task)
    ensures Tables(WithLink(w, task, page))
  {
    forall p | p in w.links ensures w.links[p].task != Some(task) {
      assert !Mirrors(w, p, task);
    }
  }

  lemma AnsweredOk(w: World, h: History, worker: Worker, page: int, time: int)
    requires WorkerOk(w, h, worker) && worker.job.Some?
    requires var job := worker.job.value; (job.page == Some(page) || job.page.None?) && (job.version, page) in h.sent
    ensures WorkerOk(w, h, worker.(job := Some(worker.job.value.(page := Some(page), reply := Some(time)))))
  {
    hide Handled, Had, CursorOk;
  }

  lemma DroppedOk(w: World, h: History, worker: Worker)
    requires WorkerOk(w, h, worker) && worker.job.Some?
    requires worker.boot.Some? ==> Handled(w, h, worker.job.value.version.task)
    ensures WorkerOk(w, h, worker.(job := None))
  {
    hide Handled, Had, CursorOk, JobOk;
    var without := worker.(job := None);
    assert forall t :: InHand(worker, t) ==> InHand(without, t) || t == worker.job.value.version.task;
  }

  lemma WorkerIsOk(s: System, k: int)
    requires Sound(s) && k in s.workers
    ensures WorkerOk(s.world, s.history, s.workers[k])
  {
  }

  /** The worker gives its job up: its task is handled. */
  lemma DropSound(s: System, k: int)
    requires Sound(s) && HasJob(s, k)
    requires s.workers[k].boot.Some? ==> Handled(s.world, s.history, s.workers[k].job.value.version.task)
    ensures Sound(Put(s, k, s.workers[k].(job := None)))
  {
    WorkerIsOk(s, k);
    DroppedOk(s.world, s.history, s.workers[k]);
    hide Sound, WorkerOk, Handled;
    WorkerStep(s, Put(s, k, s.workers[k].(job := None)), k, s.workers[k].(job := None));
  }

  lemma AnswerSound(s: System, k: int, page: int, time: int)
    requires Sound(s) && HasJob(s, k)
    requires var job := s.workers[k].job.value;
      (job.page == Some(page) || job.page.None?) && (job.version, page) in s.history.sent
    ensures var job := s.workers[k].job.value;
      Sound(Put(s, k, s.workers[k].(job := Some(job.(page := Some(page), reply := Some(time))))))
  {
    WorkerIsOk(s, k);
    AnsweredOk(s.world, s.history, s.workers[k], page, time);
    hide Sound, WorkerOk;
    var answered := s.workers[k].(job := Some(s.workers[k].job.value.(page := Some(page), reply := Some(time))));
    WorkerStep(s, Put(s, k, answered), k, answered);
  }

  /** A linked or failed task is handled. */
  lemma JobHandled(s: System, k: int)
    requires Sound(s) && HasJob(s, k)
    requires (s.workers[k].job.value.pk.Some? || s.workers[k].job.value.version.task in s.history.failed)
    ensures Handled(s.world, s.history, s.workers[k].job.value.version.task)
  {
    WorkerIsOk(s, k);
  }

  lemma SendSound(s: System, k: int, fate: Fate)
    requires Sound(s) && HasJob(s, k) && s.workers[k].job.value.reply.None?
    ensures Sound(Sends(s, k, fate))
  {
    var w, h, worker := s.world, s.history, s.workers[k];
    var job := worker.job.value;
    WorkerIsOk(s, k);
    assert job.page.Some? ==> job.pk.Some?;
    hide Sound, WorkerOk, Handled;
    var page := if job.page.Some? then job.page.value else w.nextPage;
    var h1 := if job.page.None? && fate != Done then h.(failed := h.failed + {job.version.task}) else h;
    if (if job.page.None? then fate else WriteFate(w, page, fate)) == Refused {
      PageStepSound(s, s.(history := h1));
      JobHandled(s.(history := h1), k);
      DropSound(s.(history := h1), k);
    } else {
      var written := if job.page.None? then NewPage(w, job.version.content, Bot)
          else WithPage(w, page, job.version.content, Bot);
      var seen := Seen(s, written, page).history.(sent := h.sent + {(job.version, page)}, failed := h1.failed);
      var between := s.(world := written, history := seen);
      PageStepSound(s, between);
      if fate == Done {
        AnswerSound(between, k, page, Floor(w.notionClock));
      } else {
        JobHandled(between, k);
        DropSound(between, k);
      }
    }
  }

  lemma RelateSound(s: System, k: int, fate: Fate)
    requires Sound(s) && HasLinkedJob(s, k)
    ensures Sound(Relates(s, k, fate))
  {
    var w, worker := s.world, s.workers[k];
    var job := worker.job.value;
    var page := job.page.value;
    WorkerIsOk(s, k);
    assert (job.version, page) in s.history.sent;
    hide Sound, WorkerOk, Handled;
    if WriteFate(w, page, fate) == Refused {
      JobHandled(s, k);
      DropSound(s, k);
    } else {
      var between := Seen(s, WithPage(w, page, w.pages[page].content, Bot), page);
      PageStepSound(s, between);
      if fate == Done {
        AnswerSound(between, k, page, Floor(w.notionClock));
      } else {
        JobHandled(between, k);
        DropSound(between, k);
      }
    }
  }

  lemma FinishSound(s: System, k: int)
    requires Sound(s) && HasLinkedJob(s, k)
    ensures Sound(Put(s, k, s.workers[k].(job := None)))
  {
    JobHandled(s, k);
    DropSound(s, k);
  }

  lemma RememberSound(s: System, k: int, later: int)
    requires Sound(s) && HasLinkedJob(s, k)
    ensures Sound(Put(s, later, s.workers[k].(boot := None)))
  {
    WorkerStep(s, Put(s, later, s.workers[k].(boot := None)), later, s.workers[k].(boot := None));
  }

  lemma LoadSound(s: System, step: Step)
    requires Sound(s) && (step.Load? || step.LoadNew?)
    ensures Sound(Next(s, step))
  {
    var w, s' := s.world, Next(s, step);
    if s' != s {
      var k := step.w;
      if step.Load? {
        var task := w.links[step.page].task.value;
        assert Mirrors(w, step.page, task);
        LinkedMirrors(w, task);
        assert JobOk(w, s.history, s'.workers[k].job.value);
      } else {
        assert JobOk(w, s.history, s'.workers[k].job.value);
      }
      WorkerStep(s, s', k, s'.workers[k]);
    }
  }

  // ------------------------------------------------------------------ bootstrap

  lemma StartBootSound(s: System, k: int)
    requires Sound(s) && IsFree(s, k)
    ensures Sound(Put(s, k, Worker(None, Some(Boot(s.world.cursor, [], s.world.cursor)))))
  {
    WorkerStep(s, Put(s, k, Worker(None, Some(Boot(s.world.cursor, [], s.world.cursor)))), k,
               Worker(None, Some(Boot(s.world.cursor, [], s.world.cursor))));
  }

  /** Between batches, everything up to the batch's last task has been dealt with. */
  lemma BatchDone(s: System, k: int)
    requires Sound(s) && IsBetween(s, k)
    ensures CursorOk(s.world, s.history, s.workers[k].boot.value.last)
  {
    WorkerIsOk(s, k);
  }

  lemma LoadBatchSound(s: System, k: int, batch: seq<int>)
    requires Sound(s) && IsBetween(s, k) && s.workers[k].boot.value.cursor == s.workers[k].boot.value.last
    requires batch != [] && IsBatch(s.world, s.workers[k].boot.value.cursor, batch)
    ensures Sound(Next(s, LoadBatch(k, batch)))
  {
    var w, h, boot := s.world, s.history, s.workers[k].boot.value;
    BatchDone(s, k);
    var rest, last := Versions(w, batch), batch[|batch| - 1];
    var loaded := Worker(None, Some(boot.(rest := rest, last := last)));
    assert last in batch;
    forall v | v in rest ensures Had(w, v) && v.task !in w.volunhub {
      var i :| 0 <= i < |rest| && rest[i] == v;
      assert batch[i] in batch;
    }
    forall t | t in w.tasks && t <= last ensures Handled(w, h, t) || InHand(loaded, t) {
      if t > boot.cursor && IsMirrorable(w, t) {
        var i :| 0 <= i < |batch| && batch[i] == t;
        assert rest[i].task == t && rest[i] in rest;
      }
    }
    hide Handled, InHand, Had, IsBatch;
    assert WorkerOk(w, h, loaded);
    hide Sound, WorkerOk, Next;
    AtLoadBatch(s, k, batch);
    WorkerStep(s, Next(s, LoadBatch(k, batch)), k, loaded);
  }

  lemma AtLoadBatch(s: System, k: int, batch: seq<int>)
    requires IsBetween(s, k) && s.workers[k].boot.value.cursor == s.workers[k].boot.value.last
    requires batch != [] && IsBatch(s.world, s.workers[k].boot.value.cursor, batch)
    ensures var boot := s.workers[k].boot.value;
      Next(s, LoadBatch(k, batch))
        == Put(s, k, Worker(None, Some(boot.(rest := Versions(s.world, batch), last := batch[|batch| - 1]))))
  {
    hide IsBatch;
  }

  lemma TakeSound(s: System, k: int)
    requires Sound(s) && IsIdle(s, k) && s.workers[k].boot.Some? && s.workers[k].boot.value.rest != []
    ensures Sound(Takes(s, k))
  {
    var w, h, worker := s.world, s.history, s.workers[k];
    var boot := worker.boot.value;
    var first := boot.rest[0];
    var taken := Takes(s, k).workers[k];
    WorkerIsOk(s, k);
    assert first in boot.rest;
    forall t | t in w.tasks && t <= boot.last ensures Handled(w, h, t) || InHand(taken, t) {
      if InHand(worker, t) && t != first.task {
        var v :| v in boot.rest && v.task == t;
        assert v in boot.rest[1..];
      }
    }
    hide Handled, InHand, Had;
    assert WorkerOk(w, h, taken);
    hide Sound, WorkerOk;
    WorkerStep(s, Takes(s, k), k, taken);
  }

  lemma SaveCursorSound(s: System, k: int)
    requires Sound(s) && IsBetween(s, k)
    ensures Sound(Next(s, SaveCursor(k)))
  {
    var w, boot := s.world, s.workers[k].boot.value;
    BatchDone(s, k);
    var between := s.(world := w.(cursor := boot.last));
    var saved := Worker(None, Some(boot.(cursor := boot.last)));
    CursorMoved(s, boot.last);
    WorkerIsOk(between, k);
    assert WorkerOk(between.world, between.history, saved) by { SavedOk(between, k); }
    hide Sound, WorkerOk;
    WorkerStep(between, Next(s, SaveCursor(k)), k, saved);
  }

  lemma CursorMoved(s: System, cursor: int)
    requires Sound(s) && CursorOk(s.world, s.history, cursor)
    ensures Sound(s.(world := s.world.(cursor := cursor)))
  {
    KeptIsSpared(s, s.world.(cursor := cursor));
    hide Sound, Tables, Untouched, CursorOk, Spares;
    TablesOf(s);
    var w, w' := s.world, s.world.(cursor := cursor);
    CursorEvolves(w, cursor);
    CursorLater(w, w', s.history, s.history, cursor);
    hide Evolves;
    TablesStep(s, s.(world := w'));
  }

  lemma CursorEvolves(w: World, cursor: int)
    requires Tables(w)
    ensures Evolves(w, w.(cursor := cursor)) && forall t :: Untouched(w, w.(cursor := cursor), t)
  {
    assert forall p, t :: Mirrors(w.(cursor := cursor), p, t) <==> Mirrors(w, p, t);
  }

  lemma SavedOk(s: System, k: int)
    requires Sound(s) && IsBetween(s, k)
    ensures var boot := s.workers[k].boot.value;
      WorkerOk(s.world, s.history, Worker(None, Some(boot.(cursor := boot.last))))
  {
    BatchDone(s, k);
    WorkerIsOk(s, k);
    hide Sound, Tables, Handled;
  }

  // ------------------------------------------------------------------ VolunHub's merges

  lemma MergesSound(s: System, merges: map<int, Merge>)
    requires Sound(s) && forall m :: m in merges ==> MergeOk(s.world, merges[m])
    ensures Sound(s.(merges := merges))
  {
    hide Tables, HistoryOk, CursorOk, WorkerOk, MergeOk;
  }

  lemma MergeIsOk(s: System, m: int)
    requires Sound(s) && m in s.merges
    ensures MergeOk(s.world, s.merges[m])
  {
  }

  lemma ReadLinkSound(s: System, m: int, task: int, saves: Option<string>)
    requires Sound(s) && task in s.world.tasks && task in s.world.volunhub
    ensures Sound(s.(merges := s.merges[m := Merge(task, saves, false)]))
  {
    TablesOf(s);
    KeysOf(s.world);
    assert MergeOk(s.world, Merge(task, saves, false));
    hide Tables, MergeOk;
    var merges := s.merges[m := Merge(task, saves, false)];
    forall n | n in merges ensures MergeOk(s.world, merges[n]) { if n != m { MergeIsOk(s, n); } }
    hide Sound;
    MergesSound(s, merges);
  }

  /** A merge whose task is still there saves one that is VolunHub's, and touches no other. */
  lemma SaveMergedSound(s: System, m: int)
    requires Sound(s) && m in s.merges && YetToSave(s.merges[m])
    ensures Sound(SavesMerged(s, m))
  {
    var merge := s.merges[m];
    var w := ChangedTask(s.world, merge.task, merge.saves.value);
    var between := s.(world := w);
    MergeIsOk(s, m);
    TablesOf(s);
    MergedEvolves(s.world, merge.task, merge.saves.value);
    assert between.world.tasks.Keys == s.world.tasks.Keys;
    hide Sound, Tables, Evolves, Untouched;
    QuietStep(s, between);
    hide MergeOk;
    var merges := s.merges[m := merge.(saved := true)];
    forall n | n in merges ensures MergeOk(w, merges[n]) {
      MergeIsOk(between, n);
      if n == m { SavedIsOk(w, merge); }
    }
    MergesSound(between, merges);
  }

  lemma SavedIsOk(w: World, merge: Merge)
    requires MergeOk(w, merge)
    ensures MergeOk(w, merge.(saved := true))
  {
  }

  lemma MergedEvolves(w: World, task: int, content: string)
    requires Tables(w) && task in w.tasks && task in w.volunhub
    ensures Evolves(w, ChangedTask(w, task, content)) && ChangedTask(w, task, content).cursor == w.cursor
    ensures forall t :: Untouched(w, ChangedTask(w, task, content), t)
  {
    assert Tables(ChangedTask(w, task, content)) by { ChangedTables(w, task, content); }
    hide Tables;
    assert forall p, t :: Mirrors(ChangedTask(w, task, content), p, t) <==> Mirrors(w, p, t);
  }

  lemma ChangedTables(w: World, task: int, content: string)
    requires Tables(w) && task in w.tasks
    ensures Tables(ChangedTask(w, task, content))
  {
  }

  /** A merge's link points where it did, or the task is gone and the run dies. */
  lemma SaveLinkSound(s: System, m: int)
    requires Sound(s) && m in s.merges
    ensures Sound(SavesLink(s, m))
  {
    MergeIsOk(s, m);
    var merges := s.merges - {m};
    assert s.merges[m].task in s.world.tasks ==> s.world.volunhub + {s.merges[m].task} == s.world.volunhub;
    assert SavesLink(s, m) == s.(merges := merges);
    hide SavesLink;
    DropsSound(s, m);
  }

  lemma DropsSound(s: System, m: int)
    requires Sound(s)
    ensures Sound(s.(merges := s.merges - {m}))
  {
    hide Tables, HistoryOk, CursorOk, WorkerOk, MergeOk;
  }

  // ------------------------------------------------------------------ every run

  /** A step of a worker of the Notion sync. */
  predicate ByWorker(step: Step) {
    step.Load? || step.LoadNew? || step.Send? || step.AddLink? || step.Stamp? || step.Relate? || step.Finish?
    || step.StartBoot? || step.LoadBatch? || step.TakeNext? || step.SaveCursor? || step.Remember? || step.Restart?
  }

  lemma NextSound(s: System, step: Step)
    requires Sound(s) && !Snatches(s, step)
    ensures Sound(Next(s, step))
  {
    hide Sound, Next, Snatches;
    if ByWorker(step) { WorkerNextSound(s, step); } else { OtherNextSound(s, step); }
  }

  lemma WorkerNextSound(s: System, step: Step)
    requires Sound(s) && ByWorker(step)
    ensures Sound(Next(s, step))
  {
    hide Sound, Sends, AddsLink, Stamps, Relates, IsBatch, Takes;
    match step
    case Load(k, page) => LoadSound(s, step);
    case LoadNew(k, task) => LoadSound(s, step);
    case Send(k, fate) => if HasJob(s, k) && s.workers[k].job.value.reply.None? { SendSound(s, k, fate); }
    case AddLink(k) =>
      if HasJob(s, k) && s.workers[k].job.value.page.Some? && s.workers[k].job.value.pk.None? { LinkSound(s, k); }
    case Stamp(k) => if HasLinkedJob(s, k) { StampSound(s, k); }
    case Relate(k, fate) => if HasLinkedJob(s, k) { RelateSound(s, k, fate); }
    case Finish(k) => if HasLinkedJob(s, k) { FinishSound(s, k); }
    case StartBoot(k) => if IsFree(s, k) { StartBootSound(s, k); }
    case LoadBatch(k, batch) =>
      if IsBetween(s, k) && s.workers[k].boot.value.cursor == s.workers[k].boot.value.last
         && batch != [] && IsBatch(s.world, s.workers[k].boot.value.cursor, batch) { LoadBatchSound(s, k, batch); }
    case TakeNext(k) =>
      if IsIdle(s, k) && s.workers[k].boot.Some? && s.workers[k].boot.value.rest != [] { TakeSound(s, k); }
    case SaveCursor(k) => if IsBetween(s, k) { SaveCursorSound(s, k); }
    case Remember(k, later) => if HasLinkedJob(s, k) && IsFree(s, later) { RememberSound(s, k, later); }
    case Restart(k) => DeadSound(s, k);
  }

  lemma OtherNextSound(s: System, step: Step)
    requires Sound(s) && !Snatches(s, step) && !ByWorker(step)
    ensures Sound(Next(s, step))
  {
    hide Sound, Changed, WithTask, ChangedTask, WithoutTask, Imports, NewPage, WithPage, WithTrash, Applied,
      OverwrittenBy, Reaps, WithoutLink, SavesMerged, SavesLink, Snatches;
    match step
    case NewTask(content) => NewTaskSound(s, content);
    case ChangeTask(task, content) => if task in s.world.tasks { ChangeTaskSound(s, task, content); }
    case DeleteTask(task) => DeleteTaskSound(s, task);
    case ImportFromVolunHub(content) => ImportSound(s, content);
    case ReadLink(m, task, saves) =>
      if m !in s.merges && task in s.world.tasks && task in s.world.volunhub { ReadLinkSound(s, m, task, saves); }
    case SaveMerged(m) => if m in s.merges && YetToSave(s.merges[m]) { SaveMergedSound(s, m); }
    case SaveLink(m) => if m in s.merges && !YetToSave(s.merges[m]) { SaveLinkSound(s, m); }
    case DropMerge(m) => DropsSound(s, m);
    case NewNotionPage(content) => PageSound(s, step);
    case ChangePage(page, content) => PageSound(s, step);
    case TrashPage(page, trashed) => PageSound(s, step);
    case Wait(local, notion) => PageSound(s, step);
    case Bury(page) => PageSound(s, step);
    case Apply(page, seen) => if (page, seen) in s.history.pages { AppliedSound(s, page, seen); }
    case Reap(page, seen) => ReapSound(s, page, seen);
    case DropTombstone(page) => if IsTombstone(s.world, page) { DropTombstoneSound(s, page); }
  }

  lemma PageSound(s: System, step: Step)
    requires Sound(s)
    requires step.NewNotionPage? || step.ChangePage? || step.TrashPage? || step.Wait? || step.Bury?
    ensures Sound(Next(s, step))
  {
    hide Sound;
    PageStepSound(s, Next(s, step));
  }

  lemma {:induction false} RunSound(s: System, steps: seq<Step>)
    requires Sound(s) && NoneSnatched(s, steps)
    ensures Sound(Run(s, steps))
  {
    hide Sound, Next, Snatches;
    if steps == [] {
    } else {
      var n := |steps| - 1;
      assert forall i :: 0 <= i < n ==> steps[..n][..i] == steps[..i];
      RunSound(s, steps[..n]);
      NextSound(Run(s, steps[..n]), steps[n]);
    }
  }

  /** A system in which nothing has been synced yet. */
  lemma UnsyncedIsSound(s: System)
    requires s.workers == map[] && s.merges == map[] && s.history == History({}, {}, {}, {}, {})
    requires s.world.links == map[]
    requires s.world.cursor == 0 < s.world.nextTask
    requires forall t :: t in s.world.tasks ==> 0 < t < s.world.nextTask && s.world.tasks[t].changed <= s.world.clock
    requires forall t :: t in s.world.volunhub ==> t < s.world.nextTask
    ensures Sound(s) && SentShown(s.history)
  {
  }

  /**
   * No task has both a VolunHub and a Notion link, and none has two Notion links, unless the user has
   * deleted a task that a merge had read and was yet to save.
   */
  lemma OneOwner(s: System, steps: seq<Step>, task: int, p: int, q: int)
    requires Sound(s) && NoneSnatched(s, steps) && Mirrors(Run(s, steps).world, p, task)
    ensures task !in Run(s, steps).world.volunhub
    ensures Mirrors(Run(s, steps).world, q, task) ==> p == q
  {
    RunSound(s, steps);
  }

  // ------------------------------------------------------------------ exactly when it holds

  /** The task is linked on both sides. */
  ghost predicate HasBoth(w: World, task: int) {
    task in w.volunhub && exists p :: Mirrors(w, p, task)
  }

  lemma SoundHasNotBoth(s: System, task: int)
    requires Sound(s)
    ensures !HasBoth(s.world, task)
  {
  }

  /**
   * The run that gives a task both links.  The user deletes it while merge `m` is yet to save it; then
   * the merge inserts it again, a worker starts and uploads it while its VolunHub link is a tombstone,
   * and the merge's last save points that link at it again.
   */
  function Snatching(m: int, k: int, task: int): seq<Step> {
    [SaveMerged(m), Restart(k), LoadNew(k, task), Send(k, Done), AddLink(k), SaveLink(m)]
  }

  lemma RunSix(s: System, a: Step, b: Step, c: Step, d: Step, e: Step, f: Step)
    ensures Run(s, [a, b, c, d, e, f]) == Next(Next(Next(Next(Next(Next(s, a), b), c), d), e), f)
  {
    hide Next;
    assert [a, b, c, d, e, f][..5] == [a, b, c, d, e];
    assert [a, b, c, d, e][..4] == [a, b, c, d] && [a, b, c, d][..3] == [a, b, c] && [a, b, c][..2] == [a, b];
    assert [a, b][..1] == [a] && [a][..0] == [];
    assert Run(s, [a]) == Next(s, a);
    assert Run(s, [a, b]) == Next(Next(s, a), b);
    assert Run(s, [a, b, c]) == Next(Next(Next(s, a), b), c);
    assert Run(s, [a, b, c, d]) == Next(Run(s, [a, b, c]), d);
    assert Run(s, [a, b, c, d, e]) == Next(Run(s, [a, b, c, d]), e);
  }

  /** The task is inserted again, and belongs to nobody. */
  lemma ReinsertedIsMirrorable(s: System, m: int, task: int)
    requires Sound(s) && m in s.merges && YetToSave(s.merges[m]) && s.merges[m].task == task
    ensures var t := Next(Next(s, DeleteTask(task)), SaveMerged(m));
      && IsMirrorable(t.world, task) && !IsLinked(t.world, task)
      && t.world.tasks[task] == Task(s.world.clock + 1, s.merges[m].saves.value)
      && t.workers == s.workers && t.history == s.history && t.world.links.Keys == s.world.links.Keys
      && t.world.nextPage == s.world.nextPage
      && m in t.merges && t.merges[m] == s.merges[m].(saved := true)
  {
    var d := Next(s, DeleteTask(task));
    assert d.merges == s.merges && d.world == WithoutTask(s.world, task);
    assert forall p :: !Mirrors(d.world, p, task);
    var t := Next(d, SaveMerged(m));
    assert forall p :: !Mirrors(t.world, p, task);
    LinkedMirrors(t.world, task);
  }

  /** A push that is not disturbed links the task, and the merge's last save does the rest. */
  lemma UploadedThenLinked(t: System, m: int, k: int, task: int)
    requires IsMirrorable(t.world, task) && !IsLinked(t.world, task)
    requires t.world.nextPage !in t.world.links
    requires m in t.merges && !YetToSave(t.merges[m]) && t.merges[m].task == task
    ensures var started := Next(t, Restart(k));
      HasBoth(Next(Next(Next(Next(started, LoadNew(k, task)), Send(k, Done)), AddLink(k)), SaveLink(m)).world, task)
  {
    hide Next, IsLinked, HasBoth;
    var started := Next(t, Restart(k));
    AtRestart(t, k);
    var sent := Next(Next(started, LoadNew(k, task)), Send(k, Done));
    NewTaskSent(started, k, task, Done);
    SendKeepsMerges(started, k, task);
    SameLinks(t.world, sent.world);
    var linked := Next(sent, AddLink(k));
    AtAddLink(sent, k);
    AtSaveLink(linked, m);
    BothAreThere(Next(linked, SaveLink(m)).world, t.world.nextPage, task);
  }

  lemma BothAreThere(w: World, p: int, task: int)
    requires task in w.volunhub && p in w.links && w.links[p].task == Some(task)
    ensures HasBoth(w, task)
  {
    assert Mirrors(w, p, task);
  }

  lemma SameLinks(a: World, b: World)
    requires a.links == b.links
    ensures forall t :: IsLinked(a, t) <==> IsLinked(b, t)
  {
  }

  // What an enabled step comes to.

  lemma AtRestart(s: System, k: int)
    ensures Next(s, Restart(k)) == Dead(s, k) && IsFree(Next(s, Restart(k)), k)
  {
  }

  lemma AtLoadNew(s: System, k: int, task: int)
    requires IsFree(s, k) && IsMirrorable(s.world, task) && !IsLinked(s.world, task)
    ensures Next(s, LoadNew(k, task)) == Put(s, k, Worker(Some(Job(VersionOf(s.world, task), None, None, None)), None))
  {
    hide IsLinked;
  }

  lemma AtSend(s: System, k: int, fate: Fate)
    requires HasJob(s, k) && s.workers[k].job.value.reply.None?
    ensures Next(s, Send(k, fate)) == Sends(s, k, fate)
  {
    hide Sends;
  }

  lemma AtAddLink(s: System, k: int)
    requires HasJob(s, k) && s.workers[k].job.value.page.Some? && s.workers[k].job.value.pk.None?
    ensures Next(s, AddLink(k)) == AddsLink(s, k)
  {
    hide AddsLink;
  }

  lemma AtStamp(s: System, k: int)
    requires HasLinkedJob(s, k)
    ensures Next(s, Stamp(k)) == Stamps(s, k)
  {
    hide Stamps;
  }

  lemma AtSaveLink(s: System, m: int)
    requires m in s.merges && !YetToSave(s.merges[m])
    ensures Next(s, SaveLink(m)) == SavesLink(s, m)
  {
    hide SavesLink;
  }

  /** Without a job there is nothing to send, to link or to stamp. */
  lemma WithoutJob(s: System, k: int, fate: Fate)
    requires !HasJob(s, k)
    ensures Next(s, Send(k, fate)) == s && Next(s, AddLink(k)) == s && Next(s, Stamp(k)) == s
  {
  }

  lemma SendKeepsMerges(t: System, k: int, task: int)
    requires IsFree(t, k) && IsMirrorable(t.world, task) && !IsLinked(t.world, task)
    ensures Next(Next(t, LoadNew(k, task)), Send(k, Done)).merges == t.merges
    ensures Next(Next(t, LoadNew(k, task)), Send(k, Done)).world.volunhub == t.world.volunhub
  {
    hide Next, IsLinked;
    AtLoadNew(t, k, task);
    AtSend(Next(t, LoadNew(k, task)), k, Done);
  }

  /**
   * One owner is what the steps keep, and exactly one kind of step breaks it: after the user deletes a
   * task there is a run, with no more such deletes, that gives it both links, if and only if a merge
   * had read it and was yet to save it.
   */
  lemma SnatchedExactly(s: System, task: int)
    requires Sound(s) && s.world.nextPage !in s.world.links
    ensures Snatches(s, DeleteTask(task)) <==>
      exists steps :: NoneSnatched(Next(s, DeleteTask(task)), steps)
                      && HasBoth(Run(Next(s, DeleteTask(task)), steps).world, task)
  {
    hide Sound, Next, HasBoth, Run;
    var deleted := Next(s, DeleteTask(task));
    if Snatches(s, DeleteTask(task)) {
      var m :| m in s.merges && YetToSave(s.merges[m]) && s.merges[m].task == task;
      SnatchReaches(s, m, task, 0);
    } else {
      NextSound(s, DeleteTask(task));
      forall steps | NoneSnatched(deleted, steps) ensures !HasBoth(Run(deleted, steps).world, task) {
        RunSound(deleted, steps);
        SoundHasNotBoth(Run(deleted, steps), task);
      }
    }
  }

  lemma SnatchReaches(s: System, m: int, task: int, k: int)
    requires Sound(s) && s.world.nextPage !in s.world.links
    requires m in s.merges && YetToSave(s.merges[m]) && s.merges[m].task == task
    ensures NoneSnatched(Next(s, DeleteTask(task)), Snatching(m, k, task))
    ensures HasBoth(Run(Next(s, DeleteTask(task)), Snatching(m, k, task)).world, task)
  {
    ReinsertedIsMirrorable(s, m, task);
    hide Sound, Next, HasBoth;
    var deleted := Next(s, DeleteTask(task));
    UploadedThenLinked(Next(deleted, SaveMerged(m)), m, k, task);
    RunSix(deleted, SaveMerged(m), Restart(k), LoadNew(k, task), Send(k, Done), AddLink(k), SaveLink(m));
  }

  /**
   * Such a delete drops an edit as well: what the user made of the task before deleting it is neither
   * pending nor anywhere else once the merge has inserted the task again.
   */
  lemma SnatchDropsEdit(s: System, m: int, task: int, content: string)
    requires Sound(s) && s.history == History({}, {}, {}, {}, {}) && task in s.world.tasks
    requires m in s.merges && YetToSave(s.merges[m]) && s.merges[m].task == task
    ensures var t := Next(Next(Next(s, ChangeTask(task, content)), DeleteTask(task)), SaveMerged(m));
      var v := Version(task, s.world.clock + 1, content);
      && v in t.history.edits && IsMirrorable(t.world, task)
      && !Pending(t.world, v) && !Superseded(t.history, v) && !WasWritten(t.world, t.history, v)
      && !WasOverruled(t.history, v)
  {
    var changed := Next(s, ChangeTask(task, content));
    assert changed == Changed(s, ChangedTask(s.world, task, content), task);
    assert changed.history == History({Version(task, s.world.clock + 1, content)}, {}, {}, {}, {});
    NextSound(s, ChangeTask(task, content));
    ReinsertedIsMirrorable(changed, m, task);
    hide Sound, Next;
  }

  /**
   * A bootstrap whose next batch is empty, however often it was killed and resumed and whatever
   * happened meanwhile, leaves every mirrorable task linked, save those whose upload failed.
   */
  lemma BootstrapMissesNoTask(s: System, steps: seq<Step>, k: int, task: int)
    requires Sound(s) && NoneSnatched(s, steps)
    requires IsBetween(Run(s, steps), k)
    requires var boot, w := Run(s, steps).workers[k].boot.value, Run(s, steps).world;
      boot.cursor == boot.last && forall t :: t in w.tasks && t !in w.volunhub ==> t <= boot.cursor
    requires task in Run(s, steps).world.tasks && task !in Run(s, steps).world.volunhub
    ensures (exists p :: Mirrors(Run(s, steps).world, p, task)) || task in Run(s, steps).history.failed
  {
    RunSound(s, steps);
    BatchDone(Run(s, steps), k);
    LinkedMirrors(Run(s, steps).world, task);
  }

  lemma HistoryGrows(s: System, step: Step)
    ensures Grows(s.history, Next(s, step).history) && Next(s, step).world.botKnown == s.world.botKnown
  {
    hide Next, Grows;
    if step.Send? || step.AddLink? || step.Stamp? || step.Relate? || step.Apply? {
      HistoryGrowsByJob(s, step);
    } else {
      HistoryGrowsOtherwise(s, step);
    }
  }

  lemma HistoryGrowsByJob(s: System, step: Step)
    requires step.Send? || step.AddLink? || step.Stamp? || step.Relate? || step.Apply?
    ensures Grows(s.history, Next(s, step).history) && Next(s, step).world.botKnown == s.world.botKnown
  {
    if step.Send? {
      hide Sends;
      if HasJob(s, step.w) && s.workers[step.w].job.value.reply.None? { SendGrows(s, step.w, step.fate); }
    } else if step.Relate? {
      hide Relates;
      if HasLinkedJob(s, step.w) { RelateGrows(s, step.w, step.fate); }
    } else {
      hide IsLinked, TaskOf, NotionPrevails, LocalChanged, OverwrittenBy, Floor, IsOwnEdit;
    }
  }

  lemma SendGrows(s: System, k: int, fate: Fate)
    requires HasJob(s, k)
    ensures Grows(s.history, Sends(s, k, fate).history) && Sends(s, k, fate).world.botKnown == s.world.botKnown
  {
    hide WriteFate, Floor;
  }

  lemma RelateGrows(s: System, k: int, fate: Fate)
    requires HasLinkedJob(s, k)
    ensures Grows(s.history, Relates(s, k, fate).history) && Relates(s, k, fate).world.botKnown == s.world.botKnown
  {
    hide Floor;
  }

  lemma HistoryGrowsOtherwise(s: System, step: Step)
    requires !(step.Send? || step.AddLink? || step.Stamp? || step.Relate? || step.Apply?)
    ensures Grows(s.history, Next(s, step).history) && Next(s, step).world.botKnown == s.world.botKnown
  {
    hide IsLinked, IsBatch, TaskOf, LocalChanged, IsTombstone;
  }

  /** The version of a task that a step of the user makes. */
  function EditBy(s: System, step: Step): Option<Version> {
    match step
    case NewTask(content) => Some(Version(s.world.nextTask, s.world.clock + 1, content))
    case ChangeTask(task, content) => if task in s.world.tasks then Some(Version(task, s.world.clock + 1, content))
        else None
    case _ => None
  }

  lemma EditMade(s: System, step: Step)
    requires EditBy(s, step).Some?
    ensures EditBy(s, step).value in Next(s, step).history.edits
  {
  }

  lemma {:induction false} EditRecorded(s: System, steps: seq<Step>, i: nat)
    requires i < |steps| && EditBy(Run(s, steps[..i]), steps[i]).Some?
    ensures EditBy(Run(s, steps[..i]), steps[i]).value in Run(s, steps).history.edits
  {
    hide Next, EditBy;
    var n := |steps| - 1;
    if i == n {
      EditMade(Run(s, steps[..n]), steps[n]);
    } else {
      assert steps[..n][..i] == steps[..i] && steps[..n][i] == steps[i];
      EditRecorded(s, steps[..n], i);
      HistoryGrows(Run(s, steps[..n]), steps[n]);
    }
  }

  /** What is recorded as sent was at some time what the page said, by the sync's own hand. */
  ghost predicate SentShown(h: History) {
    forall x :: x in h.sent ==> Shown(h, x.0, x.1)
  }

  ghost predicate Shown(h: History, v: Version, p: int) {
    exists page :: (p, page) in h.pages && page.content == v.content && page.editor == Bot
  }

  lemma NextShown(s: System, step: Step)
    requires SentShown(s.history)
    ensures SentShown(Next(s, step).history)
  {
    HistoryGrows(s, step);
    var t := Next(s, step);
    forall x | x in t.history.sent ensures Shown(t.history, x.0, x.1) {
      if x in s.history.sent {
        var page :| (x.1, page) in s.history.pages && page.content == x.0.content && page.editor == Bot;
        assert (x.1, page) in t.history.pages;
      } else {
        SentNow(s, step, x);
      }
    }
  }

  lemma SentNow(s: System, step: Step, x: (Version, int))
    requires x in Next(s, step).history.sent && x !in s.history.sent
    ensures Shown(Next(s, step).history, x.0, x.1)
  {
    var t := Next(s, step);
    assert step.Send?;
    var job := s.workers[step.w].job.value;
    assert x.0 == job.version && x.1 in t.world.pages;
    assert (x.1, t.world.pages[x.1]) in t.history.pages;
  }

  lemma {:induction false} RunShown(s: System, steps: seq<Step>)
    requires SentShown(s.history)
    ensures SentShown(Run(s, steps).history)
  {
    hide SentShown, Next;
    if steps == [] {
    } else {
      RunShown(s, steps[..|steps| - 1]);
      NextShown(Run(s, steps[..|steps| - 1]), steps[|steps| - 1]);
    }
  }

  /** The page that mirrors the task has said what the version says, because the sync wrote it there. */
  ghost predicate WasWritten(w: World, h: History, v: Version) {
    exists p :: Mirrors(w, p, v.task) && (v, p) in h.sent && Shown(h, v, p)
  }

  lemma {:induction false} BotKept(s: System, steps: seq<Step>)
    ensures Run(s, steps).world.botKnown == s.world.botKnown
  {
    if steps == [] {
    } else {
      BotKept(s, steps[..|steps| - 1]);
      HistoryGrows(Run(s, steps[..|steps| - 1]), steps[|steps| - 1]);
    }
  }

  /** A version of the page that a person made after the task's has overwritten it. */
  ghost predicate WasOverruled(h: History, v: Version) {
    exists o :: o in h.overwritten && o.0 == v && (o.1, o.2) in h.pages && v.changed < o.2.edited
        && o.2.editor == Person
  }

  /**
   * No local edit is dropped.  Whatever the interleaving, a version that the user made of a task Notion
   * may mirror is, as long as the task exists, pending, or the user has changed the task again, or it was written to
   * the page that mirrors the task, or a version of the page that somebody else made after it has
   * overwritten it.
   */
  lemma NoEditDropped(s: System, steps: seq<Step>, i: nat)
    requires Sound(s) && SentShown(s.history) && s.world.botKnown && NoneSnatched(s, steps)
    requires i < |steps| && EditBy(Run(s, steps[..i]), steps[i]).Some?
    requires var task := EditBy(Run(s, steps[..i]), steps[i]).value.task;
      task in Run(s, steps).world.tasks && task !in Run(s, steps).world.volunhub
    ensures var v, t := EditBy(Run(s, steps[..i]), steps[i]).value, Run(s, steps);
      Pending(t.world, v) || Superseded(t.history, v) || WasWritten(t.world, t.history, v) || WasOverruled(t.history, v)
  {
    hide Next, Run, EditBy;
    var v := EditBy(Run(s, steps[..i]), steps[i]).value;
    RunSound(s, steps);
    RunShown(s, steps);
    EditRecorded(s, steps, i);
    BotKept(s, steps);
    AccountedOverruled(Run(s, steps), v);
  }

  /** Pending means that the next push loads it. */
  lemma PendingIsLoaded(s: System, k: int, v: Version, p: int)
    requires Sound(s) && IsFree(s, k) && v in s.history.edits && Pending(s.world, v) && IsMirrorable(s.world, v.task)
    ensures Mirrors(s.world, p, v.task) ==>
      Next(s, Load(k, p)).workers[k].job == Some(Job(v, Some(p), Some(s.world.links[p].pk), None))
    ensures !IsLinked(s.world, v.task) ==> Next(s, LoadNew(k, v.task)).workers[k].job == Some(Job(v, None, None, None))
  {
    assert VersionOf(s.world, v.task) == v;
  }

  lemma AccountedOverruled(s: System, v: Version)
    requires Sound(s) && SentShown(s.history) && s.world.botKnown
    requires v in s.history.edits && IsMirrorable(s.world, v.task)
    ensures Pending(s.world, v) || Superseded(s.history, v) || WasWritten(s.world, s.history, v)
        || WasOverruled(s.history, v)
  {
    hide Pending, Superseded, Tables, WorkerOk, CursorOk;
    if WasSent(s.world, s.history, v) {
      var p :| Mirrors(s.world, p, v.task) && (v, p) in s.history.sent;
      assert Shown(s.history, (v, p).0, (v, p).1);
    }
    if WasOverwritten(s.history, v) {
      var o :| o in s.history.overwritten && o.0 == v;
      assert TrulyLater(s.world, s.history, o);
    }
  }

  /** A worker loads one version, the user makes another, and then the worker sends what it loaded. */
  function Interrupted(s: System, k: int, p: int, older: string, newer: string, ahead: nat): System
    requires p in s.world.links && s.world.links[p].task.Some?
  {
    var task := s.world.links[p].task.value;
    var loaded := Next(Next(s, ChangeTask(task, older)), Load(k, p));
    Next(Next(Next(loaded, ChangeTask(task, newer)), Wait(0, ahead)), Send(k, Done))
  }

  /**
   * Echo suppression is what this rests on.  Without a bot id, from any state with a stamped task and
   * a live page: a push that has loaded `older` and reaches Notion two minutes after the user changed
   * the task to `newer`, and dies before its stamp, comes back as somebody else's edit and drops `newer`.
   */
  lemma EchoDropsEdit(s: System, k: int, p: int, older: string, newer: string, ahead: nat)
    requires Sound(s) && s.history == History({}, {}, {}, {}, {}) && !s.world.botKnown && IsFree(s, k)
    requires p in s.world.links && TaskOf(s.world, s.world.links[p]).Some? && IsLive(s.world, p)
    requires s.world.links[p].remote.Some? && older != newer
    requires s.world.notionClock + ahead >= s.world.clock + 2 * MINUTE
    requires s.world.notionClock + ahead >= s.world.links[p].remote.value + MINUTE
    ensures var task := s.world.links[p].task.value;
      var sent := Interrupted(s, k, p, older, newer, ahead);
      var t := Next(Next(sent, Restart(k)), Apply(p, Page(older, s.world.notionClock + ahead, Bot, false)));
      var v := Version(task, s.world.clock + 2, newer);
      && v in t.history.edits && task in t.world.tasks
      && !Pending(t.world, v) && !Superseded(t.history, v) && !WasSent(t.world, t.history, v)
          && !WasOverruled(t.history, v)
  {
    hide Sound, Tables, Floor, Pending, Superseded, WasSent, WasOverruled, Next, IsFree, TaskOf, IsLive, Interrupted;
    var w := s.world;
    LinkTask(w, p);
    var task := w.links[p].task.value;
    var page := Page(older, w.notionClock + ahead, Bot, false);
    TablesOf(s);
    FarAhead(w.clock, w.links[p].remote.value, w.notionClock + ahead);
    OlderSent(s, k, p, older, newer, ahead);
    var sent := Interrupted(s, k, p, older, newer, ahead);
    var dead := Next(sent, Restart(k));
    Restarted(sent, k);
    EchoApplied(dead, p, Version(task, w.clock + 1, older), Version(task, w.clock + 2, newer), page);
  }

  lemma TablesOf(s: System)
    requires Sound(s)
    ensures Tables(s.world)
  {
  }

  lemma LinkTask(w: World, p: int)
    requires p in w.links && TaskOf(w, w.links[p]).Some?
    ensures w.links[p].task.Some? && w.links[p].task.value in w.tasks
  {
  }

  lemma Restarted(s: System, k: int)
    ensures Next(s, Restart(k)).world == s.world && Next(s, Restart(k)).history == s.history
  {
  }

  lemma FarAhead(clock: int, remote: int, edited: int)
    requires edited >= clock + 2 * MINUTE && edited >= remote + MINUTE
    ensures Floor(edited) > remote && Floor(clock + 2) < Floor(edited) && clock + 2 < Floor(edited)
  {
  }

  /** The older version reaches Notion after the newer one was made. */
  lemma OlderSent(s: System, k: int, p: int, older: string, newer: string, ahead: nat)
    requires Tables(s.world) && s.history == History({}, {}, {}, {}, {}) && IsFree(s, k)
    requires p in s.world.links && TaskOf(s.world, s.world.links[p]).Some? && IsLive(s.world, p)
    ensures var w, task := s.world, s.world.links[p].task.value;
      var older', newer' := Version(task, w.clock + 1, older), Version(task, w.clock + 2, newer);
      var page := Page(older, w.notionClock + ahead, Bot, false);
      var sent := Interrupted(s, k, p, older, newer, ahead);
      && sent.world == w.(tasks := w.tasks[task := Task(w.clock + 2, newer)], clock := w.clock + 2,
                          notionClock := w.notionClock + ahead, pages := w.pages[p := page])
      && sent.history == History({older', newer'}, {(older', p)}, {(p, page)}, {}, {})
  {
    OlderLoaded(s, k, p, older);
    var w, task := s.world, s.world.links[p].task.value;
    var loaded := Next(Next(s, ChangeTask(task, older)), Load(k, p));
    LateSend(loaded, k, p, task, newer, ahead);
    hide Next, Tables;
  }

  lemma OlderLoaded(s: System, k: int, p: int, older: string)
    requires Tables(s.world) && IsFree(s, k)
    requires p in s.world.links && TaskOf(s.world, s.world.links[p]).Some?
    ensures var w, task := s.world, s.world.links[p].task.value;
      var version, loaded := Version(task, w.clock + 1, older), Next(Next(s, ChangeTask(task, older)), Load(k, p));
      && loaded.world == w.(tasks := w.tasks[task := Task(w.clock + 1, older)], clock := w.clock + 1)
      && loaded.history == s.history.(edits := s.history.edits + {version})
      && k in loaded.workers
      && loaded.workers[k] == Worker(Some(Job(version, Some(p), Some(w.links[p].pk), None)), None)
  {
    var w, task := s.world, s.world.links[p].task.value;
    var a := Next(s, ChangeTask(task, older));
    assert a == Changed(s, ChangedTask(w, task, older), task);
    assert LocalChanged(w.links[p], a.world.tasks[task]);
    hide Tables;
    var job := Job(VersionOf(a.world, task), Some(p), Some(w.links[p].pk), None);
    assert Next(a, Load(k, p)) == Put(a, k, Worker(Some(job), None));
  }

  lemma LateSend(b: System, k: int, p: int, task: int, newer: string, ahead: nat)
    requires HasJob(b, k) && b.workers[k].job.value.reply.None? && b.workers[k].job.value.page == Some(p)
    requires task in b.world.tasks && IsLive(b.world, p)
    ensures var w, version := b.world, b.workers[k].job.value.version;
      var page := Page(version.content, w.notionClock + ahead, Bot, false);
      var sent := Next(Next(Next(b, ChangeTask(task, newer)), Wait(0, ahead)), Send(k, Done));
      && sent.world == w.(tasks := w.tasks[task := Task(w.clock + 1, newer)], clock := w.clock + 1,
                          notionClock := w.notionClock + ahead, pages := w.pages[p := page])
      && sent.history == b.history.(edits := b.history.edits + {Version(task, w.clock + 1, newer)},
                                    sent := b.history.sent + {(version, p)}, pages := b.history.pages + {(p, page)})
  {
    var c := Next(b, ChangeTask(task, newer));
    assert c == Changed(b, ChangedTask(b.world, task, newer), task);
    var d := Next(c, Wait(0, ahead));
    assert HasJob(d, k) && d.workers == b.workers;
    assert Next(d, Send(k, Done)) == Sends(d, k, Done);
  }

  lemma EchoApplied(s: System, p: int, older: Version, newer: Version, page: Page)
    requires s.history == History({older, newer}, {(older, p)}, {(p, page)}, {}, {}) && !s.world.botKnown
    requires p in s.world.links && s.world.links[p].task == Some(newer.task) && s.world.links[p].remote.Some?
    requires older.task == newer.task && older.changed < newer.changed && newer.task in s.world.tasks
    requires s.world.tasks[newer.task].changed == newer.changed
    requires s.world.tasks[newer.task].content == newer.content != page.content
    requires page.editor == Bot && LastEdited(page) > s.world.links[p].remote.value
    requires s.world.clock >= newer.changed && Floor(newer.changed) < LastEdited(page)
    requires newer.changed < LastEdited(page)
    ensures var t := Next(s, Apply(p, page));
      && newer in t.history.edits && newer.task in t.world.tasks
      && !Pending(t.world, newer) && !Superseded(t.history, newer)
      && !WasSent(t.world, t.history, newer) && !WasOverruled(t.history, newer)
  {
    var t := Next(s, Apply(p, page));
    assert t.history.edits == {older, newer} && t.history.sent == {(older, p)};
    assert t.world.tasks[newer.task].changed == s.world.clock + 1;
    assert forall o :: o in t.history.overwritten ==> o.2 == page;
  }

  // ------------------------------------------------------------------ one worker, undisturbed

  /** Alone, a worker that loads, sends and stamps does what the third loop of a push does to a link. */
  lemma UndisturbedUpdate(s: System, k: int, id: int, fate: Fate)
    requires IsFree(s, k)
    ensures Next(Next(Next(s, Load(k, id)), Send(k, fate)), Stamp(k)).world == Updated(s.world, id, fate)
  {
    hide Next;
    var loaded := Next(s, Load(k, id));
    AtLoad(s, k, id);
    if HasJob(loaded, k) {
      var sent := Next(loaded, Send(k, fate));
      AtSend(loaded, k, fate);
      if HasJob(sent, k) { AtStamp(sent, k); } else { WithoutJob(sent, k, fate); }
    } else {
      WithoutJob(s, k, fate);
    }
  }

  lemma AtLoad(s: System, k: int, id: int)
    requires IsFree(s, k)
    ensures var w := s.world;
      Next(s, Load(k, id)) ==
        if id in w.links && TaskOf(w, w.links[id]).Some? && LocalChanged(w.links[id], TaskOf(w, w.links[id]).value) then
          var version := VersionOf(w, w.links[id].task.value);
          Put(s, k, Worker(Some(Job(version, Some(id), Some(w.links[id].pk), None)), None))
        else s
  {
    hide LocalChanged;
  }

  /** And one that loads, creates, links and stamps what the second loop does to a task. */
  lemma UndisturbedCreate(s: System, k: int, task: int, fate: Fate)
    requires IsFree(s, k) && task in s.world.tasks && task !in s.world.volunhub
    requires forall p :: !Mirrors(s.world, p, task)
    requires s.world.nextPage !in s.world.links
    ensures Next(Next(Next(Next(s, LoadNew(k, task)), Send(k, fate)), AddLink(k)), Stamp(k)).world
        == CreatedPage(s.world, task, fate)
  {
    var w := s.world;
    var sent := Next(Next(s, LoadNew(k, task)), Send(k, fate));
    LinkedMirrors(w, task);
    NewTaskSent(s, k, task, fate);
    hide Next, IsLinked;
    if fate == Done {
      SameLinks(sent.world, w);
      SentIsLinked(sent, k, Job(VersionOf(w, task), Some(w.nextPage), None, Some(Floor(w.notionClock))));
    } else {
      WithoutJob(sent, k, fate);
    }
  }

  lemma NewTaskSent(s: System, k: int, task: int, fate: Fate)
    requires IsFree(s, k) && IsMirrorable(s.world, task) && !IsLinked(s.world, task)
    ensures var w, sent := s.world, Next(Next(s, LoadNew(k, task)), Send(k, fate));
      && sent.world == (if fate == Refused then w else NewPage(w, w.tasks[task].content, Bot))
      && k in sent.workers
      && sent.workers[k] == Worker(
        if fate == Done then Some(Job(VersionOf(w, task), Some(w.nextPage), None, Some(Floor(w.notionClock))))
            else None, None)
  {
    hide IsLinked, Floor, Next;
    AtLoadNew(s, k, task);
    AtSend(Next(s, LoadNew(k, task)), k, fate);
  }

  lemma SentIsLinked(s: System, k: int, job: Job)
    requires k in s.workers && s.workers[k] == Worker(Some(job), None) && job.page.Some? && job.pk.None?
    requires job.reply.Some?
    requires job.version.task in s.world.tasks && !IsLinked(s.world, job.version.task)
    requires job.page.value !in s.world.links
    ensures Next(Next(s, AddLink(k)), Stamp(k)).world
      == Stamped(WithLink(s.world, job.version.task, job.page.value), job.page.value, job.reply.value,
          Some(job.version.changed))
  {
    hide Next, IsLinked;
    AtAddLink(s, k);
    AtStamp(Next(s, AddLink(k)), k);
  }
}
