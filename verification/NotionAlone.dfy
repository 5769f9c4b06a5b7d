/**
 * The steps of the interleaved Notion sync, taken together with nothing in between: what the sync, the
 * user and VolunHub then do.  And what the histories record is what happened.
 */
module NotionAlone {
  import opened Options
  import opened Sets
  import opened Notion
  import opened NotionProtocol
  import opened NotionSafety
  import NotionRun
  import NotionEngine

  // ------------------------------------------------------------------ the user and VolunHub

  /** What the user does to tasks: a new one, a change, and a delete that leaves a tombstone. */
  lemma UserMeans(s: System, task: int, content: string)
    ensures var w, w' := s.world, Next(s, NewTask(content)).world;
      && w'.tasks == w.tasks[w.nextTask := Task(w.clock + 1, content)] && w'.clock == w.clock + 1
      && w'.links == w.links && w'.volunhub == w.volunhub && w'.pages == w.pages
    ensures task in s.world.tasks ==>
      var w, w' := s.world, Next(s, ChangeTask(task, content)).world;
      && w'.tasks == w.tasks[task := Task(w.clock + 1, content)] && w'.clock == w.clock + 1
      && w'.links == w.links && w'.volunhub == w.volunhub && w'.pages == w.pages
    ensures var w, w' := s.world, Next(s, DeleteTask(task)).world;
      && w'.tasks == w.tasks - {task} && w'.links.Keys == w.links.Keys && w'.pages == w.pages
      && forall p :: p in w.links ==>
        w'.links[p] == w.links[p].(task := if w.links[p].task == Some(task) then None else w.links[p].task)
  {
  }

  /** What the user does to pages. */
  lemma PageUserMeans(s: System, page: int, content: string, trashed: bool)
    ensures var w, w' := s.world, Next(s, NewNotionPage(content)).world;
      w' == w.(pages := w.pages[w.nextPage := Page(content, w.notionClock, Person, false)], nextPage := w.nextPage + 1)
    ensures page in s.world.pages ==>
      var w := s.world;
      && Next(s, ChangePage(page, content)).world ==
         w.(pages := w.pages[page := Page(content, w.notionClock, Person, w.pages[page].trashed)])
      && Next(s, TrashPage(page, trashed)).world ==
         w.(pages := w.pages[page := w.pages[page].(trashed := trashed)])
  {
  }

  /** VolunHub's import makes a task that is VolunHub's. */
  lemma ImportMeans(s: System, content: string)
    ensures var w, w' := s.world, Next(s, ImportFromVolunHub(content)).world;
      && w'.tasks == w.tasks[w.nextTask := Task(w.clock + 1, content)] && w'.volunhub == w.volunhub + {w.nextTask}
      && w'.links == w.links && w'.pages == w.pages
  {
  }

  /** A merge that is not disturbed saves what it decided to when it read the task, and leaves the owners alone. */
  lemma UndisturbedMerge(s: System, m: int, task: int, saves: Option<string>)
    requires m !in s.merges && task in s.world.tasks && task in s.world.volunhub
    ensures var read := Next(s, ReadLink(m, task, saves));
      var t, w := Next(Next(read, SaveMerged(m)), SaveLink(m)), s.world;
      && t.world == (if saves.Some?
          then w.(tasks := w.tasks[task := Task(w.clock + 1, saves.value)], clock := w.clock + 1) else w)
      && t.merges == s.merges && t.workers == s.workers && t.history == s.history
      && Next(read, DropMerge(m)) == s
  {
    var read := Next(s, ReadLink(m, task, saves));
    assert read == s.(merges := s.merges[m := Merge(task, saves, false)]);
    assert read.merges - {m} == s.merges;
    var saved := Next(read, SaveMerged(m));
    assert saved.merges - {m} == s.merges;
    assert s.world.volunhub + {task} == s.world.volunhub;
  }

  // ------------------------------------------------------------------ the rest of a pull and a push

  lemma OwnTask(w: World, id: int)
    requires Tables(w) && id in w.links
    ensures forall p :: p in w.links && w.links[p].task.Some? && w.links[p].task == w.links[id].task ==> p == id
  {
  }

  /** A page seen as trashed is reaped as in a pull that has seen every other page. */
  lemma UndisturbedReap(s: System, id: int, fates: Fates)
    requires Tables(s.world) && id in s.world.links && id in s.world.pages
    requires (id, s.world.pages[id]) in s.history.pages && fates(Retrieve(id)) == Done
    ensures Next(s, Reap(id, s.world.pages[id])).world == Reaped(s.world, s.world.links.Keys - {id}, fates)
  {
    AtReap(s, id, s.world.pages[id]);
    hide Next;
    OneReaped(s.world, id, fates);
  }

  lemma AtReap(s: System, id: int, page: Page)
    requires (id, page) in s.history.pages
    ensures Next(s, Reap(id, page)) == s.(world := Reaps(s.world, id, page))
  {
    hide Reaps;
  }

  lemma OneReaped(w: World, id: int, fates: Fates)
    requires Tables(w) && id in w.links && id in w.pages && fates(Retrieve(id)) == Done
    ensures Reaps(w, id, w.pages[id]) == Reaped(w, w.links.Keys - {id}, fates)
  {
    var gone := set g | g in w.links && IsReaped(w, w.links.Keys - {id}, fates, g);
    OwnTask(w, id);
    hide Tables;
    if TaskOf(w, w.links[id]).Some? && w.pages[id].trashed {
      var task := w.links[id].task.value;
      assert gone == {id};
      assert (set g | g in gone :: w.links[g].task.value) == {task};
      assert WithoutTask(w, task).links - {id} == w.links - {id};
    } else {
      assert gone == {};
    }
  }

  /** The first part of a push: the pages of tombstones are trashed, if that works, and the tombstones go. */
  function Burial(s: System, ids: seq<int>, fates: Fates): System {
    if ids == [] then s
    else
      var id := ids[|ids| - 1];
      var before := Burial(s, ids[..|ids| - 1], fates);
      Next(if fates(Trash(id)) == Refused then before else Next(before, Bury(id)), DropTombstone(id))
  }

  lemma {:induction false} BurialSome(s: System, ids: seq<int>, fates: Fates)
    requires forall i, j :: 0 <= i < j < |ids| ==> ids[i] != ids[j]
    requires forall id :: id in ids ==> IsTombstone(s.world, id) && id in s.world.pages
    ensures Burial(s, ids, fates).world == NotionEngine.BuriedSome(s.world, (set id | id in ids), fates)
  {
    hide Next, IsTombstone, NotionEngine.BuriedSome;
    if ids == [] {
      NotionEngine.NoneBuried(s.world, fates);
      assert (set id | id in ids) == {};
    } else {
      var n := |ids| - 1;
      BurialSome(s, ids[..n], fates);
      assert ids == ids[..n] + [ids[n]];
      assert ids[n] !in ids[..n];
      var done := set id | id in ids[..n];
      assert (set id | id in ids) == done + {ids[n]};
      NotionEngine.BuriedOneMore(s.world, done, ids[n], fates);
      StillTombstone(s.world, done, ids[n], fates);
      BuryOne(Burial(s, ids[..n], fates), ids[n], fates(Trash(ids[n])));
    }
  }

  lemma StillTombstone(w: World, ids: set<int>, id: int, fates: Fates)
    requires IsTombstone(w, id) && id !in ids
    ensures IsTombstone(NotionEngine.BuriedSome(w, ids, fates), id)
  {
  }

  lemma BuryOne(s: System, id: int, fate: Fate)
    requires IsTombstone(s.world, id) && id in s.world.pages
    ensures var w := s.world;
      Next(if fate == Refused then s else Next(s, Bury(id)), DropTombstone(id)).world
        == w.(pages := if fate != Refused then w.pages[id := w.pages[id].(trashed := true)] else w.pages,
              links := w.links - {id})
  {
  }

  lemma UndisturbedBurial(s: System, ids: seq<int>, fates: Fates)
    requires forall i, j :: 0 <= i < j < |ids| ==> ids[i] != ids[j]
    requires forall id :: id in ids <==> IsTombstone(s.world, id)
    requires forall id :: id in ids ==> id in s.world.pages
    ensures Burial(s, ids, fates).world == Buried(s.world, fates)
  {
    BurialSome(s, ids, fates);
    NotionEngine.AllBuried(s.world, (set id | id in ids), fates);
  }

  /** A created page that is remembered and related later becomes what one turn of `_link_parents` makes of it. */
  lemma UndisturbedRelate(s: System, k: int, later: int, fate: Fate)
    requires HasLinkedJob(s, k) && IsFree(s, later)
    requires var w, job := s.world, s.workers[k].job.value;
      && job.page.value in w.links && w.links[job.page.value].pk == job.pk.value
      && w.links[job.page.value].task == Some(job.version.task)
      && job.version.task in w.tasks && w.tasks[job.version.task].changed == job.version.changed
    ensures Next(Next(Next(s, Remember(k, later)), Step.Relate(later, fate)), Stamp(later)).world
      == Related(s.world, s.workers[k].job.value.page.value, fate)
  {
    var job := s.workers[k].job.value;
    var id := job.page.value;
    var remembered := Next(s, Remember(k, later));
    assert remembered == Put(s, later, Worker(Some(job), None));
    var related := Next(remembered, Step.Relate(later, fate));
    assert related == Relates(remembered, later, fate);
    hide Next;
    if WriteFate(s.world, id, fate) == Done {
      assert HasLinkedJob(related, later);
      AtStamp(related, later);
    } else {
      WithoutJob(related, later, fate);
    }
  }

  // ------------------------------------------------------------------ the bootstrap

  /** The next batch: of the mirrorable tasks after the cursor the first fifty, or all if there are fewer, in order. */
  lemma BatchMeans(w: World, cursor: int, batch: seq<int>)
    ensures IsBatch(w, cursor, batch) <==>
      && |batch| <= 50 && Ascending(batch)
      && forall t :: t in batch <==>
          t in w.tasks && t !in w.volunhub && t > cursor && (|batch| < 50 || t <= batch[49])
  {
    if Ascending(batch) && |batch| == 50 {
      forall t | t in batch ensures t <= batch[49] { var i :| 0 <= i < 50 && batch[i] == t; }
    }
  }

  /** One turn of the loop over a batch. */
  function Turn(s: System, k: int, fate: Fate): System {
    Next(Next(Next(Next(Next(s, TakeNext(k)), Send(k, fate)), AddLink(k)), Stamp(k)), Finish(k))
  }

  function Turns(s: System, k: int, batch: seq<int>, fates: Fates): System {
    if batch == [] then s
    else Turn(Turns(s, k, batch[..|batch| - 1], fates), k, fates(Create(batch[|batch| - 1])))
  }

  predicate IsAt(s: System, k: int, job: Option<Job>, boot: Boot) {
    k in s.workers && s.workers[k] == Worker(job, Some(boot))
  }

  lemma TakeIs(s: System, k: int, boot: Boot)
    requires IsAt(s, k, None, boot) && boot.rest != []
    ensures var t := Next(s, TakeNext(k));
      && t.world == s.world
      && IsAt(t, k, if IsLinked(s.world, boot.rest[0].task) then None else Some(Job(boot.rest[0], None, None, None)),
        boot.(rest := boot.rest[1..]))
  {
    hide IsLinked;
  }

  lemma FinishIs(s: System, k: int, job: Option<Job>, boot: Boot)
    requires IsAt(s, k, job, boot) && (job.None? || HasLinkedJob(s, k))
    ensures Next(s, Finish(k)).world == s.world && IsAt(Next(s, Finish(k)), k, None, boot)
  {
  }

  /** A turn uploads the task unless it has a link. */
  lemma TurnIs(s: System, k: int, boot: Boot, task: int, fate: Fate)
    requires IsAt(s, k, None, boot) && boot.rest != [] && task in s.world.tasks
    requires boot.rest[0] == VersionOf(s.world, task) && s.world.nextPage !in s.world.links
    ensures var t := Turn(s, k, fate);
      t.world == NotionEngine.UploadedOne(s.world, task, fate) && IsAt(t, k, None, boot.(rest := boot.rest[1..]))
  {
    hide Next, IsLinked;
    TakeIs(s, k, boot);
    var w, rest, taken := s.world, boot.(rest := boot.rest[1..]), Next(s, TakeNext(k));
    if IsLinked(w, task) {
      WithoutJob(taken, k, fate);
      FinishIs(taken, k, None, rest);
    } else {
      AtSend(taken, k, fate);
      var sent := Next(taken, Send(k, fate));
      if fate == Done {
        SameLinks(sent.world, w);
        AtAddLink(sent, k);
        var linked := Next(sent, AddLink(k));
        AtStamp(linked, k);
        var stamped := Next(linked, Stamp(k));
        FinishIs(stamped, k, stamped.workers[k].job, rest);
      } else {
        WithoutJob(sent, k, fate);
        FinishIs(sent, k, None, rest);
      }
    }
  }

  /** What the turns over the first tasks of a batch have done, and what they leave for the rest. */
  ghost predicate Uploading(s: System, t: System, k: int, boot: Boot, batch: seq<int>, i: nat, fates: Fates) {
    && i <= |batch| && i <= |boot.rest|
    && t.world == CreatedPages(s.world, NotionEngine.WithoutLinks(s.world, batch[..i]), fates)
    && IsAt(t, k, None, boot.(rest := boot.rest[i..])) && NotionRun.Consistent(t.world)
    && t.world.tasks == s.world.tasks && t.world.volunhub == s.world.volunhub
    && forall u :: u !in batch[..i] ==> (IsLinked(t.world, u) <==> IsLinked(s.world, u))
  }

  lemma UploadingMore(s: System, t: System, k: int, boot: Boot, batch: seq<int>, i: nat, fates: Fates)
    requires i < |batch| && Ascending(batch) && Uploading(s, t, k, boot, batch, i, fates)
    requires IsMirrorable(s.world, batch[i]) && |boot.rest| == |batch| && boot.rest[i] == VersionOf(s.world, batch[i])
    ensures Uploading(s, Turn(t, k, fates(Create(batch[i]))), k, boot, batch, i + 1, fates)
  {
    hide Turn, IsLinked, CreatedPages, NotionEngine.WithoutLinks, CreatedPage, NotionRun.Consistent;
    var task, fate, rest := batch[i], fates(Create(batch[i])), boot.(rest := boot.rest[i..]);
    assert task !in batch[..i];
    assert batch[..i + 1] == batch[..i] + [task];
    FreshPage(t.world);
    TurnIs(t, k, rest, task, fate);
    assert boot.rest[i..][1..] == boot.rest[i + 1..];
    NotionEngine.UploadedOneMore(s.world, batch, i, fates);
    if !IsLinked(t.world, task) {
      NotionRun.CreatedConsistent(t.world, task, fate);
      NotionEngine.CreatedLinks(t.world, task, fate);
    }
  }

  lemma FreshPage(w: World)
    requires NotionRun.Consistent(w)
    ensures w.nextPage !in w.links
  {
  }

  lemma {:induction false} TurnsAre(s: System, k: int, boot: Boot, batch: seq<int>, i: nat, fates: Fates)
    requires NotionRun.Consistent(s.world) && Ascending(batch) && i <= |batch|
    requires forall t :: t in batch ==> t in s.world.tasks && IsMirrorable(s.world, t)
    requires IsAt(s, k, None, boot) && boot.rest == Versions(s.world, batch)
    ensures Uploading(s, Turns(s, k, batch[..i], fates), k, boot, batch, i, fates)
  {
    hide Turn, NotionRun.Consistent, IsLinked;
    if i == 0 {
      assert batch[..0] == [] && boot.rest[0..] == boot.rest;
    } else {
      TurnsAre(s, k, boot, batch, i - 1, fates);
      hide Uploading;
      UploadingMore(s, Turns(s, k, batch[..i - 1], fates), k, boot, batch, i - 1, fates);
      assert batch[..i][..i - 1] == batch[..i - 1];
    }
  }

  /** A bootstrap that is not disturbed does to a batch what the source's loop does, and is ready for the next. */
  lemma UndisturbedBatch(s: System, k: int, batch: seq<int>, fates: Fates)
    requires NotionRun.Consistent(s.world) && IsFree(s, k) && batch != [] && IsBatch(s.world, s.world.cursor, batch)
    ensures var loaded := Next(Next(s, StartBoot(k)), LoadBatch(k, batch));
      var t, last := Next(Turns(loaded, k, batch, fates), SaveCursor(k)), batch[|batch| - 1];
      && t.world == CreatedPages(s.world, NotionEngine.WithoutLinks(s.world, batch), fates).(cursor := last)
      && IsAt(t, k, None, Boot(last, [], last))
  {
    hide Next;
    var started := Next(s, StartBoot(k));
    AtStartBoot(s, k);
    AtLoadBatch(started, k, batch);
    var loaded, last := Next(started, LoadBatch(k, batch)), batch[|batch| - 1];
    var boot := Boot(s.world.cursor, Versions(s.world, batch), last);
    hide IsBatch;
    assert IsAt(loaded, k, None, boot) && loaded.world == s.world;
    InBatch(s.world, batch);
    TurnsAre(loaded, k, boot, batch, |batch|, fates);
    assert batch[..|batch|] == batch && boot.rest[|batch|..] == [];
    CursorSaved(Turns(loaded, k, batch, fates), k, boot.(rest := []));
  }

  lemma AtStartBoot(s: System, k: int)
    requires IsFree(s, k)
    ensures Next(s, StartBoot(k)) == Put(s, k, Worker(None, Some(Boot(s.world.cursor, [], s.world.cursor))))
  {
  }

  lemma InBatch(w: World, batch: seq<int>)
    requires IsBatch(w, w.cursor, batch)
    ensures Ascending(batch) && forall t :: t in batch ==> t in w.tasks && IsMirrorable(w, t)
  {
  }

  lemma CursorSaved(s: System, k: int, boot: Boot)
    requires IsAt(s, k, None, boot) && boot.rest == []
    ensures var t := Next(s, SaveCursor(k));
      t.world == s.world.(cursor := boot.last) && IsAt(t, k, None, boot.(cursor := boot.last))
  {
  }

  // ------------------------------------------------------------------ what the histories say happened

  /** A new entry of a history says what its step did. */
  lemma StepTells(s: System, step: Step)
    ensures forall v :: v in Next(s, step).history.edits && v !in s.history.edits ==> EditBy(s, step) == Some(v)
    ensures forall x :: x in Next(s, step).history.pages && x !in s.history.pages ==>
      x.0 in Next(s, step).world.pages && Next(s, step).world.pages[x.0] == x.1
    ensures forall x :: x in Next(s, step).history.sent && x !in s.history.sent ==> Sent(s, step, x.0, x.1)
    ensures forall t :: t in Next(s, step).history.failed && t !in s.history.failed ==> NotUploaded(s, step, t)
    ensures forall o :: o in Next(s, step).history.overwritten && o !in s.history.overwritten ==>
      Overwrote(s, step, o.0, o.1, o.2)
  {
    hide Next, EditBy, Sent, NotUploaded, Overwrote;
    EditsTell(s, step);
    PagesTell(s, step);
    SentTells(s, step);
    FailedTells(s, step);
    OverwrittenTells(s, step);
  }

  lemma EditsTell(s: System, step: Step)
    ensures forall v :: v in Next(s, step).history.edits && v !in s.history.edits ==> EditBy(s, step) == Some(v)
  {
    hide IsLinked, IsBatch, TaskOf, LocalChanged, IsTombstone, Applied, OverwrittenBy;
  }

  lemma PagesTell(s: System, step: Step)
    ensures forall x :: x in Next(s, step).history.pages && x !in s.history.pages ==>
      x.0 in Next(s, step).world.pages && Next(s, step).world.pages[x.0] == x.1
  {
    hide Next;
    if step.Send? || step.Relate? {
      WritesTell(s, step);
    } else if step.NewNotionPage? || step.ChangePage? || step.TrashPage? || step.Bury? {
      PageStepsTell(s, step);
    } else {
      OthersTell(s, step);
    }
  }

  lemma PageStepsTell(s: System, step: Step)
    requires step.NewNotionPage? || step.ChangePage? || step.TrashPage? || step.Bury?
    ensures forall x :: x in Next(s, step).history.pages && x !in s.history.pages ==>
      x.0 in Next(s, step).world.pages && Next(s, step).world.pages[x.0] == x.1
  {
    hide IsTombstone;
  }

  lemma WritesTell(s: System, step: Step)
    requires step.Send? || step.Relate?
    ensures forall x :: x in Next(s, step).history.pages && x !in s.history.pages ==>
      x.0 in Next(s, step).world.pages && Next(s, step).world.pages[x.0] == x.1
  {
    hide Floor;
  }

  lemma OthersTell(s: System, step: Step)
    requires !step.Send? && !step.Relate?
    requires !step.NewNotionPage? && !step.ChangePage? && !step.TrashPage? && !step.Bury?
    ensures Next(s, step).history.pages == s.history.pages
  {
    hide IsLinked, IsBatch, TaskOf, LocalChanged, IsTombstone, Applied, OverwrittenBy, Reaps, WithTask, WithoutTask;
  }

  lemma SentTells(s: System, step: Step)
    ensures forall x :: x in Next(s, step).history.sent && x !in s.history.sent ==> Sent(s, step, x.0, x.1)
  {
    hide IsLinked, IsBatch, TaskOf, LocalChanged, IsTombstone, Applied, OverwrittenBy;
  }

  lemma FailedTells(s: System, step: Step)
    ensures forall t :: t in Next(s, step).history.failed && t !in s.history.failed ==> NotUploaded(s, step, t)
  {
    hide IsLinked, IsBatch, TaskOf, LocalChanged, IsTombstone, Applied, OverwrittenBy;
  }

  lemma OverwrittenTells(s: System, step: Step)
    ensures forall o :: o in Next(s, step).history.overwritten && o !in s.history.overwritten ==>
      Overwrote(s, step, o.0, o.1, o.2)
  {
    hide IsLinked, IsBatch, LocalChanged, IsTombstone;
  }

  /** A worker writes the version it loaded to the page. */
  predicate Sent(s: System, step: Step, v: Version, page: int) {
    && step.Send? && HasJob(s, step.w) && s.workers[step.w].job.value.version == v
    && var w := Next(s, step).world; page in w.pages && w.pages[page].content == v.content
  }

  predicate NotUploaded(s: System, step: Step, task: int) {
    && step.Send? && step.fate != Done && HasJob(s, step.w)
    && s.workers[step.w].job.value.version.task == task && s.workers[step.w].job.value.page.None?
  }

  /** A version of the page replaces the task's version, which the link did not know. */
  predicate Overwrote(s: System, step: Step, v: Version, id: int, page: Page) {
    && step == Apply(id, page) && v.task in s.world.tasks && v == VersionOf(s.world, v.task)
    && Mirrors(s.world, id, v.task)
    && v.task in Next(s, step).world.tasks && Next(s, step).world.tasks[v.task].content == page.content
  }

  lemma {:induction false} EditAt(s: System, steps: seq<Step>, v: Version)
    requires v in Run(s, steps).history.edits && v !in s.history.edits
    ensures exists i :: 0 <= i < |steps| && EditBy(Run(s, steps[..i]), steps[i]) == Some(v)
  {
    hide Next, EditBy;
    if steps == [] {
    } else {
      var n := |steps| - 1;
      StepTells(Run(s, steps[..n]), steps[n]);
      if v in Run(s, steps[..n]).history.edits {
        EditAt(s, steps[..n], v);
        var i :| 0 <= i < n && EditBy(Run(s, steps[..n][..i]), steps[..n][i]) == Some(v);
        assert steps[..n][..i] == steps[..i] && steps[..n][i] == steps[i];
      }
    }
  }

  lemma {:induction false} SentAt(s: System, steps: seq<Step>, v: Version, p: int)
    requires (v, p) in Run(s, steps).history.sent && (v, p) !in s.history.sent
    ensures exists i :: 0 <= i < |steps| && Sent(Run(s, steps[..i]), steps[i], v, p)
  {
    hide Next, Sent;
    if steps == [] {
    } else {
      var n := |steps| - 1;
      StepTells(Run(s, steps[..n]), steps[n]);
      if (v, p) in Run(s, steps[..n]).history.sent {
        SentAt(s, steps[..n], v, p);
        var i :| 0 <= i < n && Sent(Run(s, steps[..n][..i]), steps[..n][i], v, p);
        assert steps[..n][..i] == steps[..i] && steps[..n][i] == steps[i];
      }
    }
  }

  lemma {:induction false} OverwrittenAt(s: System, steps: seq<Step>, o: (Version, int, Page))
    requires o in Run(s, steps).history.overwritten && o !in s.history.overwritten
    ensures exists i :: 0 <= i < |steps| && Overwrote(Run(s, steps[..i]), steps[i], o.0, o.1, o.2)
  {
    hide Next, Overwrote;
    if steps == [] {
    } else {
      var n := |steps| - 1;
      StepTells(Run(s, steps[..n]), steps[n]);
      if o in Run(s, steps[..n]).history.overwritten {
        OverwrittenAt(s, steps[..n], o);
        var i :| 0 <= i < n && Overwrote(Run(s, steps[..n][..i]), steps[..n][i], o.0, o.1, o.2);
        assert steps[..n][..i] == steps[..i] && steps[..n][i] == steps[i];
      }
    }
  }

  /** The user has changed the task again. */
  ghost predicate ChangedAgain(s: System, steps: seq<Step>, v: Version) {
    exists j, e :: 0 <= j < |steps| && EditBy(Run(s, steps[..j]), steps[j]) == Some(e) && e.task == v.task
      && e.changed > v.changed
  }

  /** Some step of a worker wrote the version to the page that mirrors its task at the end. */
  ghost predicate Delivered(s: System, steps: seq<Step>, v: Version) {
    exists j, p :: 0 <= j < |steps| && Sent(Run(s, steps[..j]), steps[j], v, p)
      && Mirrors(Run(s, steps).world, p, v.task)
  }

  /** Some step of a pull replaced the version by a page that a person edited later. */
  ghost predicate Overruled(s: System, steps: seq<Step>, v: Version) {
    exists j, p, page: Page :: 0 <= j < |steps| && Overwrote(Run(s, steps[..j]), steps[j], v, p, page)
      && v.changed < page.edited && page.editor == Person
  }

  /** No edit is dropped, told by the steps alone. */
  lemma EveryEditIsKept(s: System, steps: seq<Step>, i: nat)
    requires Sound(s) && s.world.botKnown && NoneSnatched(s, steps) && s.history == History({}, {}, {}, {}, {})
    requires i < |steps| && EditBy(Run(s, steps[..i]), steps[i]).Some?
    requires var task := EditBy(Run(s, steps[..i]), steps[i]).value.task;
      task in Run(s, steps).world.tasks && task !in Run(s, steps).world.volunhub
    ensures var v := EditBy(Run(s, steps[..i]), steps[i]).value;
      Pending(Run(s, steps).world, v) || ChangedAgain(s, steps, v) || Delivered(s, steps, v) || Overruled(s, steps, v)
  {
    hide Sound, Next, Run, EditBy, Sent, Overwrote, Mirrors, Pending, Shown;
    var v, t := EditBy(Run(s, steps[..i]), steps[i]).value, Run(s, steps);
    NoEditDropped(s, steps, i);
    if e :| e in t.history.edits && e.task == v.task && e.changed > v.changed {
      EditAt(s, steps, e);
    } else if p :| Mirrors(t.world, p, v.task) && (v, p) in t.history.sent && Shown(t.history, v, p) {
      SentAt(s, steps, v, p);
    } else if o :| o in t.history.overwritten && o.0 == v && v.changed < o.2.edited && o.2.editor == Person {
      OverwrittenAt(s, steps, o);
    }
  }
}
