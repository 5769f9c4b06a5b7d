/**
 * One run of the Notion sync from end to end: what it makes of a task and its page, and that a
 * complete run leaves the next one nothing to do.
 */
module NotionRun {
  import opened Options
  import opened Notion

  // ------------------------------------------------------------------ a run

  /**
   * What a run meets: the time passed since the last one on either clock, the pages a query lists, the
   * tasks and links its queries return, the new pages whose task has a mirrored parent, and how its
   * calls end.
   */
  datatype Run = Run(wait: nat, notionWait: nat, full: bool, listing: seq<int>, creates: seq<int>,
      updates: seq<int>, relates: seq<int>, fates: Fates)

  function AfterPull(w: World, r: Run): World {
    var pulled := Pulled(w, r.listing);
    if r.full then Reaped(pulled, (set id | id in r.listing), r.fates) else pulled
  }

  function AfterBurial(w: World, r: Run): World {
    Buried(AfterPull(w, r), r.fates)
  }

  function AfterCreates(w: World, r: Run): World {
    CreatedPages(AfterBurial(w, r), r.creates, r.fates)
  }

  function AfterUpdates(w: World, r: Run): World {
    UpdatedPages(AfterCreates(w, r), r.updates, r.fates)
  }

  /** `_pull`, then `_push`. */
  function AfterRun(w: World, r: Run): World {
    RelatedPages(AfterUpdates(w, r), r.relates, r.fates)
  }

  /** Each query returns what the tables then hold; only a full one must list every live page. */
  ghost predicate Queried(w: World, r: Run) {
    && (forall id :: id in r.listing ==> IsLive(w, id))
    && (r.full ==> forall id :: IsLive(w, id) ==> id in r.listing)
    && (forall t :: t in r.creates <==> IsMirrorable(AfterBurial(w, r), t) && !IsLinked(AfterBurial(w, r), t))
    && (forall i, j :: 0 <= i < j < |r.creates| ==> r.creates[i] != r.creates[j])
    && (forall id :: id in r.updates <==> id in AfterCreates(w, r).links && AfterCreates(w, r).links[id].task.Some?)
    && (forall i :: 0 <= i < |r.relates| ==>
        r.relates[i] in AfterCreates(w, r).links && r.relates[i] !in AfterBurial(w, r).links)
  }

  ghost predicate AllDone(fates: Fates) {
    forall call :: fates(call) == Done
  }

  /** The constraints of the tables, and ids not yet handed out. */
  ghost predicate Consistent(w: World) {
    && (forall id :: id in w.links ==> id in w.pages)
    && (forall id :: id in w.links && w.links[id].task.Some? ==>
         w.links[id].task.value in w.tasks && w.links[id].task.value !in w.volunhub)
    && (forall a, b :: a in w.links && b in w.links && a != b && w.links[a].task.Some? ==>
        w.links[a].task != w.links[b].task)
    && (forall id :: id in w.pages ==> id < w.nextPage)
    && (forall t :: t in w.tasks ==> t < w.nextTask)
    && (forall t :: t in w.volunhub ==> t in w.tasks)
  }

  lemma AppliedConsistent(w: World, id: int)
    requires Consistent(w) && id in w.pages
    ensures Consistent(Applied(w, id, w.pages[id]))
  {
    if id !in w.links { ImportedConsistent(w, id, w.pages[id]); }
    hide Imported, NotionPrevails, IsOwnEdit;
  }

  lemma ImportedConsistent(w: World, id: int, page: Page)
    requires Consistent(w) && id in w.pages && id !in w.links
    ensures Consistent(Imported(w, id, page))
  {
  }

  lemma ReapedConsistent(w: World, seen: set<int>, fates: Fates)
    requires Consistent(w)
    ensures Consistent(Reaped(w, seen, fates))
  {
  }

  lemma BuriedConsistent(w: World, fates: Fates)
    requires Consistent(w)
    ensures Consistent(Buried(w, fates))
  {
  }

  lemma CreatedConsistent(w: World, task: int, fate: Fate)
    requires Consistent(w) && IsMirrorable(w, task) && !IsLinked(w, task)
    ensures Consistent(CreatedPage(w, task, fate))
  {
  }

  /** Only the link and the page `id` differ, and the link keeps its task. */
  ghost predicate Touches(w: World, u: World, id: int) {
    && id in w.links && id in w.pages && id in u.links && id in u.pages
    && u.links[id].task == w.links[id].task && u.pages[id].trashed == w.pages[id].trashed
    && u == w.(links := w.links[id := u.links[id]], pages := w.pages[id := u.pages[id]])
  }

  lemma UpdatedTouches(w: World, id: int, fate: Fate)
    ensures Updated(w, id, fate) == w || Touches(w, Updated(w, id, fate), id)
    ensures Related(w, id, fate) == w || Touches(w, Related(w, id, fate), id)
  {
    hide LocalChanged;
  }

  lemma TouchConsistent(w: World, u: World, id: int)
    requires Consistent(w) && Touches(w, u, id)
    ensures Consistent(u)
  {
  }

  lemma UpdatedConsistent(w: World, id: int, fate: Fate)
    requires Consistent(w)
    ensures Consistent(Updated(w, id, fate)) && Consistent(Related(w, id, fate))
  {
    hide Consistent, Touches, Updated, Related;
    UpdatedTouches(w, id, fate);
    if Updated(w, id, fate) != w { TouchConsistent(w, Updated(w, id, fate), id); }
    if Related(w, id, fate) != w { TouchConsistent(w, Related(w, id, fate), id); }
  }

  // ------------------------------------------------------------------ no ping-pong

  /** Nothing is left to apply from this page. */
  predicate Calm(w: World, id: int) {
    && id in w.pages
    && if id !in w.links then IsOwnEdit(w, w.pages[id])
       else TaskOf(w, w.links[id]).Some? ==> !NotionPrevails(w, w.links[id], TaskOf(w, w.links[id]).value, w.pages[id])
  }

  /** Nothing is left to do about this link, in either direction. */
  predicate Still(w: World, id: int) {
    && id in w.links && TaskOf(w, w.links[id]).Some? && IsLive(w, id) && Calm(w, id)
    && !LocalChanged(w.links[id], TaskOf(w, w.links[id]).value)
  }

  /** The two sides are in step: a run finds nothing to write. */
  ghost predicate Quiet(w: World) {
    && (forall id :: id in w.links ==> Still(w, id))
    && (forall t :: IsMirrorable(w, t) ==> IsLinked(w, t))
    && (forall id :: IsLive(w, id) ==> Calm(w, id))
  }

  lemma AppliedCalm(w: World, id: int, other: int)
    requires Consistent(w) && id in w.pages && (other == id || Calm(w, other))
    ensures Calm(Applied(w, id, w.pages[id]), other) && Applied(w, id, w.pages[id]).pages == w.pages
  {
  }

  lemma {:induction false} PulledCalm(w: World, listing: seq<int>)
    requires Consistent(w) && forall id :: id in listing ==> id in w.pages
    ensures var p := Pulled(w, listing);
      Consistent(p) && p.pages == w.pages && forall id :: id in listing ==> Calm(p, id)
  {
    hide Consistent, Calm, Applied;
    if listing == [] {
    } else {
      var n := |listing| - 1;
      PulledCalm(w, listing[..n]);
      var before := Pulled(w, listing[..n]);
      var id := listing[n];
      AppliedConsistent(before, id);
      forall other | other in listing ensures Calm(Applied(before, id, before.pages[id]), other) {
        if other != id { assert other in listing[..n]; }
        AppliedCalm(before, id, other);
      }
      AppliedCalm(before, id, id);
    }
  }

  /** After a full pull, every link is a tombstone or has a live page with nothing left to apply. */
  lemma FullPullCalm(w: World, r: Run)
    requires Consistent(w) && Queried(w, r) && r.full && AllDone(r.fates)
    ensures var p := AfterPull(w, r);
      && Consistent(p)
      && (forall id :: id in p.links && p.links[id].task.Some? ==> IsLive(p, id))
      && (forall id :: IsLive(p, id) ==> Calm(p, id))
  {
    PulledCalm(w, r.listing);
    var pulled := Pulled(w, r.listing);
    var seen := set id | id in r.listing;
    ReapedConsistent(pulled, seen, r.fates);
    var p := Reaped(pulled, seen, r.fates);
    forall id | id in p.links && p.links[id].task.Some? ensures IsLive(p, id) {
      if id !in seen { assert !IsLive(w, id); assert !IsReaped(pulled, seen, r.fates, id); }
    }
    forall id | IsLive(p, id) ensures Calm(p, id) {
      assert IsLive(w, id);
      assert Calm(pulled, id);
      assert id in pulled.links ==> id in p.links;
    }
  }

  /** Every link has a task and a live page with nothing left to apply. */
  ghost predicate Pushable(w: World) {
    && Consistent(w)
    && (forall id :: id in w.links ==> w.links[id].task.Some?)
    && (forall id :: id in w.links ==> IsLive(w, id))
    && (forall id :: IsLive(w, id) ==> Calm(w, id))
  }

  lemma BurialPushable(w: World, fates: Fates)
    requires Consistent(w) && AllDone(fates)
    requires forall id :: id in w.links && w.links[id].task.Some? ==> IsLive(w, id)
    requires forall id :: IsLive(w, id) ==> Calm(w, id)
    ensures Pushable(Buried(w, fates))
  {
    BuriedConsistent(w, fates);
    var b := Buried(w, fates);
    forall id | IsLive(b, id) ensures Calm(b, id) {
      assert IsLive(w, id) && !IsTombstone(w, id);
    }
  }

  /** Creating a page links its task and leaves every other link as it was. */
  lemma CreatedPushable(w: World, task: int)
    requires Pushable(w) && IsMirrorable(w, task) && !IsLinked(w, task)
    ensures var c := CreatedPage(w, task, Done);
      && Pushable(c) && c.tasks == w.tasks && c.volunhub == w.volunhub
      && (forall t :: IsLinked(c, t) <==> IsLinked(w, t) || t == task)
  {
    CreatedConsistent(w, task, Done);
    var c := CreatedPage(w, task, Done);
    assert c.links[w.nextPage].task == Some(task);
    forall id | IsLive(c, id) ensures Calm(c, id) {
      if id != w.nextPage { assert Calm(w, id); }
    }
    forall t ensures IsLinked(c, t) <==> IsLinked(w, t) || t == task {
      if IsLinked(w, t) {
        var p :| p in w.links && w.links[p].task == Some(t);
        assert c.links[p].task == Some(t);
      }
    }
  }

  lemma {:induction false} CreatesPushable(w: World, tasks: seq<int>, fates: Fates)
    requires Pushable(w) && AllDone(fates)
    requires forall t :: t in tasks ==> IsMirrorable(w, t) && !IsLinked(w, t)
    requires forall i, j :: 0 <= i < j < |tasks| ==> tasks[i] != tasks[j]
    ensures var c := CreatedPages(w, tasks, fates);
      && Pushable(c) && c.tasks == w.tasks && c.volunhub == w.volunhub
      && (forall t :: IsLinked(c, t) <==> IsLinked(w, t) || t in tasks)
  {
    hide Pushable, CreatedPage, IsLinked;
    assert forall t :: IsMirrorable(w, t) <==> t in w.tasks && t !in w.volunhub;
    if tasks == [] {
    } else {
      var n := |tasks| - 1;
      CreatesPushable(w, tasks[..n], fates);
      assert tasks == tasks[..n] + [tasks[n]];
      CreatedPushable(CreatedPages(w, tasks[..n], fates), tasks[n]);
    }
  }

  /** What happens to one link and its page concerns no other. */
  lemma TouchElsewhere(w: World, u: World, id: int)
    requires Touches(w, u, id)
    ensures forall other :: other != id ==>
        (Calm(w, other) <==> Calm(u, other)) && (Still(w, other) <==> Still(u, other))
    ensures forall other :: IsLive(w, other) <==> IsLive(u, other)
    ensures u.tasks == w.tasks && u.volunhub == w.volunhub && u.links.Keys == w.links.Keys
    ensures forall t :: IsLinked(u, t) <==> IsLinked(w, t)
  {
    LinksKept(w, u);
    hide NotionPrevails, IsLinked, LocalChanged;
  }

  lemma TouchPushable(w: World, u: World, id: int)
    requires Pushable(w) && Touches(w, u, id) && Calm(u, id)
    ensures Pushable(u)
  {
    TouchElsewhere(w, u, id);
    TouchConsistent(w, u, id);
    hide Consistent, Calm, IsLive, Still;
  }

  /** What an update makes of its own link, and what writing a parent relation does. */
  lemma UpdatedHere(w: World, id: int)
    requires Pushable(w) && id in w.links
    ensures Still(Updated(w, id, Done), id)
    ensures Calm(Related(w, id, Done), id) && (Still(w, id) ==> Still(Related(w, id, Done), id))
  {
    assert Calm(w, id);
    hide IsLinked;
  }

  /** An update settles its own link and touches no other, and so does writing a parent relation. */
  lemma UpdatedStill(w: World, id: int)
    requires Pushable(w) && id in w.links
    ensures var u := Updated(w, id, Done);
      && Pushable(u) && Still(u, id) && u.tasks == w.tasks && u.volunhub == w.volunhub && u.links.Keys == w.links.Keys
      && (forall t :: IsLinked(u, t) <==> IsLinked(w, t))
      && (forall other :: Still(w, other) ==> Still(u, other))
  {
    hide Updated, Related, Pushable, Still, Touches, Calm, IsLinked;
    UpdatedTouches(w, id, Done);
    UpdatedHere(w, id);
    var u := Updated(w, id, Done);
    if u != w {
      StillIsCalm(u, id);
      TouchElsewhere(w, u, id);
      TouchPushable(w, u, id);
    }
  }

  lemma StillIsCalm(w: World, id: int)
    requires Still(w, id)
    ensures Calm(w, id)
  {
  }

  lemma RelatedStill(w: World, id: int)
    requires Pushable(w) && id in w.links
    ensures var u := Related(w, id, Done);
      && Pushable(u) && u.tasks == w.tasks && u.volunhub == w.volunhub && u.links.Keys == w.links.Keys
      && (forall t :: IsLinked(u, t) <==> IsLinked(w, t))
      && (forall other :: Still(w, other) ==> Still(u, other))
  {
    hide Updated, Related, Pushable, Still, Touches, Calm, IsLinked;
    UpdatedTouches(w, id, Done);
    UpdatedHere(w, id);
    var u := Related(w, id, Done);
    if u != w {
      TouchElsewhere(w, u, id);
      TouchPushable(w, u, id);
    }
  }

  lemma LinksKept(a: World, b: World)
    requires a.links.Keys == b.links.Keys && forall id :: id in a.links ==> a.links[id].task == b.links[id].task
    ensures forall t :: IsLinked(a, t) <==> IsLinked(b, t)
  {
    assert (set p | p in a.links :: a.links[p].task) == (set p | p in b.links :: b.links[p].task);
  }

  lemma {:induction false} UpdatesStill(w: World, ids: seq<int>, fates: Fates)
    requires Pushable(w) && AllDone(fates) && forall id :: id in ids ==> id in w.links
    ensures var u := UpdatedPages(w, ids, fates);
      && Pushable(u) && u.tasks == w.tasks && u.volunhub == w.volunhub && u.links.Keys == w.links.Keys
      && (forall t :: IsLinked(u, t) <==> IsLinked(w, t))
      && (forall id :: id in ids || Still(w, id) ==> Still(u, id))
  {
    hide Pushable, Updated, IsLinked, Still;
    if ids == [] {
    } else {
      var n := |ids| - 1;
      UpdatesStill(w, ids[..n], fates);
      assert ids == ids[..n] + [ids[n]];
      UpdatedStill(UpdatedPages(w, ids[..n], fates), ids[n]);
    }
  }

  lemma {:induction false} RelatesStill(w: World, ids: seq<int>, fates: Fates)
    requires Pushable(w) && AllDone(fates) && forall id :: id in ids ==> id in w.links
    ensures var u := RelatedPages(w, ids, fates);
      && Pushable(u) && u.tasks == w.tasks && u.volunhub == w.volunhub && u.links.Keys == w.links.Keys
      && (forall t :: IsLinked(u, t) <==> IsLinked(w, t))
      && (forall id :: Still(w, id) ==> Still(u, id))
  {
    hide Pushable, Related, IsLinked, Still;
    if ids == [] {
    } else {
      var n := |ids| - 1;
      RelatesStill(w, ids[..n], fates);
      assert ids == ids[..n] + [ids[n]];
      RelatedStill(RelatedPages(w, ids[..n], fates), ids[n]);
    }
  }

  /**
   * A full run in which every call succeeds leaves the two sides in step, whatever state it starts
   * from: pending edits, conflicts, tombstones, trashed pages, unlinked tasks.
   */
  lemma FullRunQuiets(w: World, r: Run)
    requires Consistent(w) && Queried(w, r) && r.full && AllDone(r.fates)
    ensures Quiet(AfterRun(w, r)) && Consistent(AfterRun(w, r))
  {
    FullPullCalm(w, r);
    BurialPushable(AfterPull(w, r), r.fates);
    hide Calm, Still, Buried, AfterPull, IsLinked;
    CreatesPushable(AfterBurial(w, r), r.creates, r.fates);
    UpdatesStill(AfterCreates(w, r), r.updates, r.fates);
    RelatesStill(AfterUpdates(w, r), r.relates, r.fates);
  }

  /**
   * From a quiet state no run writes a task or a page, full or not, whether its calls succeed or
   * not; and it leaves the state quiet.
   */
  lemma QuietRunWritesNothing(w: World, r: Run)
    requires Consistent(w) && Quiet(w) && Queried(w, r)
    ensures var after := AfterRun(w, r);
      && after.tasks == w.tasks && after.pages == w.pages && after.volunhub == w.volunhub
      && after.links.Keys == w.links.Keys && Quiet(after) && Consistent(after)
  {
    QuietPull(w, r.listing);
    QuietReap(Pulled(w, r.listing), (set id | id in r.listing), r.fates);
    QuietBurial(AfterPull(w, r), r.fates);
    EmptyOrNot(r.creates);
    NothingNew(w, r);
    QuietUpdates(AfterCreates(w, r), r.updates, r.fates);
  }

  lemma EmptyOrNot<T>(s: seq<T>)
    ensures s == [] || exists x: T :: x in s
  {
    if s != [] { assert s[0] in s; }
  }

  lemma NoneAdded(ids: seq<int>, after: map<int, Link>, before: map<int, Link>)
    requires forall i :: 0 <= i < |ids| ==> ids[i] in after && ids[i] !in before
    ensures ids == [] || after != before
  {
    if ids != [] { assert ids[0] in after && ids[0] !in before; }
  }

  lemma NothingNew(w: World, r: Run)
    requires Queried(w, r) && r.creates == []
    ensures AfterCreates(w, r) == AfterBurial(w, r) && r.relates == []
  {
    hide AfterBurial;
    assert AfterCreates(w, r) == AfterBurial(w, r);
    NoneAdded(r.relates, AfterCreates(w, r).links, AfterBurial(w, r).links);
  }

  lemma {:induction false} QuietPull(w: World, listing: seq<int>)
    requires Consistent(w) && Quiet(w) && forall id :: id in listing ==> IsLive(w, id)
    ensures var p := Pulled(w, listing);
      && p.tasks == w.tasks && p.pages == w.pages && p.volunhub == w.volunhub
      && p.links.Keys == w.links.Keys && Quiet(p) && Consistent(p)
  {
    if listing == [] {
    } else {
      var n := |listing| - 1;
      QuietPull(w, listing[..n]);
      hide Quiet, Consistent, Calm;
      QuietApply(Pulled(w, listing[..n]), listing[n]);
    }
  }

  lemma QuietApply(w: World, id: int)
    requires Consistent(w) && Quiet(w) && IsLive(w, id)
    ensures var p := Applied(w, id, w.pages[id]);
      && p.tasks == w.tasks && p.pages == w.pages && p.volunhub == w.volunhub
      && p.links.Keys == w.links.Keys && Quiet(p) && Consistent(p)
  {
    assert Calm(w, id);
    AppliedConsistent(w, id);
    var p := Applied(w, id, w.pages[id]);
    LinksKept(w, p);
    forall other | IsLive(p, other) ensures Calm(p, other) { AppliedCalm(w, id, other); }
  }

  lemma QuietReap(w: World, seen: set<int>, fates: Fates)
    requires Quiet(w)
    ensures Reaped(w, seen, fates) == w
  {
    assert forall id :: id in w.links ==> Still(w, id) && !IsReaped(w, seen, fates, id);
  }

  lemma QuietBurial(w: World, fates: Fates)
    requires Quiet(w)
    ensures Buried(w, fates) == w
  {
    assert forall id :: id in w.links ==> Still(w, id) && !IsTombstone(w, id);
  }

  lemma {:induction false} QuietUpdates(w: World, ids: seq<int>, fates: Fates)
    requires Quiet(w)
    ensures UpdatedPages(w, ids, fates) == w
  {
    if ids == [] {
    } else {
      QuietUpdates(w, ids[..|ids| - 1], fates);
      assert ids[|ids| - 1] in w.links ==> Still(w, ids[|ids| - 1]);
    }
  }

  function AfterWait(w: World, r: Run): World {
    w.(clock := w.clock + r.wait, notionClock := w.notionClock + r.notionWait)
  }

  /** The state after several runs, with time passing between them. */
  function AfterRuns(w: World, runs: seq<Run>): World {
    if runs == [] then w
    else AfterRun(AfterWait(AfterRuns(w, runs[..|runs| - 1]), runs[|runs| - 1]), runs[|runs| - 1])
  }

  ghost predicate AllQueried(w: World, runs: seq<Run>) {
    forall i :: 0 <= i < |runs| ==> Queried(AfterWait(AfterRuns(w, runs[..i]), runs[i]), runs[i])
  }

  lemma WaitKeeps(w: World, r: Run)
    requires Consistent(w) && Quiet(w)
    ensures Consistent(AfterWait(w, r)) && Quiet(AfterWait(w, r))
  {
    var later := AfterWait(w, r);
    LinksKept(w, later);
    assert forall id :: Calm(w, id) <==> Calm(later, id);
    assert forall id :: Still(w, id) <==> Still(later, id);
    assert forall id :: IsLive(w, id) <==> IsLive(later, id);
  }

  /** No ping-pong: after a full run in which every call succeeds, no later run writes a task or a page. */
  lemma {:induction false} NoPingPong(w: World, first: Run, later: seq<Run>)
    requires Consistent(w) && Queried(w, first) && first.full && AllDone(first.fates)
    requires AllQueried(AfterRun(w, first), later)
    ensures var settled := AfterRun(w, first); var after := AfterRuns(settled, later);
      && after.tasks == settled.tasks && after.pages == settled.pages && after.links.Keys == settled.links.Keys
      && Quiet(after) && Consistent(after)
  {
    hide Quiet, Consistent, AfterRun, Queried, AllDone;
    var settled := AfterRun(w, first);
    if later == [] {
      FullRunQuiets(w, first);
    } else {
      var n := |later| - 1;
      assert forall i :: 0 <= i < n ==> later[..n][..i] == later[..i];
      NoPingPong(w, first, later[..n]);
      WaitKeeps(AfterRuns(settled, later[..n]), later[n]);
      QuietRunWritesNothing(AfterWait(AfterRuns(settled, later[..n]), later[n]), later[n]);
    }
  }

  // ------------------------------------------------------------------ what a run makes of a task and its page

  /** The link, its task and its page are as they were. */
  ghost predicate SameRow(a: World, b: World, id: int) {
    && id in a.links && id in b.links && a.links[id] == b.links[id]
    && (a.links[id].task.Some? && a.links[id].task.value in a.tasks ==>
        a.links[id].task.value in b.tasks && a.tasks[a.links[id].task.value] == b.tasks[a.links[id].task.value])
    && id in a.pages && id in b.pages && a.pages[id] == b.pages[id]
  }

  /** A linked task with a live page. */
  predicate Mirrored(w: World, id: int) {
    && id in w.links && w.links[id].task.Some? && w.links[id].task.value in w.tasks
    && id in w.pages && !w.pages[id].trashed
  }

  function TheTask(w: World, id: int): Task
    requires Mirrored(w, id)
  {
    w.tasks[w.links[id].task.value]
  }

  predicate IsSettled(link: Link, task: Task) {
    link.local.Some? && task.changed <= link.local.value
  }

  /**
   * The page was edited in a later minute than it was last seen in, and not by the known bot; and the
   * task has not changed since it was last seen, or has in a minute before the page's.
   */
  predicate HasNews(w: World, link: Link, task: Task, page: Page) {
    && !(w.botKnown && page.editor == Bot)
    && (link.remote.None? || link.remote.value < Floor(page.edited))
    && (IsSettled(link, task) || Floor(task.changed) + MINUTE <= Floor(page.edited))
  }

  lemma NewsPrevail(w: World, link: Link, task: Task, page: Page)
    ensures NotionPrevails(w, link, task, page) <==> HasNews(w, link, task, page)
  {
    NotionWinsOnlyIfLater(task, page);
  }

  /** What a pull makes of a page, its link and its task. */
  ghost predicate PulledInto(w: World, p: World, id: int)
    requires Mirrored(w, id)
  {
    var link, task, page := w.links[id], TheTask(w, id), w.pages[id];
    && Mirrored(p, id) && p.pages[id] == page && p.links[id].task == link.task
    && if HasNews(w, link, task, page) then
         && TheTask(p, id).content == page.content && (task.content == page.content ==> TheTask(p, id) == task)
         && p.links[id].local == Some(TheTask(p, id).changed) && p.links[id].remote == Some(Floor(page.edited))
       else
         && TheTask(p, id) == task
         && p.links[id] ==
            if w.botKnown && page.editor == Bot then link.(remote := Some(Floor(page.edited))) else link
  }

  lemma AppliedOnce(w: World, p: World, id: int)
    requires Consistent(p) && Mirrored(w, id) && SameRow(w, p, id) && p.botKnown == w.botKnown
    ensures PulledInto(w, Applied(p, id, p.pages[id]), id)
  {
    NewsPrevail(p, p.links[id], TheTask(p, id), p.pages[id]);
    hide IsLinked, NotionPrevails, OrganizerWins;
  }

  /** Applying the page again, or another one, changes nothing more. */
  lemma AppliedAgain(w: World, p: World, id: int, other: int)
    requires Consistent(p) && Mirrored(w, id) && other in p.pages && p.botKnown == w.botKnown && PulledInto(w, p, id)
    ensures PulledInto(w, Applied(p, other, p.pages[other]), id)
  {
    if other == id {
      NewsPrevail(p, p.links[id], TheTask(p, id), p.pages[id]);
    } else {
      AppliedElsewhere(p, id, other);
      hide Applied, Consistent, NotionPrevails;
    }
  }

  lemma AppliedTo(w: World, p: World, id: int, other: int)
    requires Consistent(p) && Mirrored(w, id) && other in p.pages && p.botKnown == w.botKnown
    requires PulledInto(w, p, id) || (id == other && SameRow(w, p, id))
    ensures PulledInto(w, Applied(p, other, p.pages[other]), id)
  {
    hide Consistent, PulledInto, SameRow, Applied, Mirrored;
    if PulledInto(w, p, id) { AppliedAgain(w, p, id, other); } else { AppliedOnce(w, p, id); }
  }

  lemma AppliedElsewhere(w: World, id: int, other: int)
    requires Consistent(w) && Mirrored(w, id) && other in w.pages && other != id
    ensures SameRow(w, Applied(w, other, w.pages[other]), id)
  {
  }

  lemma StillMeans(w: World, id: int)
    ensures Still(w, id) <==>
      Mirrored(w, id) && IsSettled(w.links[id], TheTask(w, id)) &&
      !HasNews(w, w.links[id], TheTask(w, id), w.pages[id])
  {
    if Mirrored(w, id) { NewsPrevail(w, w.links[id], TheTask(w, id), w.pages[id]); }
    hide NotionPrevails, HasNews;
  }

  /**
   * Quiet means: every link has its task and a live page, the task has not changed since its stamp and
   * the page has no news; every task that is not VolunHub's has a link; and a live page without one was
   * last edited by the known bot.
   */
  lemma QuietMeans(w: World)
    ensures Quiet(w) <==>
      && (forall id :: id in w.links ==>
          Mirrored(w, id) && IsSettled(w.links[id], TheTask(w, id)) &&
          !HasNews(w, w.links[id], TheTask(w, id), w.pages[id]))
      && (forall t :: t in w.tasks && t !in w.volunhub ==> exists id :: id in w.links && w.links[id].task == Some(t))
      && (forall id :: id in w.pages && !w.pages[id].trashed && id !in w.links ==>
          w.botKnown && w.pages[id].editor == Bot)
  {
    forall id
      ensures Still(w, id) <==>
        Mirrored(w, id) && IsSettled(w.links[id], TheTask(w, id)) &&
        !HasNews(w, w.links[id], TheTask(w, id), w.pages[id])
      ensures Still(w, id) ==> Calm(w, id)
      ensures id !in w.links ==> (Calm(w, id) <==> id in w.pages && w.botKnown && w.pages[id].editor == Bot)
    {
      StillMeans(w, id);
    }
    forall t
      ensures IsMirrorable(w, t) && IsLinked(w, t) <==>
        t in w.tasks && t !in w.volunhub && exists id :: id in w.links && w.links[id].task == Some(t)
    {
    }
    hide Still, Calm, HasNews, IsSettled, Mirrored, IsLinked;
    assert forall t :: IsMirrorable(w, t) <==> t in w.tasks && t !in w.volunhub;
  }

  lemma SameRowAsItself(w: World, id: int)
    requires Mirrored(w, id)
    ensures SameRow(w, w, id)
  {
  }

  lemma SameRowTwice(a: World, b: World, c: World, id: int)
    requires SameRow(a, b, id) && SameRow(b, c, id)
    ensures SameRow(a, c, id)
  {
  }

  lemma SameRowMirrored(a: World, b: World, id: int)
    requires SameRow(a, b, id) && Mirrored(a, id)
    ensures Mirrored(b, id)
  {
  }

  lemma AppliedKeepsBot(w: World, id: int)
    requires id in w.pages
    ensures Applied(w, id, w.pages[id]).botKnown == w.botKnown
  {
  }

  /** A query that lists a page twice does no more than one that lists it once. */
  lemma {:induction false} PullMeans(w: World, listing: seq<int>, id: int)
    requires Consistent(w) && Mirrored(w, id) && forall other :: other in listing ==> other in w.pages
    ensures var p := Pulled(w, listing);
      && Consistent(p) && p.pages == w.pages && p.botKnown == w.botKnown
      && (if id in listing then PulledInto(w, p, id) else SameRow(w, p, id))
  {
    hide Consistent, SameRow, PulledInto, Applied;
    PulledCalm(w, listing);
    if listing == [] {
      SameRowAsItself(w, id);
    } else {
      var n := |listing| - 1;
      PullMeans(w, listing[..n], id);
      assert listing == listing[..n] + [listing[n]];
      var before := Pulled(w, listing[..n]);
      if id in listing {
        AppliedTo(w, before, id, listing[n]);
      } else {
        SameRowMirrored(w, before, id);
        AppliedElsewhere(before, id, listing[n]);
        SameRowTwice(w, before, Pulled(w, listing), id);
      }
      AppliedKeepsBot(before, listing[n]);
    }
  }

  lemma ReapKeepsRow(w: World, seen: set<int>, fates: Fates, id: int)
    requires Consistent(w) && Mirrored(w, id)
    ensures SameRow(w, Reaped(w, seen, fates), id)
  {
    var gone := set g | g in w.links && IsReaped(w, seen, fates, g);
    assert id !in gone;
    assert w.links[id].task.value !in (set g | g in gone :: w.links[g].task.value);
  }

  lemma BurialKeepsRow(w: World, fates: Fates, id: int)
    requires Mirrored(w, id)
    ensures SameRow(w, Buried(w, fates), id)
  {
  }

  lemma {:induction false} CreatesKeepRow(w: World, tasks: seq<int>, fates: Fates, id: int)
    requires Mirrored(w, id) && id < w.nextPage
    ensures SameRow(w, CreatedPages(w, tasks, fates), id)
    ensures CreatedPages(w, tasks, fates).nextPage >= w.nextPage
  {
    if tasks == [] {
    } else {
      CreatesKeepRow(w, tasks[..|tasks| - 1], fates, id);
    }
  }

  /** What an update makes of a link, its task and its page. */
  ghost predicate UpdatedInto(w: World, u: World, id: int)
    requires Mirrored(w, id)
  {
    var task := TheTask(w, id);
    && Mirrored(u, id) && u.links[id].task == w.links[id].task && TheTask(u, id) == task
    && if IsSettled(w.links[id], task) then SameRow(w, u, id)
       else u.pages[id].content == task.content && u.pages[id].editor == Bot && IsSettled(u.links[id], task)
  }

  lemma UpdateOf(w: World, u: World, id: int, other: int, fate: Fate)
    requires Mirrored(w, id) && (other == id ==> fate == Done)
    requires UpdatedInto(w, u, id) || (other == id && SameRow(w, u, id))
    ensures UpdatedInto(w, Updated(u, other, fate), id)
  {
  }

  lemma UpdateElsewhere(w: World, u: World, id: int, other: int, fate: Fate)
    requires Mirrored(w, id) && SameRow(w, u, id) && other != id
    ensures SameRow(w, Updated(u, other, fate), id)
  {
  }

  lemma {:induction false} UpdatesMean(w: World, ids: seq<int>, fates: Fates, id: int)
    requires Mirrored(w, id) && fates(Update(id)) == Done
    ensures var u := UpdatedPages(w, ids, fates); if id in ids then UpdatedInto(w, u, id) else SameRow(w, u, id)
  {
    hide SameRow, UpdatedInto, Updated;
    if ids == [] {
      SameRowAsItself(w, id);
    } else {
      var n := |ids| - 1;
      UpdatesMean(w, ids[..n], fates, id);
      assert ids == ids[..n] + [ids[n]];
      var before := UpdatedPages(w, ids[..n], fates);
      if id in ids {
        UpdateOf(w, before, id, ids[n], fates(Update(ids[n])));
      } else {
        UpdateElsewhere(w, before, id, ids[n], fates(Update(ids[n])));
      }
    }
  }

  lemma {:induction false} RelatesKeepRow(w: World, ids: seq<int>, fates: Fates, id: int)
    requires Mirrored(w, id) && id !in ids
    ensures SameRow(w, RelatedPages(w, ids, fates), id)
  {
    if ids == [] {
    } else {
      RelatesKeepRow(w, ids[..|ids| - 1], fates, id);
    }
  }

  lemma PulledIntoSame(w: World, p: World, q: World, id: int)
    requires Mirrored(w, id) && PulledInto(w, p, id) && SameRow(p, q, id)
    ensures PulledInto(w, q, id)
  {
  }

  lemma PullPhase(w: World, r: Run, id: int)
    requires Consistent(w) && Mirrored(w, id) && id in r.listing && forall other :: other in r.listing ==>
        other in w.pages
    ensures PulledInto(w, AfterBurial(w, r), id)
    ensures Mirrored(AfterBurial(w, r), id) && id < AfterBurial(w, r).nextPage
  {
    hide PulledInto, SameRow, Mirrored, IsReaped, IsTombstone;
    PullMeans(w, r.listing, id);
    var pulled := Pulled(w, r.listing);
    PulledIsMirrored(w, pulled, id);
    hide Consistent, Pulled;
    if r.full {
      var seen := set other | other in r.listing;
      ReapKeepsRow(pulled, seen, r.fates, id);
      PulledIntoSame(w, pulled, AfterPull(w, r), id);
      PulledIsMirrored(w, AfterPull(w, r), id);
    }
    BurialKeepsRow(AfterPull(w, r), r.fates, id);
    PulledIntoSame(w, AfterPull(w, r), AfterBurial(w, r), id);
    PulledIsMirrored(w, AfterBurial(w, r), id);
    assert id < pulled.nextPage by { PageKnown(pulled, id); }
  }

  lemma PulledIsMirrored(w: World, p: World, id: int)
    requires Mirrored(w, id) && PulledInto(w, p, id)
    ensures Mirrored(p, id)
  {
  }

  lemma PageKnown(w: World, id: int)
    requires Consistent(w) && Mirrored(w, id)
    ensures id < w.nextPage
  {
  }

  /** The merge of a page and its task, from one state to another. */
  ghost predicate Merged(w: World, after: World, id: int)
    requires Mirrored(w, id)
  {
    var link, task, page := w.links[id], TheTask(w, id), w.pages[id];
    && Mirrored(after, id) && after.links[id].task == link.task && IsSettled(after.links[id], TheTask(after, id))
    && if HasNews(w, link, task, page) then TheTask(after, id).content == page.content && after.pages[id] == page
       else if IsSettled(link, task) then TheTask(after, id) == task && after.pages[id] == page
       else TheTask(after, id) == task && after.pages[id].content == task.content && after.pages[id].editor == Bot
  }

  lemma PhasesMerge(w: World, pulled: World, created: World, updated: World, after: World, id: int)
    requires Mirrored(w, id) && PulledInto(w, pulled, id) && SameRow(pulled, created, id)
    requires Mirrored(created, id) && UpdatedInto(created, updated, id) && SameRow(updated, after, id)
    ensures Merged(w, after, id)
  {
  }

  /**
   * What a run makes of a listed page and its task when the update it may send succeeds: the page's
   * content wins if someone else changed it since the last stamp, unless the task changed too and no
   * earlier than the page's minute; otherwise a changed task's content wins; and where neither is
   * seen to have changed, both stay exactly as they were.
   */
  lemma RunMerges(w: World, r: Run, id: int)
    requires Consistent(w) && Queried(w, r) && Mirrored(w, id) && id in r.listing && r.fates(Update(id)) == Done
    ensures Merged(w, AfterRun(w, r), id)
  {
    PullPhase(w, r, id);
    hide PulledInto, SameRow, UpdatedInto, Merged, Consistent, AfterBurial;
    CreatesKeepRow(AfterBurial(w, r), r.creates, r.fates, id);
    SameRowMirrored(AfterBurial(w, r), AfterCreates(w, r), id);
    InTheQueries(w, r, id);
    UpdatesMean(AfterCreates(w, r), r.updates, r.fates, id);
    UpdatedIsMirrored(AfterCreates(w, r), AfterUpdates(w, r), id);
    RelatesKeepRow(AfterUpdates(w, r), r.relates, r.fates, id);
    PhasesMerge(w, AfterBurial(w, r), AfterCreates(w, r), AfterUpdates(w, r), AfterRun(w, r), id);
  }

  lemma InTheQueries(w: World, r: Run, id: int)
    requires Queried(w, r) && Mirrored(AfterBurial(w, r), id) && Mirrored(AfterCreates(w, r), id)
    ensures id in r.updates && id !in r.relates
  {
    hide AfterBurial, AfterCreates;
  }

  lemma UpdatedIsMirrored(w: World, u: World, id: int)
    requires Mirrored(w, id) && UpdatedInto(w, u, id)
    ensures Mirrored(u, id)
  {
  }

  // ------------------------------------------------------------------ what a run deletes

  /** What a pull adds: tasks and links for listed pages, and nothing to what was there. */
  ghost predicate Adds(w: World, p: World) {
    && p.pages == w.pages && w.nextTask <= p.nextTask
    && (forall t :: t in w.tasks ==> t in p.tasks)
    && (forall id :: id in w.links ==> id in p.links && p.links[id].task == w.links[id].task)
    && (forall id :: id in p.links && id !in w.links ==>
         IsLive(w, id) && p.links[id].task.Some? && p.links[id].task.value >= w.nextTask)
  }

  lemma AppliedAdds(w: World, p: World, id: int)
    requires Adds(w, p) && IsLive(w, id)
    ensures Adds(w, Applied(p, id, p.pages[id]))
  {
  }

  lemma {:induction false} PulledAdds(w: World, listing: seq<int>)
    requires forall id :: id in listing ==> IsLive(w, id)
    ensures Adds(w, Pulled(w, listing))
  {
    if listing == [] {
    } else {
      var n := |listing| - 1;
      PulledAdds(w, listing[..n]);
      hide Applied;
      AppliedAdds(w, Pulled(w, listing[..n]), listing[n]);
    }
  }

  lemma {:induction false} PushKeepsTasks(
      w: World, creates: seq<int>, updates: seq<int>, relates: seq<int>, fates: Fates)
    ensures CreatedPages(w, creates, fates).tasks == w.tasks
    ensures UpdatedPages(w, updates, fates).tasks == w.tasks
    ensures RelatedPages(w, relates, fates).tasks == w.tasks
    decreases |creates| + |updates| + |relates|
  {
    if creates != [] { PushKeepsTasks(w, creates[..|creates| - 1], [], [], fates); }
    if updates != [] { PushKeepsTasks(w, [], updates[..|updates| - 1], [], fates); }
    if relates != [] { PushKeepsTasks(w, [], [], relates[..|relates| - 1], fates); }
  }

  /** The link's page is trashed, and this run's lookup says so. */
  predicate ConfirmedTrashed(w: World, r: Run, id: int) {
    r.full && r.fates(Retrieve(id)) == Done && id in w.pages && w.pages[id].trashed
  }

  /** Reaping takes a link and its task away exactly if its page was not listed and a lookup finds it trashed. */
  lemma ReapMeans(w: World, seen: set<int>, fates: Fates, id: int)
    requires Consistent(w) && id in w.links
    ensures var r, task := Reaped(w, seen, fates), w.links[id].task;
      var goes := id !in seen && task.Some? && fates(Retrieve(id)) == Done && w.pages[id].trashed;
      && (goes ==> id !in r.links && task.value !in r.tasks)
      && (!goes ==> id in r.links && r.links[id] == w.links[id])
      && (!goes && task.Some? ==> task.value in r.tasks && r.tasks[task.value] == w.tasks[task.value])
      && r.pages == w.pages
  {
    var gone := set g | g in w.links && IsReaped(w, seen, fates, g);
    var tasks := set g | g in gone :: w.links[g].task.value;
    assert id in gone <==>
      id !in seen && w.links[id].task.Some? && fates(Retrieve(id)) == Done && w.pages[id].trashed;
    if id !in gone && w.links[id].task.Some? {
      assert w.links[id].task.value !in tasks;
    }
  }

  /** A run deletes a task exactly when it is a full one and a lookup confirms that the task's page is trashed. */
  lemma DeletesOnlyTrashed(w: World, r: Run, t: int)
    requires Consistent(w) && Queried(w, r) && t in w.tasks
    ensures t !in AfterRun(w, r).tasks
        <==> exists id :: id in w.links && w.links[id].task == Some(t) && ConfirmedTrashed(w, r, id)
  {
    PulledAdds(w, r.listing);
    var pulled := Pulled(w, r.listing);
    var seen := set id | id in r.listing;
    assert t in AfterRun(w, r).tasks <==> t in AfterPull(w, r).tasks by {
      hide AfterPull;
      PushKeepsTasks(AfterBurial(w, r), r.creates, [], [], r.fates);
      PushKeepsTasks(AfterCreates(w, r), [], r.updates, [], r.fates);
      PushKeepsTasks(AfterUpdates(w, r), [], [], r.relates, r.fates);
    }
    if r.full {
      forall id | id in w.links && w.links[id].task == Some(t)
        ensures IsReaped(pulled, seen, r.fates, id) <==> ConfirmedTrashed(w, r, id)
      {
        assert id in seen ==> IsLive(w, id);
      }
      forall id | IsReaped(pulled, seen, r.fates, id) && pulled.links[id].task == Some(t)
        ensures id in w.links && w.links[id].task == Some(t)
      {
      }
    }
  }

  // ------------------------------------------------------------------ what a run adds

  /** Page and task are linked and agree: what the page says, its task says. */
  predicate InStep(w: World, id: int, content: string) {
    && Mirrored(w, id) && TheTask(w, id).content == content && w.pages[id].content == content
    && IsSettled(w.links[id], TheTask(w, id))
  }

  /** The page has become a task that was not there before. */
  predicate ImportedInto(w: World, p: World, id: int) {
    && id in w.pages && p.botKnown == w.botKnown && p.pages == w.pages
    && InStep(p, id, w.pages[id].content)
    && p.links[id].remote == Some(LastEdited(w.pages[id])) && p.links[id].task.value >= w.nextTask
  }

  lemma ImportStep(w: World, p: World, id: int, other: int)
    requires Consistent(p) && IsLive(w, id) && !IsOwnEdit(w, w.pages[id]) && IsLive(w, other)
    requires p.pages == w.pages && p.botKnown == w.botKnown && p.nextTask >= w.nextTask
    requires ImportedInto(w, p, id) || id !in p.links
    ensures var q := Applied(p, other, p.pages[other]);
      && q.nextTask >= w.nextTask
      && (ImportedInto(w, p, id) || other == id ==> ImportedInto(w, q, id))
      && (id !in p.links && other != id ==> id !in q.links)
  {
  }

  lemma {:induction false} PullImports(w: World, listing: seq<int>, id: int)
    requires Consistent(w) && IsLive(w, id) && id !in w.links && !IsOwnEdit(w, w.pages[id])
    requires forall other :: other in listing ==> IsLive(w, other)
    ensures var p := Pulled(w, listing);
      && Consistent(p) && p.pages == w.pages && p.botKnown == w.botKnown && p.nextTask >= w.nextTask
      && (if id in listing then ImportedInto(w, p, id) else id !in p.links)
  {
    hide Consistent, ImportedInto, Applied;
    if listing == [] {
    } else {
      var n := |listing| - 1;
      PullImports(w, listing[..n], id);
      assert listing == listing[..n] + [listing[n]];
      var before := Pulled(w, listing[..n]);
      ImportStep(w, before, id, listing[n]);
      AppliedConsistent(before, listing[n]);
      AppliedKeepsPages(before, listing[n]);
    }
  }

  lemma AppliedKeepsPages(w: World, id: int)
    requires id in w.pages
    ensures Applied(w, id, w.pages[id]).pages == w.pages && Applied(w, id, w.pages[id]).botKnown == w.botKnown
  {
  }

  lemma InStepSame(a: World, b: World, id: int, content: string)
    requires InStep(a, id, content) && SameRow(a, b, id)
    ensures InStep(b, id, content) && a.links[id] == b.links[id]
  {
  }

  /** A page in step stays so through a push. */
  lemma InStepPushed(w: World, r: Run, id: int, content: string)
    requires InStep(AfterCreates(w, r), id, content)
    ensures InStep(AfterRun(w, r), id, content) && AfterRun(w, r).links[id].task == AfterCreates(w, r).links[id].task
  {
    hide AfterCreates;
    UpdatesKeepStep(AfterCreates(w, r), r.updates, r.fates, id, content);
    RelatesKeepStep(AfterUpdates(w, r), r.relates, r.fates, id, content);
  }

  lemma WriteKeepsStep(w: World, other: int, fate: Fate, id: int, content: string)
    requires InStep(w, id, content)
    ensures var u := Updated(w, other, fate); InStep(u, id, content) && u.links[id].task == w.links[id].task
    ensures var u := Related(w, other, fate); InStep(u, id, content) && u.links[id].task == w.links[id].task
  {
  }

  lemma {:induction false} UpdatesKeepStep(w: World, ids: seq<int>, fates: Fates, id: int, content: string)
    requires InStep(w, id, content)
    ensures var u := UpdatedPages(w, ids, fates); InStep(u, id, content) && u.links[id].task == w.links[id].task
  {
    hide Updated;
    if ids == [] {
    } else {
      var n := |ids| - 1;
      UpdatesKeepStep(w, ids[..n], fates, id, content);
      WriteKeepsStep(UpdatedPages(w, ids[..n], fates), ids[n], fates(Update(ids[n])), id, content);
    }
  }

  lemma {:induction false} RelatesKeepStep(w: World, ids: seq<int>, fates: Fates, id: int, content: string)
    requires InStep(w, id, content)
    ensures var u := RelatedPages(w, ids, fates); InStep(u, id, content) && u.links[id].task == w.links[id].task
  {
    hide Related;
    if ids == [] {
    } else {
      var n := |ids| - 1;
      RelatesKeepStep(w, ids[..n], fates, id, content);
      WriteKeepsStep(RelatedPages(w, ids[..n], fates), ids[n], fates(Relate(ids[n])), id, content);
    }
  }

  /** A listed page without a link that somebody else made becomes a new task that says what the page says. */
  lemma RunImports(w: World, r: Run, id: int)
    requires Consistent(w) && Queried(w, r) && id in r.listing && id in w.pages && id !in w.links
    requires !(w.botKnown && w.pages[id].editor == Bot)
    ensures InStep(AfterRun(w, r), id, w.pages[id].content) && AfterRun(w, r).links[id].task.value !in w.tasks
  {
    PullImports(w, r.listing, id);
    var pulled, content := Pulled(w, r.listing), w.pages[id].content;
    ImportedKey(w, pulled, id);
    hide Consistent, Queried, Pulled, ImportedInto, InStep, AfterRun, AfterCreates, IsOwnEdit;
    PulledIsKept(w, r, id, content);
    InStepPushed(w, r, id, content);
  }

  /** What is in step after the pull is so when the push turns to updates. */
  lemma PulledIsKept(w: World, r: Run, id: int, content: string)
    requires Consistent(Pulled(w, r.listing)) && InStep(Pulled(w, r.listing), id, content)
    ensures InStep(AfterCreates(w, r), id, content)
    ensures AfterCreates(w, r).links[id] == Pulled(w, r.listing).links[id]
  {
    var pulled := Pulled(w, r.listing);
    assert Mirrored(pulled, id);
    PageKnown(pulled, id);
    hide Consistent, Pulled, SameRow, InStep, Mirrored, IsReaped, IsTombstone;
    if r.full {
      ReapKeepsRow(pulled, (set other | other in r.listing), r.fates, id);
      InStepSame(pulled, AfterPull(w, r), id, content);
    }
    InStepMirrored(AfterPull(w, r), id, content);
    BurialKeepsRow(AfterPull(w, r), r.fates, id);
    InStepSame(AfterPull(w, r), AfterBurial(w, r), id, content);
    InStepMirrored(AfterBurial(w, r), id, content);
    CreatesKeepRow(AfterBurial(w, r), r.creates, r.fates, id);
    InStepSame(AfterBurial(w, r), AfterCreates(w, r), id, content);
  }

  lemma InStepMirrored(w: World, id: int, content: string)
    requires InStep(w, id, content)
    ensures Mirrored(w, id)
  {
  }

  lemma ImportedKey(w: World, p: World, id: int)
    requires Consistent(w) && ImportedInto(w, p, id)
    ensures InStep(p, id, w.pages[id].content) && p.links[id].task.value !in w.tasks
  {
  }

  /** The page has no link, and is as given. */
  predicate Unlinked(w: World, id: int, page: Page) {
    id !in w.links && id in w.pages && w.pages[id] == page && id < w.nextPage
  }

  lemma {:induction false} PushLeavesUnlinked(
      w: World, creates: seq<int>, updates: seq<int>, relates: seq<int>, fates: Fates, id: int, page: Page)
    requires Unlinked(w, id, page)
    ensures Unlinked(CreatedPages(w, creates, fates), id, page)
    ensures Unlinked(UpdatedPages(w, updates, fates), id, page)
    ensures Unlinked(RelatedPages(w, relates, fates), id, page)
    decreases |creates| + |updates| + |relates|
  {
    hide CreatedPage, Updated, Related, Unlinked;
    if creates != [] {
      var task := creates[|creates| - 1];
      PushLeavesUnlinked(w, creates[..|creates| - 1], [], [], fates, id, page);
      CreateLeavesUnlinked(CreatedPages(w, creates[..|creates| - 1], fates), task, fates(Create(task)), id, page);
    }
    if updates != [] {
      var other := updates[|updates| - 1];
      PushLeavesUnlinked(w, [], updates[..|updates| - 1], [], fates, id, page);
      WriteLeavesUnlinked(UpdatedPages(w, updates[..|updates| - 1], fates), other, fates(Update(other)), id, page);
    }
    if relates != [] {
      var other := relates[|relates| - 1];
      PushLeavesUnlinked(w, [], [], relates[..|relates| - 1], fates, id, page);
      WriteLeavesUnlinked(RelatedPages(w, relates[..|relates| - 1], fates), other, fates(Relate(other)), id, page);
    }
  }

  lemma CreateLeavesUnlinked(w: World, task: int, fate: Fate, id: int, page: Page)
    requires Unlinked(w, id, page)
    ensures Unlinked(CreatedPage(w, task, fate), id, page)
  {
  }

  lemma WriteLeavesUnlinked(w: World, other: int, fate: Fate, id: int, page: Page)
    requires Unlinked(w, id, page)
    ensures Unlinked(Updated(w, other, fate), id, page) && Unlinked(Related(w, other, fate), id, page)
  {
    hide LocalChanged;
  }

  lemma RunLeavesUnlinked(w: World, r: Run, id: int, page: Page)
    requires Unlinked(AfterBurial(w, r), id, page)
    ensures Unlinked(AfterRun(w, r), id, page)
  {
    hide AfterBurial, Unlinked;
    PushLeavesUnlinked(AfterBurial(w, r), r.creates, [], [], r.fates, id, page);
    PushLeavesUnlinked(AfterCreates(w, r), [], r.updates, [], r.fates, id, page);
    PushLeavesUnlinked(AfterUpdates(w, r), [], [], r.relates, r.fates, id, page);
  }

  /** A tombstone, or a page without a link that the known bot edited last: a pull makes no task of it. */
  predicate NotImported(w: World, id: int) {
    && id in w.pages && id < w.nextPage
    && if id in w.links then w.links[id].task.None? else w.botKnown && w.pages[id].editor == Bot
  }

  lemma AppliedNotImported(w: World, id: int, other: int)
    requires NotImported(w, id) && other in w.pages
    ensures var p := Applied(w, other, w.pages[other]);
      NotImported(p, id) && p.pages == w.pages && p.botKnown == w.botKnown && (id in p.links <==> id in w.links)
  {
  }

  lemma {:induction false} PullLeaves(w: World, listing: seq<int>, id: int)
    requires NotImported(w, id)
    ensures var p := Pulled(w, listing);
      NotImported(p, id) && p.pages == w.pages && p.botKnown == w.botKnown && (id in p.links <==> id in w.links)
  {
    hide NotImported, Applied;
    if listing == [] {
    } else {
      var n := |listing| - 1;
      PullLeaves(w, listing[..n], id);
      if listing[n] in w.pages { AppliedNotImported(Pulled(w, listing[..n]), id, listing[n]); }
    }
  }

  lemma BurialLeaves(w: World, r: Run, id: int)
    requires NotImported(w, id)
    ensures var page := w.pages[id];
      Unlinked(AfterBurial(w, r), id,
        if id in w.links && r.fates(Trash(id)) != Refused then page.(trashed := true) else page)
  {
    PullLeaves(w, r.listing, id);
    hide Pulled;
  }

  /**
   * A run drops every tombstone and trashes its page unless that call is refused; and a page of the known
   * bot's that no link keeps is neither imported nor written.
   */
  lemma RunBuries(w: World, r: Run, id: int)
    requires Consistent(w) && id in w.pages
    requires if id in w.links then w.links[id].task.None? else w.botKnown && w.pages[id].editor == Bot
    ensures id !in AfterRun(w, r).links && id in AfterRun(w, r).pages
    ensures AfterRun(w, r).pages[id] == w.pages[id].(
        trashed := w.pages[id].trashed || (id in w.links && r.fates(Trash(id)) != Refused))
  {
    BurialLeaves(w, r, id);
    var page := w.pages[id];
    var left := if id in w.links && r.fates(Trash(id)) != Refused then page.(trashed := true) else page;
    hide AfterBurial, AfterRun, Consistent;
    RunLeavesUnlinked(w, r, id, left);
  }

  lemma {:induction false} CreatesInStep(w: World, tasks: seq<int>, fates: Fates, t: int) returns (id: int)
    requires Consistent(w) && t in tasks && t in w.tasks && fates(Create(t)) == Done
    requires forall u :: u in tasks ==> IsMirrorable(w, u) && !IsLinked(w, u)
    requires forall i, j :: 0 <= i < j < |tasks| ==> tasks[i] != tasks[j]
    ensures var c := CreatedPages(w, tasks, fates);
      InStep(c, id, w.tasks[t].content) && c.links[id].task == Some(t) && id < c.nextPage
  {
    hide IsLinked, InStep, Consistent, SameRow;
    var n := |tasks| - 1;
    assert tasks == tasks[..n] + [tasks[n]];
    var before := CreatedPages(w, tasks[..n], fates);
    if t == tasks[n] {
      assert before.tasks == w.tasks by { PushKeepsTasks(w, tasks[..n], [], [], fates); }
      id := before.nextPage;
      CreatedInStep(before, t);
    } else {
      id := CreatesInStep(w, tasks[..n], fates, t);
      InStepMirrored(before, id, w.tasks[t].content);
      CreateKeepsRow(before, tasks[n], fates(Create(tasks[n])), id);
      InStepSame(before, CreatedPages(w, tasks, fates), id, w.tasks[t].content);
    }
  }

  lemma CreatedInStep(w: World, t: int)
    requires t in w.tasks
    ensures var c := CreatedPage(w, t, Done);
      InStep(c, w.nextPage, w.tasks[t].content) && c.links[w.nextPage].task == Some(t) && c.nextPage == w.nextPage + 1
  {
  }

  lemma CreateKeepsRow(w: World, task: int, fate: Fate, id: int)
    requires Mirrored(w, id) && id < w.nextPage
    ensures SameRow(w, CreatedPage(w, task, fate), id) && id < CreatedPage(w, task, fate).nextPage
  {
  }

  /** A task that no link leads to and that is not VolunHub's. */
  ghost predicate Alone(w: World, t: int) {
    t in w.tasks && t !in w.volunhub && forall id :: id in w.links ==> w.links[id].task != Some(t)
  }

  lemma AppliedAlone(w: World, id: int, t: int)
    requires Consistent(w) && id in w.pages && Alone(w, t)
    ensures var p := Applied(w, id, w.pages[id]); Alone(p, t) && p.tasks[t] == w.tasks[t]
  {
  }

  lemma {:induction false} PulledAlone(w: World, listing: seq<int>, t: int)
    requires Consistent(w) && Alone(w, t)
    ensures var p := Pulled(w, listing); Consistent(p) && Alone(p, t) && p.tasks[t] == w.tasks[t]
  {
    hide Consistent, Applied;
    if listing == [] {
    } else {
      var n := |listing| - 1;
      PulledAlone(w, listing[..n], t);
      var before := Pulled(w, listing[..n]);
      if listing[n] in before.pages {
        AppliedConsistent(before, listing[n]);
        AppliedAlone(before, listing[n], t);
      }
    }
  }

  lemma BuriedAlone(w: World, r: Run, t: int)
    requires Consistent(w) && Alone(w, t)
    ensures var b := AfterBurial(w, r);
      t in b.tasks && b.tasks[t] == w.tasks[t] && IsMirrorable(b, t) && !IsLinked(b, t)
  {
    PulledAlone(w, r.listing, t);
    hide Consistent, Pulled;
  }

  /** A task that is not VolunHub's and has no link gets, when its upload succeeds, a page that says what it says. */
  lemma RunUploads(w: World, r: Run, t: int)
    requires Consistent(w) && Queried(w, r) && r.fates(Create(t)) == Done
    requires t in w.tasks && t !in w.volunhub && forall id :: id in w.links ==> w.links[id].task != Some(t)
    ensures exists id :: InStep(AfterRun(w, r), id, w.tasks[t].content) && AfterRun(w, r).links[id].task == Some(t)
  {
    PullConsistent(w, r);
    BuriedAlone(w, r, t);
    var b := AfterBurial(w, r);
    hide Consistent, AfterBurial, InStep, AfterRun, IsLinked, CreatedPages;
    var id := CreatesInStep(b, r.creates, r.fates, t);
    InStepPushed(w, r, id, b.tasks[t].content);
  }

  lemma PullConsistent(w: World, r: Run)
    requires Consistent(w) && Queried(w, r)
    ensures Consistent(AfterBurial(w, r))
  {
    PulledCalm(w, r.listing);
    hide Consistent, Reaped, Buried, Pulled;
    if r.full { ReapedConsistent(Pulled(w, r.listing), (set id | id in r.listing), r.fates); }
    BuriedConsistent(AfterPull(w, r), r.fates);
  }
}
