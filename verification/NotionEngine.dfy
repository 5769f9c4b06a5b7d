/**
 * The Notion sync as the source runs it, row by row and call by call; each method is proved to do
 * what the functions of `Notion` and `NotionRun` say.
 */
module NotionEngine {
  import opened Options
  import opened Sets
  import opened Notion
  import opened NotionRun

  /** The world without some links and their tasks. */
  function WithoutRows(w: World, gone: set<int>): World
    requires gone <= w.links.Keys
  {
    var tasks := set id | id in gone :: w.links[id].task;
    w.(tasks := map t | t in w.tasks && Some(t) !in tasks :: w.tasks[t],
       volunhub := (set t | t in w.volunhub && Some(t) !in tasks), links := w.links - gone)
  }

  lemma WithoutOneMore(w: World, gone: set<int>, id: int)
    requires gone <= w.links.Keys && id in w.links && w.links[id].task.Some?
    ensures var before, task := WithoutRows(w, gone), w.links[id].task.value;
      WithoutRows(w, gone + {id})
        == before.(tasks := before.tasks - {task}, volunhub := before.volunhub - {task}, links := before.links - {id})
  {
    var before := set g | g in gone :: w.links[g].task;
    var after := set g | g in gone + {id} :: w.links[g].task;
    assert after == before + {w.links[id].task};
  }

  lemma Candidate(w: World, seen: set<int>, fates: Fates, id: int)
    requires Consistent(w) && id in w.links && id !in seen && w.links[id].task.Some?
    ensures id in w.pages && (IsReaped(w, seen, fates, id) <==> fates(Retrieve(id)) == Done && w.pages[id].trashed)
  {
  }

  lemma AllReaped(w: World, seen: set<int>, fates: Fates, gone: set<int>)
    requires gone <= w.links.Keys && forall id :: id in w.links ==>
      (id in gone <==> id !in seen && w.links[id].task.Some? && IsReaped(w, seen, fates, id))
    ensures WithoutRows(w, gone) == Reaped(w, seen, fates)
  {
    var reaped := set id | id in w.links && IsReaped(w, seen, fates, id);
    assert gone == reaped;
    var tasks := set id | id in gone :: w.links[id].task.value;
    assert forall t :: Some(t) in (set id | id in gone :: w.links[id].task) <==> t in tasks;
  }

  /** Creating a page for a task links no other task. */
  lemma CreatedLinks(w: World, task: int, fate: Fate)
    requires Consistent(w)
    ensures var c := CreatedPage(w, task, fate);
      && c.tasks == w.tasks && c.volunhub == w.volunhub && c.links.Keys >= w.links.Keys && c.nextPage >= w.nextPage
      && forall t :: t != task ==> (IsLinked(c, t) <==> IsLinked(w, t))
  {
    var c := CreatedPage(w, task, fate);
    forall t | t != task && IsLinked(w, t) ensures IsLinked(c, t) {
      var p :| p in w.links && w.links[p].task == Some(t);
      assert p in c.links && c.links[p].task == Some(t);
    }
  }

  /** Uploads after uploads, whatever the cursor says. */
  lemma {:induction false} CreatedMore(w: World, a: seq<int>, b: seq<int>, fates: Fates, cursor: int)
    ensures CreatedPages(w, a + b, fates).(cursor := cursor)
        == CreatedPages(CreatedPages(w, a, fates).(cursor := cursor), b, fates)
  {
    if b == [] {
      assert a + b == a;
    } else {
      var n := |b| - 1;
      CreatedMore(w, a, b[..n], fates, cursor);
      assert (a + b)[..|a + b| - 1] == a + b[..n];
      CreatedAt(CreatedPages(w, a + b[..n], fates), b[n], fates(Create(b[n])), cursor);
      hide CreatedPage;
    }
  }

  lemma CreatedAt(w: World, task: int, fate: Fate, cursor: int)
    ensures CreatedPage(w, task, fate).(cursor := cursor) == CreatedPage(w.(cursor := cursor), task, fate)
  {
  }

  /** A task is linked after the uploads exactly if it was before or its own upload succeeded. */
  lemma {:induction false} UploadsLink(w: World, uploaded: seq<int>, fates: Fates, t: int)
    requires Consistent(w) && Ascending(uploaded) && forall u :: u in uploaded ==> IsMirrorable(w, u) && !IsLinked(w, u)
    ensures var c := CreatedPages(w, uploaded, fates);
      && Consistent(c) && c.tasks == w.tasks && c.volunhub == w.volunhub
      && (IsLinked(c, t) <==> IsLinked(w, t) || (t in uploaded && fates(Create(t)) == Done))
    decreases |uploaded|
  {
    hide Consistent, IsLinked, CreatedPage;
    if uploaded == [] {
    } else {
      var n := |uploaded| - 1;
      var last := uploaded[n];
      assert uploaded == uploaded[..n] + [last];
      UploadsLink(w, uploaded[..n], fates, t);
      UploadsLink(w, uploaded[..n], fates, last);
      assert last !in uploaded[..n];
      var before := CreatedPages(w, uploaded[..n], fates);
      CreatedConsistent(before, last, fates(Create(last)));
      CreatedLinks(before, last, fates(Create(last)));
      UploadLinks(before, last, fates(Create(last)));
    }
  }

  lemma UploadLinks(w: World, task: int, fate: Fate)
    requires task in w.tasks && !IsLinked(w, task)
    ensures IsLinked(CreatedPage(w, task, fate), task) <==> fate == Done
  {
    if fate == Done { assert CreatedPage(w, task, fate).links[w.nextPage].task == Some(task); }
  }

  lemma {:induction false} RelatesKeepLinks(w: World, ids: seq<int>, fates: Fates)
    ensures var r := RelatedPages(w, ids, fates);
      r.tasks == w.tasks && r.volunhub == w.volunhub && r.links.Keys == w.links.Keys
      && (forall t :: IsLinked(r, t) <==> IsLinked(w, t))
  {
    if ids == [] {
    } else {
      var before := RelatedPages(w, ids[..|ids| - 1], fates);
      RelatesKeepLinks(w, ids[..|ids| - 1], fates);
      LinksKept(before, RelatedPages(w, ids, fates));
    }
  }

  /** A bootstrap leaves no mirrorable task after its first cursor unlinked, except where an upload failed. */
  lemma BootstrapLinks(w: World, from: int, to: int, uploaded: seq<int>, relates: seq<int>, fates: Fates)
    requires Consistent(w) && AllUploaded(w, from, to, uploaded)
    requires forall t :: IsMirrorable(w, t) && t > from ==> t <= to
    ensures var after := RelatedPages(CreatedPages(w, uploaded, fates).(cursor := to), relates, fates);
      forall t :: IsMirrorable(after, t) && t > from ==> IsLinked(after, t) || fates(Create(t)) != Done
  {
    var created := CreatedPages(w, uploaded, fates);
    RelatesKeepLinks(created.(cursor := to), relates, fates);
    CursorApart(created, to);
    forall t | IsMirrorable(RelatedPages(created.(cursor := to), relates, fates), t) && t > from
        && fates(Create(t)) == Done
      ensures IsLinked(created, t)
    {
      UploadsLink(w, uploaded, fates, t);
      assert IsMirrorable(w, t);
    }
  }

  lemma CursorApart(w: World, cursor: int)
    ensures Consistent(w) ==> Consistent(w.(cursor := cursor))
    ensures forall t :: IsLinked(w.(cursor := cursor), t) <==> IsLinked(w, t)
  {
  }

  lemma FewerAhead(w: World, from: int, to: int)
    requires from < to && to in w.tasks
    ensures (set t | t in w.tasks && t > to) < (set t | t in w.tasks && t > from)
  {
    var less, more := (set t | t in w.tasks && t > to), (set t | t in w.tasks && t > from);
    assert to in more && to !in less;
    assert less <= more;
    assert less != more;
  }

  lemma NothingUploaded(w: World, fates: Fates)
    ensures w == CreatedPages(w, [], fates).(cursor := w.cursor) && AllUploaded(w, w.cursor, w.cursor, [])
    ensures w == CreatedPages(w, WithoutLinks(w, []), fates)
  {
  }

  /** The tasks of a batch that have no link yet. */
  function WithoutLinks(w: World, batch: seq<int>): seq<int> {
    if batch == [] then []
    else
      var t := batch[|batch| - 1];
      WithoutLinks(w, batch[..|batch| - 1]) + if IsLinked(w, t) then [] else [t]
  }

  function UploadedOne(w: World, task: int, fate: Fate): World {
    if IsLinked(w, task) then w else CreatedPage(w, task, fate)
  }

  /** The uploads of the tasks after one cursor, up to another. */
  ghost predicate AllUploaded(w: World, from: int, to: int, uploaded: seq<int>) {
    Ascending(uploaded) && forall t :: t in uploaded <==> IsMirrorable(w, t) && from < t <= to && !IsLinked(w, t)
  }

  lemma {:induction false} WithoutLinksAre(w: World, batch: seq<int>)
    requires Ascending(batch)
    ensures Ascending(WithoutLinks(w, batch))
    ensures forall t :: t in WithoutLinks(w, batch) <==> t in batch && !IsLinked(w, t)
  {
    hide IsLinked;
    if batch == [] {
    } else {
      var n := |batch| - 1;
      WithoutLinksAre(w, batch[..n]);
      assert batch == batch[..n] + [batch[n]];
      assert forall t :: t in batch[..n] ==> t < batch[n];
      AscendingMore(WithoutLinks(w, batch[..n]), if IsLinked(w, batch[n]) then [] else [batch[n]]);
    }
  }

  lemma AscendingMore(a: seq<int>, b: seq<int>)
    requires Ascending(a) && Ascending(b) && forall x, y :: x in a && y in b ==> x < y
    ensures Ascending(a + b)
  {
    var c := a + b;
    forall i, j | 0 <= i < j < |c| ensures c[i] < c[j] {
      if i < |a| <= j { assert a[i] in a && b[j - |a|] in b; }
    }
  }

  /** Another batch extends the uploads up to its last task. */
  lemma BatchUploaded(w: World, v: World, from: int, to: int, uploaded: seq<int>, batch: seq<int>)
    requires AllUploaded(w, from, to, uploaded) && from <= to && Ascending(batch) && batch != []
    requires w.tasks == v.tasks && w.volunhub == v.volunhub && forall t :: t > to ==>
        (IsLinked(v, t) <==> IsLinked(w, t))
    requires forall t :: t in batch ==> IsMirrorable(v, t) && t > to
    requires forall t :: IsMirrorable(v, t) && to < t < batch[|batch| - 1] ==> t in batch
    ensures AllUploaded(w, from, batch[|batch| - 1], uploaded + WithoutLinks(v, batch))
  {
    hide IsLinked, IsMirrorable, WithoutLinks;
    WithoutLinksAre(v, batch);
    var more, last := WithoutLinks(v, batch), batch[|batch| - 1];
    assert last in batch && forall t :: t in batch ==> t <= last;
    AscendingMore(uploaded, more);
    assert forall t :: IsMirrorable(v, t) <==> IsMirrorable(w, t) by { SameMirrorable(w, v); }
    forall t ensures t in uploaded + more <==> IsMirrorable(w, t) && from < t <= last && !IsLinked(w, t) {
      if t > to { assert t in batch <==> IsMirrorable(w, t) && t <= last; }
    }
  }

  lemma SameMirrorable(w: World, v: World)
    requires w.tasks == v.tasks && w.volunhub == v.volunhub
    ensures forall t :: IsMirrorable(v, t) <==> IsMirrorable(w, t)
  {
  }

  /** One more turn of the batch's loop. */
  lemma UploadedOneMore(w: World, batch: seq<int>, i: nat, fates: Fates)
    requires i < |batch| && Ascending(batch)
    requires IsLinked(CreatedPages(w, WithoutLinks(w, batch[..i]), fates), batch[i]) <==> IsLinked(w, batch[i])
    ensures CreatedPages(w, WithoutLinks(w, batch[..i + 1]), fates)
      == UploadedOne(CreatedPages(w, WithoutLinks(w, batch[..i]), fates), batch[i], fates(Create(batch[i])))
  {
    hide IsLinked, CreatedPage;
    assert batch[..i + 1][..i] == batch[..i];
    var before := WithoutLinks(w, batch[..i]);
    assert batch[..i + 1][i] == batch[i] && before + [] == before;
    assert (before + [batch[i]])[..|before|] == before;
  }

  /** Some tombstones are dropped, and the pages of those whose call took effect trashed. */
  function BuriedSome(w: World, ids: set<int>, fates: Fates): World {
    w.(pages := map p | p in w.pages ::
         if p in ids && fates(Trash(p)) != Refused then w.pages[p].(trashed := true) else w.pages[p],
       links := w.links - ids)
  }

  lemma TaskIsThere(w: World, id: int)
    requires Consistent(w) && id in w.links && w.links[id].task.Some?
    ensures TaskOf(w, w.links[id]).Some?
  {
  }

  lemma PagesOfLinks(w: World)
    requires Consistent(w)
    ensures forall id :: id in w.links ==> id in w.pages
  {
  }

  lemma NoneBuried(w: World, fates: Fates)
    ensures BuriedSome(w, {}, fates) == w
  {
  }

  lemma BuriedOneMore(w: World, ids: set<int>, id: int, fates: Fates)
    requires id in w.pages
    ensures var before := BuriedSome(w, ids, fates);
      && id in before.pages
      && BuriedSome(w, ids + {id}, fates)
        == before.(pages := if fates(Trash(id)) != Refused
            then before.pages[id := before.pages[id].(trashed := true)] else before.pages,
                   links := before.links - {id})
  {
  }

  lemma AllBuried(w: World, ids: set<int>, fates: Fates)
    requires forall id :: id in ids <==> IsTombstone(w, id)
    ensures BuriedSome(w, ids, fates) == Buried(w, fates)
  {
  }

  datatype BootstrapState = Pending | Running | Finished

  datatype Status = Active | Unprovisioned | NeedsReauth | SchemaDrift

  /** Why a run breaks off: the schema has drifted, the authorisation is lost, or Notion cannot be reached. */
  datatype Cause = Drift | Auth | Outage

  /** Where it does, if at all: before anything is done, or after some pages of the query. */
  datatype Break = Completes | AtStart(cause: Cause) | InQuery(cause: Cause)

  function StatusAfter(status: Status, cause: Cause): Status {
    match cause
    case Drift => SchemaDrift
    case Auth => NeedsReauth
    case Outage => status
  }

  /** The database and, behind the client, Notion. */
  class Database {
    const botKnown: bool
    var tasks: map<int, Task>
    var volunhub: set<int>
    var links: map<int, Link>
    var cursor: int
    var pages: map<int, Page>
    var clock: int
    var notionClock: int
    var nextTask: int
    var nextLink: int
    var nextPage: int
    var bootstrapState: BootstrapState
    var pullWatermark: Option<int>
    var status: Status

    function Here(): World
      reads this
    {
      World(botKnown, tasks, volunhub, links, cursor, pages, clock, notionClock, nextTask, nextLink, nextPage)
    }

    // ---------------------------------------------------------------- rows

    /** `_stamp`. */
    method Stamp(page: int, edited: int, changed: Option<int>)
      requires page in links
      modifies this`links
      ensures Here() == Stamped(old(Here()), page, edited, changed)
    {
      var link := links[page];
      link := link.(remote := Some(edited));
      if changed.Some? { link := link.(local := changed); }
      links := links[page := link];
    }

    /** `save` of a new or changed task: `changed_date` is `auto_now`. */
    method SaveTask(task: int, content: string)
      modifies this`tasks, this`clock
      ensures Here() == old(Here()).(tasks := old(tasks)[task := Task(old(clock) + 1, content)],
          clock := old(clock) + 1)
    {
      clock := clock + 1;
      tasks := tasks[task := Task(clock, content)];
    }

    /** `NotionTaskLink.objects.create`, under its unique constraints. */
    method CreateLink(task: int, page: int)
      requires task in tasks && page !in links && !IsLinked(Here(), task)
      modifies this`links, this`nextLink
      ensures Here() == WithLink(old(Here()), task, page)
    {
      links := links[page := Link(nextLink, Some(task), None, None)];
      nextLink := nextLink + 1;
    }

    // ---------------------------------------------------------------- pull

    /** `_create_task_from_page`. */
    method CreateTaskFromPage(id: int, page: Page)
      requires Consistent(Here()) && id !in links
      modifies this`tasks, this`clock, this`nextTask, this`links, this`nextLink
      ensures Here() == Imported(old(Here()), id, page)
    {
      var task := nextTask;
      nextTask := nextTask + 1;
      SaveTask(task, page.content);
      CreateLink(task, id);
      Stamp(id, LastEdited(page), Some(tasks[task].changed));
    }

    /** `_apply_page`. */
    method ApplyPage(id: int, page: Page)
      requires Consistent(Here())
      modifies this`tasks, this`clock, this`nextTask, this`links, this`nextLink
      ensures Here() == Applied(old(Here()), id, page)
    {
      if id !in links {
        if !IsOwnEdit(Here(), page) { CreateTaskFromPage(id, page); }
        return;
      }
      var link := links[id];
      if link.task.None? { return; }
      if IsOwnEdit(Here(), page) {
        Stamp(id, LastEdited(page), None);
        return;
      }
      var task := tasks[link.task.value];
      if !RemoteChanged(link, page) { return; }
      if LocalChanged(link, task) && OrganizerWins(task.changed, LastEdited(page)) { return; }
      if task.content != page.content { SaveTask(link.task.value, page.content); }
      Stamp(id, LastEdited(page), Some(tasks[link.task.value].changed));
    }

    /** `_reap_missing_pages`. */
    method ReapMissingPages(seen: set<int>, fates: Fates)
      requires Consistent(Here())
      modifies this`tasks, this`volunhub, this`links
      ensures Here() == Reaped(old(Here()), seen, fates)
    {
      ghost var w := Here();
      var candidates := set id | id in links && id !in seen && links[id].task.Some?;
      var pending := candidates;
      ghost var gone: set<int> := {};
      hide Consistent, IsReaped;
      while pending != {}
        invariant pending <= candidates && gone <= candidates - pending
        invariant forall id :: id in candidates && id !in pending ==> (id in gone <==> IsReaped(w, seen, fates, id))
        invariant Here() == WithoutRows(w, gone)
        decreases pending
      {
        var id := AnyOf(pending);
        pending := pending - {id};
        Candidate(w, seen, fates, id);
        if fates(Retrieve(id)) == Done && pages[id].trashed {
          WithoutOneMore(w, gone, id);
          gone := gone + {id};
          var task := links[id].task.value;
          tasks, volunhub := tasks - {task}, volunhub - {task};
          links := links - {id};
        }
      }
      AllReaped(w, seen, fates, gone);
    }

    /** The pages of a query, one after the other. */
    method ApplyPages(listing: seq<int>)
      requires Consistent(Here()) && forall id :: id in listing ==> id in pages
      modifies this`tasks, this`clock, this`nextTask, this`links, this`nextLink
      ensures Here() == Pulled(old(Here()), listing) && Consistent(Here())
    {
      ghost var w := Here();
      for i := 0 to |listing|
        invariant Here() == Pulled(w, listing[..i]) && Consistent(Here()) && pages == w.pages
      {
        assert listing[..i + 1][..i] == listing[..i];
        assert listing[i] in listing;
        AppliedConsistent(Here(), listing[i]);
        hide Consistent, Applied;
        ApplyPage(listing[i], pages[listing[i]]);
      }
      assert listing[..|listing|] == listing;
    }

    /** `_pull`; a query that breaks off leaves the pages before it applied and the watermark where it was. */
    method Pull(full: bool, listing: seq<int>, breaks: bool, fates: Fates)
      requires Consistent(Here()) && forall id :: id in listing ==> id in pages
      modifies this`tasks, this`volunhub, this`clock, this`nextTask, this`links, this`nextLink, this`pullWatermark
      ensures Here() == if full && !breaks then Reaped(Pulled(old(Here()), listing), (set id | id in listing), fates)
                        else Pulled(old(Here()), listing)
      ensures pullWatermark == if breaks then old(pullWatermark) else Some(old(clock))
      ensures Consistent(Here())
    {
      var startedAt := clock;
      hide Consistent, Pulled, Reaped;
      ApplyPages(listing);
      if breaks {
        return;
      }
      if full {
        var seen := set id | id in listing;
        ReapedConsistent(Here(), seen, fates);
        ReapMissingPages(seen, fates);
      }
      pullWatermark := Some(startedAt);
    }

    // ---------------------------------------------------------------- push

    /** The page is trashed, unless that fails, and the tombstone dropped in any case. */
    method Bury(id: int, fate: Fate)
      requires id in pages
      modifies this`pages, this`links
      ensures pages == if fate != Refused then old(pages)[id := old(pages)[id].(trashed := true)] else old(pages)
      ensures links == old(links) - {id}
    {
      if fate != Refused {
        pages := pages[id := pages[id].(trashed := true)];
      }
      links := links - {id};
    }

    /** Push, first part. */
    method BuryTombstones(fates: Fates)
      requires Consistent(Here())
      modifies this`pages, this`links
      ensures Here() == Buried(old(Here()), fates) && Consistent(Here())
    {
      hide Consistent, Buried, BuriedSome;
      ghost var w := Here();
      BuriedConsistent(w, fates);
      var tombstones := set id | id in links && links[id].task.None?;
      PagesOfLinks(w);
      var pending := tombstones;
      NoneBuried(w, fates);
      assert tombstones - pending == {};
      while pending != {}
        invariant pending <= tombstones && Here() == BuriedSome(w, tombstones - pending, fates)
        decreases pending
      {
        var id := AnyOf(pending);
        BuriedOneMore(w, tombstones - pending, id, fates);
        assert tombstones - (pending - {id}) == (tombstones - pending) + {id};
        pending := pending - {id};
        Bury(id, fates(Trash(id)));
      }
      assert tombstones - pending == tombstones;
      AllBuried(w, tombstones, fates);
    }

    /** `_create_page`. */
    method CreatePage(task: int, fate: Fate) returns (page: Option<int>)
      requires Consistent(Here()) && IsMirrorable(Here(), task) && !IsLinked(Here(), task)
      modifies this`pages, this`nextPage, this`links, this`nextLink
      ensures Here() == CreatedPage(old(Here()), task, fate) && Consistent(Here())
      ensures page == if fate == Done then Some(old(nextPage)) else None
      ensures page.Some? ==> page.value in links
    {
      CreatedConsistent(Here(), task, fate);
      page := None;
      if fate != Refused {
        var id := nextPage;
        pages := pages[id := Page(tasks[task].content, notionClock, Bot, false)];
        nextPage := nextPage + 1;
        if fate == Done {
          CreateLink(task, id);
          Stamp(id, LastEdited(pages[id]), Some(tasks[task].changed));
          page := Some(id);
        }
      }
    }

    /** Push, second part: the unlinked tasks, in the order of their keys. */
    method CreatePages(fates: Fates) returns (creates: seq<int>, created: seq<int>)
      requires Consistent(Here())
      modifies this`pages, this`nextPage, this`links, this`nextLink
      ensures Ascending(creates)
      ensures forall t :: t in creates <==> IsMirrorable(old(Here()), t) && !IsLinked(old(Here()), t)
      ensures Here() == CreatedPages(old(Here()), creates, fates) && Consistent(Here())
      ensures forall i :: 0 <= i < |created| ==> created[i] in links && created[i] !in old(links)
    {
      ghost var w := Here();
      creates := InOrder((set t | t in tasks && IsMirrorable(Here(), t) && !IsLinked(Here(), t)), None);
      created := [];
      for i := 0 to |creates|
        invariant Here() == CreatedPages(w, creates[..i], fates) && Consistent(Here())
        invariant tasks == w.tasks && volunhub == w.volunhub && nextPage >= w.nextPage
        invariant forall j :: i <= j < |creates| ==> !IsLinked(Here(), creates[j])
        invariant forall j :: 0 <= j < |created| ==> created[j] in links && created[j] >= w.nextPage
      {
        assert creates[..i + 1][..i] == creates[..i];
        assert creates[i] in creates;
        CreatedLinks(Here(), creates[i], fates(Create(creates[i])));
        var page := CreatePage(creates[i], fates(Create(creates[i])));
        if page.Some? { created := created + [page.value]; }
      }
      assert creates[..|creates|] == creates;
    }

    /** `update_page`. */
    method UpdatePage(id: int, content: string, fate: Fate) returns (reply: Option<int>)
      modifies this`pages
      ensures var sent := WriteFate(old(Here()), id, fate);
        && Here() == (if sent == Refused then old(Here()) else WithPage(old(Here()), id, content, Bot))
        && reply == if sent == Done then Some(Floor(notionClock)) else None
    {
      reply := None;
      if IsLive(Here(), id) && fate != Refused {
        pages := pages[id := Page(content, notionClock, Bot, false)];
        if fate == Done { reply := Some(LastEdited(pages[id])); }
      }
    }

    /** One turn of the third loop, on the rows as its query returned them. */
    method UpdateLink(id: int, link: Link, task: Task, fate: Fate)
      requires Consistent(Here()) && id in links && link == links[id] && TaskOf(Here(), link) == Some(task)
      modifies this`pages, this`links
      ensures Here() == Updated(old(Here()), id, fate) && Consistent(Here())
      ensures links.Keys == old(links.Keys) && forall other :: other in links && other != id ==>
          links[other] == old(links)[other]
    {
      UpdatedConsistent(Here(), id, fate);
      hide Consistent;
      if link.local.None? || task.changed > link.local.value {
        var reply := UpdatePage(id, task.content, fate);
        if reply.Some? { Stamp(id, reply.value, Some(task.changed)); }
      }
    }

    /** Push, third part: the links and their tasks are read once, before the loop. */
    method UpdatePages(fates: Fates) returns (updates: seq<int>)
      requires Consistent(Here())
      modifies this`pages, this`links
      ensures forall id :: id in updates <==> id in old(links) && old(links)[id].task.Some?
      ensures Here() == UpdatedPages(old(Here()), updates, fates) && Consistent(Here()) && links.Keys == old(links.Keys)
    {
      ghost var w := Here();
      var known := links;
      updates := InOrder((set id | id in links && links[id].task.Some?), None);
      assert forall id :: id in known && known[id].task.Some? ==> known[id].task.value in tasks;
      hide Consistent, Updated;
      for i := 0 to |updates|
        invariant Here() == UpdatedPages(w, updates[..i], fates) && Consistent(Here())
        invariant links.Keys == known.Keys && forall j :: i <= j < |updates| ==> links[updates[j]] == known[updates[j]]
      {
        assert updates[..i + 1][..i] == updates[..i];
        UpdateLink(updates[i], known[updates[i]], tasks[known[updates[i]].task.value], fates(Update(updates[i])));
      }
      assert updates[..|updates|] == updates;
    }

    /** One turn of the loop of `_link_parents`. */
    method RelateLink(id: int, fate: Fate)
      requires Consistent(Here()) && id in links && TaskOf(Here(), links[id]).Some?
      modifies this`pages, this`links
      ensures Here() == Related(old(Here()), id, fate) && Consistent(Here()) && links.Keys == old(links.Keys)
    {
      UpdatedConsistent(Here(), id, fate);
      PagesOfLinks(Here());
      hide Consistent;
      var task := tasks[links[id].task.value];
      var reply := UpdatePage(id, pages[id].content, fate);
      if reply.Some? { Stamp(id, reply.value, Some(task.changed)); }
    }

    /** `_link_parents`: `children` are the tasks that have a mirrored parent. */
    method LinkParents(created: seq<int>, children: set<int>, fates: Fates) returns (relates: seq<int>)
      requires Consistent(Here()) && forall i :: 0 <= i < |created| ==> created[i] in links
      modifies this`pages, this`links
      ensures forall i :: 0 <= i < |relates| ==> relates[i] in created
      ensures Here() == RelatedPages(old(Here()), relates, fates) && Consistent(Here())
    {
      ghost var w := Here();
      relates := [];
      hide Consistent, Related;
      for i := 0 to |created|
        invariant Here() == RelatedPages(w, relates, fates) && Consistent(Here()) && links.Keys == w.links.Keys
        invariant forall j :: 0 <= j < |relates| ==> relates[j] in created
      {
        var id := created[i];
        var link := links[id];
        if link.task.Some? && link.task.value in children {
          TaskIsThere(Here(), id);
          RelateLink(id, fates(Relate(id)));
          assert (relates + [id])[..|relates|] == relates;
          relates := relates + [id];
        }
      }
    }

    /** `_push`. */
    method Push(children: set<int>, fates: Fates) returns (creates: seq<int>, updates: seq<int>, relates: seq<int>)
      requires Consistent(Here())
      modifies this`links, this`nextLink, this`pages, this`nextPage
      ensures var buried := Buried(old(Here()), fates);
        var created := CreatedPages(buried, creates, fates);
        && Ascending(creates) && (forall t :: t in creates <==> IsMirrorable(buried, t) && !IsLinked(buried, t))
        && (forall id :: id in updates <==> id in created.links && created.links[id].task.Some?)
        && (forall i :: 0 <= i < |relates| ==> relates[i] in created.links && relates[i] !in buried.links)
        && Here() == RelatedPages(UpdatedPages(created, updates, fates), relates, fates)
      ensures Consistent(Here())
    {
      hide Consistent, Buried, IsMirrorable, IsLinked, CreatedPages, UpdatedPages, RelatedPages;
      BuryTombstones(fates);
      var created: seq<int>;
      creates, created := CreatePages(fates);
      updates := UpdatePages(fates);
      relates := LinkParents(created, children, fates);
    }

    method UploadTask(task: int, fate: Fate) returns (page: Option<int>)
      requires Consistent(Here()) && IsMirrorable(Here(), task)
      modifies this`links, this`nextLink, this`pages, this`nextPage
      ensures Here() == UploadedOne(old(Here()), task, fate) && Consistent(Here())
      ensures forall t :: t != task ==> (IsLinked(Here(), t) <==> IsLinked(old(Here()), t))
      ensures links.Keys >= old(links.Keys) && (page.Some? ==> page.value in links)
    {
      hide CreatedPage, Consistent, IsLinked;
      page := None;
      if !IsLinked(Here(), task) {
        CreatedLinks(Here(), task, fate);
        page := CreatePage(task, fate);
      }
    }

    /** One batch: a task without a link is uploaded, and the cursor saved after the last. */
    method UploadBatch(batch: seq<int>, fates: Fates) returns (created: seq<int>)
      requires Consistent(Here()) && batch != [] && Ascending(batch)
      requires forall i :: 0 <= i < |batch| ==> IsMirrorable(Here(), batch[i])
      modifies this`links, this`nextLink, this`pages, this`nextPage, this`cursor
      ensures Here() == CreatedPages(old(Here()), WithoutLinks(old(Here()), batch),
          fates).(cursor := batch[|batch| - 1])
      ensures Consistent(Here())
      ensures forall t :: t !in batch ==> (IsLinked(Here(), t) <==> IsLinked(old(Here()), t))
      ensures links.Keys >= old(links.Keys) && forall i :: 0 <= i < |created| ==> created[i] in links
    {
      ghost var w := Here();
      var at := cursor;
      created := [];
      hide CreatedPages, UploadedOne, WithoutLinks, Consistent, IsLinked;
      NothingUploaded(w, fates);
      for i := 0 to |batch|
        invariant Here() == CreatedPages(w, WithoutLinks(w, batch[..i]), fates) && Consistent(Here())
        invariant forall t :: t !in batch[..i] ==> (IsLinked(Here(), t) <==> IsLinked(w, t))
        invariant i > 0 ==> at == batch[i - 1]
        invariant links.Keys >= w.links.Keys && forall j :: 0 <= j < |created| ==> created[j] in links
      {
        at := batch[i];
        assert batch[..i + 1] == batch[..i] + [at];
        assert at !in batch[..i];
        UploadedOneMore(w, batch, i, fates);
        var page := UploadTask(at, fates(Create(at)));
        if page.Some? { created := created + [page.value]; }
      }
      assert batch[..|batch|] == batch;
      CursorApart(Here(), at);
      cursor := at;
    }

    /** The loop of `bootstrap`: batches until none is left after the cursor. */
    method UploadAll(fates: Fates) returns (ghost uploaded: seq<int>, created: seq<int>)
      requires Consistent(Here())
      modifies this`links, this`nextLink, this`pages, this`nextPage, this`cursor
      ensures Here() == CreatedPages(old(Here()), uploaded, fates).(cursor := cursor) && Consistent(Here())
      ensures cursor >= old(cursor) && AllUploaded(old(Here()), old(cursor), cursor, uploaded)
      ensures forall t :: IsMirrorable(old(Here()), t) && t > old(cursor) ==> t <= cursor
      ensures forall i :: 0 <= i < |created| ==> created[i] in links
    {
      ghost var w := Here();
      uploaded, created := [], [];
      hide CreatedPages, Consistent, IsLinked, WithoutLinks, AllUploaded;
      NothingUploaded(w, fates);
      while true
        invariant Here() == CreatedPages(w, uploaded, fates).(cursor := cursor) && Consistent(Here())
        invariant cursor >= w.cursor && AllUploaded(w, w.cursor, cursor, uploaded)
        invariant forall t :: t > cursor ==> (IsLinked(Here(), t) <==> IsLinked(w, t))
        invariant forall i :: 0 <= i < |created| ==> created[i] in links
        decreases set t | t in tasks && t > cursor
      {
        var batch := InOrder((set t | t in tasks && IsMirrorable(Here(), t) && t > cursor), Some(BOOTSTRAP_BATCH));
        if batch == [] { break; }
        ghost var before, from := Here(), cursor;
        var pages' := UploadBatch(batch, fates);
        FewerAhead(before, from, batch[|batch| - 1]);
        BatchUploaded(w, before, w.cursor, from, uploaded, batch);
        CreatedMore(w, uploaded, WithoutLinks(before, batch), fates, from);
        uploaded := uploaded + WithoutLinks(before, batch);
        created := created + pages';
      }
    }

    /**
     * `bootstrap`, in one sitting: every mirrorable task after the cursor is uploaded once, in the
     * order of the keys, unless it has a link; and the loop ends.
     */
    method Bootstrap(children: set<int>, fates: Fates) returns (ghost uploaded: seq<int>, relates: seq<int>)
      requires Consistent(Here())
      modifies this`links, this`nextLink, this`pages, this`nextPage, this`cursor
      modifies this`bootstrapState, this`pullWatermark, this`status
      ensures bootstrapState == Finished && pullWatermark == Some(clock) && status == Active
      ensures AllUploaded(old(Here()), old(cursor), cursor, uploaded)
      ensures forall t :: IsMirrorable(Here(), t) && t > old(cursor) ==> IsLinked(Here(), t) || fates(Create(t)) != Done
      ensures Here() == RelatedPages(CreatedPages(old(Here()), uploaded, fates).(cursor := cursor), relates, fates)
      ensures Consistent(Here()) && cursor >= old(cursor)
    {
      ghost var w := Here();
      hide CreatedPages, RelatedPages, Consistent, IsLinked, IsMirrorable, AllUploaded;
      bootstrapState := Running;
      var created: seq<int>;
      uploaded, created := UploadAll(fates);
      relates := LinkParents(created, children, fates);
      BootstrapLinks(w, w.cursor, cursor, uploaded, relates, fates);
      bootstrapState, pullWatermark, status := Finished, Some(clock), Active;
    }

    // ---------------------------------------------------------------- one run

    /**
     * `sync_connection`: a bootstrap if there has been none, else `_pull` and `_push`.  What the
     * queries of a run returned is in `r`; a run that breaks off says so in the status.
     */
    method SyncConnection(breaks: Break, full: bool, listing: seq<int>, children: set<int>, fates: Fates)
        returns (r: Option<Run>, ghost uploaded: seq<int>, relates: seq<int>)
      requires Consistent(Here())
      requires forall id :: id in listing ==> IsLive(Here(), id)
      requires full && breaks.Completes? ==> forall id :: IsLive(Here(), id) ==> id in listing
      modifies this
      ensures Consistent(Here())
      ensures breaks.AtStart? ==>
        && Here() == old(Here()) && bootstrapState == old(bootstrapState)
        && pullWatermark == old(pullWatermark) && status == StatusAfter(old(status), breaks.cause)
      ensures !breaks.AtStart? && old(bootstrapState) != Finished ==>
        && bootstrapState == Finished && pullWatermark == Some(clock) && status == Active && r.None?
        && AllUploaded(old(Here()), old(cursor), cursor, uploaded)
        && Here() == RelatedPages(CreatedPages(old(Here()), uploaded, fates).(cursor := cursor), relates, fates)
      ensures breaks.InQuery? && old(bootstrapState) == Finished ==>
        && Here() == Pulled(old(Here()), listing) && bootstrapState == Finished && pullWatermark == old(pullWatermark)
        && status == StatusAfter(old(status), breaks.cause)
      ensures breaks.AtStart? || (breaks.InQuery? && old(bootstrapState) == Finished) ==>
        && (breaks.cause == Auth ==> status == NeedsReauth) && (breaks.cause == Drift ==> status == SchemaDrift)
        && (breaks.cause == Outage ==> status == old(status))
      ensures breaks.Completes? && old(bootstrapState) == Finished ==>
        && bootstrapState == Finished && pullWatermark == Some(old(clock)) && status == Active
        && r.Some? && r.value.full == full && r.value.listing == listing && r.value.fates == fates
        && Queried(old(Here()), r.value) && Here() == AfterRun(old(Here()), r.value)
    {
      hide Consistent, Pulled, Reaped, Buried, IsMirrorable, IsLinked, CreatedPages, UpdatedPages, RelatedPages,
          AllUploaded;
      r, uploaded, relates := None, [], [];
      if breaks.AtStart? {
        status := StatusAfter(status, breaks.cause);
        return;
      }
      if bootstrapState != Finished {
        uploaded, relates := Bootstrap(children, fates);
        return;
      }
      Pull(full, listing, breaks.InQuery?, fates);
      if breaks.InQuery? {
        status := StatusAfter(status, breaks.cause);
        return;
      }
      var creates, updates, related := Push(children, fates);
      status := Active;
      r := Some(Run(0, 0, full, listing, creates, updates, related, fates));
    }
  }
}
