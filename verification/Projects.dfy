/**
 * VolunHub projects and the local projects their tasks land in: `integrations/volunhub/projects.py`.
 */
module Projects {
  import opened Options
  import opened Sets

  /** A task's project, and the VolunHub project its link names. */
  datatype TaskRow = TaskRow(project: Option<int>, external: Option<int>)

  datatype ProjectLink = ProjectLink(project: Option<int>, autoCreated: bool, slug: string, name: string)

  /** A project's title: given, or made up from the VolunHub id when neither name nor slug is. */
  datatype Title = Named(name: string) | Numbered(externalId: int)

  datatype Ref = Ref(externalId: int, slug: string, name: string)

  /** `created` remembers which projects the sync itself made. */
  datatype Tables = Tables(
    projects: map<int, Title>, tasks: map<int, TaskRow>, links: map<int, ProjectLink>, nextProject: int,
        created: set<int>)

  ghost predicate Consistent(s: Tables) {
    && (forall p :: p in s.projects ==> p < s.nextProject)
    && (forall t :: t in s.tasks && s.tasks[t].project.Some? ==> s.tasks[t].project.value in s.projects)
    && (forall x :: x in s.links && s.links[x].project.Some? ==> s.links[x].project.value in s.projects)
    && (forall x :: x in s.links && s.links[x].autoCreated && s.links[x].project.Some? ==>
        s.links[x].project.value in s.created)
  }

  // ------------------------------------------------------------------ resolve_project

  function TitleFor(ref: Ref): Title {
    if ref.name != "" then Named(ref.name) else if ref.slug != "" then Named(ref.slug) else Numbered(ref.externalId)
  }

  predicate Renames(ref: Ref, link: ProjectLink) {
    ref.name != "" && ref.name != link.name
  }

  function Known(ref: Ref, link: ProjectLink): ProjectLink {
    link.(name := if ref.name != "" then ref.name else link.name,
          slug := if ref.slug != "" then ref.slug else link.slug)
  }

  /** The tables after the sync has met a reference. */
  function Resolved(s: Tables, ref: Ref): Tables {
    if ref.externalId !in s.links then
      s.(projects := s.projects[s.nextProject := TitleFor(ref)],
         links := s.links[ref.externalId := ProjectLink(Some(s.nextProject), true, ref.slug, ref.name)],
         nextProject := s.nextProject + 1, created := s.created + {s.nextProject})
    else
      var link := s.links[ref.externalId];
      s.(projects := if Renames(ref, link) && link.autoCreated && link.project.Some?
          then s.projects[link.project.value := Named(ref.name)] else s.projects,
         links := s.links[ref.externalId := Known(ref, link)])
  }

  // ------------------------------------------------------------------ merge_project

  /** The tasks a merge is to move out of `previous`. */
  predicate Moves(s: Tables, externalId: int, previous: int, wasAuto: bool, task: int) {
    task in s.tasks && s.tasks[task].project == Some(previous)
        && (wasAuto || s.tasks[task].external == Some(externalId))
  }

  /** Another link goes along when the project that the sync created for `link` is folded. */
  predicate Follows(link: ProjectLink, target: int, other: ProjectLink) {
    link.autoCreated && link.project.Some? && link.project.value != target && other.project == link.project
  }

  function MovedTasks(s: Tables, externalId: int, previous: int, wasAuto: bool, target: int): map<int, TaskRow> {
    map task | task in s.tasks ::
      if Moves(s, externalId, previous, wasAuto, task) then s.tasks[task].(project := Some(target)) else s.tasks[task]
  }

  class Store {
    var projects: map<int, Title>
    var tasks: map<int, TaskRow>
    var links: map<int, ProjectLink>
    var nextProject: int
    ghost var created: set<int>

    ghost function State(): Tables
      reads this
    {
      Tables(projects, tasks, links, nextProject, created)
    }

    /** `resolve_project`; the cache holds what this run has already resolved. */
    method ResolveProject(
        ref: Option<Ref>, cache: map<int, Option<int>>) returns (project: Option<int>, cached: map<int, Option<int>>)
      modifies this
      ensures ref.None? ==> project.None? && State() == old(State()) && cached == cache
      ensures ref.Some? && ref.value.externalId in cache ==>
        project == cache[ref.value.externalId] && State() == old(State()) && cached == cache
      ensures ref.Some? && ref.value.externalId !in cache ==>
        State() == Resolved(old(State()), ref.value) && project == links[ref.value.externalId].project
        && cached == cache[ref.value.externalId := project]
    {
      if ref.None? {
        return None, cache;
      }
      var Ref(id, slug, name) := ref.value;
      if id in cache {
        return cache[id], cache;
      }
      if id !in links {
        var title := if name != "" then Named(name) else if slug != "" then Named(slug) else Numbered(id);
        projects := projects[nextProject := title];
        links := links[id := ProjectLink(Some(nextProject), true, slug, name)];
        created := created + {nextProject};
        nextProject := nextProject + 1;
      } else {
        var link := links[id];
        if (name != "" && name != link.name) || (slug != "" && slug != link.slug) {
          if name != "" && name != link.name && link.autoCreated && link.project.Some? {
            projects := projects[link.project.value := Named(name)];
          }
          links := links[id := link.(name := if name != "" then name else link.name,
                                     slug := if slug != "" then slug else link.slug)];
        }
      }
      project := links[id].project;
      cached := cache[id := project];
    }

    /** One `save` per task. */
    method MoveTasks(externalId: int, from: int, wasAuto: bool, target: int)
      modifies this`tasks
      ensures tasks == MovedTasks(old(State()), externalId, from, wasAuto, target)
    {
      ghost var start := State();
      var pending := set task | task in tasks && tasks[task].project == Some(from)
          && (wasAuto || tasks[task].external == Some(externalId));
      ghost var moving := pending;
      while pending != {}
        invariant pending <= moving && tasks.Keys == start.tasks.Keys
        invariant forall t :: t in tasks ==>
          tasks[t] == if t in moving && t !in pending then start.tasks[t].(project := Some(target)) else start.tasks[t]
        decreases pending
      {
        var task := AnyOf(pending);
        tasks := tasks[task := tasks[task].(project := Some(target))];
        pending := pending - {task};
      }
    }

    /** `merge_project`, one transaction. */
    method MergeProject(externalId: int, target: int)
      requires Consistent(State()) && externalId in links && target in projects
      modifies this
      ensures Consistent(State())
      ensures Folded(old(State()), State(), externalId, target)
    {
      hide Consistent, Folded, MovedTasks;
      ghost var start := State();
      MergedIsFolded(start, externalId, target);
      var previous, wasAuto := links[externalId].project, links[externalId].autoCreated;
      links := links[externalId := links[externalId].(project := Some(target), autoCreated := false)];
      if previous.None? || previous.value == target {
        return;
      }
      var from := previous.value;
      if wasAuto {
        links := map x | x in links ::
          if links[x].project == previous then links[x].(project := Some(target), autoCreated := false) else links[x];
      }
      MovesRegardless(start, State(), externalId, from, wasAuto, target);
      MoveTasks(externalId, from, wasAuto, target);
      if wasAuto && forall t :: t in tasks ==> tasks[t].project != previous {
        projects := projects - {from};
      }
    }
  }

  /** The links after a merge: the link itself, and whatever goes along with it. */
  function MergedLinks(s: Tables, externalId: int, target: int): map<int, ProjectLink>
    requires externalId in s.links
  {
    var link := s.links[externalId];
    var pointed := s.links[externalId := link.(project := Some(target), autoCreated := false)];
    if link.autoCreated && link.project.Some? && link.project.value != target then
      map x | x in pointed ::
        if pointed[x].project == link.project
        then pointed[x].(project := Some(target), autoCreated := false) else pointed[x]
    else pointed
  }

  /** The tables after a merge. */
  function Merged(s: Tables, externalId: int, target: int): Tables
    requires externalId in s.links
  {
    var link := s.links[externalId];
    var after := s.(links := MergedLinks(s, externalId, target));
    if link.project.None? || link.project.value == target then after
    else
      var tasks := MovedTasks(s, externalId, link.project.value, link.autoCreated, target);
      var emptied := link.autoCreated && forall t :: t in tasks ==> tasks[t].project != link.project;
      after.(tasks := tasks, projects := if emptied then s.projects - {link.project.value} else s.projects)
  }

  lemma MovesRegardless(s: Tables, t: Tables, externalId: int, from: int, wasAuto: bool, target: int)
    requires s.tasks == t.tasks
    ensures MovedTasks(s, externalId, from, wasAuto, target) == MovedTasks(t, externalId, from, wasAuto, target)
  {
  }

  lemma MergedIsFolded(s: Tables, externalId: int, target: int)
    requires Consistent(s) && externalId in s.links && target in s.projects
    ensures Consistent(Merged(s, externalId, target)) && Folded(s, Merged(s, externalId, target), externalId, target)
  {
  }

  /**
   * What folding a link into `target` may do.  Every task stays put or moves from the link's old
   * project to the target; from a project the user owned, only the tasks this VolunHub project
   * brought in move.  Only a project the sync created is ever deleted, and then no task and no link
   * points at it.
   */
  ghost predicate Folded(s: Tables, after: Tables, externalId: int, target: int)
    requires externalId in s.links
  {
    var link := s.links[externalId];
    && after.tasks.Keys == s.tasks.Keys && after.links.Keys == s.links.Keys && after.created == s.created
    && (forall t :: t in s.tasks ==>
          after.tasks[t] == if link.project.Some? && s.tasks[t].project == link.project
                               && (link.autoCreated || s.tasks[t].external == Some(externalId))
                            then s.tasks[t].(project := Some(target)) else s.tasks[t])
    && after.links[externalId].project == Some(target) && !after.links[externalId].autoCreated
    && (forall x :: x in s.links && x != externalId ==>
          after.links[x] == if Follows(link, target, s.links[x])
                            then s.links[x].(project := Some(target), autoCreated := false) else s.links[x])
    && (forall p :: p in after.projects ==> p in s.projects && after.projects[p] == s.projects[p])
    && (forall p ::
          (p in s.projects && p !in after.projects) <==> (link.autoCreated && link.project == Some(p) && p != target))
    && (forall p :: p in s.projects && p !in after.projects ==>
          && p in s.created
          && (forall t :: t in after.tasks ==> after.tasks[t].project != Some(p))
          && (forall x :: x in after.links ==> after.links[x].project != Some(p)))
  }

  /** Meeting the same reference again changes nothing, so a merge run twice sees the same project. */
  lemma ResolveIsIdempotent(s: Tables, ref: Ref)
    ensures var once := Resolved(s, ref);
      && ref.externalId in once.links && Resolved(once, ref) == once
  {
    var once := Resolved(s, ref);
    var link := once.links[ref.externalId];
    assert !Renames(ref, link);
    assert Known(ref, link) == link;
    assert once.links[ref.externalId := link] == once.links;
  }

  /**
   * Meeting a reference for the first time makes one project, with the best title there is, and
   * remembers that the sync made it.  Meeting it again brings the link's name and slug up to date, as
   * far as they are given; and the project is renamed exactly if the name is new and the sync made it.
   */
  lemma ResolveMeans(s: Tables, ref: Ref)
    requires Consistent(s)
    ensures var after := Resolved(s, ref);
      && ref.externalId in after.links
      && var link := after.links[ref.externalId];
        if ref.externalId !in s.links then
          && link.project.Some? && link.project.value !in s.projects && link.autoCreated
          && link.name == ref.name && link.slug == ref.slug
          && after.projects.Keys == s.projects.Keys + {link.project.value}
          && (forall p :: p in s.projects ==> after.projects[p] == s.projects[p])
          && after.created == s.created + {link.project.value}
          && (ref.name != "" ==> after.projects[link.project.value] == Named(ref.name))
          && (ref.name == "" != ref.slug ==> after.projects[link.project.value] == Named(ref.slug))
          && (ref.name == "" == ref.slug ==> after.projects[link.project.value] == Numbered(ref.externalId))
        else
          var before := s.links[ref.externalId];
          && link.project == before.project && link.autoCreated == before.autoCreated
          && (ref.name == "" || link.name == ref.name) && (ref.name == "" ==> link.name == before.name)
          && (ref.slug == "" || link.slug == ref.slug) && (ref.slug == "" ==> link.slug == before.slug)
          && after.projects.Keys == s.projects.Keys && after.created == s.created
          && forall p :: p in s.projects ==>
            after.projects[p] ==
              if before.autoCreated && before.project == Some(p) && ref.name !in {"", before.name} then Named(ref.name)
              else s.projects[p]
  {
  }

  /**
   * Meeting a reference moves no task and touches no other link.  It makes a project only on first
   * sight, never for a link whose project the user deleted, and renames only a project that is still
   * the one it made.
   */
  lemma ResolveIsCareful(s: Tables, ref: Ref)
    requires Consistent(s)
    ensures var after := Resolved(s, ref);
      && Consistent(after) && after.tasks == s.tasks
      && (forall x :: x in s.links && x != ref.externalId ==> x in after.links && after.links[x] == s.links[x])
      && (forall p :: p in s.projects ==> p in after.projects)
      && (forall p :: p in after.projects && p !in s.projects ==>
          ref.externalId !in s.links && after.links[ref.externalId].project == Some(p))
      && (forall p :: p in s.projects && after.projects[p] != s.projects[p] ==>
            p in s.created && ref.externalId in s.links && s.links[ref.externalId].autoCreated
                && s.links[ref.externalId].project == Some(p))
      && (ref.externalId in s.links ==> after.links[ref.externalId].project == s.links[ref.externalId].project)
  {
  }
}
