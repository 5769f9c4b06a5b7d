/**
 * What a merge means, that it is a fixpoint, and that neither crashes nor failed calls change where
 * it ends.
 */
module MergeTheorems {
  import opened Options
  import opened Workflow
  import opened ThreeWayMerge

  // ------------------------------------------------------------------ an undisturbed merge, field by field

  /** One field of the snapshot, of VolunHub's task and of the local task. */
  datatype Triple<T> = Triple(base: Option<T>, remote: T, local: T)

  function Settle<T(==)>(t: Triple<T>, missing: T, canPush: bool): Triple<T> {
    match Decide(if t.base.Some? then t.base.value else missing, t.remote, t.local, canPush).0
    case Agree => t.(base := Some(t.remote))
    case Apply => Triple(Some(t.remote), t.remote, t.remote)
    case Push => Triple(Some(t.local), t.local, t.local)
    case _ => t
  }

  function FieldOf(w: World, f: Field): Triple<Value> {
    var base := w.link.snapshot.content;
    Triple(if f in base then Some(base[f]) else None, w.remote.content[f], w.task.content[f])
  }

  function Settled(w: World, f: Field): Triple<Value> {
    Settle(FieldOf(w, f), Null, PushesContent(w.connection))
  }

  /** The workflow side of a world. */
  datatype StateSide = StateSide(base: Option<State>, raw: Option<RemoteState>, completed: bool, status: Status)

  function SettledState(w: World): StateSide {
    var action := StateAction(w, w.remote);
    var (completed, status) := ApplyState(w.task.completed, w.task.status, StateToApply(w, w.remote));
    var raw := if action == Push then Some(Local(w.task)) else w.remote.raw;
    StateSide(
      if raw.None? then None
      else if action in {Agree, Apply, Push} then Collapse(raw)
      else w.link.snapshot.state,
      raw, completed, status)
  }

  function SettledProject(w: World, resolved: Option<int>): Option<int> {
    if Moved(w, w.remote) then resolved else w.task.project
  }

  /** The world an undisturbed merge leaves, written field by field. */
  function CleanForm(w: World, resolved: Option<int>): World {
    var state := SettledState(w);
    World(
      w.connection,
      Task(map f: Field | true :: Settled(w, f).local, state.completed, state.status, SettledProject(w, resolved)),
      Remote(map f: Field | true :: Settled(w, f).remote, state.raw, w.remote.projectId),
      Link(
        Snapshot(map f: Field | Settled(w, f).base.Some? :: Settled(w, f).base.value, state.base, state.raw),
        w.remote.projectId, false, []))
  }

  lemma FieldCase(w: World, f: Field)
    ensures var a := FieldAction(w, w.remote, f);
      var b := w.link.snapshot.content;
      Settled(w, f) == match a
        case Agree => Triple(Some(w.remote.content[f]), w.remote.content[f], w.task.content[f])
        case Apply => Triple(Some(w.remote.content[f]), w.remote.content[f], w.remote.content[f])
        case Push => Triple(Some(w.task.content[f]), w.task.content[f], w.task.content[f])
        case _ => Triple(if f in b then Some(b[f]) else None, w.remote.content[f], w.task.content[f])
  {
  }

  lemma CleanLocal(w: World)
    ensures w.task.content + ToApply(w, w.remote) == map f: Field | true :: Settled(w, f).local
  {
    hide FieldAction, Settled;
    forall f: Field { FieldCase(w, f); }
  }

  lemma CleanRemote(w: World)
    ensures w.remote.content + ToPush(w, w.remote) == map f: Field | true :: Settled(w, f).remote
  {
    hide FieldAction, Settled;
    forall f: Field { FieldCase(w, f); }
  }

  lemma CleanBase(w: World)
    ensures w.link.snapshot.content + ToSettle(w, w.remote) + ToPush(w, w.remote)
      == map f: Field | Settled(w, f).base.Some? :: Settled(w, f).base.value
  {
    hide FieldAction, Settled;
    forall f: Field { FieldCase(w, f); }
  }

  lemma CleanSaved(w: World, resolved: Option<int>)
    ensures var saved := SaveLocally(w, w.remote, resolved);
      && saved.alive && saved.errors == [] && saved.base == NewBase(w, w.remote)
      && saved.now == w.(task := CleanForm(w, resolved).task)
  {
    hide FieldAction, StateAction, Settled, ToApply, NewBase;
    CleanLocal(w);
    if !SavesTask(w, w.remote) {
      assert w.task.content + map[] == w.task.content;
    }
  }

  lemma CleanContent(w: World, resolved: Option<int>)
    ensures var patched := PatchContent(SaveLocally(w, w.remote, resolved), ToPush(w, w.remote), Done);
      var c := CleanForm(w, resolved);
      && patched.alive && patched.errors == []
      && patched.base == NewBase(w, w.remote).(content := c.link.snapshot.content)
      && patched.now == w.(task := c.task, remote := w.remote.(content := c.remote.content))
  {
    hide FieldAction, StateAction, Settled, ToApply, ToPush, ToSettle, ApplyState;
    CleanSaved(w, resolved);
    CleanRemote(w);
    CleanBase(w);
  }

  lemma LastHop(r: Run, current: Option<State>, target: State)
    requires target != GivenUp && Accepts(r.now.remote, target)
    ensures PushHops(r, [target], current, target, [])
      == Then(r, Hopped(r.now, target, Done)).(base := r.base.(state := Some(target), raw := Some(target)))
  {
    hide Accepts;
    assert HopDone(r.now, target, Done) && [target][1..] == [];
  }

  lemma FirstHop(r: Run, hop: State, current: Option<State>, target: State)
    requires hop != GivenUp && Accepts(r.now.remote, hop)
    ensures PushHops(r, [hop, target], current, target, [])
      == PushHops(Then(r, Hopped(r.now, hop, Done)), [target], Some(hop), target, [])
  {
    hide Accepts;
    assert HopDone(r.now, hop, Done) && [hop, target][1..] == [target];
  }

  /** Undisturbed hops reach the target whatever the workflow requires on the way. */
  lemma CleanHops(r: Run, from: RemoteState, target: State)
    requires Pushable(target) && r.now.remote.raw == Some(from)
    ensures var after := PushHops(r, Route(Some(from), target), Some(from), target, []);
      && after.alive == r.alive && after.errors == r.errors
      && after.base == r.base.(state := Some(target), raw := Some(target))
      && after.now == r.now.(remote := r.now.remote.(raw := Some(target)))
  {
    hide Legal;
    var route := Route(Some(from), target);
    if |route| == 2 {
      hide PushHops;
      FirstHop(r, Planned, Some(from), target);
      LastHop(Then(r, Hopped(r.now, Planned, Done)), Some(Planned), target);
    } else if |route| == 1 {
      hide PushHops;
      LastHop(r, Some(from), target);
    }
  }

  lemma CleanIs(w: World, resolved: Option<int>)
    ensures Clean(w, resolved) == CleanForm(w, resolved)
  {
    hide FieldAction, Settled, ToApply, ToPush, ToSettle, PushHops, Route, PatchContent, SaveLocally;
    var patched := PatchContent(SaveLocally(w, w.remote, resolved), ToPush(w, w.remote), Done);
    CleanContent(w, resolved);
    if StateAction(w, w.remote) == Push {
      CleanHops(patched, w.remote.raw.value, Local(w.task));
    }
  }

  // ------------------------------------------------------------------ what a merge means

  /**
   * A content field ends with one value everywhere: the local one if it was edited and may be
   * pushed, else VolunHub's.  Only a local edit that may not be pushed, on a field VolunHub left
   * alone, keeps its difference.
   */
  lemma ContentMeaning(w: World, resolved: Option<int>, f: Field)
    ensures var c := Clean(w, resolved);
      var base, base' := w.link.snapshot.content, c.link.snapshot.content;
      var b, r, l := if f in base then base[f] else Null, w.remote.content[f], w.task.content[f];
      var mayPush := w.connection.canWrite && w.connection.contentPushEnabled;
      var b', r', l' := if f in base' then base'[f] else Null, c.remote.content[f], c.task.content[f];
      if l != b && !mayPush && r == b then b' == b && r' == r && l' == l
      else b' == r' == l' == if l != b && mayPush then l else r
  {
    hide Clean, CleanForm;
    CleanIs(w, resolved);
    CleanFieldQuiet(w, resolved, f);
    assert FieldOf(CleanForm(w, resolved), f) == Settled(w, f);
  }

  /** The workflow state likewise, except that given-up tasks and tasks without a workflow are left alone. */
  lemma StateMeaning(w: World, resolved: Option<int>)
    ensures var c := Clean(w, resolved);
      var b, r := w.link.snapshot.state, Collapse(w.remote.raw);
      var b', r' := c.link.snapshot.state, Collapse(c.remote.raw);
      var l, l' := Some(LocalState(w.task.completed, w.task.status)), Some(LocalState(c.task.completed, c.task.status));
      var mayPush := w.connection.canWrite;
      && c.link.snapshot.raw == c.remote.raw
      && (r == r' ==> c.remote.raw == w.remote.raw)
      && if w.remote.raw.None? || l == Some(GivenUp) then
           c.remote.raw == w.remote.raw && l' == l && c.task.status == w.task.status
           && b' == if w.remote.raw.None? then None else b
         else if l != b && !mayPush && r == b then b' == b && r' == r && l' == l
         else b' == r' == l' == if l != b && mayPush then l else r
  {
    hide Clean;
    CleanIs(w, resolved);
    if w.remote.raw.Some? {
      AppliedReadsBack(w.task.completed, w.task.status, w.remote.raw.value);
    }
  }

  /** The local project follows VolunHub's only when VolunHub's changes. */
  lemma ProjectMeaning(w: World, resolved: Option<int>)
    ensures var c := Clean(w, resolved);
      && c.task.project == (if w.remote.projectId == w.link.externalProject then w.task.project else resolved)
      && c.link.externalProject == w.remote.projectId && c.remote.projectId == w.remote.projectId
      && !c.link.removed && c.link.lastError == [] && c.connection == w.connection
  {
    hide Clean;
    CleanIs(w, resolved);
  }

  lemma SettleTwice<T>(t: Triple<T>, missing: T, canPush: bool)
    ensures var s := Settle(t, missing, canPush);
      Settle(s, missing, canPush) == s
      && Decide(if s.base.Some? then s.base.value else missing, s.remote, s.local, canPush).0 in {Noop, Keep}
  {
  }

  lemma CleanFieldQuiet(w: World, resolved: Option<int>, f: Field)
    ensures var c := CleanForm(w, resolved);
      FieldAction(c, c.remote, f) in {Noop, Keep} && FieldOf(c, f) == Settled(w, f)
  {
    SettleTwice(FieldOf(w, f), Null, PushesContent(w.connection));
  }

  lemma CleanStateQuiet(w: World, resolved: Option<int>)
    ensures var c := CleanForm(w, resolved);
      StateAction(c, c.remote) in {Noop, Keep}
      && NewBase(c, c.remote).state == c.link.snapshot.state
  {
    if w.remote.raw.Some? {
      AppliedReadsBack(w.task.completed, w.task.status, w.remote.raw.value);
    }
  }

  /**
   * A merge run again without outside edits makes no call and no task save: the only world it
   * leaves is the one it found.
   */
  lemma Fixpoint(w: World, resolved: Option<int>, other: Option<int>, script: Script)
    ensures var c := Clean(w, resolved);
      Merge(c, c.remote, other, script).worlds == [c]
  {
    hide Clean, FieldAction, StateAction, CleanForm, Merge, ToApply, ToPush, NewBase, Moved;
    CleanIs(w, resolved);
    CleanIsQuiet(w, resolved);
    CleanLink(w, resolved);
    QuietMerge(CleanForm(w, resolved), other, script);
  }

  /** Nothing is left to apply, to push or to settle. */
  ghost predicate IsQuiet(c: World) {
    && ToApply(c, c.remote) == map[] && ToPush(c, c.remote) == map[] && NewBase(c, c.remote) == c.link.snapshot
    && StateAction(c, c.remote) !in {Apply, Push}
  }

  lemma CleanIsQuiet(w: World, resolved: Option<int>)
    ensures IsQuiet(CleanForm(w, resolved))
  {
    hide FieldAction, StateAction, CleanForm;
    var c := CleanForm(w, resolved);
    forall f: Field { CleanFieldQuiet(w, resolved, f); }
    CleanStateQuiet(w, resolved);
    CleanLink(w, resolved);
    assert ToSettle(c, c.remote) == map[];
    assert c.link.snapshot.content + map[] == c.link.snapshot.content;
  }

  lemma QuietMerge(c: World, other: Option<int>, script: Script)
    requires IsQuiet(c) && !Moved(c, c.remote) && c.link == Link(c.link.snapshot, c.remote.projectId, false, [])
    ensures Merge(c, c.remote, other, script).worlds == [c]
  {
    hide FieldAction, StateAction, ToApply, ToPush, NewBase, Moved, TaskAfter, PushHops;
  }

  lemma CleanLink(w: World, resolved: Option<int>)
    ensures var c := CleanForm(w, resolved);
      !Moved(c, c.remote) && c.link == Link(c.link.snapshot, c.remote.projectId, false, [])
      && c.link.snapshot.raw == c.remote.raw
  {
  }

  // ------------------------------------------------------------------ interruption and failure

  /** The connection a merge may leave: the same, or with content pushes switched off by a refusal. */
  predicate MayBecome(c: Connection, d: Connection) {
    d == c || d == c.(contentPushEnabled := false)
  }

  /** Interrupted at `x`, an undisturbed merge ends where it would have under `x`'s connection. */
  ghost predicate Recovers(w: World, resolved: Option<int>, x: World) {
    MayBecome(w.connection, x.connection)
    && CleanForm(x, resolved) == CleanForm(w.(connection := x.connection), resolved)
  }

  lemma SameCleanForm(w: World, x: World, resolved: Option<int>)
    requires w.connection == x.connection && w.remote.projectId == x.remote.projectId
    requires forall f: Field :: Settled(w, f) == Settled(x, f)
    requires SettledState(w) == SettledState(x) && SettledProject(w, resolved) == SettledProject(x, resolved)
    ensures CleanForm(w, resolved) == CleanForm(x, resolved)
  {
    hide Settled, SettledState, SettledProject;
  }

  // Each effect of a merge is a step that a merge started afterwards makes up for.

  lemma StepSave(w: World, resolved: Option<int>, d: Connection)
    requires MayBecome(w.connection, d)
    ensures CleanForm(w.(task := TaskAfter(w, w.remote, resolved), connection := d), resolved)
      == CleanForm(w.(connection := d), resolved)
  {
    hide CleanForm;
    var x, y := w.(task := TaskAfter(w, w.remote, resolved), connection := d), w.(connection := d);
    forall f: Field ensures Settled(x, f) == Settled(y, f) { SaveField(w, resolved, d, f); }
    SaveState(w, resolved, d);
    SameCleanForm(x, y, resolved);
  }

  lemma TaskAfterField(w: World, resolved: Option<int>, f: Field)
    ensures TaskAfter(w, w.remote, resolved).content[f]
      == if FieldAction(w, w.remote, f) == Apply then w.remote.content[f] else w.task.content[f]
  {
    hide StateAction, ApplyState, Moved, FieldAction;
  }

  lemma SaveField(w: World, resolved: Option<int>, d: Connection, f: Field)
    requires MayBecome(w.connection, d)
    ensures Settled(w.(task := TaskAfter(w, w.remote, resolved), connection := d), f) == Settled(w.(connection := d), f)
  {
    hide TaskAfter;
    TaskAfterField(w, resolved, f);
  }

  lemma SaveFieldAction(w: World, resolved: Option<int>, f: Field)
    ensures FieldAction(w.(task := TaskAfter(w, w.remote, resolved)), w.remote, f) == Push
      <==> FieldAction(w, w.remote, f) == Push
  {
    hide TaskAfter;
    TaskAfterField(w, resolved, f);
  }

  /** The local save touches the workflow side only as the decided state asks. */
  lemma TaskAfterState(w: World, resolved: Option<int>)
    ensures var task := TaskAfter(w, w.remote, resolved);
      (task.completed, task.status) == ApplyState(w.task.completed, w.task.status, StateToApply(w, w.remote))
  {
    hide ToApply, StateToApply, ApplyState;
  }

  /** A task whose state is already what was decided for it is left as it is. */
  lemma AppliedOnce(w: World, completed: bool, status: Status)
    requires (completed, status) == ApplyState(w.task.completed, w.task.status, StateToApply(w, w.remote))
    ensures var x := w.(task := w.task.(completed := completed, status := status));
      SettledState(x) == SettledState(w) && (StateAction(x, x.remote) == Push <==> StateAction(w, w.remote) == Push)
    ensures StateAction(w, w.remote) == Push ==>
        Local(w.task.(completed := completed, status := status)) == Local(w.task)
  {
    if w.remote.raw.Some? {
      AppliedReadsBack(w.task.completed, w.task.status, w.remote.raw.value);
    }
  }

  /** Only the workflow side of a task and the right to write matter to the workflow. */
  lemma SameStateSide(x: World, y: World)
    requires x.task.completed == y.task.completed && x.task.status == y.task.status
    requires x.remote == y.remote && x.link == y.link && x.connection.canWrite == y.connection.canWrite
    ensures SettledState(x) == SettledState(y) && StateAction(x, x.remote) == StateAction(y, y.remote)
    ensures Local(x.task) == Local(y.task)
  {
    hide Decide, ApplyState, LocalState;
  }

  lemma SaveState(w: World, resolved: Option<int>, d: Connection)
    requires MayBecome(w.connection, d)
    ensures SettledState(w.(task := TaskAfter(w, w.remote, resolved), connection := d))
        == SettledState(w.(connection := d))
  {
    hide TaskAfter, SettledState, StateAction, StateToApply, Local, ApplyState;
    var task := TaskAfter(w, w.remote, resolved);
    var applied := w.(task := w.task.(completed := task.completed, status := task.status));
    TaskAfterState(w, resolved);
    AppliedOnce(w, task.completed, task.status);
    SameStateSide(w.(task := task, connection := d), applied);
    SameStateSide(w.(connection := d), w);
  }

  lemma SaveAction(w: World, resolved: Option<int>)
    ensures var x := w.(task := TaskAfter(w, w.remote, resolved));
      StateAction(x, x.remote) == Push <==> StateAction(w, w.remote) == Push
    ensures StateAction(w, w.remote) == Push ==> Local(TaskAfter(w, w.remote, resolved)) == Local(w.task)
  {
    hide TaskAfter, SettledState, StateAction, StateToApply, Local, ApplyState;
    var task := TaskAfter(w, w.remote, resolved);
    TaskAfterState(w, resolved);
    AppliedOnce(w, task.completed, task.status);
    SameStateSide(w.(task := task), w.(task := w.task.(completed := task.completed, status := task.status)));
  }

  lemma StepPatch(x: World, resolved: Option<int>)
    ensures CleanForm(x.(remote := x.remote.(content := x.remote.content + ToPush(x, x.remote))), resolved)
      == CleanForm(x, resolved)
  {
    hide CleanForm;
    var y := x.(remote := x.remote.(content := x.remote.content + ToPush(x, x.remote)));
    forall f: Field ensures Settled(x, f) == Settled(y, f) { PatchField(x, f); }
    SameCleanForm(x, y, resolved);
  }

  lemma PatchField(x: World, f: Field)
    ensures Settled(x.(remote := x.remote.(content := x.remote.content + ToPush(x, x.remote))), f) == Settled(x, f)
  {
    PatchedValue(x, f);
    hide ToPush;
  }

  lemma PatchedValue(x: World, f: Field)
    ensures (x.remote.content + ToPush(x, x.remote))[f]
      == if FieldAction(x, x.remote, f) == Push then x.task.content[f] else x.remote.content[f]
  {
    hide FieldAction;
  }

  lemma StepHop(x: World, hop: State, resolved: Option<int>)
    requires StateAction(x, x.remote) == Push && hop in Route(x.remote.raw, Local(x.task))
    ensures hop != GivenUp
    ensures var y := x.(remote := x.remote.(raw := Some(hop)));
      CleanForm(y, resolved) == CleanForm(x, resolved)
      && (hop != Local(x.task) ==> StateAction(y, y.remote) == Push)
  {
    hide CleanForm;
    var y := x.(remote := x.remote.(raw := Some(hop)));
    forall f: Field ensures Settled(x, f) == Settled(y, f) { }
    SameCleanForm(x, y, resolved);
  }

  /** The unsaved snapshot differs from the saved one only where both sides already agree with it. */
  ghost predicate Ahead(x: World, base: Snapshot) {
    && (forall f: Field :: SameKey(base.content, x.link.snapshot.content, f)
          || (f in base.content && base.content[f] == x.remote.content[f]
              == x.task.content[f] != Get(x.link.snapshot.content, f)))
    && (x.remote.raw.Some? ==>
          (base.state == x.link.snapshot.state || base.state == Collapse(x.remote.raw) == Some(Local(x.task))))
  }

  predicate SameKey(a: map<Field, Value>, b: map<Field, Value>, f: Field) {
    (f in a <==> f in b) && (f in a && f in b ==> a[f] == b[f])
  }

  lemma StepLink(x: World, base: Snapshot, errors: seq<Failure>, resolved: Option<int>)
    requires Ahead(x, base) && (Moved(x, x.remote) ==> x.task.project == resolved)
    ensures CleanForm(x.(link := Link(base, x.remote.projectId, false, errors)), resolved) == CleanForm(x, resolved)
  {
    hide CleanForm;
    var y := x.(link := Link(base, x.remote.projectId, false, errors));
    forall f: Field ensures Settled(x, f) == Settled(y, f) { LinkField(x, base, errors, f); }
    LinkState(x, base, errors);
    SameCleanForm(x, y, resolved);
  }

  lemma LinkField(x: World, base: Snapshot, errors: seq<Failure>, f: Field)
    requires Ahead(x, base)
    ensures Settled(x.(link := Link(base, x.remote.projectId, false, errors)), f) == Settled(x, f)
  {
  }

  lemma LinkState(x: World, base: Snapshot, errors: seq<Failure>)
    requires Ahead(x, base)
    ensures SettledState(x.(link := Link(base, x.remote.projectId, false, errors))) == SettledState(x)
  {
  }

  /** What holds of a merge of `w` after each of its effects. */
  ghost predicate Fine(w: World, resolved: Option<int>, r: Run) {
    && (forall x :: x in r.worlds ==> Recovers(w, resolved, x))
    && Recovers(w, resolved, r.now)
    && r.now.remote.projectId == w.remote.projectId
    && (r.alive ==> Ahead(r.now, r.base) && (Moved(r.now, r.now.remote) ==> r.now.task.project == resolved))
  }

  /** The pushes planned at the start are still what is to be pushed. */
  ghost predicate StillToPush(w: World, r: Run) {
    && r.base.state == NewBase(w, w.remote).state
    && (StateAction(r.now, r.now.remote) == Push <==> StateAction(w, w.remote) == Push)
    && (StateAction(w, w.remote) == Push ==> Local(r.now.task) == Local(w.task))
    && r.now.remote.raw == w.remote.raw && r.now.link == w.link
  }

  lemma SavedTask(w: World, resolved: Option<int>)
    ensures SaveLocally(w, w.remote, resolved).now == w.(task := TaskAfter(w, w.remote, resolved))
  {
    hide FieldAction, StateAction, ToApply, NewBase;
    if !SavesTask(w, w.remote) { assert w.task.content + map[] == w.task.content; }
  }

  lemma SavedAhead(w: World, resolved: Option<int>)
    ensures Ahead(w.(task := TaskAfter(w, w.remote, resolved)), NewBase(w, w.remote))
  {
    hide TaskAfter, StateAction;
    var x := w.(task := TaskAfter(w, w.remote, resolved));
    forall f: Field
      ensures SameKey(NewBase(w, w.remote).content, w.link.snapshot.content, f)
        || (f in NewBase(w, w.remote).content
            && NewBase(w, w.remote).content[f] == x.remote.content[f]
            == x.task.content[f] != Get(w.link.snapshot.content, f))
    {
      TaskAfterField(w, resolved, f);
    }
    if w.remote.raw.Some? { SavedAheadState(w, resolved); }
  }

  lemma SavedAheadState(w: World, resolved: Option<int>)
    requires w.remote.raw.Some?
    ensures var base := NewBase(w, w.remote);
      base.state == w.link.snapshot.state
      || base.state == Collapse(w.remote.raw) == Some(Local(TaskAfter(w, w.remote, resolved)))
  {
    hide FieldAction, ToApply, ToSettle;
    AppliedReadsBack(w.task.completed, w.task.status, w.remote.raw.value);
  }

  lemma SavePush(w: World, resolved: Option<int>)
    ensures ToPush(w.(task := TaskAfter(w, w.remote, resolved)), w.remote) == ToPush(w, w.remote)
  {
    hide FieldAction, TaskAfter;
    var x := w.(task := TaskAfter(w, w.remote, resolved));
    forall f: Field
      ensures FieldAction(x, w.remote, f) == Push <==> FieldAction(w, w.remote, f) == Push
      ensures FieldAction(w, w.remote, f) == Push ==> x.task.content[f] == w.task.content[f]
    {
      SaveFieldAction(w, resolved, f);
      TaskAfterField(w, resolved, f);
    }
  }

  lemma SaveFine(w: World, resolved: Option<int>)
    ensures var saved := SaveLocally(w, w.remote, resolved);
      Fine(w, resolved, saved) && StillToPush(w, saved) && saved.alive
      && ToPush(saved.now, w.remote) == ToPush(w, w.remote)
  {
    hide CleanForm, FieldAction, StateAction, Ahead, ToApply, ToSettle, ToPush;
    SavedTask(w, resolved);
    SavedAhead(w, resolved);
    StepSave(w, resolved, w.connection);
    SaveAction(w, resolved);
    SavePush(w, resolved);
  }

  lemma PatchAhead(x: World, base: Snapshot, o: Outcome)
    requires Ahead(x, base) && ToPush(x, x.remote) != map[]
    requires forall f :: f in ToPush(x, x.remote) ==> SameKey(base.content, x.link.snapshot.content, f)
    ensures var push := ToPush(x, x.remote);
      Ahead(Patched(x, push, o), if o == Done then base.(content := base.content + push) else base)
  {
    hide StateAction, Collapse;
  }

  lemma RefusalAhead(x: World, base: Snapshot, c: Connection)
    requires Ahead(x, base)
    ensures Ahead(x.(connection := c), base)
  {
  }

  lemma SameStateAction(x: World, y: World)
    requires x.connection.canWrite == y.connection.canWrite && x.task == y.task
    requires x.link.snapshot.state == y.link.snapshot.state && x.remote.raw == y.remote.raw
    ensures StateAction(x, x.remote) == StateAction(y, y.remote)
  {
  }

  lemma PatchFine(w: World, resolved: Option<int>, r: Run, o: Outcome)
    requires r == SaveLocally(w, w.remote, resolved)
    ensures var patched := PatchContent(r, ToPush(w, w.remote), o);
      Fine(w, resolved, patched) && (patched.alive ==> StillToPush(w, patched))
  {
    hide CleanForm, FieldAction, StateAction, Ahead, ToApply, ToSettle, ToPush, SaveLocally;
    SaveFine(w, resolved);
    var push := ToPush(w, w.remote);
    var x := r.now;
    if push != map[] {
      StepPatch(x, resolved);
      SavedTask(w, resolved);
      PushedKeys(w, resolved);
      PatchAhead(x, r.base, o);
      var off := w.connection.(contentPushEnabled := false);
      StepSave(w, resolved, off);
      RefusalAhead(x, r.base, off);
      SameStateAction(x, x.(connection := off));
      SameStateAction(x, Patched(x, push, o));
      assert Recovers(w, resolved, Patched(x, push, o));
      assert Recovers(w, resolved, x.(connection := off));
    }
  }

  lemma PushedKeys(w: World, resolved: Option<int>)
    ensures var r := SaveLocally(w, w.remote, resolved);
      forall f :: f in ToPush(w, w.remote) ==> SameKey(r.base.content, w.link.snapshot.content, f)
  {
    hide FieldAction, StateAction, TaskAfter;
  }

  /** What the hops of a state push need of the run they continue. */
  ghost predicate OnRoute(r: Run, path: seq<State>, current: Option<State>, target: State) {
    && r.alive && Pushable(target) && Local(r.now.task) == target
    && r.now.remote.raw.Some? && current == r.now.remote.raw
    && r.base.state == r.now.link.snapshot.state
    && if path == [] then current == Some(target)
       else StateAction(r.now, r.now.remote) == Push && path == Route(current, target)
  }

  lemma HopAhead(x: World, base: Snapshot, hop: State, o: Outcome, raw: Option<State>)
    requires Ahead(x, base) && base.state == x.link.snapshot.state
    ensures Ahead(Hopped(x, hop, o), base.(raw := raw))
  {
  }

  lemma OneHop(
      w: World, resolved: Option<int>, r: Run, path: seq<State>, current: Option<State>, target: State, o: Outcome)
    requires Fine(w, resolved, r) && OnRoute(r, path, current, target) && path != []
    ensures var y := Hopped(r.now, path[0], o);
      && Recovers(w, resolved, y)
      && (HopDone(r.now, path[0], o) ==> OnRoute(Then(r, y), path[1..], Some(path[0]), target))
  {
    hide CleanForm, StateAction, Ahead;
    var x, hop := r.now, path[0];
    assert hop in path;
    StepHop(x, hop, resolved);
    if |path| == 2 {
      RouteResumes(current.value, target);
    }
  }

  /** One hop, however it turns out: the run goes on, breaks off or records the failure. */
  lemma HopFine(
      w: World, resolved: Option<int>, r: Run, path: seq<State>, current: Option<State>, target: State, o: Outcome)
    requires Fine(w, resolved, r) && OnRoute(r, path, current, target) && path != []
    ensures var after := Then(r, Hopped(r.now, path[0], o));
      && Fine(w, resolved, after.(alive := false))
      && Fine(w, resolved, after.(errors := r.errors + [StatusNotChanged], base := r.base.(raw := current)))
      && (HopDone(r.now, path[0], o) ==> Fine(w, resolved, after) && OnRoute(after, path[1..], Some(path[0]), target))
  {
    hide CleanForm, StateAction, Recovers, Route;
    OneHop(w, resolved, r, path, current, target, o);
    HopAhead(r.now, r.base, path[0], o, current);
    HopAhead(r.now, r.base, path[0], o, r.base.raw);
    hide Ahead, Accepts;
  }

  lemma LastHopFine(w: World, resolved: Option<int>, r: Run, current: Option<State>, target: State)
    requires Fine(w, resolved, r) && OnRoute(r, [], current, target)
    ensures Fine(w, resolved, r.(base := r.base.(state := Some(target), raw := current)))
  {
    hide CleanForm, StateAction, Recovers, Route;
  }

  lemma {:induction false} HopsFine(
      w: World, resolved: Option<int>, r: Run, path: seq<State>, current: Option<State>, target: State,
      outcomes: seq<Outcome>)
    requires Fine(w, resolved, r) && OnRoute(r, path, current, target)
    ensures Fine(w, resolved, PushHops(r, path, current, target, outcomes))
    decreases path
  {
    hide Fine, OnRoute, Hopped, HopDone;
    if path == [] {
      LastHopFine(w, resolved, r, current, target);
    } else {
      var o := if outcomes == [] then Done else outcomes[0];
      var rest := if outcomes == [] then [] else outcomes[1..];
      HopFine(w, resolved, r, path, current, target, o);
      if HopDone(r.now, path[0], o) {
        HopsFine(w, resolved, Then(r, Hopped(r.now, path[0], o)), path[1..], Some(path[0]), target, rest);
      }
    }
  }

  /** Every world a merge leaves behind, however its calls turn out, can be recovered from. */
  lemma MergeFine(w: World, resolved: Option<int>, script: Script)
    ensures forall x :: x in Merge(w, w.remote, resolved, script).worlds ==> Recovers(w, resolved, x)
  {
    hide CleanForm, SaveLocally, Ahead, PatchContent, PushHops, Recovers;
    var saved := SaveLocally(w, w.remote, resolved);
    var patched := PatchContent(saved, ToPush(w, w.remote), script.patch);
    PatchFine(w, resolved, saved, script.patch);
    var pushed := PushState(patched, w, w.remote, script.hops);
    if patched.alive && StateAction(w, w.remote) == Push {
      HopsFine(w, resolved, patched, Route(w.remote.raw, Local(w.task)), w.remote.raw, Local(w.task), script.hops);
    }
    LinkFine(w, resolved, pushed);
  }

  lemma LinkFine(w: World, resolved: Option<int>, r: Run)
    requires Fine(w, resolved, r)
    ensures forall x :: x in SaveLink(r, w.remote).worlds ==> Recovers(w, resolved, x)
  {
    hide CleanForm, Ahead;
    if r.alive {
      StepLink(r.now, r.base, r.errors, resolved);
    }
  }

  /**
   * Crash recovery and resending in one: stop a merge after any of its effects, let any of its calls
   * fail, be refused or take effect unnoticed; an undisturbed merge of what is left ends exactly
   * where one of the original would have, with content pushes off if a refusal switched them off.
   */
  lemma Recovery(w: World, resolved: Option<int>, script: Script, x: World)
    requires x in Merge(w, w.remote, resolved, script).worlds
    ensures MayBecome(w.connection, x.connection)
    ensures Clean(x, resolved) == Clean(w.(connection := x.connection), resolved)
  {
    hide CleanForm, Merge, Clean;
    MergeFine(w, resolved, script);
    CleanIs(x, resolved);
    CleanIs(w.(connection := x.connection), resolved);
  }

  /** Any number of attempts cut short, one after the other, and then an undisturbed one. */
  lemma {:induction false} RecoveryAfterMany(
      w: World, resolved: Option<int>, attempts: seq<World>, scripts: seq<Script>)
    requires |scripts| == |attempts| > 0
    requires attempts[0] in Merge(w, w.remote, resolved, scripts[0]).worlds
    requires forall i :: 1 <= i < |attempts| ==>
        attempts[i] in Merge(attempts[i - 1], attempts[i - 1].remote, resolved, scripts[i]).worlds
    requires forall i :: 0 <= i < |attempts| ==> attempts[i].connection == w.connection
    ensures Clean(attempts[|attempts| - 1], resolved) == Clean(w, resolved)
    decreases |attempts|
  {
    hide Merge, Clean;
    var n := |attempts| - 1;
    if n == 0 {
      Recovery(w, resolved, scripts[0], attempts[0]);
    } else {
      RecoveryAfterMany(w, resolved, attempts[..n], scripts[..n]);
      Recovery(attempts[n - 1], resolved, scripts[n], attempts[n]);
    }
  }

  // ------------------------------------------------------------------ what a failed call leaves to do

  lemma {:induction false} HopsKeepContent(
      r: Run, path: seq<State>, current: Option<State>, target: State, outcomes: seq<Outcome>)
    ensures var after := PushHops(r, path, current, target, outcomes);
      && after.now == r.now.(remote := r.now.remote.(raw := after.now.remote.raw))
      && after.base.content == r.base.content
    decreases path
  {
    if path == [] {
    } else {
      var o := if outcomes == [] then Done else outcomes[0];
      var rest := if outcomes == [] then [] else outcomes[1..];
      HopsKeepContent(Then(r, Hopped(r.now, path[0], o)), path[1..], Some(path[0]), target, rest);
    }
  }

  /**
   * A failed patch settles every field in the snapshot but the unsent ones, which keep what it said,
   * so the next merge sends exactly those again; if the patch had taken effect after all, it sends
   * none.  Undisturbed, it leaves the unsent fields agreed on the local values either way.
   */
  lemma FailedPatch(w: World, resolved: Option<int>, took: bool, hops: seq<Outcome>)
    requires Merge(w, w.remote, resolved, Script(Failed(took), hops)).alive
    ensures var x := Merge(w, w.remote, resolved, Script(Failed(took), hops)).now;
      && x.link.snapshot.content == NewBase(w, w.remote).content
      && (forall f :: f in ToPush(w, w.remote) ==> SameKey(x.link.snapshot.content, w.link.snapshot.content, f))
      && ToPush(x, x.remote) == (if took then map[] else ToPush(w, w.remote))
      && (forall f :: f in ToPush(w, w.remote) ==> Agreed(Clean(x, resolved), f, w.task.content[f]))
  {
    hide Merge, Clean, FieldAction, ToPush, NewBase, SameKey, Agreed;
    var x := Merge(w, w.remote, resolved, Script(Failed(took), hops)).now;
    FailedPatchWorld(w, resolved, took, hops);
    UnsentKeys(w, resolved);
    StillUnsent(w, x, resolved, took);
    forall f | f in ToPush(w, w.remote) ensures Agreed(Clean(x, resolved), f, w.task.content[f]) {
      UnsentAgreed(w, x, resolved, took, f);
    }
  }

  /** Snapshot, remote task and local task all hold the value. */
  predicate Agreed(w: World, f: Field, value: Value) {
    Get(w.link.snapshot.content, f) == w.remote.content[f] == w.task.content[f] == value
  }

  /** The world `x` a failed patch leaves, as far as the content goes. */
  ghost predicate PatchFailed(w: World, x: World, resolved: Option<int>, took: bool) {
    && x.task == TaskAfter(w, w.remote, resolved) && x.connection == w.connection
    && x.remote.content == (if took then w.remote.content + ToPush(w, w.remote) else w.remote.content)
    && x.link.snapshot.content == NewBase(w, w.remote).content
  }

  lemma UnsentKeys(w: World, resolved: Option<int>)
    ensures forall f :: f in ToPush(w, w.remote) ==> SameKey(NewBase(w, w.remote).content, w.link.snapshot.content, f)
  {
    hide FieldAction, SameKey, NewBase, ToPush;
    PushedKeys(w, resolved);
    SavedBase(w, resolved);
  }

  lemma StillUnsent(w: World, x: World, resolved: Option<int>, took: bool)
    requires PatchFailed(w, x, resolved, took)
    ensures ToPush(x, x.remote) == (if took then map[] else ToPush(w, w.remote))
  {
    hide FieldAction, PatchFailed;
    forall f: Field
      ensures FieldAction(x, x.remote, f) == Push <==> !took && FieldAction(w, w.remote, f) == Push
      ensures FieldAction(w, w.remote, f) == Push ==> x.task.content[f] == w.task.content[f]
    {
      FailedPatchField(w, resolved, took, x, f);
    }
  }

  lemma UnsentAgreed(w: World, x: World, resolved: Option<int>, took: bool, f: Field)
    requires PatchFailed(w, x, resolved, took) && f in ToPush(w, w.remote)
    ensures Agreed(Clean(x, resolved), f, w.task.content[f])
  {
    hide Clean, StateAction, PatchFailed;
    FailedPatchField(w, resolved, took, x, f);
    ContentMeaning(x, resolved, f);
    UnsentDiffers(w, x, resolved, took, f);
  }

  /** An unsent field still differs from the snapshot on the local side, and may be pushed. */
  lemma UnsentDiffers(w: World, x: World, resolved: Option<int>, took: bool, f: Field)
    requires PatchFailed(w, x, resolved, took) && f in ToPush(w, w.remote)
    ensures Get(x.link.snapshot.content, f) != x.task.content[f] && PushesContent(x.connection)
  {
    PushDiffers(w, f);
    hide StateAction, TaskAfter, FieldAction, ToPush, NewBase, PushesContent, SameKey, Get;
    TaskAfterField(w, resolved, f);
    UnsentKeys(w, resolved);
    SameGet(x.link.snapshot.content, w.link.snapshot.content, f);
  }

  lemma PushDiffers(w: World, f: Field)
    requires f in ToPush(w, w.remote)
    ensures FieldAction(w, w.remote, f) == Push
    ensures Get(w.link.snapshot.content, f) != w.task.content[f] && PushesContent(w.connection)
  {
  }

  lemma SameGet(a: map<Field, Value>, b: map<Field, Value>, f: Field)
    requires SameKey(a, b, f)
    ensures Get(a, f) == Get(b, f)
  {
  }

  lemma FailedPatchWorld(w: World, resolved: Option<int>, took: bool, hops: seq<Outcome>)
    requires Merge(w, w.remote, resolved, Script(Failed(took), hops)).alive
    ensures var x := Merge(w, w.remote, resolved, Script(Failed(took), hops)).now;
      PatchFailed(w, x, resolved, took) && x.link.snapshot.content == NewBase(w, w.remote).content
  {
    hide FieldAction, StateAction, PushHops, TaskAfter, ToPush, SaveLocally, NewBase;
    SavedTask(w, resolved);
    assert SaveLocally(w, w.remote, resolved).base == NewBase(w, w.remote) by { SavedBase(w, resolved); }
    var patched := PatchContent(SaveLocally(w, w.remote, resolved), ToPush(w, w.remote), Failed(took));
    assert w.remote.content + map[] == w.remote.content;
    HopsKeepContent(patched, Route(w.remote.raw, Local(w.task)), w.remote.raw, Local(w.task), hops);
  }

  lemma SavedBase(w: World, resolved: Option<int>)
    ensures SaveLocally(w, w.remote, resolved).base == NewBase(w, w.remote)
  {
    hide NewBase, TaskAfter;
  }

  lemma NewBaseField(w: World, f: Field)
    ensures Get(NewBase(w, w.remote).content, f)
      == if FieldAction(w, w.remote, f) in {Agree, Apply} then w.remote.content[f] else Get(w.link.snapshot.content, f)
  {
    hide FieldAction, StateAction;
  }

  /** What a failed patch leaves of one field, in the snapshot, at VolunHub and locally. */
  lemma PatchFailedField(w: World, resolved: Option<int>, took: bool, x: World, f: Field)
    requires PatchFailed(w, x, resolved, took)
    ensures var action := FieldAction(w, w.remote, f);
      && Get(x.link.snapshot.content, f)
        == (if action in {Agree, Apply} then w.remote.content[f] else Get(w.link.snapshot.content, f))
      && x.remote.content[f] == (if took && action == Push then w.task.content[f] else w.remote.content[f])
      && x.task.content[f] == (if action == Apply then w.remote.content[f] else w.task.content[f])
      && x.connection == w.connection
  {
    hide StateAction, TaskAfter, FieldAction, ToPush, NewBase, Get;
    TaskAfterField(w, resolved, f);
    NewBaseField(w, f);
    PatchedValue(w, f);
  }

  lemma FailedPatchField(w: World, resolved: Option<int>, took: bool, x: World, f: Field)
    requires PatchFailed(w, x, resolved, took)
    ensures FieldAction(x, x.remote, f) == Push <==> !took && FieldAction(w, w.remote, f) == Push
    ensures FieldAction(w, w.remote, f) == Push ==> x.task.content[f] == w.task.content[f]
  {
    hide PatchFailed, Get;
    PatchFailedField(w, resolved, took, x, f);
  }

  lemma HopAction(x: World, hop: State, o: Outcome)
    requires StateAction(x, x.remote) == Push && hop in Route(x.remote.raw, Local(x.task))
    ensures var y := Hopped(x, hop, o);
      StateAction(y, y.remote) == (if y.remote.raw == Some(Local(x.task)) then Agree else Push)
  {
  }

  lemma {:induction false} HopsFail(
      r: Run, path: seq<State>, current: Option<State>, target: State, outcomes: seq<Outcome>)
    requires OnRoute(r, path, current, target)
    ensures var after := PushHops(r, path, current, target, outcomes);
      after.alive && after.errors != r.errors ==>
        && after.errors == r.errors + [StatusNotChanged] && after.base.state == r.base.state
        && StateAction(after.now, after.now.remote) == (if after.now.remote.raw == Some(target) then Agree else Push)
    decreases path
  {
    hide StateAction, Route;
    if path == [] {
    } else {
      var o := if outcomes == [] then Done else outcomes[0];
      assert path[0] in path;
      HopAction(r.now, path[0], o);
      if HopDone(r.now, path[0], o) {
        RouteLength(current, target);
        if |path| == 2 { RouteResumes(current.value, target); }
        assert OnRoute(Then(r, Hopped(r.now, path[0], o)), path[1..], Some(path[0]), target);
        var rest := if outcomes == [] then [] else outcomes[1..];
        HopsFail(Then(r, Hopped(r.now, path[0], o)), path[1..], Some(path[0]), target, rest);
      }
    }
  }

  lemma RouteLength(current: Option<State>, target: State)
    ensures |Route(current, target)| <= 2
    ensures |Route(current, target)| > 0 ==> Route(current, target)[|Route(current, target)| - 1] == target
  {
  }

  /** The workflow state after the last hop whose success was reported, if the task starts at `raw`. */
  function LastAnswered(raw: Option<State>, path: seq<State>, outcomes: seq<Outcome>): Option<State>
    decreases path
  {
    if path == [] then raw
    else
      var o := if outcomes == [] then Done else outcomes[0];
      if o == Done && raw.Some? && Allows(raw.value, path[0]) && path[0] != GivenUp
      then LastAnswered(Some(path[0]), path[1..], if outcomes == [] then [] else outcomes[1..])
      else raw
  }

  lemma {:induction false} HopsRaw(
      r: Run, path: seq<State>, current: Option<State>, target: State, outcomes: seq<Outcome>)
    requires r.now.remote.raw == current
    ensures var after := PushHops(r, path, current, target, outcomes);
      after.alive ==> after.base.raw == LastAnswered(current, path, outcomes)
    decreases path
  {
    if path == [] {
    } else {
      var o := if outcomes == [] then Done else outcomes[0];
      var rest := if outcomes == [] then [] else outcomes[1..];
      if HopDone(r.now, path[0], o) {
        HopsRaw(Then(r, Hopped(r.now, path[0], o)), path[1..], Some(path[0]), target, rest);
      }
    }
  }

  /**
   * A failed hop leaves the snapshot's state as it was and records the workflow state that the last
   * answered hop reached, so the next merge pushes the state again from wherever VolunHub really is;
   * if the failed hop was the last and had taken effect, the next merge finds both sides agreed.
   * Undisturbed, it completes the push either way.
   */
  lemma FailedHop(w: World, resolved: Option<int>, script: Script)
    requires Merge(w, w.remote, resolved, script).alive
    requires StatusNotChanged in Merge(w, w.remote, resolved, script).now.link.lastError
    ensures var x := Merge(w, w.remote, resolved, script).now;
      && x.link.snapshot.state == w.link.snapshot.state && Local(x.task) == Local(w.task)
      && x.link.snapshot.raw == LastAnswered(w.remote.raw, Route(w.remote.raw, Local(w.task)), script.hops)
      && StateAction(x, x.remote) == (if x.remote.raw == Some(Local(w.task)) then Agree else Push)
      && StateAgreed(Clean(x, resolved), Local(w.task))
  {
    hide Merge, Clean, StateAction, Route, StateAgreed;
    FailedHopWorld(w, resolved, script);
    PushCompleted(Merge(w, w.remote, resolved, script).now, resolved);
  }

  /** Snapshot, remote task and local task are in the same workflow state. */
  ghost predicate StateAgreed(w: World, s: State) {
    w.link.snapshot.state == Collapse(w.remote.raw) == Some(Local(w.task)) == Some(s)
  }

  lemma PushCompleted(x: World, resolved: Option<int>)
    requires StateAction(x, x.remote) in {Agree, Push}
    ensures StateAgreed(Clean(x, resolved), Local(x.task))
  {
    hide Clean;
    StateMeaning(x, resolved);
  }

  lemma FailedHopWorld(w: World, resolved: Option<int>, script: Script)
    requires Merge(w, w.remote, resolved, script).alive
    requires StatusNotChanged in Merge(w, w.remote, resolved, script).now.link.lastError
    ensures var x := Merge(w, w.remote, resolved, script).now;
      && x.link.snapshot.state == w.link.snapshot.state && Local(x.task) == Local(w.task)
      && x.link.snapshot.raw == LastAnswered(w.remote.raw, Route(w.remote.raw, Local(w.task)), script.hops)
      && StateAction(x, x.remote) == (if x.remote.raw == Some(Local(w.task)) then Agree else Push)
  {
    hide FieldAction, StateAction, PushHops, Ahead, CleanForm, SaveLocally, NewBase, ToPush, LastAnswered;
    var saved := SaveLocally(w, w.remote, resolved);
    var patched := PatchContent(saved, ToPush(w, w.remote), script.patch);
    SavedErrors(w, resolved);
    PatchFine(w, resolved, saved, script.patch);
    if StateAction(w, w.remote) == Push {
      var route := Route(w.remote.raw, Local(w.task));
      PushedState(w);
      HopsFail(patched, route, w.remote.raw, Local(w.task), script.hops);
      HopsRaw(patched, route, w.remote.raw, Local(w.task), script.hops);
      HopsKeepContent(patched, route, w.remote.raw, Local(w.task), script.hops);
      var pushed := PushHops(patched, route, w.remote.raw, Local(w.task), script.hops);
      SameStateAction(pushed.now, SaveLink(pushed, w.remote).now);
    }
  }

  lemma SavedErrors(w: World, resolved: Option<int>)
    ensures SaveLocally(w, w.remote, resolved).errors == [] && SaveLocally(w, w.remote, resolved).alive
  {
    hide FieldAction, StateAction;
  }

  lemma PushedState(w: World)
    requires StateAction(w, w.remote) == Push
    ensures w.remote.raw.Some? && Pushable(Local(w.task)) && Route(w.remote.raw, Local(w.task)) != []
    ensures NewBase(w, w.remote).state == w.link.snapshot.state
  {
    hide FieldAction;
  }

  // ------------------------------------------------------------------ what the answers leave behind

  /** The hops leave the connection, the task and the content alone, and add at most their own failure. */
  lemma {:induction false} HopsTouchState(
      r: Run, path: seq<State>, current: Option<State>, target: State, outcomes: seq<Outcome>)
    ensures var after := PushHops(r, path, current, target, outcomes);
      && after.now.connection == r.now.connection && after.now.link == r.now.link
      && (after.errors == r.errors || after.errors == r.errors + [StatusNotChanged])
      && (after.alive ==> r.alive)
    decreases path
  {
    if path == [] {
    } else {
      var o := if outcomes == [] then Done else outcomes[0];
      var rest := if outcomes == [] then [] else outcomes[1..];
      HopsTouchState(Then(r, Hopped(r.now, path[0], o)), path[1..], Some(path[0]), target, rest);
    }
  }

  /**
   * What the answer to the patch leaves behind, whatever becomes of the hops.  If there is nothing to
   * send, nothing.  A 403 switches content pushes off, and only that; any other failure is noted; lost
   * credentials end the merge with the link as it was; and only an accepted patch settles what it sent.
   */
  lemma PatchMeans(w: World, resolved: Option<int>, script: Script)
    ensures var r := Merge(w, w.remote, resolved, script);
      var x, sent := r.now, ToPush(w, w.remote);
      var asked := sent != map[];
      && x.connection.canWrite == w.connection.canWrite
      && x.connection.contentPushEnabled == (w.connection.contentPushEnabled && !(asked && script.patch == Refused))
      && (asked && script.patch == AuthLost ==> !r.alive)
      && (!r.alive ==> x.link == w.link)
      && (r.alive ==>
          && (ContentNotSaved in x.link.lastError <==> asked && script.patch.Failed?)
          && x.link.snapshot.content == NewBase(w, w.remote).content + if script.patch == Done then sent else map[])
      && x.remote.content == w.remote.content + if script.patch in {Done, Failed(true)} then sent else map[]
  {
    hide FieldAction, StateAction, TaskAfter, PushHops, NewBase, ToPush, SaveLocally, PatchContent, PushState, SaveLink;
    SavedTask(w, resolved);
    SavedErrors(w, resolved);
    SavedBase(w, resolved);
    var saved := SaveLocally(w, w.remote, resolved);
    PatchAnswer(saved, ToPush(w, w.remote), script.patch);
    assert w.remote.content + map[] == w.remote.content;
    AfterPatch(PatchContent(saved, ToPush(w, w.remote), script.patch), w, script.hops);
  }

  lemma PatchAnswer(r: Run, sent: map<Field, Value>, o: Outcome)
    requires r.alive && r.errors == []
    ensures var after, asked := PatchContent(r, sent, o), sent != map[];
      && after.now.link == r.now.link && after.now.connection.canWrite == r.now.connection.canWrite
      && after.now.connection.contentPushEnabled == (r.now.connection.contentPushEnabled && !(asked && o == Refused))
      && (after.alive <==> !(asked && o == AuthLost))
      && (ContentNotSaved in after.errors <==> asked && o.Failed?)
      && after.base.content == r.base.content + (if o == Done then sent else map[])
      && after.now.remote.content == r.now.remote.content + (if o in {Done, Failed(true)} then sent else map[])
  {
    assert r.base.content + map[] == r.base.content && r.now.remote.content + map[] == r.now.remote.content;
  }

  lemma AfterPatch(r: Run, w: World, hops: seq<Outcome>)
    requires r.now.link == w.link
    ensures var after := SaveLink(PushState(r, w, w.remote, hops), w.remote);
      && after.now.connection == r.now.connection && after.now.remote.content == r.now.remote.content
      && (after.alive ==> r.alive) && (!after.alive ==> after.now.link == w.link)
      && (after.alive ==>
          && (ContentNotSaved in after.now.link.lastError <==> ContentNotSaved in r.errors)
          && after.now.link.snapshot.content == r.base.content)
  {
    hide StateAction, PushHops;
    HopsTouchState(r, Route(w.remote.raw, Local(w.task)), w.remote.raw, Local(w.task), hops);
    HopsKeepContent(r, Route(w.remote.raw, Local(w.task)), w.remote.raw, Local(w.task), hops);
  }

  /** Every request along the path is one the workflow allows. */
  predicate Walkable(current: Option<State>, path: seq<State>)
    decreases path
  {
    path == []
    || (current.Some? && Allows(current.value, path[0]) && path[0] != GivenUp && Walkable(Some(path[0]), path[1..]))
  }

  /** The answer to the k-th request; where nothing is scripted the call succeeds. */
  function AnswerTo(outcomes: seq<Outcome>, k: nat): Outcome {
    if k < |outcomes| then outcomes[k] else Done
  }

  /** The first `k` requests succeed, and the next, if there is one, does not. */
  ghost predicate Answered(path: seq<State>, outcomes: seq<Outcome>, k: nat) {
    && k <= |path| && (forall i :: 0 <= i < k ==> AnswerTo(outcomes, i) == Done)
    && (k < |path| ==> AnswerTo(outcomes, k) != Done)
  }

  /** The state after the first `k` requests along a path. */
  function Reached(current: Option<State>, path: seq<State>, k: nat): Option<State>
    requires k <= |path|
  {
    if k == 0 then current else Some(path[k - 1])
  }

  /** What the requests along a path come to, if the k-th is the first without success. */
  lemma {:induction false} HopsMean(
      r: Run, path: seq<State>, current: Option<State>, target: State, outcomes: seq<Outcome>, k: nat)
    requires r.alive && r.now.remote.raw == current && Walkable(current, path) && Answered(path, outcomes, k)
    ensures var after := PushHops(r, path, current, target, outcomes);
      && (after.alive <==> k == |path| || AnswerTo(outcomes, k) != AuthLost)
      && after.now.remote.raw ==
        Reached(current, path, if k < |path| && AnswerTo(outcomes, k) == Failed(true) then k + 1 else k)
      && (after.alive ==>
          && after.errors == r.errors + (if k < |path| then [StatusNotChanged] else [])
          && after.base.state == (if k < |path| then r.base.state else Some(target))
          && after.base.raw == Reached(current, path, k))
    decreases path
  {
    if path == [] {
    } else if k > 0 {
      assert AnswerTo(outcomes, 0) == Done;
      var rest := if outcomes == [] then [] else outcomes[1..];
      assert forall i: nat :: AnswerTo(rest, i) == AnswerTo(outcomes, i + 1);
      HopsMean(Then(r, Hopped(r.now, path[0], Done)), path[1..], Some(path[0]), target, rest, k - 1);
    }
  }

  lemma RouteIsWalkable(w: World)
    requires StateAction(w, w.remote) == Push
    ensures Walkable(w.remote.raw, Route(w.remote.raw, Local(w.task)))
  {
    PushedState(w);
    hide StateAction, Route;
    RouteIsShortest(w.remote.raw.value, Local(w.task), []);
    LegalIsWalkable(w.remote.raw.value, Route(w.remote.raw, Local(w.task)));
  }

  lemma {:induction false} LegalIsWalkable(from: State, path: seq<State>)
    requires Legal(from, path)
    ensures Walkable(Some(from), path)
    decreases path
  {
    if path == [] {
    } else {
      LegalIsWalkable(path[0], path[1..]);
    }
  }

  lemma PushesState(w: World)
    ensures StateAction(w, w.remote) == Push <==>
      && w.remote.raw.Some? && Local(w.task) != GivenUp && w.connection.canWrite
      && Some(Local(w.task)) !in {w.link.snapshot.state, Collapse(w.remote.raw)}
  {
  }

  /** The local save and the patch leave VolunHub's workflow state, and what the snapshot will say of it. */
  lemma BeforeHops(w: World, resolved: Option<int>, o: Outcome)
    ensures var patched := PatchContent(SaveLocally(w, w.remote, resolved), ToPush(w, w.remote), o);
      && (patched.alive <==> ToPush(w, w.remote) == map[] || o != AuthLost)
      && patched.now.remote.raw == w.remote.raw && StatusNotChanged !in patched.errors
      && patched.base.state == NewBase(w, w.remote).state && patched.base.raw == w.remote.raw
  {
    hide FieldAction, StateAction, TaskAfter, ToPush, SavesTask;
  }

  /**
   * What becomes of the state push, whatever became of the patch unless it lost the credentials.  It is
   * made exactly if the local state differs from the snapshot and from VolunHub and may be pushed; the
   * merge comes to its end exactly if no call loses the credentials; the task is in the state of the last
   * request that took effect; and the snapshot takes the pushed state only if every request succeeded.
   */
  lemma StatePushMeans(w: World, resolved: Option<int>, script: Script, k: nat)
    requires Answered(Route(w.remote.raw, Local(w.task)), script.hops, k)
    ensures var r, path := Merge(w, w.remote, resolved, script), Route(w.remote.raw, Local(w.task));
      var x, answer := r.now, AnswerTo(script.hops, k);
      var lost := ToPush(w, w.remote) != map[] && script.patch == AuthLost;
      var pushes := w.remote.raw.Some? && Local(w.task) != GivenUp && w.connection.canWrite
        && Some(Local(w.task)) !in {w.link.snapshot.state, Collapse(w.remote.raw)};
      if lost || !pushes then
        && r.alive == !lost && x.remote.raw == w.remote.raw
        && (r.alive ==> StatusNotChanged !in x.link.lastError && x.link.snapshot.raw == w.remote.raw)
      else
        && (r.alive <==> k == |path| || answer != AuthLost)
        && x.remote.raw == Reached(w.remote.raw, path, if k < |path| && answer == Failed(true) then k + 1 else k)
        && (r.alive ==>
            && (StatusNotChanged in x.link.lastError <==> k < |path|)
            && x.link.snapshot.state == (if k < |path| then w.link.snapshot.state else Some(Local(w.task)))
            && x.link.snapshot.raw == Reached(w.remote.raw, path, k))
  {
    hide FieldAction, StateAction, PushHops, NewBase, TaskAfter, ToPush, SaveLocally, PatchContent, Route, Walkable;
    hide Answered, Reached, AnswerTo;
    BeforeHops(w, resolved, script.patch);
    PushesState(w);
    var patched := PatchContent(SaveLocally(w, w.remote, resolved), ToPush(w, w.remote), script.patch);
    if patched.alive && StateAction(w, w.remote) == Push {
      PushedState(w);
      RouteIsWalkable(w);
      HopsMean(patched, Route(w.remote.raw, Local(w.task)), w.remote.raw, Local(w.task), script.hops, k);
    }
  }

  /** After a 403 the unsent fields keep their snapshot, and no later merge sends content again. */
  lemma RefusedPatch(w: World, resolved: Option<int>, hops: seq<Outcome>, listed: Remote)
    requires ToPush(w, w.remote) != map[]
    ensures var r := Merge(w, w.remote, resolved, Script(Refused, hops));
      && !r.now.connection.contentPushEnabled && r.now.connection.canWrite == w.connection.canWrite
      && ToPush(r.now, listed) == map[]
      && (r.alive ==>
          && ContentNotSaved !in r.now.link.lastError
          && forall f :: f in ToPush(w, w.remote) ==> SameKey(r.now.link.snapshot.content, w.link.snapshot.content, f))
  {
    hide Merge, ToPush, NewBase, SameKey;
    PatchMeans(w, resolved, Script(Refused, hops));
    var x := Merge(w, w.remote, resolved, Script(Refused, hops)).now;
    UnsentKeys(w, resolved);
    NoPushes(x, listed);
    assert NewBase(w, w.remote).content + map[] == NewBase(w, w.remote).content;
  }

  lemma NoPushes(x: World, listed: Remote)
    requires !x.connection.contentPushEnabled || !x.connection.canWrite
    ensures ToPush(x, listed) == map[]
  {
  }

  /** The task is saved before anything else is done, the link not yet, and the patch sent before any hop. */
  ghost predicate Underway(w: World, task: Task, content: Content, x: World) {
    x.task == task && x.link == w.link && (x.remote.raw != w.remote.raw ==> x.remote.content == content)
  }

  ghost predicate AllUnderway(w: World, task: Task, content: Content, r: Run) {
    r.now.task == task && r.now.link == w.link && forall x :: x in r.worlds ==> Underway(w, task, content, x)
  }

  lemma {:induction false} HopsInOrder(
      w: World, task: Task, r: Run, path: seq<State>, current: Option<State>, target: State, outcomes: seq<Outcome>)
    requires AllUnderway(w, task, r.now.remote.content, r)
    ensures AllUnderway(w, task, r.now.remote.content, PushHops(r, path, current, target, outcomes))
    decreases path
  {
    if path == [] {
    } else {
      var o := if outcomes == [] then Done else outcomes[0];
      var rest := if outcomes == [] then [] else outcomes[1..];
      HopsInOrder(w, task, Then(r, Hopped(r.now, path[0], o)), path[1..], Some(path[0]), target, rest);
    }
  }

  /** A saved task is saved before any call, and the calls to VolunHub come before the hops. */
  lemma PatchInOrder(w: World, resolved: Option<int>, o: Outcome)
    ensures var patched := PatchContent(SaveLocally(w, w.remote, resolved), ToPush(w, w.remote), o);
      AllUnderway(w, TaskAfter(w, w.remote, resolved), patched.now.remote.content, patched)
  {
    hide FieldAction, StateAction, NewBase, TaskAfter, ToPush, SaveLocally;
    SavedTask(w, resolved);
    SavedOnce(w, resolved);
  }

  lemma SavedOnce(w: World, resolved: Option<int>)
    ensures var saved := SaveLocally(w, w.remote, resolved);
      forall x :: x in saved.worlds ==> x == saved.now
  {
    hide FieldAction, StateAction, NewBase, TaskAfter;
  }

  /**
   * The order of a merge's effects: the local save, if any, comes first, the link's save, if the merge
   * comes to its end, last, and the patch before the hops.
   */
  lemma EffectsInOrder(w: World, resolved: Option<int>, script: Script, i: nat)
    requires i < |Merge(w, w.remote, resolved, script).worlds|
    ensures var r := Merge(w, w.remote, resolved, script);
      var sent := if script.patch in {Done, Failed(true)} then ToPush(w, w.remote) else map[];
      && r.worlds[i].task == TaskAfter(w, w.remote, resolved)
      && (i < |r.worlds| - 1 || !r.alive ==> r.worlds[i].link == w.link)
      && (r.worlds[i].remote.raw == w.remote.raw || r.worlds[i].remote.content == w.remote.content + sent)
      && (r.alive ==> r.worlds[|r.worlds| - 1] == r.now)
  {
    hide FieldAction, StateAction, PushHops, NewBase, TaskAfter, ToPush, SaveLocally;
    var saved := SaveLocally(w, w.remote, resolved);
    var patched := PatchContent(saved, ToPush(w, w.remote), script.patch);
    var pushed := PushState(patched, w, w.remote, script.hops);
    SavedTask(w, resolved);
    PatchInOrder(w, resolved, script.patch);
    assert w.remote.content + map[] == w.remote.content;
    HopsInOrder(w, TaskAfter(w, w.remote, resolved), patched, Route(w.remote.raw, Local(w.task)), w.remote.raw,
      Local(w.task), script.hops);
    HopsKeepContent(patched, Route(w.remote.raw, Local(w.task)), w.remote.raw, Local(w.task), script.hops);
    if i < |pushed.worlds| { assert pushed.worlds[i] in pushed.worlds; }
  }
}
