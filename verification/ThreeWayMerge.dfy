/**
 * `_decide` and `_merge` of `integrations/volunhub/sync.py`: one linked task, merged three ways.
 *
 * `World` is everything that outlives a crash: the connection's flags, the saved local task, the
 * VolunHub task and the saved link.  `Merge` lists the worlds one merge leaves behind, one per
 * effect, in the order of the effects: local save, patch, each workflow hop, link save.  What the
 * server and the network do to each call is an `Outcome` chosen by the environment.
 */
module ThreeWayMerge {
  import opened Options
  import opened Workflow

  /** A normalised value, as both sides are compared and as a snapshot stores it. */
  datatype Value = Null | Text(text: string) | Number(number: int)

  datatype Field = Title | Description | StartDate | EndDate | EstimatedTime | Priority

  const CONTENT_FIELDS: seq<Field> := [Title, Description, StartDate, EndDate, EstimatedTime, Priority]

  type Content = m: map<Field, Value> | forall f: Field :: f in m
    witness (map f: Field | true :: Null)

  type RemoteState = s: State | s != GivenUp witness Draft

  datatype Snapshot = Snapshot(content: map<Field, Value>, state: Option<State>, raw: Option<State>)
  datatype Task = Task(content: Content, completed: bool, status: Status, project: Option<int>)
  datatype Remote = Remote(content: Content, raw: Option<RemoteState>, projectId: Option<int>)
  datatype Failure = ContentNotSaved | StatusNotChanged
  datatype Link = Link(snapshot: Snapshot, externalProject: Option<int>, removed: bool, lastError: seq<Failure>)
  datatype Connection = Connection(canWrite: bool, contentPushEnabled: bool)

  datatype World = World(connection: Connection, task: Task, remote: Remote, link: Link)

  predicate PushesContent(c: Connection) {
    c.canWrite && c.contentPushEnabled
  }

  // ------------------------------------------------------------------ decisions

  datatype Action = Noop | Agree | Apply | Push | Keep

  /** `_decide`, with its conflict flag. */
  function Decide<T(==)>(base: T, remote: T, local: T, canPush: bool): (Action, bool) {
    var remoteChanged, localChanged := remote != base, local != base;
    if !remoteChanged && !localChanged then (Noop, false)
    else if remote == local then (Agree, false)
    else if localChanged && canPush then (Push, remoteChanged)
    else if remoteChanged then (Apply, localChanged)
    else (Keep, false)
  }

  /**
   * What a decision means: nothing where neither side changed, agreement where both say the same; else the
   * local value is pushed if it changed and may be, the remote one applied if that is what changed, and a
   * local change that may not be pushed is kept.  A conflict is two changes that differ.
   */
  lemma DecideMeans<T>(base: T, remote: T, local: T, canPush: bool)
    ensures var (action, conflict) := Decide(base, remote, local, canPush);
      && (conflict <==> base != remote && base != local && remote != local)
      && (action == Noop <==> base == remote == local)
      && (action == Agree <==> base != remote == local)
      && (action == Push <==> local !in {base, remote} && canPush)
      && (action == Apply <==> remote !in {base, local} && !(canPush && local != base))
      && (action == Keep <==> base == remote != local && !canPush)
  {
  }

  /** `base.get(field)`. */
  function Get(m: map<Field, Value>, f: Field): Value {
    if f in m then m[f] else Null
  }

  function Local(t: Task): State {
    LocalState(t.completed, t.status)
  }

  function FieldAction(w: World, listed: Remote, f: Field): Action {
    Decide(Get(w.link.snapshot.content, f), listed.content[f], w.task.content[f], PushesContent(w.connection)).0
  }

  /** No action where VolunHub has no workflow or the user gave the task up. */
  function StateAction(w: World, listed: Remote): Action {
    if listed.raw.None? || Local(w.task) == GivenUp then Noop
    else Decide(w.link.snapshot.state, Collapse(listed.raw), Some(Local(w.task)), w.connection.canWrite).0
  }

  function ToApply(w: World, listed: Remote): map<Field, Value> {
    map f: Field | FieldAction(w, listed, f) == Apply :: listed.content[f]
  }

  function ToPush(w: World, listed: Remote): map<Field, Value> {
    map f: Field | FieldAction(w, listed, f) == Push :: w.task.content[f]
  }

  function ToSettle(w: World, listed: Remote): map<Field, Value> {
    map f: Field | FieldAction(w, listed, f) in {Agree, Apply} :: listed.content[f]
  }

  /** `new_base` before any call is made. */
  function NewBase(w: World, listed: Remote): Snapshot {
    Snapshot(
      w.link.snapshot.content + ToSettle(w, listed),
      if listed.raw.None? then None
      else if StateAction(w, listed) in {Agree, Apply} then Collapse(listed.raw)
      else w.link.snapshot.state,
      listed.raw)
  }

  predicate Moved(w: World, listed: Remote) {
    listed.projectId != w.link.externalProject
  }

  /** `apply_to_task`: only the given keys are touched. */
  function ApplyToTask(t: Task, values: map<Field, Value>, state: Option<State>): Task {
    var (completed, status) := ApplyState(t.completed, t.status, state);
    t.(content := t.content + values, completed := completed, status := status)
  }

  function StateToApply(w: World, listed: Remote): Option<State> {
    if StateAction(w, listed) == Apply then Collapse(listed.raw) else None
  }

  predicate SavesTask(w: World, listed: Remote) {
    ToApply(w, listed) != map[] || StateToApply(w, listed).Some? || Moved(w, listed)
  }

  function TaskAfter(w: World, listed: Remote, resolved: Option<int>): Task {
    ApplyToTask(if Moved(w, listed) then w.task.(project := resolved)
        else w.task, ToApply(w, listed), StateToApply(w, listed))
  }

  // ------------------------------------------------------------------ calls

  /** What becomes of a call: a 403, any other API error (which may have taken effect), or lost credentials. */
  datatype Outcome = Done | Refused | Failed(took: bool) | AuthLost

  function Patched(w: World, values: map<Field, Value>, o: Outcome): World {
    if o == Done || o == Failed(true) then w.(remote := w.remote.(content := w.remote.content + values)) else w
  }

  /** VolunHub accepts a state request only along its workflow. */
  predicate Accepts(r: Remote, s: State) {
    r.raw.Some? && Allows(r.raw.value, s) && s != GivenUp
  }

  predicate HopDone(w: World, s: State, o: Outcome) {
    o == Done && Accepts(w.remote, s)
  }

  function Hopped(w: World, s: State, o: Outcome): World {
    if (o == Done || o == Failed(true)) && Accepts(w.remote, s) then w.(remote := w.remote.(raw := Some(s))) else w
  }

  datatype Script = Script(patch: Outcome, hops: seq<Outcome>)

  const CLEAN := Script(Done, [])

  // ------------------------------------------------------------------ one merge

  /** A merge in progress: the worlds it has left, whether it still runs, and its unsaved link values. */
  datatype Run = Run(worlds: seq<World>, now: World, alive: bool, base: Snapshot, errors: seq<Failure>)

  function Then(r: Run, w: World): Run {
    r.(worlds := r.worlds + [w], now := w)
  }

  function SaveLocally(w: World, listed: Remote, resolved: Option<int>): Run {
    var start := Run([], w, true, NewBase(w, listed), []);
    if SavesTask(w, listed) then Then(start, w.(task := TaskAfter(w, listed, resolved))) else start
  }

  function PatchContent(r: Run, push: map<Field, Value>, o: Outcome): Run {
    if push == map[] then r
    else
      var after := Then(r, Patched(r.now, push, o));
      match o
      case Done => after.(base := r.base.(content := r.base.content + push))
      case Refused => Then(after, r.now.(connection := r.now.connection.(contentPushEnabled := false)))
      case Failed(_) => after.(errors := r.errors + [ContentNotSaved])
      case AuthLost => after.(alive := false)
  }

  function PushHops(r: Run, path: seq<State>, current: Option<State>, target: State, outcomes: seq<Outcome>): Run
    decreases path
  {
    if path == [] then r.(base := r.base.(state := Some(target), raw := current))
    else
      var o := if outcomes == [] then Done else outcomes[0];
      var after := Then(r, Hopped(r.now, path[0], o));
      if o == AuthLost then after.(alive := false)
      else if HopDone(r.now, path[0], o) then
        PushHops(after, path[1..], Some(path[0]), target, if outcomes == [] then [] else outcomes[1..])
      else after.(errors := r.errors + [StatusNotChanged], base := r.base.(raw := current))
  }

  function PushState(r: Run, w: World, listed: Remote, outcomes: seq<Outcome>): Run {
    if r.alive && StateAction(w, listed) == Push
    then PushHops(r, Route(listed.raw, Local(w.task)), listed.raw, Local(w.task), outcomes)
    else r
  }

  function SaveLink(r: Run, listed: Remote): Run {
    if r.alive then Then(r, r.now.(link := Link(r.base, listed.projectId, false, r.errors))) else r
  }

  /** One merge of `w` against the listed task, with the calls turning out as scripted. */
  function Merge(w: World, listed: Remote, resolved: Option<int>, script: Script): Run {
    var saved := SaveLocally(w, listed, resolved);
    var patched := PatchContent(saved, ToPush(w, listed), script.patch);
    SaveLink(PushState(patched, w, listed, script.hops), listed)
  }

  /** Where an undisturbed merge ends, the listing being current. */
  function Clean(w: World, resolved: Option<int>): World {
    Merge(w, w.remote, resolved, CLEAN).now
  }
}
