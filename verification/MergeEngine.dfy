/**
 * `_merge` as the source runs it: in-memory copies, a loop over the content fields, calls that may
 * fail, a loop over the hops, and one save of the link at the end.  Its effects are proved to be the
 * ones `ThreeWayMerge.Merge` lists, in that order.
 */
module MergeEngine {
  import opened Options
  import opened Workflow
  import opened ThreeWayMerge

  /** The database rows and the VolunHub server one merge works on. */
  class Environment {
    var connection: Connection
    var task: Task
    var remote: Remote
    var link: Link
    var patchOutcome: Outcome
    var hopOutcomes: seq<Outcome>
    /** The worlds left by the effects so far. */
    ghost var trace: seq<World>

    function Now(): World
      reads this
    {
      World(connection, task, remote, link)
    }

    method SaveTask(t: Task)
      modifies this`task, this`trace
      ensures Now() == old(Now()).(task := t) && trace == old(trace) + [Now()]
    {
      task := t;
      trace := trace + [Now()];
    }

    method SaveLink(l: Link)
      modifies this`link, this`trace
      ensures Now() == old(Now()).(link := l) && trace == old(trace) + [Now()]
    {
      link := l;
      trace := trace + [Now()];
    }

    method DisableContentPush()
      modifies this`connection, this`trace
      ensures Now() == old(Now()).(connection := old(connection).(contentPushEnabled := false))
      ensures trace == old(trace) + [Now()]
    {
      connection := connection.(contentPushEnabled := false);
      trace := trace + [Now()];
    }

    method PatchTask(values: map<Field, Value>) returns (o: Outcome)
      modifies this`remote, this`trace
      ensures o == patchOutcome && Now() == Patched(old(Now()), values, o) && trace == old(trace) + [Now()]
    {
      o := patchOutcome;
      if o == Done || o == Failed(true) {
        remote := remote.(content := remote.content + values);
      }
      trace := trace + [Now()];
    }

    /** The answer to a state request: a 409 where the workflow does not allow it. */
    method SetState(s: State) returns (o: Outcome)
      modifies this`remote, this`hopOutcomes, this`trace
      ensures var due := if old(hopOutcomes) == [] then Done else old(hopOutcomes)[0];
        && Now() == Hopped(old(Now()), s, due)
        && (o == Done <==> HopDone(old(Now()), s, due)) && (o == AuthLost <==> due == AuthLost)
      ensures hopOutcomes == if old(hopOutcomes) == [] then [] else old(hopOutcomes)[1..]
      ensures trace == old(trace) + [Now()]
    {
      o := Done;
      if hopOutcomes != [] {
        o, hopOutcomes := hopOutcomes[0], hopOutcomes[1..];
      }
      var accepted := Accepts(remote, s);
      if (o == Done || o == Failed(true)) && accepted {
        remote := remote.(raw := Some(s));
      }
      if o == Done && !accepted {
        o := Failed(false);
      }
      trace := trace + [Now()];
    }
  }

  /** The part of a merge's bulk updates that some of the fields account for. */
  function Part(
      w: World, listed: Remote, fields: seq<Field>, actions: set<Action>, values: Content): map<Field, Value> {
    map f: Field | f in fields && FieldAction(w, listed, f) in actions :: values[f]
  }

  lemma AllFields(f: Field)
    ensures f in CONTENT_FIELDS
  {
    match f
    case Title => assert CONTENT_FIELDS[0] == f;
    case Description => assert CONTENT_FIELDS[1] == f;
    case StartDate => assert CONTENT_FIELDS[2] == f;
    case EndDate => assert CONTENT_FIELDS[3] == f;
    case EstimatedTime => assert CONTENT_FIELDS[4] == f;
    case Priority => assert CONTENT_FIELDS[5] == f;
  }

  lemma PartOfAll(w: World, listed: Remote)
    ensures Part(w, listed, CONTENT_FIELDS, {Apply}, listed.content) == ToApply(w, listed)
    ensures Part(w, listed, CONTENT_FIELDS, {Push}, w.task.content) == ToPush(w, listed)
    ensures Part(w, listed, CONTENT_FIELDS, {Agree, Apply}, listed.content) == ToSettle(w, listed)
  {
    hide FieldAction;
    forall f: Field ensures f in CONTENT_FIELDS { AllFields(f); }
  }

  lemma PartStep(w: World, listed: Remote, i: nat, actions: set<Action>, values: Content)
    requires i < |CONTENT_FIELDS|
    ensures var f, before := CONTENT_FIELDS[i], Part(w, listed, CONTENT_FIELDS[..i], actions, values);
      Part(w, listed, CONTENT_FIELDS[..i + 1], actions, values)
        == if FieldAction(w, listed, f) in actions then before[f := values[f]] else before
  {
    hide FieldAction, Part;
    assert CONTENT_FIELDS[..i + 1] == CONTENT_FIELDS[..i] + [CONTENT_FIELDS[i]];
    PartMore(w, listed, CONTENT_FIELDS[..i], CONTENT_FIELDS[i], actions, values);
  }

  lemma PartMore(w: World, listed: Remote, fields: seq<Field>, f: Field, actions: set<Action>, values: Content)
    ensures var before := Part(w, listed, fields, actions, values);
      Part(w, listed, fields + [f], actions, values)
        == if FieldAction(w, listed, f) in actions then before[f := values[f]] else before
  {
    hide FieldAction;
  }

  lemma UpdateLater(base: map<Field, Value>, more: map<Field, Value>, f: Field, value: Value)
    ensures (base + more)[f := value] == base + more[f := value]
  {
  }

  /** The loop over the content fields. */
  method DecideContent(w: World, listed: Remote)
      returns (settled: map<Field, Value>, applyLocal: map<Field, Value>, pushContent: map<Field, Value>)
    ensures settled == w.link.snapshot.content + ToSettle(w, listed)
    ensures applyLocal == ToApply(w, listed) && pushContent == ToPush(w, listed)
  {
    hide Part, FieldAction, ToSettle, ToApply, ToPush, CONTENT_FIELDS;
    var base := w.link.snapshot.content;
    settled, applyLocal, pushContent := base, map[], map[];
    PartOfNone(w, listed);
    for i := 0 to |CONTENT_FIELDS|
      invariant settled == base + Part(w, listed, CONTENT_FIELDS[..i], {Agree, Apply}, listed.content)
      invariant applyLocal == Part(w, listed, CONTENT_FIELDS[..i], {Apply}, listed.content)
      invariant pushContent == Part(w, listed, CONTENT_FIELDS[..i], {Push}, w.task.content)
    {
      PartStep(w, listed, i, {Agree, Apply}, listed.content);
      PartStep(w, listed, i, {Apply}, listed.content);
      PartStep(w, listed, i, {Push}, w.task.content);
      var field := CONTENT_FIELDS[i];
      var action := FieldAction(w, listed, field);
      if action in {Agree, Apply} {
        ghost var before := Part(w, listed, CONTENT_FIELDS[..i], {Agree, Apply}, listed.content);
        UpdateLater(base, before, field, listed.content[field]);
        settled := settled[field := listed.content[field]];
      }
      if action == Apply {
        applyLocal := applyLocal[field := listed.content[field]];
      } else if action == Push {
        pushContent := pushContent[field := w.task.content[field]];
      }
    }
    assert CONTENT_FIELDS[..|CONTENT_FIELDS|] == CONTENT_FIELDS;
    PartOfAll(w, listed);
  }

  lemma PartOfNone(w: World, listed: Remote)
    ensures Part(w, listed, [], {Agree, Apply}, listed.content) == map[]
    ensures Part(w, listed, [], {Apply}, listed.content) == map[]
    ensures Part(w, listed, [], {Push}, w.task.content) == map[]
  {
    hide FieldAction;
  }

  /** The loop over the hops of a state push; `r` is the merge so far. */
  method RunHops(env: Environment, ghost r: Run, path: seq<State>, start: Option<State>, target: State)
      returns (current: Option<State>, lost: bool, failed: bool, ghost after: Run)
    requires r.now == env.Now() && r.alive
    modifies env`remote, env`hopOutcomes, env`trace
    ensures after == PushHops(r, path, start, target, old(env.hopOutcomes))
    ensures after.now == env.Now()
    ensures r.worlds <= after.worlds && env.trace == old(env.trace) + after.worlds[|r.worlds|..]
    ensures lost <==> !after.alive
    ensures !lost ==> after.errors == r.errors + if failed then [StatusNotChanged] else []
    ensures !lost ==> after.base == if failed then r.base.(raw := current)
        else r.base.(state := Some(target), raw := current)
  {
    current, lost, failed, after := start, false, false, r;
    var i := 0;
    while i < |path|
      invariant 0 <= i <= |path| && after.alive
      invariant after.now == env.Now() && after.base == r.base && after.errors == r.errors
      invariant r.worlds <= after.worlds && env.trace == old(env.trace) + after.worlds[|r.worlds|..]
      invariant PushHops(after, path[i..], current, target, env.hopOutcomes)
          == PushHops(r, path, start, target, old(env.hopOutcomes))
    {
      ghost var before := after;
      ghost var due := if env.hopOutcomes == [] then Done else env.hopOutcomes[0];
      var o := env.SetState(path[i]);
      after := Then(before, Hopped(before.now, path[i], due));
      assert path[i..][0] == path[i] && path[i..][1..] == path[i + 1..];
      if o == AuthLost {
        after := after.(alive := false);
        return current, true, false, after;
      }
      if o != Done {
        after := after.(errors := r.errors + [StatusNotChanged], base := r.base.(raw := current));
        return current, false, true, after;
      }
      current := Some(path[i]);
      i := i + 1;
    }
    assert path[i..] == [];
    after := after.(base := r.base.(state := Some(target), raw := current));
  }

  /** Everything `_merge` does before its first call: the decisions and the local save. */
  method DecideAndSave(env: Environment, listed: Remote, resolved: Option<int>)
      returns (newBase: Snapshot, pushContent: map<Field, Value>, pushState: Option<State>)
    modifies env`task, env`trace
    ensures var saved := SaveLocally(old(env.Now()), listed, resolved);
      env.Now() == saved.now && env.trace == old(env.trace) + saved.worlds
    ensures newBase == NewBase(old(env.Now()), listed) && pushContent == ToPush(old(env.Now()), listed)
    ensures pushState == if StateAction(old(env.Now()), listed) == Push then Some(Local(old(env.task))) else None
  {
    hide FieldAction, StateAction, ToApply, ToPush, ToSettle, ApplyToTask;
    var task, link := env.task, env.link;
    var settled, applyLocal, push := DecideContent(env.Now(), listed);
    pushContent := push;
    newBase := Snapshot(settled, link.snapshot.state, link.snapshot.raw);
    var applyState: Option<State> := None;
    pushState := None;
    StateActionGuard(env.Now(), listed);
    if listed.raw.None? {
      newBase := newBase.(state := None);
    } else if Local(task) != GivenUp {
      var action := StateAction(env.Now(), listed);
      if action in {Agree, Apply} {
        newBase := newBase.(state := Collapse(listed.raw));
      }
      if action == Apply {
        applyState := Collapse(listed.raw);
      } else if action == Push {
        pushState := Some(Local(task));
      }
    }
    newBase := newBase.(raw := listed.raw);

    var projectChanged := listed.projectId != link.externalProject;
    if projectChanged {
      task := task.(project := resolved);
    }
    if applyLocal != map[] || applyState.Some? || projectChanged {
      task := ApplyToTask(task, applyLocal, applyState);
      env.SaveTask(task);
    }
  }

  method SendContent(env: Environment, ghost saved: Run, base: Snapshot, pushContent: map<Field, Value>)
      returns (lost: bool, newBase: Snapshot, errors: seq<Failure>)
    requires saved.now == env.Now() && saved.alive && saved.errors == [] && saved.base == base
    modifies env`remote, env`connection, env`trace
    ensures var patched := PatchContent(saved, pushContent, old(env.patchOutcome));
      && env.Now() == patched.now && (lost <==> !patched.alive)
      && newBase == patched.base && errors == patched.errors
      && saved.worlds <= patched.worlds && env.trace == old(env.trace) + patched.worlds[|saved.worlds|..]
  {
    lost, newBase, errors := false, base, [];
    if pushContent != map[] {
      var o := env.PatchTask(pushContent);
      match o {
        case AuthLost => lost := true;
        case Refused => env.DisableContentPush();
        case Failed(_) => errors := errors + [ContentNotSaved];
        case Done => newBase := newBase.(content := newBase.content + pushContent);
      }
    }
  }

  /** The hops of a state push, and what they make of the new base. */
  method SendState(
      env: Environment, ghost patched: Run, base: Snapshot, errors: seq<Failure>, listed: Remote, target: State)
      returns (lost: bool, newBase: Snapshot, newErrors: seq<Failure>)
    requires patched.now == env.Now() && patched.alive && patched.base == base && patched.errors == errors
    modifies env`remote, env`hopOutcomes, env`trace
    ensures var pushed := PushHops(patched, Route(listed.raw, target), listed.raw, target, old(env.hopOutcomes));
      && env.Now() == pushed.now && (lost <==> !pushed.alive)
      && (!lost ==> newBase == pushed.base && newErrors == pushed.errors)
      && patched.worlds <= pushed.worlds && env.trace == old(env.trace) + pushed.worlds[|patched.worlds|..]
  {
    hide PushHops, Route;
    newBase, newErrors := base, errors;
    var current, hopLost, failed, _ := RunHops(env, patched, Route(listed.raw, target), listed.raw, target);
    lost := hopLost;
    if failed {
      newErrors := newErrors + [StatusNotChanged];
    } else {
      newBase := newBase.(state := Some(target));
    }
    newBase := newBase.(raw := current);
  }

  /** `_merge`; losing the credentials ends it before the link is saved. */
  method MergeTask(env: Environment, listed: Remote, resolved: Option<int>)
    modifies env
    ensures var r := Merge(old(env.Now()), listed, resolved, Script(old(env.patchOutcome), old(env.hopOutcomes)));
      env.Now() == r.now && env.trace == old(env.trace) + r.worlds
  {
    hide FieldAction, StateAction, PushHops, ToPush, Route, SaveLocally, PatchContent, NewBase;
    ghost var start, trace := env.Now(), env.trace;
    ghost var saved := SaveLocally(start, listed, resolved);
    SavedRun(start, listed, resolved);
    var newBase, pushContent, pushState := DecideAndSave(env, listed, resolved);

    ghost var patched := PatchContent(saved, pushContent, env.patchOutcome);
    ghost var pushed := PushState(patched, start, listed, env.hopOutcomes);
    var lost, base, errors := SendContent(env, saved, newBase, pushContent);
    TraceGrows(trace, saved.worlds, patched.worlds);
    if lost {
      return;
    }

    if pushState.Some? {
      lost, base, errors := SendState(env, patched, base, errors, listed, pushState.value);
      TraceGrows(trace, patched.worlds, pushed.worlds);
      if lost {
        return;
      }
    }
    env.SaveLink(Link(base, listed.projectId, false, errors));
    TraceGrows(trace, pushed.worlds, pushed.worlds + [env.Now()]);
  }

  lemma TraceGrows(trace: seq<World>, before: seq<World>, after: seq<World>)
    requires before <= after
    ensures trace + before + after[|before|..] == trace + after
  {
  }

  lemma SavedRun(w: World, listed: Remote, resolved: Option<int>)
    ensures var saved := SaveLocally(w, listed, resolved);
      saved.alive && saved.errors == [] && saved.base == NewBase(w, listed)
  {
    hide NewBase, SavesTask, TaskAfter;
  }

  lemma StateActionGuard(w: World, listed: Remote)
    ensures listed.raw.None? || Local(w.task) == GivenUp ==> StateAction(w, listed) == Noop
    ensures StateAction(w, listed) == Push ==> Local(w.task) != GivenUp && listed.raw.Some?
  {
  }
}
