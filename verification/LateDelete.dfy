/**
 * A task deleted while a VolunHub run is at work: the run reads its links once, so `_merge` may still
 * hold, and save, a task and a link whose rows have changed.
 */
module LateDelete {
  import opened Options
  import opened Mirror
  import W = Workflow
  import M = ThreeWayMerge

  /**
   * What one effect of a merge does to the tables.  The first, if the merge saves the task, inserts it
   * again if it is gone; the last, if the merge comes that far, saves the link as it was read, which
   * breaks a foreign key and saves nothing if the task is gone; those between are VolunHub's.
   */
  function Effect(s: Tables, key: Key, row: LinkRow, saves: bool, r: M.Run, i: nat): Tables
    requires row.task.Some?
  {
    var task := row.task.value;
    if i == 0 && saves then s.(tasks := s.tasks[task := key.user])
    else if i == |r.worlds| - 1 && r.alive && task in s.tasks then s.(links := s.links[key := row.(removed := None)])
    else s
  }

  /** Some of a merge's effects, in turn. */
  function Effects(s: Tables, key: Key, row: LinkRow, saves: bool, r: M.Run, start: nat, end: nat): Tables
    requires row.task.Some? && start <= end
    decreases end
  {
    if start == end then s else Effect(Effects(s, key, row, saves, r, start, end - 1), key, row, saves, r, end - 1)
  }

  lemma {:induction false} HopsAdd(
      r: M.Run, path: seq<W.State>, current: Option<W.State>, target: W.State, outcomes: seq<M.Outcome>)
    ensures |r.worlds| <= |M.PushHops(r, path, current, target, outcomes).worlds|
    decreases path
  {
    if path == [] {
    } else {
      var o := if outcomes == [] then M.Done else outcomes[0];
      var rest := if outcomes == [] then [] else outcomes[1..];
      HopsAdd(M.Then(r, M.Hopped(r.now, path[0], o)), path[1..], Some(path[0]), target, rest);
    }
  }

  /** A merge that runs to its end saves the link last, after the task if it saves that. */
  lemma LinkSavedLast(w: M.World, listed: M.Remote, resolved: Option<int>, script: M.Script)
    ensures var r := M.Merge(w, listed, resolved, script);
      && (r.alive ==> |r.worlds| >= if M.SavesTask(w, listed) then 2 else 1)
      && (M.SavesTask(w, listed) ==> |r.worlds| >= 1)
  {
    hide M.SavesTask, M.TaskAfter, M.NewBase, M.ToPush, M.StateAction, M.Patched, M.PushHops, W.Route;
    var saved := M.SaveLocally(w, listed, resolved);
    var patched := M.PatchContent(saved, M.ToPush(w, listed), script.patch);
    HopsAdd(patched, W.Route(listed.raw, M.Local(w.task)), listed.raw, M.Local(w.task), script.hops);
  }

  /** The save of the task, if it is among the effects, and that of the link, if the task is there for it. */
  function TwoSaves(s: Tables, key: Key, row: LinkRow, saves: bool, r: M.Run, start: nat, end: nat): Tables
    requires row.task.Some?
  {
    var task := row.task.value;
    var inserted := if start == 0 && end > 0 && saves then s.(tasks := s.tasks[task := key.user]) else s;
    if start < end && end == |r.worlds| && r.alive && task in inserted.tasks
    then inserted.(links := s.links[key := row.(removed := None)]) else inserted
  }

  /** The effects from the first on, or from a later one, come to the two saves they hold. */
  lemma {:induction false} EffectsAre(s: Tables, key: Key, row: LinkRow, saves: bool, r: M.Run, start: nat, end: nat)
    requires row.task.Some? && start <= end <= |r.worlds| && (r.alive && saves ==> |r.worlds| >= 2)
    ensures Effects(s, key, row, saves, r, start, end) == TwoSaves(s, key, row, saves, r, start, end)
    decreases end
  {
    if start == end {
    } else {
      EffectsAre(s, key, row, saves, r, start, end - 1);
    }
  }

  /** Undisturbed, a merge that runs to its end does to a known link what a run does. */
  lemma MergedInTime(s: Tables, key: Key, w: M.World, listed: M.Remote, resolved: Option<int>, script: M.Script)
    requires Consistent(s) && key in s.links && s.links[key].task.Some?
    ensures var r := M.Merge(w, listed, resolved, script);
      Effects(s, key, s.links[key], M.SavesTask(w, listed), r, 0, |r.worlds|)
        == (if r.alive then SyncedOne(s, key) else s)
  {
    var r, row := M.Merge(w, listed, resolved, script), s.links[key];
    LinkSavedLast(w, listed, resolved, script);
    hide M.Merge, M.SavesTask;
    EffectsAre(s, key, row, M.SavesTask(w, listed), r, 0, |r.worlds|);
    assert s.tasks[row.task.value := key.user] == s.tasks;
  }

  /**
   * The user deletes a task after its link was read and after `d` of its merge's effects.  The task is
   * back if and only if the merge was yet to save it, that is, decided to and had not; its link points
   * at it again if moreover the merge comes to its end, and is a tombstone otherwise.
   */
  lemma DeletedDuringRun(
      s: Tables, key: Key, w: M.World, listed: M.Remote, resolved: Option<int>, script: M.Script, d: nat)
    requires Consistent(s) && key in s.links && s.links[key].task.Some?
    requires d <= |M.Merge(w, listed, resolved, script).worlds|
    ensures var r, saves, row := M.Merge(w, listed, resolved, script), M.SavesTask(w, listed), s.links[key];
      var task := row.task.value;
      var after := Effects(Deleting(Effects(s, key, row, saves, r, 0, d), task), key, row, saves, r, d, |r.worlds|);
      && (task in after.tasks <==> saves && d == 0)
      && key in after.links
      && after.links[key].task == (if saves && d == 0 && r.alive then Some(task) else None)
      && Consistent(after)
  {
    var r, saves, row := M.Merge(w, listed, resolved, script), M.SavesTask(w, listed), s.links[key];
    LinkSavedLast(w, listed, resolved, script);
    hide M.Merge, M.SavesTask;
    hide Consistent, Deleting, Effect;
    EffectsAre(s, key, row, saves, r, 0, d);
    BeforeDelete(s, key, saves, r, d);
    var before := Effects(s, key, row, saves, r, 0, d);
    EffectsAre(Deleting(before, row.task.value), key, row, saves, r, d, |r.worlds|);
    AfterDelete(before, key, row, saves, r, d);
  }

  /** As long as the task is there, the link is its own, whatever of the merge has taken effect. */
  lemma BeforeDelete(s: Tables, key: Key, saves: bool, r: M.Run, d: nat)
    requires Consistent(s) && key in s.links && s.links[key].task.Some?
    ensures var before := TwoSaves(s, key, s.links[key], saves, r, 0, d);
      Consistent(before) && key in before.links && before.links[key].task == s.links[key].task
  {
    assert s.tasks[s.links[key].task.value := key.user] == s.tasks;
  }

  lemma AfterDelete(s: Tables, key: Key, row: LinkRow, saves: bool, r: M.Run, d: nat)
    requires Consistent(s) && key in s.links && row.task.Some? && s.links[key].task == row.task
    requires d <= |r.worlds| && (saves ==> |r.worlds| >= 1)
    ensures var task := row.task.value;
      var after := TwoSaves(Deleting(s, task), key, row, saves, r, d, |r.worlds|);
      && (task in after.tasks <==> saves && d == 0)
      && key in after.links
      && after.links[key].task == (if saves && d == 0 && r.alive then Some(task) else None)
      && Consistent(after)
  {
  }
}
