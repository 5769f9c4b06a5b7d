/**
 * Which local task mirrors which VolunHub task: `_sync_tasks`, `_import`, `_detect_removals` of
 * `integrations/volunhub/sync.py` and the disconnect view, over any history.
 *
 * What a merge does to a task's fields is `ThreeWayMerge`'s business; here it only re-attaches the
 * link it ends by saving.
 */
module Mirror {
  import opened Options

  datatype Key = Key(user: int, externalId: int)
  datatype Reason = Unassigned | Deleted | Disconnected

  /** A `VolunHubTaskLink`: no task makes it a tombstone, a reason makes it removed. */
  datatype LinkRow = LinkRow(task: Option<int>, removed: Option<Reason>)

  /** The tables: each task's owner, the links under their unique constraint, the next primary key. */
  datatype Tables = Tables(tasks: map<int, int>, links: map<Key, LinkRow>, nextTask: int)

  /** VolunHub's answer to a lookup by id. */
  datatype Lookup = Found | NotFound | Unclear | AuthLost

  // ------------------------------------------------------------------ what a run does

  function Imported(s: Tables, key: Key): Tables {
    s.(tasks := s.tasks[s.nextTask := key.user],
       links := s.links[key := LinkRow(Some(s.nextTask), None)],
       nextTask := s.nextTask + 1)
  }

  function SyncedOne(s: Tables, key: Key): Tables {
    if key !in s.links then Imported(s, key)
    else if s.links[key].task.None? then s
    else s.(links := s.links[key := s.links[key].(removed := None)])
  }

  function Synced(s: Tables, user: int, listing: seq<int>): Tables {
    if listing == [] then s
    else SyncedOne(Synced(s, user, listing[..|listing| - 1]), Key(user, listing[|listing| - 1]))
  }

  /** A link `_detect_removals` asks VolunHub about. */
  predicate Missing(s: Tables, user: int, seen: set<int>, key: Key) {
    key in s.links && key.user == user && key.externalId !in seen
    && s.links[key].removed.None? && s.links[key].task.Some?
  }

  function Marked(row: LinkRow, answer: Lookup): LinkRow {
    match answer
    case NotFound => row.(removed := Some(Deleted))
    case Found => row.(removed := Some(Unassigned))
    case _ => row
  }

  /** The links after the lookups of the keys in `asked`. */
  function MarkedLinks(
      s: Tables, user: int, seen: set<int>, lookups: map<int, Lookup>, asked: set<Key>): map<Key, LinkRow> {
    map key | key in s.links ::
      if key in asked && Missing(s, user, seen, key) && key.externalId in lookups
      then Marked(s.links[key], lookups[key.externalId]) else s.links[key]
  }

  /** The tombstones that left the listing are dropped once every lookup is answered. */
  function WithoutTombstones(links: map<Key, LinkRow>, user: int, seen: set<int>): map<Key, LinkRow> {
    map key | key in links && !(key.user == user && links[key].task.None? && key.externalId !in seen) :: links[key]
  }

  /** An active link of the user that is not in the listing. */
  predicate IsAskable(links: map<Key, LinkRow>, user: int, listing: seq<int>, key: Key) {
    key in links && key.user == user && key.externalId !in listing && links[key].removed.None? && links[key].task.Some?
  }

  class Database {
    var tasks: map<int, int>
    var links: map<Key, LinkRow>
    var nextTask: int

    function State(): Tables
      reads this
    {
      Tables(tasks, links, nextTask)
    }

    /** `_import`, in one transaction; the unique constraint is its precondition. */
    method Import(key: Key)
      requires key !in links
      modifies this
      ensures State() == Imported(old(State()), key)
    {
      tasks := tasks[nextTask := key.user];
      links := links[key := LinkRow(Some(nextTask), None)];
      nextTask := nextTask + 1;
    }

    /**
     * `_sync_tasks`: the links are read once, before the loop.  `count` tasks are reached before the
     * credentials are lost, all of them if they are not.
     */
    method SyncTasks(user: int, listing: seq<int>, count: nat)
      requires count <= |listing|
      requires forall i, j :: 0 <= i < j < |listing| ==> listing[i] != listing[j]
      modifies this
      ensures State() == Synced(old(State()), user, listing[..count])
    {
      var known := links;
      for i := 0 to count
        invariant State() == Synced(old(State()), user, listing[..i])
        invariant forall key: Key :: key !in links ==> key !in known
        invariant forall key: Key :: (key.user == user ==> key.externalId !in listing[..i]) ==>
          ((key in links <==> key in known) && (key in known ==> links[key] == known[key]))
      {
        assert listing[..i + 1][..i] == listing[..i];
        var key := Key(user, listing[i]);
        if key !in known {
          Import(key);
        } else if known[key].task.None? {
        } else {
          links := links[key := links[key].(removed := None)];
        }
      }
    }

    /**
     * `_detect_removals`.  The lookups come in any order and stop at the first that loses the
     * credentials; tombstones are dropped only if none does.
     */
    method DetectRemovals(user: int, seen: set<int>, lookups: map<int, Lookup>) returns (asked: set<Key>, lost: bool)
      requires forall key :: key in links ==> key.externalId in lookups
      modifies this`links
      ensures forall key :: key in asked ==> Missing(old(State()), user, seen, key)
      ensures lost <==> exists key ::
        && key in old(links) && key.user == user && key.externalId !in seen
        && old(links)[key].removed.None? && old(links)[key].task.Some? && lookups[key.externalId] == AuthLost
      ensures !lost ==> forall key :: Missing(old(State()), user, seen, key) ==> key in asked
      ensures var marked := MarkedLinks(old(State()), user, seen, lookups, asked);
        links == if lost then marked else WithoutTombstones(marked, user, seen)
    {
      ghost var start := State();
      var missing := set key | key in links && Missing(State(), user, seen, key);
      var pending := missing;
      asked, lost := {}, false;
      while pending != {}
        invariant pending <= missing && asked == missing - pending
        invariant links == MarkedLinks(start, user, seen, lookups, asked)
        invariant forall key :: key in asked ==> lookups[key.externalId] != AuthLost
        decreases pending
      {
        var key :| key in pending;
        assert links[key] == start.links[key];
        var answer := lookups[key.externalId];
        if answer == AuthLost {
          lost := true;
          return;
        }
        links := links[key := Marked(links[key], answer)];
        asked, pending := asked + {key}, pending - {key};
      }
      links := WithoutTombstones(links, user, seen);
    }

    /** The steps of `sync_connection` on the tables: merge what is listed, then look for removals. */
    method SyncConnection(user: int, listing: seq<int>, count: nat, lookups: map<int, Lookup>) returns (ghost e: Event)
      requires count <= |listing|
      requires forall i, j :: 0 <= i < j < |listing| ==> listing[i] != listing[j]
      requires forall key :: key in Synced(State(), user, listing).links ==> key.externalId in lookups
      modifies this
      ensures e.Sync? && e.user == user && e.listing == listing && e.count == count && Possible(e)
      ensures State() == Ran(old(State()), e) && e.lookups == lookups
      ensures count == |listing| ==> (e.lost <==>
        exists key :: IsAskable(Synced(old(State()), user, listing).links, user, listing, key)
          && lookups[key.externalId] == AuthLost)
      ensures count == |listing| && !e.lost ==>
        forall key :: key in e.asked <==> IsAskable(Synced(old(State()), user, listing).links, user, listing, key)
    {
      SyncTasks(user, listing, count);
      e := Sync(user, listing, count, lookups, {}, false);
      if count == |listing| {
        assert listing[..count] == listing;
        var seen := set id | id in listing;
        var asked, lost := DetectRemovals(user, seen, lookups);
        e := Sync(user, listing, count, lookups, asked, lost);
        assert SeenBy(e) == seen;
      }
    }
  }

  // ------------------------------------------------------------------ any history

  /** What happens to the tables: runs of the engine, which may break off, and what users do. */
  datatype Event =
    | Sync(user: int, listing: seq<int>, count: nat, lookups: map<int, Lookup>, asked: set<Key>, lost: bool)
    | CreateTask(owner: int)
    | DeleteTask(task: int)
    | Disconnect(user: int)

  /** The ids of a listing are distinct, and a run reaches a prefix of it. */
  ghost predicate Possible(e: Event) {
    e.Sync? ==> e.count <= |e.listing| && forall i, j :: 0 <= i < j < |e.listing| ==> e.listing[i] != e.listing[j]
  }

  function SeenBy(e: Event): set<int>
    requires e.Sync?
  {
    set id | id in e.listing
  }

  /**
   * A run that loses its credentials while merging stops there; one that loses them during the
   * lookups drops no tombstones.
   */
  function Ran(s: Tables, e: Event): Tables
    requires e.Sync? && e.count <= |e.listing|
  {
    var synced := Synced(s, e.user, e.listing[..e.count]);
    if e.count < |e.listing| then synced
    else
      var marked := MarkedLinks(synced, e.user, SeenBy(e), e.lookups, e.asked);
      synced.(links := if e.lost then marked else WithoutTombstones(marked, e.user, SeenBy(e)))
  }

  /** A foreign key to a deleted task is set to null. */
  function Deleting(s: Tables, task: int): Tables {
    s.(tasks := s.tasks - {task},
       links := map key | key in s.links :: if s.links[key].task == Some(task) then s.links[key].(task := None)
           else s.links[key])
  }

  function Disconnecting(s: Tables, user: int): Tables {
    s.(links := map key | key in s.links ::
      if key.user == user && s.links[key].removed.None? && s.links[key].task.Some?
      then s.links[key].(removed := Some(Disconnected)) else s.links[key])
  }

  function Step(s: Tables, e: Event): Tables
    requires Possible(e)
  {
    match e
    case Sync(_, _, _, _, _, _) => Ran(s, e)
    case CreateTask(owner) => s.(tasks := s.tasks[s.nextTask := owner], nextTask := s.nextTask + 1)
    case DeleteTask(task) => Deleting(s, task)
    case Disconnect(user) => Disconnecting(s, user)
  }

  function Steps(s: Tables, events: seq<Event>): Tables
    requires forall e :: e in events ==> Possible(e)
  {
    if events == [] then s
    else
      assert events[|events| - 1] in events;
      Step(Steps(s, events[..|events| - 1]), events[|events| - 1])
  }

  /** Keys are fresh, links name live tasks of their own user, and no task has two links. */
  ghost predicate Consistent(s: Tables) {
    && (forall t :: t in s.tasks ==> t < s.nextTask)
    && (forall key :: key in s.links && s.links[key].task.Some? ==>
          s.links[key].task.value in s.tasks && s.tasks[s.links[key].task.value] == key.user)
    && (forall a, b :: a in s.links && b in s.links && s.links[a].task.Some? && s.links[a].task == s.links[b].task ==>
          a == b)
  }

  /** What a run that listed a key, or did not, has made of its row. */
  ghost predicate RowAfter(s: Tables, after: Tables, key: Key, listed: bool) {
    if key in s.links then
      key in after.links && after.links[key] == if listed && s.links[key].task.Some?
          then s.links[key].(removed := None) else s.links[key]
    else if listed then
      key in after.links && after.links[key].removed.None? && after.links[key].task.Some?
          && s.nextTask <= after.links[key].task.value
    else key !in after.links
  }

  /** Every task is still there, under its owner, and every new one has a new key. */
  ghost predicate TasksKept(s: Tables, after: Tables) {
    && s.nextTask <= after.nextTask
    && (forall t :: t in s.tasks ==> t in after.tasks && after.tasks[t] == s.tasks[t])
    && (forall t :: t in after.tasks && t !in s.tasks ==> s.nextTask <= t)
  }

  lemma SyncedOneRow(s: Tables, k: Key, key: Key)
    requires Consistent(s)
    ensures Consistent(SyncedOne(s, k)) && TasksKept(s, SyncedOne(s, k))
    ensures RowAfter(s, SyncedOne(s, k), key, key == k)
  {
  }

  predicate Listed(user: int, listing: seq<int>, key: Key) {
    key.user == user && key.externalId in listing
  }

  lemma {:induction false} SyncedRows(s: Tables, user: int, listing: seq<int>)
    requires Consistent(s)
    ensures Consistent(Synced(s, user, listing)) && TasksKept(s, Synced(s, user, listing))
    ensures forall key :: RowAfter(s, Synced(s, user, listing), key, Listed(user, listing, key))
  {
    hide Consistent, SyncedOne;
    if listing == [] {
    } else {
      var n := |listing| - 1;
      var before, k := Synced(s, user, listing[..n]), Key(user, listing[n]);
      SyncedRows(s, user, listing[..n]);
      SyncedOneRow(before, k, k);
      forall key ensures RowAfter(s, SyncedOne(before, k), key, Listed(user, listing, key)) {
        assert Listed(user, listing, key) <==> Listed(user, listing[..n], key) || key == k;
        assert RowAfter(s, before, key, Listed(user, listing[..n], key));
        SyncedOneRow(before, k, key);
      }
    }
  }

  /** A run leaves every task where it was, and the tables consistent, wherever it breaks off. */
  lemma RunKeepsTasks(s: Tables, e: Event)
    requires Consistent(s) && e.Sync? && Possible(e)
    ensures Consistent(Ran(s, e)) && TasksKept(s, Ran(s, e))
  {
    hide Consistent, Synced, MarkedLinks, WithoutTombstones, RowAfter;
    SyncedRows(s, e.user, e.listing[..e.count]);
    var synced := Synced(s, e.user, e.listing[..e.count]);
    var marked := MarkedLinks(synced, e.user, SeenBy(e), e.lookups, e.asked);
    MarkingConsistent(synced, e.user, SeenBy(e), e.lookups, e.asked);
    DroppingConsistent(synced.(links := marked), e.user, SeenBy(e));
  }

  lemma MarkingConsistent(s: Tables, user: int, seen: set<int>, lookups: map<int, Lookup>, asked: set<Key>)
    requires Consistent(s)
    ensures Consistent(s.(links := MarkedLinks(s, user, seen, lookups, asked)))
  {
    hide Missing;
    var marked := MarkedLinks(s, user, seen, lookups, asked);
    assert forall key :: key in marked ==> key in s.links && marked[key].task == s.links[key].task;
    hide MarkedLinks;
  }

  lemma DroppingConsistent(s: Tables, user: int, seen: set<int>)
    requires Consistent(s)
    ensures Consistent(s.(links := WithoutTombstones(s.links, user, seen)))
  {
  }

  /**
   * A link becomes removed in a run exactly when its task is missing from the complete listing and
   * the lookup that was made for it gave a definite answer, and that answer is the reason recorded.  A
   * removed link that the run reaches is active again, and any other stays as it was.
   */
  lemma RemovalIsConfirmed(s: Tables, e: Event, key: Key)
    requires Consistent(s) && e.Sync? && Possible(e)
    requires key in s.links && s.links[key].task.Some?
    ensures key in Ran(s, e).links && Ran(s, e).links[key].task == s.links[key].task
    ensures var confirmed := key.user == e.user && e.count == |e.listing| && key.externalId !in e.listing
        && key in e.asked && key.externalId in e.lookups && e.lookups[key.externalId] in {Found, NotFound};
      Ran(s, e).links[key].removed ==
        if Reached(e, key) then None
        else if s.links[key].removed.Some? || !confirmed then s.links[key].removed
        else if e.lookups[key.externalId] == NotFound then Some(Deleted) else Some(Unassigned)
  {
    hide Synced, Consistent;
    SyncedRows(s, e.user, e.listing[..e.count]);
    assert RowAfter(s, Synced(s, e.user, e.listing[..e.count]), key, Listed(e.user, e.listing[..e.count], key));
    if e.count == |e.listing| { assert e.listing[..e.count] == e.listing; }
  }

  lemma StepConsistent(s: Tables, e: Event)
    requires Consistent(s) && Possible(e)
    ensures Consistent(Step(s, e))
  {
    if e.Sync? {
      hide Ran;
      RunKeepsTasks(s, e);
    }
  }

  /** Over any history, no task is linked twice and every link names a live task of its own user. */
  lemma {:induction false} AlwaysConsistent(s: Tables, events: seq<Event>)
    requires Consistent(s) && forall e :: e in events ==> Possible(e)
    ensures Consistent(Steps(s, events))
  {
    hide Consistent, Step;
    if events == [] {
    } else {
      assert events[|events| - 1] in events;
      AlwaysConsistent(s, events[..|events| - 1]);
      StepConsistent(Steps(s, events[..|events| - 1]), events[|events| - 1]);
    }
  }

  /** The run got as far as this key in its listing. */
  predicate Reached(e: Event, key: Key) {
    e.Sync? && e.count <= |e.listing| && Listed(e.user, e.listing[..e.count], key)
  }

  lemma LinkStep(s: Tables, e: Event, key: Key)
    requires Consistent(s) && Possible(e) && key in s.links && s.links[key].task.Some?
    requires e != DeleteTask(s.links[key].task.value)
    ensures key in Step(s, e).links && Step(s, e).links[key].task == s.links[key].task
    ensures Reached(e, key) ==> Step(s, e).links[key].removed.None?
  {
    if e.Sync? {
      hide Synced, Consistent;
      SyncedRows(s, e.user, e.listing[..e.count]);
      assert RowAfter(s, Synced(s, e.user, e.listing[..e.count]), key, Listed(e.user, e.listing[..e.count], key));
      assert forall id :: id in e.listing[..e.count] ==> id in e.listing;
    }
  }

  /**
   * A link keeps its task for as long as the task lives, through unassignments, disconnects and
   * broken runs; being listed again re-attaches the same task.
   */
  lemma {:induction false} SameTaskForever(s: Tables, events: seq<Event>, key: Key)
    requires Consistent(s) && forall e :: e in events ==> Possible(e)
    requires key in s.links && s.links[key].task.Some? && DeleteTask(s.links[key].task.value) !in events
    ensures var after := Steps(s, events);
      && key in after.links && after.links[key].task == s.links[key].task
      && (events != [] && Reached(events[|events| - 1], key) ==> after.links[key].removed.None?)
  {
    hide Consistent, Step;
    if events == [] {
    } else {
      var n := |events| - 1;
      assert events[n] in events;
      SameTaskForever(s, events[..n], key);
      AlwaysConsistent(s, events[..n]);
      LinkStep(Steps(s, events[..n]), events[n], key);
    }
  }

  lemma TombstoneStep(s: Tables, e: Event, key: Key)
    requires Consistent(s) && Possible(e) && key in s.links && s.links[key].task.None?
    requires e.Sync? && e.user == key.user ==> key.externalId in e.listing
    ensures key in Step(s, e).links && Step(s, e).links[key].task.None?
  {
    if e.Sync? {
      hide Synced, Consistent;
      SyncedRows(s, e.user, e.listing[..e.count]);
      assert RowAfter(s, Synced(s, e.user, e.listing[..e.count]), key, Listed(e.user, e.listing[..e.count], key));
    }
  }

  /** A task deleted locally is not imported again while VolunHub goes on listing it. */
  lemma {:induction false} NotReimported(s: Tables, events: seq<Event>, key: Key)
    requires Consistent(s) && forall e :: e in events ==> Possible(e)
    requires key in s.links && s.links[key].task.None?
    requires forall e :: e in events && e.Sync? && e.user == key.user ==> key.externalId in e.listing
    ensures key in Steps(s, events).links && Steps(s, events).links[key].task.None?
  {
    hide Consistent, Step;
    if events == [] {
    } else {
      var n := |events| - 1;
      assert events[n] in events;
      NotReimported(s, events[..n], key);
      AlwaysConsistent(s, events[..n]);
      TombstoneStep(Steps(s, events[..n]), events[n], key);
    }
  }

  /** Tasks disappear only by a local delete. */
  lemma {:induction false} OnlyUsersDelete(s: Tables, events: seq<Event>, task: int)
    requires Consistent(s) && forall e :: e in events ==> Possible(e)
    requires task in s.tasks && DeleteTask(task) !in events
    ensures task in Steps(s, events).tasks && Steps(s, events).tasks[task] == s.tasks[task]
  {
    hide Consistent, Ran;
    if events == [] {
    } else {
      var n := |events| - 1;
      assert events[n] in events;
      var before := Steps(s, events[..n]);
      OnlyUsersDelete(s, events[..n], task);
      AlwaysConsistent(s, events[..n]);
      if events[n].Sync? { RunKeepsTasks(before, events[n]); }
      FreshKey(before, task);
    }
  }

  lemma FreshKey(s: Tables, task: int)
    requires Consistent(s) && task in s.tasks
    ensures task < s.nextTask
  {
  }

  // ------------------------------------------------------------------ tombstones, and links that come back

  /**
   * A tombstone is gone after a run exactly if the run is its user's, came to the end of a listing that
   * lacks its id, and lost no credentials over the lookups; else it is as it was.
   */
  lemma TombstoneDropped(s: Tables, e: Event, key: Key)
    requires Consistent(s) && e.Sync? && Possible(e) && key in s.links && s.links[key].task.None?
    ensures key !in Ran(s, e).links
      <==> key.user == e.user && e.count == |e.listing| && key.externalId !in e.listing && !e.lost
    ensures key in Ran(s, e).links ==> Ran(s, e).links[key] == s.links[key]
  {
    hide Synced, Consistent;
    SyncedRows(s, e.user, e.listing[..e.count]);
    assert RowAfter(s, Synced(s, e.user, e.listing[..e.count]), key, Listed(e.user, e.listing[..e.count], key));
    if e.count == |e.listing| { assert e.listing[..e.count] == e.listing; }
  }

  /** An id without a link gets one, with a new task of its user, in a run that reaches it, and only so. */
  lemma UnknownImported(s: Tables, e: Event, key: Key)
    requires Consistent(s) && Possible(e) && key !in s.links
    ensures var after := Step(s, e);
      if Reached(e, key) then
        && key in after.links && after.links[key].removed.None? && after.links[key].task.Some?
        && var task := after.links[key].task.value;
          task >= s.nextTask && task !in s.tasks && task in after.tasks && after.tasks[task] == key.user
      else key !in after.links
  {
    if e.Sync? {
      StepConsistent(s, e);
      hide Synced, Consistent;
      SyncedRows(s, e.user, e.listing[..e.count]);
      assert RowAfter(s, Synced(s, e.user, e.listing[..e.count]), key, Listed(e.user, e.listing[..e.count], key));
      if Reached(e, key) {
        ImportedSurvives(s, e, key);
      }
    }
  }

  lemma ImportedSurvives(s: Tables, e: Event, key: Key)
    requires Possible(e) && Consistent(s) && Consistent(Step(s, e)) && Reached(e, key) && key !in s.links
    requires RowAfter(s, Synced(s, e.user, e.listing[..e.count]), key, true)
    ensures var after := Step(s, e);
      && key in after.links && after.links[key].removed.None? && after.links[key].task.Some?
      && var task := after.links[key].task.value;
        task >= s.nextTask && task !in s.tasks && task in after.tasks && after.tasks[task] == key.user
  {
    hide Synced;
    var i :| 0 <= i < e.count && e.listing[..e.count][i] == key.externalId;
    assert e.listing[i] == key.externalId && key.externalId in e.listing;
  }

  /** Without a run that reaches it, an id without a link stays without. */
  lemma {:induction false} StaysUnknown(s: Tables, events: seq<Event>, key: Key)
    requires Consistent(s) && (forall e :: e in events ==> Possible(e) && !Reached(e, key)) && key !in s.links
    ensures Consistent(Steps(s, events)) && key !in Steps(s, events).links && Steps(s, events).nextTask >= s.nextTask
  {
    hide Consistent, Step;
    if events == [] {
    } else {
      var n := |events| - 1;
      assert events[n] in events;
      StaysUnknown(s, events[..n], key);
      UnknownImported(Steps(s, events[..n]), events[n], key);
      StepConsistent(Steps(s, events[..n]), events[n]);
      KeysGrow(Steps(s, events[..n]), events[n]);
    }
  }

  lemma KeysGrow(s: Tables, e: Event)
    requires Consistent(s) && Possible(e)
    ensures Step(s, e).nextTask >= s.nextTask
  {
    if e.Sync? { RunKeepsTasks(s, e); }
  }

  /**
   * A task deleted locally and then missing from a complete listing is forgotten: when VolunHub lists it
   * again, it is imported as a new task.
   */
  lemma ForgottenIsImportedAnew(s: Tables, gone: Event, between: seq<Event>, back: Event, key: Key)
    requires Consistent(s) && key in s.links && s.links[key].task.Some?
    requires Possible(gone) && Possible(back) && forall e :: e in between ==> Possible(e) && !Reached(e, key)
    requires gone.Sync? && gone.user == key.user && gone.count == |gone.listing| && key.externalId !in gone.listing
    requires !gone.lost && Reached(back, key)
    ensures var former := s.links[key].task.value;
      var deleted := Step(s, DeleteTask(former));
      var after := Step(Steps(Step(deleted, gone), between), back);
      && key in deleted.links && deleted.links[key].task.None?
      && key in after.links && after.links[key].task.Some? && after.links[key].removed.None?
      && after.links[key].task.value !in s.tasks && after.links[key].task.value in after.tasks
  {
    var former := s.links[key].task.value;
    var deleted := Step(s, DeleteTask(former));
    StepConsistent(s, DeleteTask(former));
    TombstoneDropped(deleted, gone, key);
    StepConsistent(deleted, gone);
    KeysGrow(deleted, gone);
    StaysUnknown(Step(deleted, gone), between, key);
    var before := Steps(Step(deleted, gone), between);
    UnknownImported(before, back, key);
    hide Ran;
    assert s.nextTask <= before.nextTask;
    forall t | t in s.tasks ensures t < s.nextTask { FreshKey(s, t); }
  }

  /** Disconnecting marks the user's active links and deleting a task makes tombstones, and nothing else. */
  lemma UsersMean(s: Tables, user: int, task: int)
    ensures var after := Step(s, Disconnect(user));
      && after.tasks == s.tasks && after.links.Keys == s.links.Keys
      && forall key :: key in s.links ==> after.links[key] == s.links[key].(removed :=
        if key.user == user && s.links[key].task.Some? && s.links[key].removed.None? then Some(Disconnected)
        else s.links[key].removed)
    ensures var after := Step(s, DeleteTask(task));
      && (forall t :: t in after.tasks <==> t in s.tasks && t != task) && after.links.Keys == s.links.Keys
      && forall key :: key in s.links ==>
        after.links[key] == s.links[key].(task := if s.links[key].task == Some(task) then None else s.links[key].task)
  {
  }
}
