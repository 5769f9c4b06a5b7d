/**
 * Task states on both sides of the VolunHub sync: `integrations/volunhub/mapping.py`.
 *
 * `State` holds VolunHub's five workflow slugs and Organizer's `givenup`, which VolunHub lacks.
 */
module Workflow {
  import opened Options

  datatype State = Draft | Planned | InProgress | Finished | Blocked | GivenUp

  /** `TaskItem.status`. */
  datatype Status = Idea | StatusBlocked | StatusInProgress | StatusGivenUp

  /** The states the sync may ask VolunHub for. */
  predicate Pushable(s: State) {
    s != Draft && s != GivenUp
  }

  /** VolunHub's workflow. */
  function Transitions(s: State): set<State> {
    match s
    case Draft => {Planned, Blocked, Finished}
    case Planned => {InProgress, Blocked, Finished}
    case InProgress => {Finished, Blocked, Planned}
    case Finished => {Planned}
    case Blocked => {Draft, Planned, InProgress, Finished}
    case GivenUp => {}
  }

  /** VolunHub's workflow, edge by edge. */
  lemma TransitionsMean(from: State, to: State)
    ensures to in Transitions(from) <==> (from, to) in {
      (Draft, Planned), (Draft, Blocked), (Draft, Finished), (Planned, InProgress), (Planned, Blocked),
      (Planned, Finished), (InProgress, Finished), (InProgress, Blocked), (InProgress, Planned),
      (Finished, Planned), (Blocked, Draft), (Blocked, Planned), (Blocked, InProgress), (Blocked, Finished)}
  {
  }

  function Collapse(s: Option<State>): Option<State> {
    if s == Some(Draft) then Some(Planned) else s
  }

  function LocalState(completed: bool, status: Status): State {
    if completed then Finished
    else match status
      case StatusInProgress => InProgress
      case StatusBlocked => Blocked
      case StatusGivenUp => GivenUp
      case Idea => Planned
  }

  /** What `apply_to_task` makes of the completed flag and the status. */
  function ApplyState(completed: bool, status: Status, s: Option<State>): (bool, Status) {
    match s
    case None => (completed, status)
    case Some(GivenUp) => (completed, status)
    case Some(Finished) => (true, status)
    case Some(InProgress) => (false, StatusInProgress)
    case Some(Blocked) => (false, StatusBlocked)
    case Some(_) => (false, Idea)
  }

  /** A state taken from VolunHub reads back from the task as the value it was compared by. */
  lemma AppliedReadsBack(completed: bool, status: Status, raw: State)
    requires raw != GivenUp
    ensures var (c, s) := ApplyState(completed, status, Collapse(Some(raw)));
            Some(LocalState(c, s)) == Collapse(Some(raw))
  {
  }

  /**
   * What a task's flag and status are read as, and what applying a state does to them: a finished task
   * keeps its status, an open one gets the state's, and without a state nothing changes.
   */
  lemma StatesMean(completed: bool, status: Status, s: Option<State>)
    ensures LocalState(completed, status) == Finished <==> completed
    ensures !completed ==>
      && (LocalState(completed, status) == InProgress <==> status == StatusInProgress)
      && (LocalState(completed, status) == Blocked <==> status == StatusBlocked)
      && (LocalState(completed, status) == GivenUp <==> status == StatusGivenUp)
      && (LocalState(completed, status) == Planned <==> status == Idea)
    ensures Collapse(s) == if s.Some? && s.value == Draft then Some(Planned) else s
    ensures var (c, t) := ApplyState(completed, status, s);
      if s.None? || s.value == GivenUp then c == completed && t == status
      else (c <==> s.value == Finished) && (c ==> t == status)
  {
  }

  /** `route`: the states to request, in order. */
  function Route(current: Option<State>, target: State): seq<State> {
    if current == Some(target) then []
    else if current.None? || target in Transitions(current.value) then [target]
    else if target != Planned then [Planned, target]
    else [Planned]
  }

  /** The workflow allows a request, the same state over again included. */
  predicate Allows(from: State, to: State) {
    from == to || to in Transitions(from)
  }

  predicate Legal(from: State, path: seq<State>)
    decreases path
  {
    path == [] || (path[0] in Transitions(from) && Legal(path[0], path[1..]))
  }

  function End(from: State, path: seq<State>): State {
    if path == [] then from else path[|path| - 1]
  }

  /** Every route is a legal walk to its target, and no legal walk there is shorter. */
  lemma RouteIsShortest(from: State, target: State, path: seq<State>)
    requires from != GivenUp && Pushable(target)
    ensures var route := Route(Some(from), target);
      && Legal(from, route) && End(from, route) == target
      && (Legal(from, path) && End(from, path) == target ==> |route| <= |path|)
    ensures Route(None, target) == [target]
  {
    var route := Route(Some(from), target);
    if |route| == 2 {
      assert route[1..] == [target] && Legal(route[0], [target]);
    }
    if Legal(from, path) && |path| == 1 {
      assert path[0] in Transitions(from);
    }
  }

  /** From any state along a route, the route onwards is what is left of it. */
  lemma RouteResumes(from: State, target: State)
    requires from != GivenUp && Pushable(target) && |Route(Some(from), target)| == 2
    ensures var route := Route(Some(from), target);
      route[0] == Planned && Route(Some(Planned), target) == route[1..] && !(target in Transitions(from))
  {
  }
}
