/**
 * `refresh_access_token` of `integrations/volunhub/oauth.py`: any number of workers share one
 * connection row and a server that rotates refresh tokens (section 6 of RFC 6749).
 *
 * A ciphertext is the number of the grant it came with, 0 being the empty string.  The row lock
 * serialises the part between `select_for_update` and the commit; loading the row and starting a
 * refresh are not serialised.
 */
module TokenRefresh {
  import opened Options

  datatype Tokens = Tokens(access: int, refresh: Option<int>)

  datatype Row = Row(tokens: Tokens, needsReauth: bool)

  /** The live refresh token, and every one presented so far, in order. */
  datatype Server = Server(live: int, presented: seq<int>)

  /** The token endpoint: the live token buys a new grant and dies, any other is refused. */
  function Redeem(server: Server, token: int): (Server, Option<Tokens>) {
    if token == server.live
    then (Server(server.live + 1, server.presented + [token]), Some(Tokens(server.live + 1, Some(server.live + 1))))
    else (server.(presented := server.presented + [token]), None)
  }

  /** Another worker has refreshed since `held` was loaded. */
  predicate Adopts(row: Row, held: int) {
    row.tokens.access != held && row.tokens.access != 0
  }

  // ------------------------------------------------------------------ one worker, undisturbed

  /** The request may never reach the server, or its answer never come back: an error that rolls back. */
  datatype Answer = Arrives | Unreachable | Lost

  /** What a refresh that is not interleaved with others makes of the row, the server and the caller's copy. */
  function Refreshed(row: Row, server: Server, copy: Tokens, answer: Answer): (Row, Server, Tokens) {
    if Adopts(row, copy.access) then (row, server, row.tokens)
    else match row.tokens.refresh
      case None => (row.(needsReauth := true), server, copy)
      case Some(token) =>
        var (server', reply) := Redeem(server, token);
        if answer.Unreachable? then (row, server, copy)
        else if answer.Lost? then (row, server', copy)
        else match reply
          case Some(tokens) => (Row(tokens, false), server', tokens)
          case None => (row.(needsReauth := true), server', copy)
  }

  /**
   * What a refresh does, one thing at a time.  It presents the stored refresh token unless somebody else
   * has replaced the access token it knew; only the live one, once, buys the next grant, which is stored
   * and returned if the answer arrives; and the connection is flagged exactly if there is no token to
   * present or a refusal arrives.
   */
  lemma RefreshMeans(row: Row, server: Server, copy: Tokens, answer: Answer)
    ensures var (row', server', copy') := Refreshed(row, server, copy, answer);
      var known := row.tokens.access == copy.access || row.tokens.access == 0;
      var asks := known && row.tokens.refresh.Some? && answer != Unreachable;
      var granted := asks && row.tokens.refresh == Some(server.live);
      var next := server.live + 1;
      && server'.presented == server.presented + (if asks then [row.tokens.refresh.value] else [])
      && server'.live == (if granted then next else server.live)
      && row'.tokens == (if granted && answer == Arrives then Tokens(next, Some(next)) else row.tokens)
      && copy' == (if known && !(granted && answer == Arrives) then copy else row'.tokens)
      && (row'.needsReauth <==>
          if granted && answer == Arrives then false
          else row.needsReauth || (known && (row.tokens.refresh.None? || (asks && !granted && answer == Arrives))))
  {
  }

  class Connection {
    var accessToken: int
    var refreshToken: Option<int>

    function Copy(): Tokens
      reads this
    {
      Tokens(accessToken, refreshToken)
    }
  }

  class Database {
    var row: Row
    var server: Server

    /** `refresh_access_token`; not `ok` stands for its exceptions. */
    method RefreshAccessToken(connection: Connection, answer: Answer) returns (ok: bool)
      modifies this, connection
      ensures (row, server, connection.Copy()) == Refreshed(old(row), old(server), old(connection.Copy()), answer)
      ensures ok <==> (Adopts(old(row), old(connection.accessToken))
        || (answer.Arrives? && old(row).tokens.refresh.Some?
            && Redeem(old(server), old(row).tokens.refresh.value).1.Some?))
      ensures row.needsReauth && !old(row).needsReauth ==> answer.Arrives? || old(row).tokens.refresh.None?
    {
      var held := connection.accessToken;
      var locked := row;
      if locked.tokens.access != held && locked.tokens.access != 0 {
        connection.accessToken, connection.refreshToken := locked.tokens.access, locked.tokens.refresh;
        return true;
      }
      if locked.tokens.refresh.Some? {
        if answer.Unreachable? {
          return false;
        }
        var (server', reply) := Redeem(server, locked.tokens.refresh.value);
        server := server';
        if answer.Lost? {
          return false;
        }
        if reply.Some? {
          locked := Row(reply.value, false);
          row := locked;
          connection.accessToken, connection.refreshToken := locked.tokens.access, locked.tokens.refresh;
          return true;
        }
      }
      row := row.(needsReauth := true);
      ok := false;
    }
  }

  // ------------------------------------------------------------------ any number of workers

  datatype Phase = Idle | Waiting(held: int) | Holding(held: int) | Replied(tokens: Tokens) | Rejected | Returned

  datatype Worker = Worker(copy: Tokens, phase: Phase)

  datatype System = System(row: Row, server: Server, lock: Option<int>, workers: map<int, Worker>)

  datatype Action = Load | Begin | Acquire | Adopt | Call | Miss | Commit | GiveUp | Crash

  function Put(s: System, w: int, worker: Worker): System {
    s.(workers := s.workers[w := worker])
  }

  /** One step of worker `w`; a step that is not enabled changes nothing. */
  function Step(s: System, w: int, a: Action): System {
    if w !in s.workers then s
    else
      var me := s.workers[w];
      match (a, me.phase)
      case (Load, Idle) => Put(s, w, Worker(s.row.tokens, Idle))
      case (Load, Returned) => Put(s, w, Worker(s.row.tokens, Idle))
      case (Begin, Idle) => Put(s, w, me.(phase := Waiting(me.copy.access)))
      case (Begin, Returned) => Put(s, w, me.(phase := Waiting(me.copy.access)))
      case (Acquire, Waiting(held)) => if s.lock.None?
          then Put(s, w, me.(phase := Holding(held))).(lock := Some(w)) else s
      case (Adopt, Holding(held)) =>
        if Adopts(s.row, held) then Put(s, w, Worker(s.row.tokens, Returned)).(lock := None) else s
      case (Call, Holding(held)) =>
        if Adopts(s.row, held) then s
        else (match s.row.tokens.refresh
          case None => Put(s, w, me.(phase := Rejected)).(lock := None)
          case Some(token) =>
            var (server, reply) := Redeem(s.server, token);
            match reply
            case Some(tokens) => Put(s, w, me.(phase := Replied(tokens))).(server := server)
            case None => Put(s, w, me.(phase := Rejected)).(server := server, lock := None))
      case (Miss, Holding(held)) =>
        if Adopts(s.row, held) || s.row.tokens.refresh.None? then s else Put(s, w, me.(phase := Idle)).(lock := None)
      case (Commit, Replied(tokens)) =>
        Put(s, w, Worker(tokens, Returned)).(row := Row(tokens, false), lock := None)
      case (GiveUp, Rejected) => Put(s, w, me.(phase := Idle)).(row := s.row.(needsReauth := true))
      case (Crash, Holding(_)) => Put(s, w, me.(phase := Idle)).(lock := None)
      case (Crash, Replied(_)) => Put(s, w, me.(phase := Idle)).(lock := None)
      case (Crash, _) => Put(s, w, me.(phase := Idle))
      case _ => s
  }

  datatype Move = Move(worker: int, action: Action)

  function Run(s: System, moves: seq<Move>): System {
    if moves == [] then s
    else Step(Run(s, moves[..|moves| - 1]), moves[|moves| - 1].worker, moves[|moves| - 1].action)
  }

  /** A worker dies between the server's reply and the commit, and the reply with it. */
  predicate LosesReply(s: System, m: Move) {
    m.worker in s.workers && m.action == Crash && s.workers[m.worker].phase.Replied?
  }

  /** No reply is lost on the way. */
  ghost predicate RepliesArrive(s: System, moves: seq<Move>) {
    forall i :: 0 <= i < |moves| ==> !LosesReply(Run(s, moves[..i]), moves[i])
  }

  ghost predicate Distinct(tokens: seq<int>) {
    forall i, j :: 0 <= i < j < |tokens| ==> tokens[i] != tokens[j]
  }

  /** Only the lock's holder is between lock and commit. */
  predicate InSection(p: Phase) {
    p.Holding? || p.Replied?
  }

  /** The stored grant is the server's live one unless a reply to the lock's holder is on its way to the row. */
  ghost predicate Safe(s: System) {
    && !s.row.needsReauth && s.server.live > 0
    && Distinct(s.server.presented)
        && (forall i :: 0 <= i < |s.server.presented| ==> s.server.presented[i] < s.server.live)
    && (forall w :: w in s.workers && InSection(s.workers[w].phase) ==> s.lock == Some(w))
    && (forall w :: w in s.workers ==> s.workers[w].phase != Rejected)
    && (s.lock.Some? ==> s.lock.value in s.workers && InSection(s.workers[s.lock.value].phase))
    && (if s.lock.Some? && s.workers[s.lock.value].phase.Replied?
        then s.workers[s.lock.value].phase.tokens == Tokens(s.server.live, Some(s.server.live))
          && s.row.tokens == Tokens(s.server.live - 1, Some(s.server.live - 1))
        else s.row.tokens == Tokens(s.server.live, Some(s.server.live)))
  }

  /** Loading, waiting, refreshing, adopting and crashing all keep a safe system safe, a lost reply aside. */
  lemma StepSafe(s: System, m: Move)
    requires Safe(s) && !LosesReply(s, m)
    ensures Safe(Step(s, m.worker, m.action))
  {
    hide Safe, Step;
    if m.action == Call {
      CallSafe(s, m.worker);
    } else if m.action in {Commit, Crash} {
      EndSafe(s, m);
    } else if m.action in {Acquire, Adopt, Miss} {
      LockSafe(s, m);
    } else {
      QuietSafe(s, m);
    }
  }

  lemma CallSafe(s: System, w: int)
    requires Safe(s)
    ensures Safe(Step(s, w, Call))
  {
  }

  lemma EndSafe(s: System, m: Move)
    requires Safe(s) && m.action in {Commit, Crash} && !LosesReply(s, m)
    ensures Safe(Step(s, m.worker, m.action))
  {
  }

  lemma LockSafe(s: System, m: Move)
    requires Safe(s) && m.action in {Acquire, Adopt, Miss}
    ensures Safe(Step(s, m.worker, m.action))
  {
  }

  lemma QuietSafe(s: System, m: Move)
    requires Safe(s) && m.action in {Load, Begin, GiveUp}
    ensures Safe(Step(s, m.worker, m.action))
  {
  }

  lemma {:induction false} RunSafe(s: System, moves: seq<Move>)
    requires Safe(s) && RepliesArrive(s, moves)
    ensures Safe(Run(s, moves))
  {
    hide Safe, Step, LosesReply;
    if moves == [] {
    } else {
      var n := |moves| - 1;
      assert forall i :: 0 <= i < n ==> moves[..n][..i] == moves[..i];
      RunSafe(s, moves[..n]);
      StepSafe(Run(s, moves[..n]), moves[n]);
    }
  }

  /** The moves of a worker that is alone: its request is answered, never arrives, or its answer is lost. */
  function Alone(s: System, w: int, answer: Answer): System {
    Ending(Step(Step(Step(s, w, Begin), w, Acquire), w, Adopt), w, answer)
  }

  /** A worker that finds the row unlocked takes the lock, and adopts what another has stored. */
  lemma AloneLocks(s: System, w: int)
    requires w in s.workers && s.workers[w].phase.Idle? && s.lock.None?
    ensures var held := s.workers[w].copy.access;
      Step(Step(Step(s, w, Begin), w, Acquire), w, Adopt)
        == if Adopts(s.row, held) then Put(s, w, Worker(s.row.tokens, Returned))
           else Put(s, w, s.workers[w].(phase := Holding(held))).(lock := Some(w))
  {
    var locked := Step(Step(s, w, Begin), w, Acquire);
    assert locked == Put(s, w, s.workers[w].(phase := Holding(s.workers[w].copy.access))).(lock := Some(w));
  }

  /** Alone, a worker that takes its sequence of steps does what the method does. */
  lemma Undisturbed(s: System, w: int, answer: Answer)
    requires w in s.workers && s.workers[w].phase.Idle? && s.lock.None?
    ensures var t := Alone(s, w, answer);
      && t.lock.None? && w in t.workers
      && (t.row, t.server, t.workers[w].copy) == Refreshed(s.row, s.server, s.workers[w].copy, answer)
  {
    AloneLocks(s, w);
    var held := s.workers[w].copy.access;
    if Adopts(s.row, held) {
      ReturnedRests(Put(s, w, Worker(s.row.tokens, Returned)), w);
    } else {
      HolderEnds(Put(s, w, s.workers[w].(phase := Holding(held))).(lock := Some(w)), w, answer);
    }
  }

  /**
   * Two workers that have loaded the same row refresh one after the other: only the first asks the
   * server, and both return with the new grant, which is the stored one.
   */
  lemma SecondAdopts(s: System, w: int, v: int)
    requires Safe(s) && s.lock.None? && w in s.workers && v in s.workers && v != w
    requires s.workers[w].phase.Idle? && s.workers[v].phase.Idle?
    ensures var t := Alone(Step(Step(s, v, Load), w, Load), w, Arrives);
      var u := Alone(t, v, Arrives);
      && t.server.presented == s.server.presented + [s.server.live] && u.server == t.server
      && v in u.workers && w in u.workers && u.workers[w].copy == u.workers[v].copy == u.row.tokens
      && u.row.tokens.access == s.server.live + 1
  {
    hide Safe, Step, Alone;
    assert s.row.tokens == Tokens(s.server.live, Some(s.server.live)) && s.server.live > 0 by { Stored(s); }
    BothLoaded(s, w, v);
    var loaded := Step(Step(s, v, Load), w, Load);
    Undisturbed(loaded, w, Arrives);
    AloneKeepsOthers(loaded, w, v);
    var t := Alone(loaded, w, Arrives);
    Undisturbed(t, v, Arrives);
    AloneKeepsOthers(t, v, w);
  }

  lemma Stored(s: System)
    requires Safe(s) && s.lock.None?
    ensures s.row.tokens == Tokens(s.server.live, Some(s.server.live)) && s.server.live > 0
  {
  }

  lemma BothLoaded(s: System, w: int, v: int)
    requires w in s.workers && v in s.workers && v != w
    requires s.workers[w].phase.Idle? && s.workers[v].phase.Idle?
    ensures Step(Step(s, v, Load), w, Load)
      == s.(workers := s.workers[v := Worker(s.row.tokens, Idle)][w := Worker(s.row.tokens, Idle)])
  {
  }

  lemma AloneKeepsOthers(s: System, w: int, v: int)
    requires w in s.workers && v in s.workers && v != w && s.workers[w].phase.Idle?
    ensures v in Alone(s, w, Arrives).workers && Alone(s, w, Arrives).workers[v] == s.workers[v]
  {
    hide Step;
    StepKeepsOthers(s, w, v, Begin);
    var waiting := Step(s, w, Begin);
    StepKeepsOthers(waiting, w, v, Acquire);
    var holding := Step(waiting, w, Acquire);
    StepKeepsOthers(holding, w, v, Adopt);
    var adopted := Step(holding, w, Adopt);
    StepKeepsOthers(adopted, w, v, Call);
    var called := Step(adopted, w, Call);
    StepKeepsOthers(called, w, v, Commit);
    StepKeepsOthers(Step(called, w, Commit), w, v, GiveUp);
  }

  lemma StepKeepsOthers(s: System, w: int, v: int, a: Action)
    requires v in s.workers && v != w
    ensures v in Step(s, w, a).workers && Step(s, w, a).workers[v] == s.workers[v]
  {
  }

  /** The moves of a worker that holds the lock and did not adopt. */
  function Ending(locked: System, w: int, answer: Answer): System {
    match answer
    case Arrives => Step(Step(Step(locked, w, Call), w, Commit), w, GiveUp)
    case Unreachable => Step(Step(Step(locked, w, Miss), w, Call), w, GiveUp)
    case Lost =>
      Step(Step(Step(locked, w, Call), w, if locked.row.tokens.refresh.Some? then Crash else GiveUp), w, GiveUp)
  }

  lemma ReturnedRests(s: System, w: int)
    requires w in s.workers && s.workers[w].phase.Returned? && s.lock.None?
    ensures forall answer :: var t := Ending(s, w, answer);
      t.lock.None? && w in t.workers && (t.row, t.server, t.workers[w].copy) == (s.row, s.server, s.workers[w].copy)
  {
  }

  lemma HolderEnds(s: System, w: int, answer: Answer)
    requires w in s.workers && s.workers[w].phase == Holding(s.workers[w].copy.access) && s.lock == Some(w)
    requires !Adopts(s.row, s.workers[w].copy.access)
    ensures var t := Ending(s, w, answer);
      && t.lock.None? && w in t.workers
      && (t.row, t.server, t.workers[w].copy) == Refreshed(s.row, s.server, s.workers[w].copy, answer)
  {
  }

  /** A worker comes back with the tokens the row then holds. */
  lemma ReturnsStored(s: System, m: Move)
    requires Safe(s) && m.worker in s.workers && !s.workers[m.worker].phase.Returned?
    ensures var t := Step(s, m.worker, m.action);
      m.worker in t.workers && (t.workers[m.worker].phase.Returned? ==> t.workers[m.worker].copy == t.row.tokens)
  {
  }

  /** The move `m` makes its worker return from a refresh. */
  predicate Returns(s: System, m: Move) {
    m.worker in s.workers && !s.workers[m.worker].phase.Returned?
    && var t := Step(s, m.worker, m.action); m.worker in t.workers && t.workers[m.worker].phase.Returned?
  }

  /**
   * However the workers interleave, no refresh token is presented twice, the connection never needs
   * re-authorization, an unlocked row holds the server's live grant, and a worker returns with what
   * the row holds.
   */
  lemma EveryInterleaving(s: System, moves: seq<Move>, last: Move)
    requires Safe(s) && RepliesArrive(s, moves + [last])
    ensures var t := Run(s, moves + [last]);
      && Distinct(t.server.presented) && !t.row.needsReauth
      && (t.lock.None? ==> t.row.tokens == Tokens(t.server.live, Some(t.server.live)))
      && (Returns(Run(s, moves), last) ==> last.worker in t.workers && t.workers[last.worker].copy == t.row.tokens)
  {
    var all := moves + [last];
    assert all[..|all| - 1] == moves;
    RunSafe(s, all);
    assert Safe(Run(s, moves)) by {
      hide Step, LosesReply, Safe;
      forall i | 0 <= i < |moves| ensures !LosesReply(Run(s, moves[..i]), moves[i]) {
        assert all[..i] == moves[..i];
      }
      RunSafe(s, moves);
    }
    assert Run(s, all) == Step(Run(s, moves), last.worker, last.action);
    hide Step, LosesReply;
    if last.worker in Run(s, moves).workers && !Run(s, moves).workers[last.worker].phase.Returned? {
      ReturnsStored(Run(s, moves), last);
    }
  }

  // ------------------------------------------------------------------ exactly when it is safe

  /** The stored grant is dead, and no reply is on its way to replace it. */
  ghost predicate Broken(s: System) {
    && s.row.tokens.refresh.Some? && s.row.tokens.refresh.value < s.server.live
    && forall w :: w in s.workers ==> !s.workers[w].phase.Replied?
  }

  lemma NoReply(s: System, w: int)
    requires Broken(s) && w in s.workers
    ensures !s.workers[w].phase.Replied?
  {
  }

  lemma BrokenIsNotSafe(s: System)
    requires Broken(s)
    ensures !Safe(s)
  {
    if s.lock.Some? && s.lock.value in s.workers { NoReply(s, s.lock.value); }
  }

  lemma LossBreaks(s: System, m: Move)
    requires Safe(s) && LosesReply(s, m)
    ensures Broken(Step(s, m.worker, m.action))
  {
    assert InSection(s.workers[m.worker].phase) && s.lock == Some(m.worker);
  }

  lemma StaysBroken(s: System, m: Move)
    requires Broken(s)
    ensures Broken(Step(s, m.worker, m.action))
  {
  }

  lemma {:induction false} RunBroken(s: System, moves: seq<Move>)
    requires Safe(s) && !RepliesArrive(s, moves)
    ensures Broken(Run(s, moves))
  {
    hide Safe, Broken, Step, LosesReply;
    var n := |moves| - 1;
    assert forall i :: 0 <= i < n ==> moves[..n][..i] == moves[..i];
    if RepliesArrive(s, moves[..n]) {
      RunSafe(s, moves[..n]);
      LossBreaks(Run(s, moves[..n]), moves[n]);
    } else {
      RunBroken(s, moves[..n]);
      StaysBroken(Run(s, moves[..n]), moves[n]);
    }
  }

  /** The workers leave the system safe exactly if no reply was lost on the way; a request lost is harmless. */
  lemma SafeExactly(s: System, moves: seq<Move>)
    requires Safe(s)
    ensures Safe(Run(s, moves)) <==> RepliesArrive(s, moves)
  {
    hide Safe, Broken, Run, RepliesArrive;
    if RepliesArrive(s, moves) {
      RunSafe(s, moves);
    } else {
      RunBroken(s, moves);
      BrokenIsNotSafe(Run(s, moves));
    }
  }

  /**
   * A lost reply is the one thing that breaks this: the row then holds a dead token, and the next
   * worker that presents it is refused.
   */
  lemma LostReply(s: System, w: int, v: int)
    requires Safe(s) && w in s.workers && s.workers[w].phase.Replied?
    requires v in s.workers && v != w && s.workers[v].phase == Waiting(s.row.tokens.access)
    ensures LosesReply(s, Move(w, Crash))
    ensures Step(Step(Step(Step(s, w, Crash), v, Acquire), v, Call), v, GiveUp).row.needsReauth
  {
    var crashed := Step(s, w, Crash);
    assert crashed.lock.None? && crashed.row == s.row && crashed.server == s.server;
    assert v in crashed.workers && crashed.workers[v] == s.workers[v];
    var acquired := Step(crashed, v, Acquire);
    assert acquired.row == s.row && acquired.server == s.server;
    assert v in acquired.workers && acquired.workers[v].phase == Holding(s.row.tokens.access);
    var called := Step(acquired, v, Call);
    assert v in called.workers && called.workers[v].phase == Rejected;
  }
}
