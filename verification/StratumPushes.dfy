/**
 What the mining loop does to the connections: which jobs reach each of them,
 kept a second time from the schedule, and a pause from its edge to its end.
 */
module StratumPushes {
  import opened Prelude
  import opened StratumModel

  // ---------------------------------------------------------------------------
  // Jobs queued, by the schedule
  // ---------------------------------------------------------------------------

  // A login's job with its reply, and a template's with its push to the session
  // the connection is listed under, each once and only if there was room.
  function QueuedBy(s: State, a: Action, c: ConnId): seq<JobId> {
    match a
    case OfConn(d, LoginReply(ok)) =>
      if d == c && c in s.conns && s.conns[c].pc.LoginListed? && ok then [s.conns[c].pc.job] else []
    case OfMiner(PushOne(session, ok)) =>
      if s.miner.Pushing? && session in s.miner.pending && session in s.sessions && s.sessions[session] == c
         && c in s.conns && ok
      then [s.miner.job] else []
    case _ => []
  }

  function Queued(schedule: seq<Action>, c: ConnId): seq<JobId> {
    if schedule == [] then []
    else
      var before := schedule[..|schedule| - 1];
      Queued(before, c) + QueuedBy(Run(before), schedule[|schedule| - 1], c)
  }

  function QueueOf(s: State, c: ConnId): seq<JobId> {
    if c in s.conns then s.conns[c].queued else []
  }

  lemma ConnQueues(s: State, d: ConnId, a: ConnAction, c: ConnId)
    ensures QueueOf(ConnStep(s, d, a), c) == QueueOf(s, c) + QueuedBy(s, OfConn(d, a), c)
  {
    match a {
      case Open | LoginAcquire | LoginList =>
      case LoginReply(_) =>
      case Disconnect =>
      case _ => QuietIsOnlySubmit(s, d, a);
    }
  }

  lemma MinerQueues(s: State, a: MinerAction, c: ConnId)
    ensures QueueOf(MinerStep(s, a), c) == QueueOf(s, c) + QueuedBy(s, OfMiner(a), c)
  {
    match a {
      case PauseDrain =>
      case PushOne(_, _) =>
      case _ => MinerKeepsTable(s, a);
    }
  }

  // A connection is queued exactly the jobs of its login replies and of the
  // pushes to its session, in that order and no other.
  lemma {:induction false} QueueIsTheSchedules(schedule: seq<Action>, c: ConnId)
    ensures QueueOf(Run(schedule), c) == Queued(schedule, c)
  {
    if schedule != [] {
      var before, a := schedule[..|schedule| - 1], schedule[|schedule| - 1];
      QueueIsTheSchedules(before, c);
      match a {
        case OfConn(d, conn) => ConnQueues(Run(before), d, conn, c);
        case OfMiner(miner) => MinerQueues(Run(before), miner, c);
      }
    }
  }

  // ---------------------------------------------------------------------------
  // A pause
  // ---------------------------------------------------------------------------

  function Paused(s: State): State {
    var rolled := MinerStep(MinerStep(MinerStep(s, Pause), PauseAcquire), PauseRoll);
    MinerStep(MinerStep(MinerStep(rolled, PauseEvict), PauseDrain), PauseRelease)
  }

  // The connection's session is in the table.
  predicate Listed(s: State, c: ConnId) {
    c in s.conns && s.conns[c].session.Some? && s.conns[c].session.value in s.sessions
  }

  // The whole of a pause. Where authoring was on, the current job moves into the
  // grace slot and only its shares are remembered, the table is empty, and
  // exactly the connections listed in it are told to close. Where it was off
  // nothing happens.
  lemma PauseOutcome(s: State)
    requires s.miner.Head? && LockFree(s)
    ensures !s.authoring ==> MinerStep(s, Pause) == s
    ensures s.authoring ==>
      var t := Paused(s);
      && t.miner.Head? && !t.authoring && LockFree(t) && t.channel == s.channel && t.counters == s.counters
      && t.jobs.current.None? && t.jobs.previous == s.jobs.current
      && (forall k :: k in t.seen <==> k in s.seen && s.jobs.current == Some(k.job))
      && t.sessions == map[] && t.conns.Keys == s.conns.Keys
      && (forall c :: c in s.conns ==>
            t.conns[c] == s.conns[c].(notified := s.conns[c].notified || Listed(s, c)))
  {
    if s.authoring {
      var locked := MinerStep(MinerStep(s, Pause), PauseAcquire);
      assert locked == s.(authoring := false, miner := PauseLocked, lock := s.lock.(writer := true));
      PausedFrom(s, locked);
    }
  }

  lemma PausedFrom(s: State, locked: State)
    requires LockFree(s)
    requires locked == s.(authoring := false, miner := PauseLocked, lock := s.lock.(writer := true))
    ensures
      var evicted := MinerStep(MinerStep(locked, PauseRoll), PauseEvict);
      var t := MinerStep(MinerStep(evicted, PauseDrain), PauseRelease);
      && t.miner.Head? && !t.authoring && LockFree(t) && t.channel == s.channel && t.counters == s.counters
      && t.jobs.current.None? && t.jobs.previous == s.jobs.current
      && (forall k :: k in t.seen <==> k in s.seen && s.jobs.current == Some(k.job))
      && t.sessions == map[] && t.conns.Keys == s.conns.Keys
      && (forall c :: c in s.conns ==>
            t.conns[c] == s.conns[c].(notified := s.conns[c].notified || Listed(s, c)))
  {
    var evicted := MinerStep(MinerStep(locked, PauseRoll), PauseEvict);
    assert Same(evicted.conns, s.conns) && Same(evicted.sessions, s.sessions) && evicted.miner.PauseEvicted?;
  }

  // A connection that was told to close does nothing but leave.
  lemma ToldOnlyLeaves(s: State, c: ConnId, a: ConnAction)
    requires c in s.conns && s.conns[c].pc.Reading? && s.conns[c].notified
    ensures a.Disconnect? || ConnStep(s, c, a) == s
  {
  }
}
