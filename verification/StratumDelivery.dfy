/**
 What every interleaving of logins, re-logins, broadcasts and pauses keeps:
 the lock excludes, jobs reach a connection in publication order, a listed
 session holds the current job, and a paused endpoint lists nobody.
 */
module StratumDelivery {
  import opened Prelude
  import opened StratumModel

  // ---------------------------------------------------------------------------
  // The invariant
  // ---------------------------------------------------------------------------

  predicate HoldsReader(pc: ConnPc) {
    pc.LoginReady? || pc.LoginListed?
  }

  // The `jobs` lock is exactly what the tasks hold, and a writer is alone.
  ghost predicate LockInv(s: State) {
    && s.lock.writer == s.miner.HoldsWriter()
    && (s.lock.writer ==> s.lock.readers == {})
    && (forall c :: c in s.lock.readers <==> c in s.conns && HoldsReader(s.conns[c].pc))
  }

  // The job the mining loop works on, from its template to the end of it.
  function MinersJob(pc: MinerPc): Option<JobId> {
    match pc
    case PushWanted(job) => Some(job)
    case PushLocked(job) => Some(job)
    case PushRolled(job) => Some(job)
    case PushEvicted(job) => Some(job)
    case Pushing(job, _) => Some(job)
    case Mining(job) => Some(job)
    case InHand(job, _) => Some(job)
    case Checked(job, _) => Some(job)
    case Submitting(job, _) => Some(job)
    case _ => None
  }

  // Jobs are made current in counter order, and authoring is on behind one.
  ghost predicate JobsInv(s: State) {
    && (s.jobs.current.Some? ==> s.jobs.current.value == s.history.published)
    && (s.jobs.previous.Some? ==> s.jobs.previous.value <= s.history.published)
    && s.history.published <= s.jobCounter
    && (MinersJob(s.miner).Some? ==> MinersJob(s.miner).value == s.jobCounter)
    && (s.miner.PushWanted? || s.miner.PushLocked? ==> s.history.published < s.jobCounter)
    && (MinersJob(s.miner).Some? && !s.miner.PushWanted? && !s.miner.PushLocked?
        ==> s.jobs.current == Some(s.jobCounter))
    && (MinersJob(s.miner).Some? || s.miner.Enabled? ==> s.authoring)
    && (s.jobs.current.Some? && !s.authoring ==> s.miner.PauseWanted? || s.miner.PauseLocked?)
  }

  predicate Owns(s: State, id: SessionId, c: ConnId) {
    id in s.history.owners && s.history.owners[id] == c
  }

  // A session belongs to one connection, and its number is never used again.
  ghost predicate SessionsInv(s: State) {
    && (forall id :: id in s.sessions ==>
          && s.sessions[id] in s.conns
          && s.conns[s.sessions[id]].session == Some(id))
    && (forall c :: c in s.conns && s.conns[c].session.Some? ==> Owns(s, s.conns[c].session.value, c))
    && (forall id :: id in s.history.owners ==> id < s.nextSession)
    && (s.miner.Pushing? ==> s.miner.pending <= s.sessions.Keys)
  }

  ghost predicate InOrder(queued: seq<JobId>) {
    forall i, j :: 0 <= i < j < |queued| ==> queued[i] <= queued[j]
  }

  // Nothing newer than the last publication is queued, and a login in progress
  // holds the current job.
  ghost predicate ConnInv(s: State, conn: Conn) {
    && InOrder(conn.queued)
    && (forall i :: 0 <= i < |conn.queued| ==> conn.queued[i] <= s.history.published)
    && (conn.pc.LoginReady? || conn.pc.LoginListed? ==> s.jobs.current == Some(conn.pc.job))
  }

  ghost predicate QueueInv(s: State) {
    forall c :: c in s.conns ==> ConnInv(s, s.conns[c])
  }

  // The last job queued is the current one, unless the latest attempt failed
  // or the login reply that carries it is what its connection does next.
  predicate HoldsCurrent(s: State, conn: Conn) {
    && s.jobs.current.Some?
    && (conn.missed || conn.pc.LoginListed?
        || (conn.queued != [] && conn.queued[|conn.queued| - 1] == s.jobs.current.value))
  }

  // Between a roll and the end of its push or drain the table lags.
  predicate Lagging(miner: MinerPc, id: SessionId) {
    miner.PauseRolled? || miner.PauseEvicted? || miner.PushRolled? || miner.PushEvicted?
    || (miner.Pushing? && id in miner.pending)
  }

  ghost predicate TableInv(s: State)
    requires SessionsInv(s)
  {
    forall id :: id in s.sessions ==> Lagging(s.miner, id) || HoldsCurrent(s, s.conns[s.sessions[id]])
  }

  ghost predicate BookInv(s: State) {
    LockInv(s) && JobsInv(s) && SessionsInv(s)
  }

  ghost predicate Inv(s: State) {
    BookInv(s) && QueueInv(s) && TableInv(s)
  }

  // ---------------------------------------------------------------------------
  // Each connection action keeps it
  // ---------------------------------------------------------------------------

  // What the jobs' own invariant reads.
  ghost predicate SameMining(s: State, t: State) {
    && t.jobs == s.jobs && t.history.published == s.history.published
    && t.miner == s.miner && t.jobCounter == s.jobCounter && t.authoring == s.authoring
  }

  lemma MiningKeepsJobs(s: State, t: State)
    requires JobsInv(s) && SameMining(s, t)
    ensures JobsInv(t)
  {
  }

  // At most the place of one task changed, with no job queued.
  ghost predicate Moved(s: State, t: State, c: ConnId, pc: ConnPc) {
    c in s.conns && Same(t.conns, s.conns[c := s.conns[c].(pc := pc)])
  }

  lemma MoveKeepsQueue(s: State, t: State, c: ConnId, pc: ConnPc)
    requires QueueInv(s) && Moved(s, t, c, pc) && SameMining(s, t)
    requires HoldsReader(pc) ==> s.jobs.current == Some(pc.job)
    ensures QueueInv(t)
  {
    forall d | d in t.conns ensures ConnInv(t, t.conns[d]) {
      assert ConnInv(s, s.conns[d]);
    }
  }

  lemma MoveKeepsTable(s: State, t: State, c: ConnId, pc: ConnPc)
    requires SessionsInv(s) && TableInv(s) && SessionsInv(t) && Moved(s, t, c, pc) && SameMining(s, t)
    requires Same(t.sessions, s.sessions) && !s.conns[c].pc.LoginListed?
    ensures TableInv(t)
  {
    forall id | id in t.sessions ensures Lagging(t.miner, id) || HoldsCurrent(t, t.conns[t.sessions[id]]) {
      assert Lagging(s.miner, id) || HoldsCurrent(s, s.conns[s.sessions[id]]);
    }
  }

  lemma QuietKeepsBook(s: State, t: State, c: ConnId)
    requires BookInv(s) && OnlySubmit(s, t, c)
    ensures BookInv(t)
  {
    MiningKeepsJobs(s, t);
    QuietKeepsSessions(s, t, c);
  }

  lemma QuietKeepsSessions(s: State, t: State, c: ConnId)
    requires SessionsInv(s) && OnlySubmit(s, t, c)
    ensures SessionsInv(t)
  {
  }

  lemma QuietKeeps(s: State, t: State, c: ConnId)
    requires Inv(s) && OnlySubmit(s, t, c)
    ensures Inv(t)
  {
    QuietKeepsBook(s, t, c);
    if t.conns != s.conns {
      MoveKeepsQueue(s, t, c, t.conns[c].pc);
      MoveKeepsTable(s, t, c, t.conns[c].pc);
    }
  }

  lemma OpenKeepsBook(s: State, c: ConnId)
    requires LockInv(s) && SessionsInv(s)
    ensures LockInv(OpenConn(s, c)) && SessionsInv(OpenConn(s, c))
  {
  }

  lemma OpenKeepsQueue(s: State, c: ConnId)
    requires QueueInv(s)
    ensures QueueInv(OpenConn(s, c))
  {
    var t := OpenConn(s, c);
    forall d | d in t.conns ensures ConnInv(t, t.conns[d]) {
      assert d in s.conns ==> ConnInv(s, s.conns[d]);
    }
  }

  lemma OpenKeepsTable(s: State, c: ConnId)
    requires SessionsInv(s) && TableInv(s) && SessionsInv(OpenConn(s, c))
    ensures TableInv(OpenConn(s, c))
  {
  }

  lemma OpenKeeps(s: State, c: ConnId)
    requires Inv(s)
    ensures Inv(OpenConn(s, c))
  {
    OpenKeepsBook(s, c);
    OpenKeepsQueue(s, c);
    OpenKeepsTable(s, c);
    MiningKeepsJobs(s, OpenConn(s, c));
  }

  lemma LoginAcquireKeepsLock(s: State, c: ConnId)
    requires LockInv(s)
    ensures LockInv(LoginAcquireBy(s, c))
  {
  }

  lemma LoginAcquireKeepsSessions(s: State, c: ConnId)
    requires SessionsInv(s)
    ensures SessionsInv(LoginAcquireBy(s, c))
  {
  }

  lemma LoginAcquireKeeps(s: State, c: ConnId)
    requires Inv(s)
    ensures Inv(LoginAcquireBy(s, c))
  {
    var t := LoginAcquireBy(s, c);
    LoginAcquireKeepsLock(s, c);
    LoginAcquireKeepsSessions(s, c);
    MiningKeepsJobs(s, t);
    if c in s.conns && s.conns[c].pc.LoginWaiting? && !s.lock.writer {
      MoveKeepsQueue(s, t, c, t.conns[c].pc);
      MoveKeepsTable(s, t, c, t.conns[c].pc);
    }
  }

  lemma LoginListKeepsLock(s: State, c: ConnId)
    requires LockInv(s)
    ensures LockInv(LoginListBy(s, c))
  {
  }

  lemma LoginListKeepsSessions(s: State, c: ConnId)
    requires LockInv(s) && SessionsInv(s)
    ensures SessionsInv(LoginListBy(s, c))
  {
  }

  lemma LoginListKeepsQueues(s: State, c: ConnId)
    requires LockInv(s) && SessionsInv(s) && QueueInv(s) && TableInv(s) && SessionsInv(LoginListBy(s, c))
    ensures QueueInv(LoginListBy(s, c)) && TableInv(LoginListBy(s, c))
  {
  }

  lemma LoginListKeeps(s: State, c: ConnId)
    requires Inv(s)
    ensures Inv(LoginListBy(s, c))
  {
    LoginListKeepsLock(s, c);
    LoginListKeepsSessions(s, c);
    LoginListKeepsQueues(s, c);
    MiningKeepsJobs(s, LoginListBy(s, c));
  }

  lemma LoginReplyKeepsBook(s: State, c: ConnId, ok: bool)
    requires LockInv(s) && SessionsInv(s)
    ensures LockInv(LoginReplyBy(s, c, ok)) && SessionsInv(LoginReplyBy(s, c, ok))
  {
  }

  lemma LoginReplyKeepsQueue(s: State, c: ConnId, ok: bool)
    requires JobsInv(s) && QueueInv(s)
    ensures QueueInv(LoginReplyBy(s, c, ok))
  {
    var t := LoginReplyBy(s, c, ok);
    forall d | d in t.conns ensures ConnInv(t, t.conns[d]) {
      assert ConnInv(s, s.conns[d]);
    }
  }

  lemma LoginReplyKeepsTable(s: State, c: ConnId, ok: bool)
    requires SessionsInv(s) && QueueInv(s) && TableInv(s) && SessionsInv(LoginReplyBy(s, c, ok))
    ensures TableInv(LoginReplyBy(s, c, ok))
  {
    var t := LoginReplyBy(s, c, ok);
    forall id | id in t.sessions ensures Lagging(t.miner, id) || HoldsCurrent(t, t.conns[t.sessions[id]]) {
      assert ConnInv(s, s.conns[s.sessions[id]]);
      assert Lagging(s.miner, id) || HoldsCurrent(s, s.conns[s.sessions[id]]);
    }
  }

  lemma LoginReplyKeeps(s: State, c: ConnId, ok: bool)
    requires Inv(s)
    ensures Inv(LoginReplyBy(s, c, ok))
  {
    LoginReplyKeepsBook(s, c, ok);
    LoginReplyKeepsQueue(s, c, ok);
    LoginReplyKeepsTable(s, c, ok);
    MiningKeepsJobs(s, LoginReplyBy(s, c, ok));
  }

  lemma DisconnectKeepsBook(s: State, c: ConnId)
    requires LockInv(s) && SessionsInv(s)
    ensures LockInv(DisconnectBy(s, c)) && SessionsInv(DisconnectBy(s, c))
  {
  }

  lemma DisconnectKeepsQueue(s: State, c: ConnId)
    requires QueueInv(s)
    ensures QueueInv(DisconnectBy(s, c))
  {
    var t := DisconnectBy(s, c);
    forall d | d in t.conns ensures ConnInv(t, t.conns[d]) {
      assert d in s.conns ==> ConnInv(s, s.conns[d]);
    }
  }

  lemma DisconnectKeepsTable(s: State, c: ConnId)
    requires SessionsInv(s) && TableInv(s) && SessionsInv(DisconnectBy(s, c))
    ensures TableInv(DisconnectBy(s, c))
  {
  }

  lemma DisconnectKeeps(s: State, c: ConnId)
    requires Inv(s)
    ensures Inv(DisconnectBy(s, c))
  {
    DisconnectKeepsBook(s, c);
    DisconnectKeepsQueue(s, c);
    DisconnectKeepsTable(s, c);
    MiningKeepsJobs(s, DisconnectBy(s, c));
  }

  lemma ConnKeeps(s: State, c: ConnId, a: ConnAction)
    requires Inv(s)
    ensures Inv(ConnStep(s, c, a))
  {
    match a {
      case Open => OpenKeeps(s, c);
      case LoginAcquire => LoginAcquireKeeps(s, c);
      case LoginList => LoginListKeeps(s, c);
      case LoginReply(ok) => LoginReplyKeeps(s, c, ok);
      case Disconnect => DisconnectKeeps(s, c);
      case _ =>
        QuietIsOnlySubmit(s, c, a);
        QuietKeeps(s, ConnStep(s, c, a), c);
    }
  }

  // ---------------------------------------------------------------------------
  // Each action of the mining loop keeps it
  // ---------------------------------------------------------------------------

  // The two acquisitions and the two releases, and no other action, touch it.
  lemma MinerHoldsOn(s: State, a: MinerAction)
    requires !a.PauseAcquire? && !a.PauseRelease? && !a.PushAcquire? && !a.PushRelease?
    ensures MinerStep(s, a).lock == s.lock && MinerStep(s, a).miner.HoldsWriter() == s.miner.HoldsWriter()
  {
    match a {
      case Pause | PauseRoll | PauseEvict | PauseDrain | Enable | NoTemplate | Template =>
      case PushRoll | PushEvict | PushStart | PushOne(_, _) =>
      case Receive | Compare | Leave | GiveUp | Submit | Submitted(_) =>
    }
  }

  lemma MinerKeepsLock(s: State, a: MinerAction)
    requires LockInv(s)
    ensures LockInv(MinerStep(s, a))
  {
    match a {
      case PauseAcquire | PauseRelease | PushAcquire | PushRelease =>
      case PauseDrain | PushOne(_, _) => MinerHoldsOn(s, a);
      case _ =>
        MinerHoldsOn(s, a);
        MinerKeepsTable(s, a);
    }
  }

  lemma PauseKeepsJobs(s: State, a: MinerAction)
    requires JobsInv(s)
    requires a.Pause? || a.PauseAcquire? || a.PauseRoll? || a.PauseEvict? || a.PauseDrain? || a.PauseRelease?
    ensures JobsInv(MinerStep(s, a))
  {
    match a {
      case Pause | PauseAcquire | PauseRoll =>
      case PauseEvict | PauseDrain | PauseRelease =>
    }
  }

  lemma PushKeepsJobs(s: State, a: MinerAction)
    requires JobsInv(s)
    requires a.Enable? || a.NoTemplate? || a.Template? || a.PushAcquire? || a.PushRoll? || a.PushEvict?
      || a.PushStart? || a.PushOne? || a.PushRelease?
    ensures JobsInv(MinerStep(s, a))
  {
    match a {
      case Enable | NoTemplate | Template =>
      case PushAcquire | PushRoll | PushEvict =>
      case PushStart | PushOne(_, _) | PushRelease =>
    }
  }

  lemma MiningStepKeepsJobs(s: State, a: MinerAction)
    requires JobsInv(s) && (a.Receive? || a.Compare? || a.Leave?)
    ensures JobsInv(MinerStep(s, a))
  {
    match a {
      case Receive | Compare | Leave =>
    }
  }

  lemma SealStepKeepsJobs(s: State, a: MinerAction)
    requires JobsInv(s) && (a.GiveUp? || a.Submit? || a.Submitted?)
    ensures JobsInv(MinerStep(s, a))
  {
    match a {
      case GiveUp | Submit | Submitted(_) =>
    }
  }

  lemma MinerKeepsJobs(s: State, a: MinerAction)
    requires JobsInv(s)
    ensures JobsInv(MinerStep(s, a))
  {
    match a {
      case Pause | PauseAcquire | PauseRoll | PauseEvict | PauseDrain | PauseRelease => PauseKeepsJobs(s, a);
      case Enable | NoTemplate | Template | PushAcquire | PushRoll | PushEvict | PushStart | PushOne(_, _)
           | PushRelease => PushKeepsJobs(s, a);
      case Receive | Compare | Leave => MiningStepKeepsJobs(s, a);
      case GiveUp | Submit | Submitted(_) => SealStepKeepsJobs(s, a);
    }
  }

  lemma DrainKeeps(s: State)
    requires Inv(s) && s.miner.PauseEvicted?
    ensures SessionsInv(Drain(s).(miner := PauseDrained))
    ensures QueueInv(Drain(s).(miner := PauseDrained))
    ensures TableInv(Drain(s).(miner := PauseDrained))
  {
  }

  lemma PushOneKeepsSessions(s: State, session: SessionId, ok: bool)
    requires SessionsInv(s)
    ensures SessionsInv(PushTo(s, session, ok))
  {
  }

  lemma PushOneKeepsQueues(s: State, session: SessionId, ok: bool)
    requires Inv(s)
    ensures QueueInv(PushTo(s, session, ok))
  {
  }

  lemma PushOneKeepsTable(s: State, session: SessionId, ok: bool)
    requires Inv(s) && SessionsInv(PushTo(s, session, ok))
    ensures TableInv(PushTo(s, session, ok))
  {
  }

  // A roll: no login is in progress, and the whole table lags from here.
  lemma RollKeeps(s: State, t: State)
    requires Inv(s) && SessionsInv(t) && SameTable(s, t) && s.lock.writer
    requires t.history.published >= s.history.published
    requires t.miner.PauseRolled? || t.miner.PushRolled?
    ensures QueueInv(t) && TableInv(t)
  {
  }

  // Neither the jobs nor who lags changes.
  ghost predicate SameJobs(s: State, t: State) {
    && t.jobs == s.jobs && t.history.published == s.history.published
    && (forall id :: id in s.sessions && Lagging(s.miner, id) ==> Lagging(t.miner, id))
  }

  lemma RestKeeps(s: State, t: State)
    requires Inv(s) && SessionsInv(t) && SameTable(s, t) && SameJobs(s, t)
    ensures QueueInv(t) && TableInv(t)
  {
  }

  lemma RestIsSameJobs(s: State, a: MinerAction)
    requires !a.PauseRoll? && !a.PushRoll? && !a.PauseDrain? && !a.PushOne?
    ensures SameJobs(s, MinerStep(s, a))
  {
    match a {
      case Pause | PauseAcquire | PauseEvict | PauseRelease | Enable | NoTemplate | Template
           | PushAcquire | PushEvict | PushStart | PushRelease | Receive | Compare | Leave | GiveUp
           | Submit | Submitted(_) =>
    }
  }

  lemma MinerKeepsSessions(s: State, t: State)
    requires SessionsInv(s) && SameTable(s, t)
    ensures SessionsInv(t)
  {
  }

  lemma MinerKeepsQueues(s: State, a: MinerAction)
    requires Inv(s) && !a.PauseDrain? && !a.PushOne?
    ensures SessionsInv(MinerStep(s, a)) && QueueInv(MinerStep(s, a)) && TableInv(MinerStep(s, a))
  {
    MinerKeepsTable(s, a);
    MinerKeepsSessions(s, MinerStep(s, a));
    match a {
      case PauseRoll => if s.miner.PauseLocked? { RollKeeps(s, MinerStep(s, a)); }
      case PushRoll => if s.miner.PushLocked? { RollKeeps(s, MinerStep(s, a)); }
      case _ =>
        RestIsSameJobs(s, a);
        RestKeeps(s, MinerStep(s, a));
    }
  }

  lemma MinerKeeps(s: State, a: MinerAction)
    requires Inv(s)
    ensures Inv(MinerStep(s, a))
  {
    MinerKeepsLock(s, a);
    MinerKeepsJobs(s, a);
    match a {
      case PauseDrain => if s.miner.PauseEvicted? { DrainKeeps(s); }
      case PushOne(session, ok) =>
        PushOneKeepsSessions(s, session, ok);
        PushOneKeepsQueues(s, session, ok);
        PushOneKeepsTable(s, session, ok);
      case _ => MinerKeepsQueues(s, a);
    }
  }

  lemma {:induction false} Invariant(schedule: seq<Action>)
    ensures Inv(Run(schedule))
  {
    if schedule != [] {
      var before := Run(schedule[..|schedule| - 1]);
      Invariant(schedule[..|schedule| - 1]);
      match schedule[|schedule| - 1] {
        case OfConn(c, a) => ConnKeeps(before, c, a);
        case OfMiner(a) => MinerKeeps(before, a);
      }
    }
  }

  // ---------------------------------------------------------------------------
  // What it gives, for every schedule
  // ---------------------------------------------------------------------------

  // No job is handed to a connection after a newer one.
  lemma {:induction false} JobsArriveInOrder(schedule: seq<Action>, c: ConnId)
    requires c in Run(schedule).conns
    ensures InOrder(Run(schedule).conns[c].queued)
  {
    Invariant(schedule);
  }

  // With the `jobs` lock free, every listed session was last handed the
  // current job, or the latest attempt to hand it one failed.
  lemma {:induction false} ListedHoldsCurrent(schedule: seq<Action>, id: SessionId)
    ensures
      var s := Run(schedule);
      LockFree(s) && id in s.sessions ==>
        && s.sessions[id] in s.conns && s.jobs.current.Some?
        && var conn := s.conns[s.sessions[id]];
           conn.missed || (conn.queued != [] && conn.queued[|conn.queued| - 1] == s.jobs.current.value)
  {
    Invariant(schedule);
    var s := Run(schedule);
    assert LockFree(s) && id in s.sessions ==> s.sessions[id] !in s.lock.readers;
  }

  // With no writer, an endpoint without a job lists no session.
  lemma {:induction false} PausedListsNobody(schedule: seq<Action>)
    requires !Run(schedule).lock.writer && Run(schedule).jobs.current.None?
    ensures Run(schedule).sessions == map[]
  {
    Invariant(schedule);
  }

  // At the head of the mining loop, authoring off means no job is handed out.
  lemma {:induction false} DisabledHeadHasNoJob(schedule: seq<Action>)
    requires Run(schedule).miner.Head? && !Run(schedule).authoring
    ensures Run(schedule).jobs.current.None? && Run(schedule).sessions == map[]
  {
    Invariant(schedule);
    PausedListsNobody(schedule);
  }

  // From its broadcast to the end of a template, the job being mined is the
  // current one, and no one else is given another.
  lemma {:induction false} MinedJobIsCurrent(schedule: seq<Action>)
    requires Run(schedule).miner.Mining? || Run(schedule).miner.Submitting?
    ensures Run(schedule).jobs.current == Some(Run(schedule).miner.job)
  {
    Invariant(schedule);
  }
}
