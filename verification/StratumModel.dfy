/**
 The stratum endpoint and the mining loop as one interleaved state machine.

 One `ConnAction` or `MinerAction` is what one task does between two points
 where another task can run: a lock acquisition, a lock release, one atomic
 update or one channel operation. A schedule is any sequence of actions. An
 action whose task is elsewhere, or whose lock is taken, changes nothing, so
 every schedule is a run and every interleaving is a schedule.
 */
module StratumModel {
  import opened Prelude

  type ConnId = nat
  type SessionId = nat

  // Jobs are numbered by the mining loop's counter, which starts at one.
  type JobId = nat

  const SEAL_CHANNEL_DEPTH: nat := 16
  const MAX_SEEN_SHARES: nat := 100_000

  // The key of the duplicate set.
  datatype Share = Share(job: JobId, session: SessionId, nonce: nat)

  datatype Seal = Seal(job: JobId, nonce: nat)

  /** The template being mined and the one before it. */
  datatype Jobs = Jobs(current: Option<JobId>, previous: Option<JobId>) {

    // Whether the job a submit names is the current one; None when it is neither.
    function Lookup(job: JobId): Option<bool> {
      if current == Some(job) then Some(true)
      else if previous == Some(job) then Some(false)
      else None
    }

    predicate IsLive(job: JobId) {
      current == Some(job) || previous == Some(job)
    }

    function Roll(next: Option<JobId>): Jobs {
      Jobs(next, current)
    }
  }

  /** The `jobs` lock: shared by logins, exclusive to the mining loop. */
  datatype Lock = Lock(readers: set<ConnId>, writer: bool)

  /** Where a connection's task stands. */
  datatype ConnPc =
    | Reading
      // Login: a login line is read; then, under the `jobs` read guard, the job
      // is cloned, the session is in the table, and the reply is queued and the
      // guard dropped.
    | LoginWaiting
    | LoginReady(job: JobId)
    | LoginListed(job: JobId)
      // Submit: the line is read, after the job lookup, after the session read,
      // after the fresh duplicate insert, after `accepted` and after
      // `block_candidates`. `roll` is how many rolls there were at the lookup,
      // which nothing is decided by.
    | SubmitWaiting(job: JobId, nonce: nat)
    | Looked(job: JobId, isCurrent: bool, nonce: nat, roll: nat)
    | Known(job: JobId, isCurrent: bool, nonce: nat, roll: nat)
    | Hashing(job: JobId, isCurrent: bool, nonce: nat, roll: nat)
    | Winning(job: JobId, isCurrent: bool, nonce: nat, roll: nat)
    | Handing(job: JobId, isCurrent: bool, nonce: nat, roll: nat)
      // The reply asked for a close; the loop has ended.
    | Ending
    | Gone

  /**
   One connection. `queued` is every job ever put on its write queue, in order;
   `missed` says that the latest attempt to queue one failed.
   */
  datatype Conn = Conn(
    session: Option<SessionId>,
    pc: ConnPc,
    notified: bool,
    queued: seq<JobId>,
    missed: bool)

  /** Where the mining loop stands. */
  datatype MinerPc =
    | Head
      // `pause_authoring` on the enabled-to-disabled edge: `clear_current_job`.
    | PauseWanted
    | PauseLocked
    | PauseRolled
    | PauseEvicted
    | PauseDrained
      // Authoring is enabled, then `broadcast_job`.
    | Enabled
    | PushWanted(job: JobId)
    | PushLocked(job: JobId)
    | PushRolled(job: JobId)
    | PushEvicted(job: JobId)
    | Pushing(job: JobId, pending: set<SessionId>)
      // `mine_one_template` proper.
    | Mining(job: JobId)
    | InHand(job: JobId, seal: Seal)
    | Checked(job: JobId, seal: Seal)
    | Submitting(job: JobId, seal: Seal)
  {
    predicate HoldsWriter() {
      PauseLocked? || PauseRolled? || PauseEvicted? || PauseDrained?
      || PushLocked? || PushRolled? || PushEvicted? || Pushing?
    }
  }

  datatype Counters = Counters(
    accepted: nat,
    rejected: nat,
    candidates: nat,
    sealed: nat,
    superseded: nat)

  /**
   What has happened so far, which no task reads: how often the template rolled
   or was cleared, the last job made current, the shares the duplicate set let
   in, those it let in after a roll since their lookup, the shares credited, how
   often the set was cleared at its ceiling, the seals a full channel dropped,
   the jobs sealed with a rig's seal, and the connection each session number was
   issued to.
   */
  datatype History = History(
    rolls: nat,
    published: JobId,
    admitted: multiset<Share>,
    late: multiset<Share>,
    credited: multiset<Share>,
    clears: nat,
    dropped: nat,
    sealedJobs: multiset<JobId>,
    owners: map<SessionId, ConnId>)

  datatype State = State(
    jobs: Jobs,
    lock: Lock,
    sessions: map<SessionId, ConnId>,
    seen: set<Share>,
    nextSession: SessionId,
    channel: seq<Seal>,
    counters: Counters,
    conns: map<ConnId, Conn>,
    miner: MinerPc,
    authoring: bool,
    jobCounter: nat,
    history: History)

  const Init: State := State(
    Jobs(None, None), Lock({}, false), map[], {}, 1, [], Counters(0, 0, 0, 0, 0),
    map[], Head, false, 0,
    History(0, 0, multiset{}, multiset{}, multiset{}, 0, 0, multiset{}, map[]))

  datatype ConnAction =
    | Open
    | ReadLogin
    | LoginAcquire
    | LoginList
    | LoginReply(ok: bool)
    | ReadSubmit(job: JobId, nonce: nat)
    | SubmitLookup
    | SubmitSession
    | SubmitRefuse
    | SubmitInsert
    | SubmitHash(verdict: Verdict)
    | SubmitCount
    | SubmitHand
    | Disconnect

  // What the re-hash of a share found.
  datatype Verdict = TooWeak | GoodShare | GoodBlock

  datatype MinerAction =
    | Pause
    | PauseAcquire
    | PauseRoll
    | PauseEvict
    | PauseDrain
    | PauseRelease
    | Enable
    | NoTemplate
    | Template
    | PushAcquire
    | PushRoll
    | PushEvict
    | PushStart
    | PushOne(session: SessionId, ok: bool)
    | PushRelease
    | Receive
    | Compare
    | Leave
    | GiveUp
    | Submit
    | Submitted(ok: bool)

  datatype Action = OfConn(c: ConnId, conn: ConnAction) | OfMiner(miner: MinerAction)

  // ---------------------------------------------------------------------------
  // Connection tasks
  // ---------------------------------------------------------------------------

  // The select in the read loop is biased: a pending close wins over a line.
  predicate MayReadLine(s: State, c: ConnId) {
    c in s.conns && s.conns[c].pc.Reading? && !s.conns[c].notified
  }

  function Goto(s: State, c: ConnId, pc: ConnPc): State
    requires c in s.conns
  {
    s.(conns := s.conns[c := s.conns[c].(pc := pc)])
  }

  function Reject(s: State, c: ConnId): State
    requires c in s.conns
  {
    Goto(s, c, Reading).(counters := s.counters.(rejected := s.counters.rejected + 1))
  }

  function OpenConn(s: State, c: ConnId): State {
    if c in s.conns then s
    else s.(conns := s.conns[c := Conn(None, Reading, false, [], false)])
  }

  function ReadLoginBy(s: State, c: ConnId): State {
    if MayReadLine(s, c) then Goto(s, c, LoginWaiting) else s
  }

  // Without a current job the reply closes the connection.
  function LoginAcquireBy(s: State, c: ConnId): State {
    if !(c in s.conns && s.conns[c].pc.LoginWaiting? && !s.lock.writer) then s
    else if s.jobs.current.None? then Goto(s, c, Ending)
    else
      Goto(s, c, LoginReady(s.jobs.current.value))
        .(lock := s.lock.(readers := s.lock.readers + {c}))
  }

  // The old session of a connection that logs in again leaves the table.
  function LoginListBy(s: State, c: ConnId): State {
    if !(c in s.conns && s.conns[c].pc.LoginReady?) then s
    else
      var conn := s.conns[c];
      var kept := if conn.session.Some? then s.sessions - {conn.session.value} else s.sessions;
      s.(sessions := kept[s.nextSession := c],
         nextSession := s.nextSession + 1,
         history := s.history.(owners := s.history.owners[s.nextSession := c]),
         conns := s.conns[c := conn.(session := Some(s.nextSession), pc := LoginListed(conn.pc.job))])
  }

  // A full write queue answers "Busy" and closes.
  function LoginReplyBy(s: State, c: ConnId, ok: bool): State {
    if !(c in s.conns && s.conns[c].pc.LoginListed?) then s
    else
      var conn := s.conns[c];
      var next :=
        if ok then conn.(pc := Reading, queued := conn.queued + [conn.pc.job], missed := false)
        else conn.(pc := Ending, missed := true);
      s.(conns := s.conns[c := next], lock := s.lock.(readers := s.lock.readers - {c}))
  }

  function ReadSubmitBy(s: State, c: ConnId, job: JobId, nonce: nat): State {
    if !MayReadLine(s, c) then s
    else if s.conns[c].session.None? then Reject(s, c)
    else Goto(s, c, SubmitWaiting(job, nonce))
  }

  // The read guard is taken and dropped around the lookup alone.
  function SubmitLookupBy(s: State, c: ConnId): State {
    if !(c in s.conns && s.conns[c].pc.SubmitWaiting? && !s.lock.writer) then s
    else
      var pc := s.conns[c].pc;
      match s.jobs.Lookup(pc.job)
      case None => Reject(s, c)
      case Some(isCurrent) => Goto(s, c, Looked(pc.job, isCurrent, pc.nonce, s.history.rolls))
  }

  function SubmitSessionBy(s: State, c: ConnId): State {
    if !(c in s.conns && s.conns[c].pc.Looked? && s.conns[c].session.Some?) then s
    else if s.conns[c].session.value !in s.sessions then Reject(s, c)
    else
      var pc := s.conns[c].pc;
      Goto(s, c, Known(pc.job, pc.isCurrent, pc.nonce, pc.roll))
  }

  // A malformed nonce or a spent budget.
  function SubmitRefuseBy(s: State, c: ConnId): State {
    if c in s.conns && s.conns[c].pc.Known? then Reject(s, c) else s
  }

  function InsertSeen(seen: set<Share>, share: Share, ceiling: nat): (set<Share>, bool) {
    var room := if |seen| >= ceiling then {} else seen;
    (room + {share}, share !in room)
  }

  function SubmitInsertBy(s: State, c: ConnId): State {
    if !(c in s.conns && s.conns[c].pc.Known? && s.conns[c].session.Some?) then s
    else
      var pc := s.conns[c].pc;
      var share := Share(pc.job, s.conns[c].session.value, pc.nonce);
      var (seen', isFresh) := InsertSeen(s.seen, share, MAX_SEEN_SHARES);
      var h := s.history.(clears := s.history.clears + if |s.seen| >= MAX_SEEN_SHARES then 1 else 0);
      if !isFresh then Reject(s, c).(seen := seen', history := h)
      else
        Goto(s, c, Hashing(pc.job, pc.isCurrent, pc.nonce, pc.roll))
          .(seen := seen',
            history := h.(
              admitted := h.admitted + multiset{share},
              late := if pc.roll == h.rolls then h.late else h.late + multiset{share}))
  }

  function SubmitHashBy(s: State, c: ConnId, verdict: Verdict): State {
    if !(c in s.conns && s.conns[c].pc.Hashing? && s.conns[c].session.Some?) then s
    else
      var pc := s.conns[c].pc;
      if verdict.TooWeak? then Reject(s, c)
      else
        var share := Share(pc.job, s.conns[c].session.value, pc.nonce);
        Goto(s, c, if verdict.GoodBlock? then Winning(pc.job, pc.isCurrent, pc.nonce, pc.roll) else Reading)
          .(counters := s.counters.(accepted := s.counters.accepted + 1),
            history := s.history.(credited := s.history.credited + multiset{share}))
  }

  function SubmitCountBy(s: State, c: ConnId): State {
    if !(c in s.conns && s.conns[c].pc.Winning?) then s
    else
      var pc := s.conns[c].pc;
      Goto(s, c, Handing(pc.job, pc.isCurrent, pc.nonce, pc.roll))
        .(counters := s.counters.(candidates := s.counters.candidates + 1))
  }

  function SubmitHandBy(s: State, c: ConnId): State {
    if !(c in s.conns && s.conns[c].pc.Handing?) then s
    else
      var pc := s.conns[c].pc;
      var done := Goto(s, c, Reading);
      if !pc.isCurrent then
        done.(counters := s.counters.(superseded := s.counters.superseded + 1))
      else if |s.channel| < SEAL_CHANNEL_DEPTH then
        done.(channel := s.channel + [Seal(pc.job, pc.nonce)])
      else
        done.(history := s.history.(dropped := s.history.dropped + 1))
  }

  // The end of `serve` waits for the session table while a push reads it.
  function DisconnectBy(s: State, c: ConnId): State {
    if !(c in s.conns && (s.conns[c].pc.Reading? || s.conns[c].pc.Ending?) && !s.miner.Pushing?) then s
    else
      var kept := if s.conns[c].session.Some? then s.sessions - {s.conns[c].session.value} else s.sessions;
      Goto(s, c, Gone).(sessions := kept)
  }

  function ConnStep(s: State, c: ConnId, a: ConnAction): State {
    match a
    case Open => OpenConn(s, c)
    case ReadLogin => ReadLoginBy(s, c)
    case LoginAcquire => LoginAcquireBy(s, c)
    case LoginList => LoginListBy(s, c)
    case LoginReply(ok) => LoginReplyBy(s, c, ok)
    case ReadSubmit(job, nonce) => ReadSubmitBy(s, c, job, nonce)
    case SubmitLookup => SubmitLookupBy(s, c)
    case SubmitSession => SubmitSessionBy(s, c)
    case SubmitRefuse => SubmitRefuseBy(s, c)
    case SubmitInsert => SubmitInsertBy(s, c)
    case SubmitHash(verdict) => SubmitHashBy(s, c, verdict)
    case SubmitCount => SubmitCountBy(s, c)
    case SubmitHand => SubmitHandBy(s, c)
    case Disconnect => DisconnectBy(s, c)
  }

  // ---------------------------------------------------------------------------
  // The mining loop
  // ---------------------------------------------------------------------------

  predicate LockFree(s: State) {
    s.lock.readers == {} && !s.lock.writer
  }

  function Evict(seen: set<Share>, jobs: Jobs): set<Share> {
    set share | share in seen && jobs.IsLive(share.job)
  }

  function Roll(s: State, next: Option<JobId>): State {
    s.(jobs := s.jobs.Roll(next),
       history := s.history.(
         rolls := s.history.rolls + 1,
         published := if next.Some? then next.value else s.history.published))
  }

  // Every listed connection is told to close and leaves the table.
  function Drain(s: State): State {
    s.(sessions := map[],
       conns := map c | c in s.conns ::
         if s.conns[c].session.Some? && s.conns[c].session.value in s.sessions
         then s.conns[c].(notified := true)
         else s.conns[c])
  }

  function PushTo(s: State, session: SessionId, ok: bool): State {
    if !(s.miner.Pushing? && session in s.miner.pending
         && session in s.sessions && s.sessions[session] in s.conns) then s
    else
      var c := s.sessions[session];
      var conn := s.conns[c];
      s.(miner := Pushing(s.miner.job, s.miner.pending - {session}),
         conns := s.conns[c :=
           if ok then conn.(queued := conn.queued + [s.miner.job], missed := false)
           else conn.(missed := true)])
  }

  function MinerStep(s: State, a: MinerAction): State {
    match a
    case Pause =>
      if !s.miner.Head? then s
      else s.(authoring := false, miner := if s.authoring then PauseWanted else Head)
    case PauseAcquire =>
      if !(s.miner.PauseWanted? && LockFree(s)) then s
      else s.(lock := s.lock.(writer := true), miner := PauseLocked)
    case PauseRoll =>
      if !s.miner.PauseLocked? then s else Roll(s, None).(miner := PauseRolled)
    case PauseEvict =>
      if !s.miner.PauseRolled? then s else s.(seen := Evict(s.seen, s.jobs), miner := PauseEvicted)
    case PauseDrain =>
      if !s.miner.PauseEvicted? then s else Drain(s).(miner := PauseDrained)
    case PauseRelease =>
      if !s.miner.PauseDrained? then s else s.(lock := s.lock.(writer := false), miner := Head)
    case Enable =>
      if !s.miner.Head? then s else s.(authoring := true, miner := Enabled)
    case NoTemplate =>
      if !s.miner.Enabled? then s else s.(miner := Head)
    case Template =>
      if !s.miner.Enabled? then s
      else s.(jobCounter := s.jobCounter + 1, miner := PushWanted(s.jobCounter + 1))
    case PushAcquire =>
      if !(s.miner.PushWanted? && LockFree(s)) then s
      else s.(lock := s.lock.(writer := true), miner := PushLocked(s.miner.job))
    case PushRoll =>
      if !s.miner.PushLocked? then s
      else Roll(s, Some(s.miner.job)).(miner := PushRolled(s.miner.job))
    case PushEvict =>
      if !s.miner.PushRolled? then s
      else s.(seen := Evict(s.seen, s.jobs), miner := PushEvicted(s.miner.job))
    case PushStart =>
      if !s.miner.PushEvicted? then s
      else s.(miner := Pushing(s.miner.job, s.sessions.Keys))
    case PushOne(session, ok) => PushTo(s, session, ok)
    case PushRelease =>
      if !(s.miner.Pushing? && s.miner.pending == {}) then s
      else s.(lock := s.lock.(writer := false), miner := Mining(s.miner.job))
    case Receive =>
      if !(s.miner.Mining? && s.channel != []) then s
      else s.(channel := s.channel[1..], miner := InHand(s.miner.job, s.channel[0]))
    case Compare =>
      if !s.miner.InHand? then s
      else if s.miner.seal.job != s.miner.job then
        s.(counters := s.counters.(superseded := s.counters.superseded + 1), miner := Mining(s.miner.job))
      else s.(miner := Checked(s.miner.job, s.miner.seal))
    case Leave =>
      if !s.miner.Mining? then s else s.(miner := Head)
    case GiveUp =>
      if !s.miner.Checked? then s
      else s.(counters := s.counters.(superseded := s.counters.superseded + 1), miner := Head)
    case Submit =>
      if !s.miner.Checked? then s else s.(miner := Submitting(s.miner.job, s.miner.seal))
    case Submitted(ok) =>
      if !s.miner.Submitting? then s
      else if ok then
        s.(counters := s.counters.(sealed := s.counters.sealed + 1), miner := Head,
           history := s.history.(sealedJobs := s.history.sealedJobs + multiset{s.miner.job}))
      else s.(counters := s.counters.(superseded := s.counters.superseded + 1), miner := Head)
  }

  function Step(s: State, a: Action): State {
    match a
    case OfConn(c, conn) => ConnStep(s, c, conn)
    case OfMiner(miner) => MinerStep(s, miner)
  }

  // The state after a schedule.
  function Run(schedule: seq<Action>): State {
    if schedule == [] then Init
    else Step(Run(schedule[..|schedule| - 1]), schedule[|schedule| - 1])
  }

  // ---------------------------------------------------------------------------
  // What an action leaves alone
  // ---------------------------------------------------------------------------

  // A task that is serving a submit, or between two lines.
  predicate ServesSubmit(pc: ConnPc) {
    pc.Reading? || pc.LoginWaiting? || pc.SubmitWaiting? || pc.Looked? || pc.Known?
    || pc.Hashing? || pc.Winning? || pc.Handing?
  }

  predicate IsQuiet(a: ConnAction) {
    !(a.Open? || a.LoginAcquire? || a.LoginList? || a.LoginReply? || a.Disconnect?)
  }

  // From s to t at most c's place changed, and what only a submit touches.
  ghost predicate OnlySubmit(s: State, t: State, c: ConnId) {
    && t.jobs == s.jobs && t.lock == s.lock && Same(t.sessions, s.sessions)
    && t.nextSession == s.nextSession && t.miner == s.miner && t.authoring == s.authoring
    && t.jobCounter == s.jobCounter
    && t.history.rolls == s.history.rolls && t.history.published == s.history.published
    && Same(t.history.owners, s.history.owners)
    && (|| Same(t.conns, s.conns)
        || (&& c in s.conns && c in t.conns
            && ServesSubmit(s.conns[c].pc) && ServesSubmit(t.conns[c].pc)
            && Same(t.conns, s.conns[c := s.conns[c].(pc := t.conns[c].pc)])))
  }

  lemma LookupIsOnlySubmit(s: State, c: ConnId)
    ensures OnlySubmit(s, SubmitLookupBy(s, c), c)
  {
  }

  lemma SessionIsOnlySubmit(s: State, c: ConnId)
    ensures OnlySubmit(s, SubmitSessionBy(s, c), c)
  {
  }

  lemma InsertIsOnlySubmit(s: State, c: ConnId)
    ensures OnlySubmit(s, SubmitInsertBy(s, c), c)
  {
  }

  lemma HashIsOnlySubmit(s: State, c: ConnId, verdict: Verdict)
    ensures OnlySubmit(s, SubmitHashBy(s, c, verdict), c)
  {
  }

  lemma HandIsOnlySubmit(s: State, c: ConnId)
    ensures OnlySubmit(s, SubmitHandBy(s, c), c)
  {
  }

  lemma ReadIsOnlySubmit(s: State, c: ConnId, a: ConnAction)
    requires a.ReadLogin? || a.ReadSubmit?
    ensures OnlySubmit(s, ConnStep(s, c, a), c)
  {
  }

  lemma QuietIsOnlySubmit(s: State, c: ConnId, a: ConnAction)
    requires IsQuiet(a)
    ensures OnlySubmit(s, ConnStep(s, c, a), c)
  {
    match a {
      case ReadLogin | ReadSubmit(_, _) => ReadIsOnlySubmit(s, c, a);
      case SubmitLookup => LookupIsOnlySubmit(s, c);
      case SubmitSession => SessionIsOnlySubmit(s, c);
      case SubmitRefuse =>
      case SubmitInsert => InsertIsOnlySubmit(s, c);
      case SubmitHash(verdict) => HashIsOnlySubmit(s, c, verdict);
      case SubmitCount =>
      case SubmitHand => HandIsOnlySubmit(s, c);
    }
  }

  // From s to t no connection and no session changed.
  ghost predicate SameTable(s: State, t: State) {
    && Same(t.conns, s.conns) && Same(t.sessions, s.sessions) && t.nextSession == s.nextSession
    && Same(t.history.owners, s.history.owners)
    && (t.miner.Pushing? ==> t.miner == s.miner || t.miner.pending == s.sessions.Keys)
  }

  lemma MinerKeepsTable(s: State, a: MinerAction)
    requires !a.PauseDrain? && !a.PushOne?
    ensures SameTable(s, MinerStep(s, a))
  {
    match a {
      case Pause | PauseAcquire | PauseRoll | PauseEvict | PauseRelease | Enable | NoTemplate | Template
           | PushAcquire | PushRoll | PushEvict | PushStart | PushRelease | Receive | Compare | Leave
           | GiveUp | Submit | Submitted(_) =>
    }
  }
}
