/**
 The endpoint's counters and its seal channel, kept a second time from the
 schedule alone: what each action that took place adds, and nothing else.
 */
module StratumLedger {
  import opened Prelude
  import opened StratumModel
  import S = StratumSeals

  // ---------------------------------------------------------------------------
  // The second set of books
  // ---------------------------------------------------------------------------

  // `blocks` counts the shares judged to be blocks, `sealed` the jobs the node
  // accepted a block for.
  datatype Books = Books(
    accepted: nat,
    blocks: nat,
    rejected: nat,
    candidates: nat,
    superseded: nat,
    dropped: nat,
    sealed: multiset<JobId>)

  const NOTHING := Books(0, 0, 0, 0, 0, 0, multiset{})

  // What an event is to the books.
  datatype Event = Quiet | Rejected | Credited | CreditedBlock | Candidate | TooLate | Lost | SealOf(job: JobId)

  function Entered(b: Books, e: Event): Books {
    match e
    case Quiet => b
    case Rejected => b.(rejected := b.rejected + 1)
    case Credited => b.(accepted := b.accepted + 1)
    case CreditedBlock => b.(accepted := b.accepted + 1, blocks := b.blocks + 1)
    case Candidate => b.(candidates := b.candidates + 1)
    case TooLate => b.(superseded := b.superseded + 1)
    case Lost => b.(dropped := b.dropped + 1)
    case SealOf(job) => b.(sealed := b.sealed + multiset{job})
  }

  // A submit is refused without a session, for a job that is neither live one,
  // when its session is no longer listed, for its nonce or its budget, as a
  // duplicate, or for its hash.
  function ConnEvent(s: State, c: ConnId, a: ConnAction): Event {
    if c !in s.conns then Quiet
    else
      var conn := s.conns[c];
      match a
      case ReadSubmit(_, _) =>
        if conn.pc.Reading? && !conn.notified && conn.session.None? then Rejected else Quiet
      case SubmitLookup =>
        if conn.pc.SubmitWaiting? && !s.lock.writer
           && s.jobs.current != Some(conn.pc.job) && s.jobs.previous != Some(conn.pc.job)
        then Rejected else Quiet
      case SubmitSession =>
        if conn.pc.Looked? && conn.session.Some? && conn.session.value !in s.sessions then Rejected else Quiet
      case SubmitRefuse =>
        if conn.pc.Known? then Rejected else Quiet
      case SubmitInsert =>
        if conn.pc.Known? && conn.session.Some? && |s.seen| < MAX_SEEN_SHARES
           && Share(conn.pc.job, conn.session.value, conn.pc.nonce) in s.seen
        then Rejected else Quiet
      case SubmitHash(verdict) =>
        if conn.pc.Hashing? && conn.session.Some? then Judged(verdict) else Quiet
      case SubmitCount =>
        if conn.pc.Winning? then Candidate else Quiet
      case SubmitHand =>
        if !conn.pc.Handing? then Quiet
        else if !conn.pc.isCurrent then TooLate
        else if |s.channel| >= SEAL_CHANNEL_DEPTH then Lost
        else Quiet
      case _ => Quiet
  }

  function Judged(verdict: Verdict): Event {
    match verdict
    case TooWeak => Rejected
    case GoodShare => Credited
    case GoodBlock => CreditedBlock
  }

  // A seal is too late for another template, for one that moved on, or when the
  // node refuses it.
  function MinerEvent(s: State, a: MinerAction): Event {
    match a
    case Compare => if s.miner.InHand? && s.miner.seal.job != s.miner.job then TooLate else Quiet
    case GiveUp => if s.miner.Checked? then TooLate else Quiet
    case Submitted(accepted) =>
      if !s.miner.Submitting? then Quiet else if accepted then SealOf(s.miner.job) else TooLate
    case _ => Quiet
  }

  function EventOf(s: State, a: Action): Event {
    match a
    case OfConn(c, conn) => ConnEvent(s, c, conn)
    case OfMiner(miner) => MinerEvent(s, miner)
  }

  function BooksOf(schedule: seq<Action>): Books {
    if schedule == [] then NOTHING
    else
      var before := schedule[..|schedule| - 1];
      Entered(BooksOf(before), EventOf(Run(before), schedule[|schedule| - 1]))
  }

  ghost predicate Agrees(s: State, b: Books) {
    && s.counters == Counters(b.accepted, b.rejected, b.candidates, |b.sealed|, b.superseded)
    && s.history.dropped == b.dropped && s.history.sealedJobs == b.sealed
  }

  // ---------------------------------------------------------------------------
  // Each action is entered
  // ---------------------------------------------------------------------------

  ghost predicate EntersAs(s: State, t: State, e: Event) {
    forall b :: Agrees(s, b) ==> Agrees(t, Entered(b, e))
  }

  // Nothing the books count has changed.
  ghost predicate SameBooks(s: State, t: State) {
    && t.counters == s.counters && t.history.dropped == s.history.dropped
    && Same(t.history.sealedJobs, s.history.sealedJobs)
  }

  lemma QuietEnters(s: State, t: State)
    requires SameBooks(s, t)
    ensures EntersAs(s, t, Quiet)
  {
  }

  lemma ReadEnters(s: State, c: ConnId, a: ConnAction)
    requires a.ReadLogin? || a.ReadSubmit? || a.Open?
    ensures EntersAs(s, ConnStep(s, c, a), ConnEvent(s, c, a))
  {
  }

  lemma LoginEnters(s: State, c: ConnId, a: ConnAction)
    requires a.LoginAcquire? || a.LoginList? || a.LoginReply? || a.Disconnect?
    ensures EntersAs(s, ConnStep(s, c, a), ConnEvent(s, c, a))
  {
    QuietEnters(s, ConnStep(s, c, a));
  }

  lemma LookupEnters(s: State, c: ConnId)
    ensures EntersAs(s, ConnStep(s, c, SubmitLookup), ConnEvent(s, c, SubmitLookup))
  {
  }

  lemma SessionEnters(s: State, c: ConnId)
    ensures EntersAs(s, ConnStep(s, c, SubmitSession), ConnEvent(s, c, SubmitSession))
  {
  }

  lemma RefuseEnters(s: State, c: ConnId)
    ensures EntersAs(s, ConnStep(s, c, SubmitRefuse), ConnEvent(s, c, SubmitRefuse))
  {
  }

  lemma InsertEnters(s: State, c: ConnId)
    ensures EntersAs(s, ConnStep(s, c, SubmitInsert), ConnEvent(s, c, SubmitInsert))
  {
  }

  lemma HashEnters(s: State, c: ConnId, verdict: Verdict)
    ensures EntersAs(s, ConnStep(s, c, SubmitHash(verdict)), ConnEvent(s, c, SubmitHash(verdict)))
  {
  }

  lemma CountEnters(s: State, c: ConnId)
    ensures EntersAs(s, ConnStep(s, c, SubmitCount), ConnEvent(s, c, SubmitCount))
  {
  }

  lemma HandEnters(s: State, c: ConnId)
    ensures EntersAs(s, ConnStep(s, c, SubmitHand), ConnEvent(s, c, SubmitHand))
  {
  }

  lemma ConnEnters(s: State, c: ConnId, a: ConnAction)
    ensures EntersAs(s, ConnStep(s, c, a), ConnEvent(s, c, a))
  {
    match a {
      case Open | ReadLogin | ReadSubmit(_, _) => ReadEnters(s, c, a);
      case LoginAcquire | LoginList | LoginReply(_) | Disconnect => LoginEnters(s, c, a);
      case SubmitLookup => LookupEnters(s, c);
      case SubmitSession => SessionEnters(s, c);
      case SubmitRefuse => RefuseEnters(s, c);
      case SubmitInsert => InsertEnters(s, c);
      case SubmitHash(verdict) => HashEnters(s, c, verdict);
      case SubmitCount => CountEnters(s, c);
      case SubmitHand => HandEnters(s, c);
    }
  }

  lemma SealEnters(s: State, a: MinerAction)
    requires a.Compare? || a.GiveUp? || a.Submitted?
    ensures EntersAs(s, MinerStep(s, a), MinerEvent(s, a))
  {
    match a {
      case Compare =>
      case GiveUp =>
      case Submitted(_) =>
    }
  }

  lemma OthersAreQuiet(s: State, a: MinerAction)
    requires !a.Compare? && !a.GiveUp? && !a.Submitted?
    ensures SameBooks(s, MinerStep(s, a))
  {
    match a {
      case Pause | PauseAcquire | PauseRoll | PauseEvict | PauseDrain | PauseRelease | Enable | NoTemplate =>
      case Template | PushAcquire | PushRoll | PushEvict | PushStart | PushOne(_, _) | PushRelease =>
      case Receive | Leave | Submit =>
    }
  }

  lemma MinerEnters(s: State, a: MinerAction)
    ensures EntersAs(s, MinerStep(s, a), MinerEvent(s, a))
  {
    match a {
      case Compare | GiveUp | Submitted(_) => SealEnters(s, a);
      case _ =>
        OthersAreQuiet(s, a);
        QuietEnters(s, MinerStep(s, a));
    }
  }

  // Every counter is exactly what the schedule enters: each share credited, each
  // refusal, each candidate, each seal too late, and for each job sealed one
  // submit the node accepted.
  lemma {:induction false} CountersAreTheBooks(schedule: seq<Action>)
    ensures Agrees(Run(schedule), BooksOf(schedule))
  {
    if schedule != [] {
      var before, a := schedule[..|schedule| - 1], schedule[|schedule| - 1];
      CountersAreTheBooks(before);
      match a {
        case OfConn(c, conn) => ConnEnters(Run(before), c, conn);
        case OfMiner(miner) => MinerEnters(Run(before), miner);
      }
    }
  }

  // ---------------------------------------------------------------------------
  // Blocks
  // ---------------------------------------------------------------------------

  // How many connections have found a block and not counted it yet.
  ghost function Winners(s: State): nat {
    |S.Held(s.conns, S.Uncounted)|
  }

  // Winners come with a share judged a block and go with a candidate counted.
  ghost predicate WinnersMove(s: State, t: State, e: Event) {
    Winners(t) + One(e.Candidate?) == Winners(s) + One(e.CreditedBlock?)
  }

  lemma OneMoves(s: State, t: State, c: ConnId, e: Event)
    requires c in t.conns && Same(t.conns, s.conns[c := t.conns[c]])
    requires One(t.conns[c].pc.Winning?) + One(e.Candidate?)
          == One(c in s.conns && s.conns[c].pc.Winning?) + One(e.CreditedBlock?)
    ensures WinnersMove(s, t, e)
  {
    S.Moved(s.conns, c, t.conns[c], S.Uncounted);
  }

  lemma ReadMoves(s: State, c: ConnId, a: ConnAction)
    requires || a.ReadLogin? || a.ReadSubmit? || a.Open? || a.LoginAcquire? || a.LoginList? || a.LoginReply?
             || a.Disconnect?
    ensures WinnersMove(s, ConnStep(s, c, a), ConnEvent(s, c, a))
  {
    var t := ConnStep(s, c, a);
    if !Same(t.conns, s.conns) {
      match a {
        case ReadLogin | ReadSubmit(_, _) | Open => OneMoves(s, t, c, ConnEvent(s, c, a));
        case LoginAcquire | LoginList | LoginReply(_) | Disconnect => OneMoves(s, t, c, ConnEvent(s, c, a));
      }
    }
  }

  lemma CheckMoves(s: State, c: ConnId, a: ConnAction)
    requires a.SubmitLookup? || a.SubmitSession? || a.SubmitRefuse? || a.SubmitInsert?
    ensures WinnersMove(s, ConnStep(s, c, a), ConnEvent(s, c, a))
  {
    QuietIsOnlySubmit(s, c, a);
    var t := ConnStep(s, c, a);
    if !Same(t.conns, s.conns) {
      CheckIsNoWin(s, c, a);
      OneMoves(s, t, c, ConnEvent(s, c, a));
    }
  }

  lemma CheckIsNoWin(s: State, c: ConnId, a: ConnAction)
    requires a.SubmitLookup? || a.SubmitSession? || a.SubmitRefuse? || a.SubmitInsert?
    requires c in s.conns && !Same(ConnStep(s, c, a).conns, s.conns)
    ensures !s.conns[c].pc.Winning?
    ensures c in ConnStep(s, c, a).conns && !ConnStep(s, c, a).conns[c].pc.Winning?
  {
    match a {
      case SubmitLookup =>
      case SubmitSession =>
      case SubmitRefuse =>
      case SubmitInsert =>
    }
  }

  lemma HashMoves(s: State, c: ConnId, verdict: Verdict)
    ensures WinnersMove(s, ConnStep(s, c, SubmitHash(verdict)), ConnEvent(s, c, SubmitHash(verdict)))
  {
    if c in s.conns && s.conns[c].pc.Hashing? && s.conns[c].session.Some? {
      OneMoves(s, SubmitHashBy(s, c, verdict), c, Judged(verdict));
    }
  }

  lemma CountMoves(s: State, c: ConnId)
    ensures WinnersMove(s, ConnStep(s, c, SubmitCount), ConnEvent(s, c, SubmitCount))
  {
    if c in s.conns && s.conns[c].pc.Winning? {
      OneMoves(s, SubmitCountBy(s, c), c, Candidate);
    }
  }

  lemma HandMoves(s: State, c: ConnId)
    ensures WinnersMove(s, ConnStep(s, c, SubmitHand), ConnEvent(s, c, SubmitHand))
  {
    if c in s.conns && s.conns[c].pc.Handing? {
      OneMoves(s, SubmitHandBy(s, c), c, ConnEvent(s, c, SubmitHand));
    }
  }

  lemma MinerMoves(s: State, a: MinerAction)
    ensures WinnersMove(s, MinerStep(s, a), MinerEvent(s, a))
  {
    match a {
      case PauseDrain => S.SamePlaces(s.conns, Drain(s).conns, S.Uncounted);
      case PushOne(session, ok) => S.SamePlaces(s.conns, PushTo(s, session, ok).conns, S.Uncounted);
      case _ => MinerKeepsTable(s, a);
    }
  }

  lemma ConnMoves(s: State, c: ConnId, a: ConnAction)
    ensures WinnersMove(s, ConnStep(s, c, a), ConnEvent(s, c, a))
  {
    match a {
      case SubmitLookup | SubmitSession | SubmitRefuse | SubmitInsert => CheckMoves(s, c, a);
      case SubmitHash(verdict) => HashMoves(s, c, verdict);
      case SubmitCount => CountMoves(s, c);
      case SubmitHand => HandMoves(s, c);
      case _ => ReadMoves(s, c, a);
    }
  }

  lemma StepMoves(s: State, a: Action)
    ensures WinnersMove(s, Step(s, a), EventOf(s, a))
  {
    match a {
      case OfConn(c, conn) => ConnMoves(s, c, conn);
      case OfMiner(miner) => MinerMoves(s, miner);
    }
  }

  lemma {:induction false} BlocksAreAccounted(schedule: seq<Action>)
    ensures BooksOf(schedule).blocks == BooksOf(schedule).candidates + Winners(Run(schedule))
  {
    if schedule == [] {
      assert S.Held(Init.conns, S.Uncounted) == {};
    } else {
      var before, a := schedule[..|schedule| - 1], schedule[|schedule| - 1];
      BlocksAreAccounted(before);
      StepMoves(Run(before), a);
    }
  }

  // Every block found is a candidate counted or about to be counted.
  lemma {:induction false} BlocksBecomeCandidates(schedule: seq<Action>)
    ensures BooksOf(schedule).blocks == Run(schedule).counters.candidates + Winners(Run(schedule))
  {
    BlocksAreAccounted(schedule);
    CountersAreTheBooks(schedule);
  }
}
