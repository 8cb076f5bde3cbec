/**
 How often one share can be credited. The duplicate set is evicted when the
 template rolls and cleared at its ceiling, and a submit holds no lock between
 its job lookup and its insert, so the bound belongs to the whole protocol.
 */
module StratumCredit {
  import opened Prelude
  import opened StratumModel
  import D = StratumDelivery

  // ---------------------------------------------------------------------------
  // The invariant
  // ---------------------------------------------------------------------------

  // The share a connection has looked up and not yet inserted.
  function Flight(conn: Conn): Option<Share> {
    if conn.session.Some? && (conn.pc.Looked? || conn.pc.Known?)
    then Some(Share(conn.pc.job, conn.session.value, conn.pc.nonce)) else None
  }

  // The share a connection has inserted and not yet been answered for.
  function Pending(conn: Conn): Option<Share> {
    if conn.session.Some? && conn.pc.Hashing?
    then Some(Share(conn.pc.job, conn.session.value, conn.pc.nonce)) else None
  }

  predicate InFlight(s: State, k: Share) {
    && k.session in s.history.owners && s.history.owners[k.session] in s.conns
    && Flight(s.conns[s.history.owners[k.session]]) == Some(k)
  }

  predicate IsPending(s: State, k: Share) {
    && k.session in s.history.owners && s.history.owners[k.session] in s.conns
    && Pending(s.conns[s.history.owners[k.session]]) == Some(k)
  }

  // What a submit found is published, and live until the next roll.
  predicate FlightOk(s: State, conn: Conn) {
    Flight(conn).Some? ==>
      && conn.pc.roll <= s.history.rolls
      && conn.pc.job <= s.history.published
      && (conn.pc.roll == s.history.rolls ==> s.jobs.IsLive(conn.pc.job))
  }

  // While its job is live the set lets a share in once per clear. A dead job
  // is found by no lookup, so at most the one submit in flight is left.
  predicate ShareOk(s: State, k: Share) {
    var h := s.history;
    && (k in h.admitted ==> k.job <= h.published)
    && (s.jobs.IsLive(k.job) ==> h.admitted[k] <= h.clears + One(k in s.seen))
    && (!s.jobs.IsLive(k.job) ==> h.admitted[k] + One(InFlight(s, k)) <= h.clears + 2)
    && (!s.jobs.IsLive(k.job) ==> h.admitted[k] <= h.clears + 1 + h.late[k])
    && h.credited[k] + One(IsPending(s, k)) <= h.admitted[k]
  }

  ghost predicate FlightsOk(s: State) {
    forall c :: c in s.conns ==> FlightOk(s, s.conns[c])
  }

  ghost predicate CreditInv(s: State) {
    FlightsOk(s) && forall k: Share :: ShareOk(s, k)
  }

  // ---------------------------------------------------------------------------
  // Actions that neither look up, insert nor credit
  // ---------------------------------------------------------------------------

  ghost predicate SameBooks(s: State, t: State) {
    && t.jobs == s.jobs && Same(t.seen, s.seen)
    && t.history.rolls == s.history.rolls && t.history.published == s.history.published
    && Same(t.history.admitted, s.history.admitted) && Same(t.history.late, s.history.late)
    && Same(t.history.credited, s.history.credited) && t.history.clears == s.history.clears
  }

  ghost predicate OwnersStay(s: State, t: State) {
    forall id :: id in s.history.owners ==>
      id in t.history.owners && t.history.owners[id] == s.history.owners[id]
  }

  // No share is newly in flight or pending, and the books are the same.
  ghost predicate Calm(s: State, t: State) {
    && SameBooks(s, t) && OwnersStay(s, t)
    && (forall c :: c in t.conns ==>
          && (Flight(t.conns[c]).Some? ==>
                && c in s.conns && Flight(t.conns[c]) == Flight(s.conns[c])
                && t.conns[c].pc.roll == s.conns[c].pc.roll)
          && (Pending(t.conns[c]).Some? ==> c in s.conns && Pending(t.conns[c]) == Pending(s.conns[c])))
  }

  lemma CalmKeeps(s: State, t: State)
    requires D.SessionsInv(s) && CreditInv(s) && Calm(s, t)
    ensures CreditInv(t)
  {
    forall k: Share ensures ShareOk(t, k) {
      assert ShareOk(s, k);
      if InFlight(t, k) {
        assert D.Owns(s, k.session, t.history.owners[k.session]);
      }
      if IsPending(t, k) {
        assert D.Owns(s, k.session, t.history.owners[k.session]);
      }
    }
  }

  // ---------------------------------------------------------------------------
  // Lookup, insert and credit
  // ---------------------------------------------------------------------------

  lemma LookupIsOnBooks(s: State, c: ConnId)
    ensures SameBooks(s, SubmitLookupBy(s, c)) && Same(SubmitLookupBy(s, c).history.owners, s.history.owners)
  {
  }

  // What a lookup puts in flight is of a live job, and nothing becomes pending.
  lemma LookupFlies(s: State, c: ConnId, k: Share)
    ensures InFlight(SubmitLookupBy(s, c), k) ==> InFlight(s, k) || s.jobs.IsLive(k.job)
    ensures IsPending(SubmitLookupBy(s, c), k) ==> IsPending(s, k)
  {
  }

  lemma LookupShare(s: State, t: State, k: Share)
    requires ShareOk(s, k) && SameBooks(s, t)
    requires InFlight(t, k) ==> InFlight(s, k) || s.jobs.IsLive(k.job)
    requires IsPending(t, k) ==> IsPending(s, k)
    ensures ShareOk(t, k)
  {
  }

  lemma LookupKeepsFlights(s: State, c: ConnId)
    requires D.JobsInv(s) && CreditInv(s)
    ensures FlightsOk(SubmitLookupBy(s, c))
  {
  }

  lemma LookupKeeps(s: State, c: ConnId)
    requires D.JobsInv(s) && CreditInv(s)
    ensures CreditInv(SubmitLookupBy(s, c))
  {
    LookupKeepsFlights(s, c);
    LookupIsOnBooks(s, c);
    forall k: Share ensures ShareOk(SubmitLookupBy(s, c), k) {
      assert ShareOk(s, k);
      LookupFlies(s, c, k);
      LookupShare(s, SubmitLookupBy(s, c), k);
    }
  }

  // An insert takes its share out of flight and may make it pending, no other.
  lemma InsertedConn(s: State, c: ConnId)
    requires c in s.conns && s.conns[c].pc.Known? && s.conns[c].session.Some?
    ensures
      var t := SubmitInsertBy(s, c);
      && c in t.conns && Flight(t.conns[c]).None?
      && (Pending(t.conns[c]).None? || Pending(t.conns[c]) == Flight(s.conns[c]))
  {
  }

  // The share being inserted.
  lemma InsertedShare(s: State, c: ConnId, k: Share)
    requires D.SessionsInv(s) && CreditInv(s)
    requires c in s.conns && s.conns[c].pc.Known? && Flight(s.conns[c]) == Some(k)
    ensures ShareOk(SubmitInsertBy(s, c), k)
  {
    assert D.Owns(s, k.session, c);
    assert FlightOk(s, s.conns[c]) && ShareOk(s, k);
    var t := SubmitInsertBy(s, c);
    InsertedConn(s, c);
    assert !InFlight(t, k);
    if |s.seen| < MAX_SEEN_SHARES && k in s.seen {
      assert !IsPending(t, k);
    }
  }

  // Any other share: a clear at the ceiling can only raise its bound.
  lemma OtherShareFrame(s: State, t: State, k: Share)
    requires ShareOk(s, k) && t.jobs == s.jobs && t.history.published == s.history.published
    requires t.history.admitted[k] == s.history.admitted[k] && t.history.late[k] == s.history.late[k]
    requires t.history.credited[k] == s.history.credited[k]
    requires t.history.clears >= s.history.clears + One(k in s.seen && k !in t.seen)
    requires InFlight(t, k) ==> InFlight(s, k)
    requires IsPending(t, k) ==> IsPending(s, k)
    ensures ShareOk(t, k)
  {
  }

  lemma InsertFlies(s: State, c: ConnId, k: Share)
    requires c in s.conns && s.conns[c].pc.Known? && Flight(s.conns[c]) != Some(k)
    ensures InFlight(SubmitInsertBy(s, c), k) ==> InFlight(s, k)
    ensures IsPending(SubmitInsertBy(s, c), k) ==> IsPending(s, k)
  {
    if s.conns[c].session.Some? {
      InsertIsOnlySubmit(s, c);
      InsertedConn(s, c);
    }
  }

  lemma OtherShare(s: State, c: ConnId, k: Share)
    requires ShareOk(s, k)
    requires c in s.conns && s.conns[c].pc.Known? && Flight(s.conns[c]) != Some(k)
    ensures ShareOk(SubmitInsertBy(s, c), k)
  {
    InsertFlies(s, c, k);
    OtherShareFrame(s, SubmitInsertBy(s, c), k);
  }

  lemma InsertKeepsFlights(s: State, c: ConnId)
    requires FlightsOk(s)
    ensures FlightsOk(SubmitInsertBy(s, c))
  {
  }

  lemma InsertKeeps(s: State, c: ConnId)
    requires D.SessionsInv(s) && CreditInv(s)
    ensures CreditInv(SubmitInsertBy(s, c))
  {
    InsertKeepsFlights(s, c);
    if c in s.conns && s.conns[c].pc.Known? {
      forall k: Share ensures ShareOk(SubmitInsertBy(s, c), k) {
        assert ShareOk(s, k);
        if Flight(s.conns[c]) == Some(k) {
          InsertedShare(s, c, k);
        } else {
          OtherShare(s, c, k);
        }
      }
    }
  }

  lemma HashKeeps(s: State, c: ConnId, verdict: Verdict)
    requires D.SessionsInv(s) && CreditInv(s)
    ensures CreditInv(SubmitHashBy(s, c, verdict))
  {
    HashKeepsFlights(s, c, verdict);
    forall k: Share ensures ShareOk(SubmitHashBy(s, c, verdict), k) {
      assert ShareOk(s, k);
      HashShare(s, c, verdict, k);
    }
  }

  lemma HashKeepsFlights(s: State, c: ConnId, verdict: Verdict)
    requires FlightsOk(s)
    ensures FlightsOk(SubmitHashBy(s, c, verdict))
  {
  }

  // A verdict ends the pending share of its connection, credited or not.
  lemma HashShare(s: State, c: ConnId, verdict: Verdict, k: Share)
    requires D.SessionsInv(s) && ShareOk(s, k)
    ensures ShareOk(SubmitHashBy(s, c, verdict), k)
  {
  }

  // ---------------------------------------------------------------------------
  // Rolls and evictions
  // ---------------------------------------------------------------------------

  // A roll retires the job before last and brings in one nobody has named.
  lemma RollKeeps(s: State, next: Option<JobId>, miner: MinerPc)
    requires D.JobsInv(s) && CreditInv(s)
    requires next.Some? ==> s.history.published < next.value
    ensures CreditInv(Roll(s, next).(miner := miner))
  {
    var t := Roll(s, next).(miner := miner);
    forall k: Share ensures ShareOk(t, k) {
      assert ShareOk(s, k);
    }
  }

  lemma EvictKeeps(s: State, miner: MinerPc)
    requires CreditInv(s)
    ensures CreditInv(s.(seen := Evict(s.seen, s.jobs), miner := miner))
  {
    var t := s.(seen := Evict(s.seen, s.jobs), miner := miner);
    forall k: Share ensures ShareOk(t, k) {
      assert ShareOk(s, k);
    }
  }

  // ---------------------------------------------------------------------------
  // Every action
  // ---------------------------------------------------------------------------

  // A task that ends up with no share in hand.
  lemma IdleIsCalm(s: State, t: State, c: ConnId)
    requires SameBooks(s, t) && OwnersStay(s, t)
    requires c in t.conns && Same(t.conns, s.conns[c := t.conns[c]])
    requires Flight(t.conns[c]).None? && Pending(t.conns[c]).None?
    ensures Calm(s, t)
  {
  }

  lemma LoginAcquireIsCalm(s: State, c: ConnId)
    ensures Calm(s, LoginAcquireBy(s, c))
  {
    if c in s.conns && s.conns[c].pc.LoginWaiting? && !s.lock.writer {
      IdleIsCalm(s, LoginAcquireBy(s, c), c);
    }
  }

  lemma LoginListIsCalm(s: State, c: ConnId)
    requires D.SessionsInv(s)
    ensures Calm(s, LoginListBy(s, c))
  {
    if c in s.conns && s.conns[c].pc.LoginReady? {
      IdleIsCalm(s, LoginListBy(s, c), c);
    }
  }

  lemma LoginReplyIsCalm(s: State, c: ConnId, ok: bool)
    ensures Calm(s, LoginReplyBy(s, c, ok))
  {
    if c in s.conns && s.conns[c].pc.LoginListed? {
      IdleIsCalm(s, LoginReplyBy(s, c, ok), c);
    }
  }

  lemma HandIsCalm(s: State, c: ConnId)
    ensures Calm(s, SubmitHandBy(s, c))
  {
    if c in s.conns && s.conns[c].pc.Handing? {
      IdleIsCalm(s, SubmitHandBy(s, c), c);
    }
  }

  lemma ReadIsCalm(s: State, c: ConnId, a: ConnAction)
    requires a.ReadLogin? || a.ReadSubmit?
    ensures Calm(s, ConnStep(s, c, a))
  {
    if MayReadLine(s, c) {
      IdleIsCalm(s, ConnStep(s, c, a), c);
    }
  }

  lemma RestIsCalm(s: State, c: ConnId, a: ConnAction)
    requires a.Open? || a.SubmitRefuse? || a.SubmitCount? || a.Disconnect?
    ensures Calm(s, ConnStep(s, c, a))
  {
    var t := ConnStep(s, c, a);
    if Same(t.conns, s.conns) {
    } else {
      IdleIsCalm(s, t, c);
    }
  }

  // A task that keeps the share it has in hand.
  lemma HoldingIsCalm(s: State, t: State, c: ConnId)
    requires SameBooks(s, t) && Same(t.history.owners, s.history.owners)
    requires c in s.conns && c in t.conns && Same(t.conns, s.conns[c := t.conns[c]])
    requires Flight(t.conns[c]) == Flight(s.conns[c]) && Flight(s.conns[c]).Some? && Pending(t.conns[c]).None?
    requires t.conns[c].pc.roll == s.conns[c].pc.roll
    ensures Calm(s, t)
  {
  }

  lemma SessionIsCalm(s: State, c: ConnId)
    ensures Calm(s, SubmitSessionBy(s, c))
  {
    var t := SubmitSessionBy(s, c);
    if c in s.conns && s.conns[c].pc.Looked? && s.conns[c].session.Some? {
      if s.conns[c].session.value in s.sessions {
        HoldingIsCalm(s, t, c);
      } else {
        IdleIsCalm(s, t, c);
      }
    }
  }

  lemma ConnIsCalm(s: State, c: ConnId, a: ConnAction)
    requires D.SessionsInv(s)
    requires !a.SubmitLookup? && !a.SubmitInsert? && !a.SubmitHash?
    ensures Calm(s, ConnStep(s, c, a))
  {
    match a {
      case Open | SubmitRefuse | SubmitCount | Disconnect => RestIsCalm(s, c, a);
      case ReadLogin | ReadSubmit(_, _) => ReadIsCalm(s, c, a);
      case SubmitSession => SessionIsCalm(s, c);
      case LoginAcquire => LoginAcquireIsCalm(s, c);
      case LoginList => LoginListIsCalm(s, c);
      case LoginReply(ok) => LoginReplyIsCalm(s, c, ok);
      case SubmitHand => HandIsCalm(s, c);
    }
  }

  lemma ConnKeeps(s: State, c: ConnId, a: ConnAction)
    requires D.Inv(s) && CreditInv(s)
    ensures CreditInv(ConnStep(s, c, a))
  {
    match a {
      case SubmitLookup => LookupKeeps(s, c);
      case SubmitInsert => InsertKeeps(s, c);
      case SubmitHash(verdict) => HashKeeps(s, c, verdict);
      case _ =>
        ConnIsCalm(s, c, a);
        CalmKeeps(s, ConnStep(s, c, a));
    }
  }

  lemma MinerIsCalm(s: State, a: MinerAction)
    requires !a.PauseRoll? && !a.PushRoll? && !a.PauseEvict? && !a.PushEvict?
    ensures Calm(s, MinerStep(s, a))
  {
    match a {
      case PauseDrain | PushOne(_, _) => TablePassIsCalm(s, a);
      case Pause | PauseAcquire | PauseRelease | Enable | NoTemplate | Template | PushAcquire
           | PushStart | PushRelease | Receive | Compare | Leave | GiveUp | Submit | Submitted(_) =>
        MinerKeepsTable(s, a);
        MinerIsOnBooks(s, a);
    }
  }

  lemma TablePassIsCalm(s: State, a: MinerAction)
    requires a.PauseDrain? || a.PushOne?
    ensures Calm(s, MinerStep(s, a))
  {
    match a {
      case PauseDrain =>
      case PushOne(_, _) =>
    }
  }

  lemma MinerIsOnBooks(s: State, a: MinerAction)
    requires !a.PauseRoll? && !a.PushRoll? && !a.PauseEvict? && !a.PushEvict?
    ensures SameBooks(s, MinerStep(s, a))
  {
    match a {
      case Pause | PauseAcquire | PauseDrain | PauseRelease | Enable | NoTemplate | Template =>
      case PushAcquire | PushStart | PushOne(_, _) | PushRelease =>
      case Receive | Compare | Leave | GiveUp | Submit | Submitted(_) =>
    }
  }

  lemma MinerKeeps(s: State, a: MinerAction)
    requires D.Inv(s) && CreditInv(s)
    ensures CreditInv(MinerStep(s, a))
  {
    match a {
      case PauseRoll => RollKeeps(s, None, PauseRolled);
      case PushRoll => if s.miner.PushLocked? { RollKeeps(s, Some(s.miner.job), PushRolled(s.miner.job)); }
      case PauseEvict => EvictKeeps(s, PauseEvicted);
      case PushEvict => if s.miner.PushRolled? { EvictKeeps(s, PushEvicted(s.miner.job)); }
      case _ =>
        MinerIsCalm(s, a);
        CalmKeeps(s, MinerStep(s, a));
    }
  }

  lemma {:induction false} Invariant(schedule: seq<Action>)
    ensures CreditInv(Run(schedule))
  {
    if schedule != [] {
      var before := Run(schedule[..|schedule| - 1]);
      Invariant(schedule[..|schedule| - 1]);
      D.Invariant(schedule[..|schedule| - 1]);
      match schedule[|schedule| - 1] {
        case OfConn(c, a) => ConnKeeps(before, c, a);
        case OfMiner(a) => MinerKeeps(before, a);
      }
    }
  }

  // ---------------------------------------------------------------------------
  // The bounds, for every schedule
  // ---------------------------------------------------------------------------

  // Twice at most, and once more for every clear at the ceiling.
  lemma {:induction false} CreditedAtMostTwice(schedule: seq<Action>, k: Share)
    ensures Run(schedule).history.credited[k] <= 2 + Run(schedule).history.clears
  {
    Invariant(schedule);
    assert ShareOk(Run(schedule), k);
  }

  // Once at most when no roll fell between a lookup of it and its insert.
  lemma {:induction false} CreditedAtMostOnce(schedule: seq<Action>, k: Share)
    ensures k !in Run(schedule).history.late ==>
      Run(schedule).history.credited[k] <= 1 + Run(schedule).history.clears
  {
    Invariant(schedule);
    assert ShareOk(Run(schedule), k);
  }
}
