/**
 What the endpoint holds at any time: a duplicate set that stays within its
 ceiling and forgets dead jobs, and a session table of open connections from
 which no connection drops out without being told to close.
 */
module StratumTables {
  import opened Prelude
  import opened StratumModel
  import D = StratumDelivery
  import C = StratumCredit

  // ---------------------------------------------------------------------------
  // The duplicate set
  // ---------------------------------------------------------------------------

  // Between a roll and its eviction the set still holds the job before last.
  predicate Rolled(miner: MinerPc) {
    miner.PauseRolled? || miner.PushRolled?
  }

  ghost predicate SeenInv(s: State) {
    && |s.seen| <= MAX_SEEN_SHARES
    && (!Rolled(s.miner) ==> forall k :: k in s.seen ==> s.jobs.IsLive(k.job) || k in s.history.late)
  }

  lemma InsertIsBounded(seen: set<Share>, share: Share, ceiling: nat)
    requires |seen| <= ceiling && ceiling > 0
    ensures |InsertSeen(seen, share, ceiling).0| <= ceiling
  {
  }

  // A share inserted in the template generation of its lookup is of a live
  // job, and any other is on record as late.
  lemma InsertKeepsSeen(s: State, c: ConnId)
    requires C.CreditInv(s) && SeenInv(s)
    ensures SeenInv(SubmitInsertBy(s, c))
  {
    var t := SubmitInsertBy(s, c);
    if t != s {
      var pc := s.conns[c].pc;
      assert C.FlightOk(s, s.conns[c]);
      InsertIsBounded(s.seen, Share(pc.job, s.conns[c].session.value, pc.nonce), MAX_SEEN_SHARES);
    }
  }

  lemma EvictKeepsSeen(s: State, miner: MinerPc)
    requires SeenInv(s)
    ensures SeenInv(s.(seen := Evict(s.seen, s.jobs), miner := miner))
  {
    SubsetSize(Evict(s.seen, s.jobs), s.seen);
  }

  lemma ConnKeepsSeen(s: State, c: ConnId, a: ConnAction)
    requires D.Inv(s) && C.CreditInv(s) && SeenInv(s)
    ensures SeenInv(ConnStep(s, c, a))
  {
    match a {
      case SubmitInsert => InsertKeepsSeen(s, c);
      case SubmitLookup | SubmitHash(_) =>
      case _ =>
        C.ConnIsCalm(s, c, a);
        ConnKeepsMiner(s, c, a);
    }
  }

  lemma ConnKeepsMiner(s: State, c: ConnId, a: ConnAction)
    ensures ConnStep(s, c, a).miner == s.miner
  {
  }

  lemma MinerKeepsSeen(s: State, a: MinerAction)
    requires SeenInv(s)
    ensures SeenInv(MinerStep(s, a))
  {
    match a {
      case PauseRoll | PushRoll =>
      case PauseEvict => EvictKeepsSeen(s, PauseEvicted);
      case PushEvict => if s.miner.PushRolled? { EvictKeepsSeen(s, PushEvicted(s.miner.job)); }
      case _ =>
        C.MinerIsCalm(s, a);
        if Rolled(s.miner) {
          RolledWaits(s, a);
        }
    }
  }

  lemma RolledWaits(s: State, a: MinerAction)
    requires Rolled(s.miner) && !a.PauseEvict? && !a.PushEvict?
    ensures MinerStep(s, a) == s
  {
  }

  // ---------------------------------------------------------------------------
  // The session table
  // ---------------------------------------------------------------------------

  // A logged-in connection that is not over is listed or told to close.
  predicate Reached(s: State, conn: Conn) {
    conn.session.Some? && !conn.pc.Gone? ==> conn.session.value in s.sessions || conn.notified
  }

  ghost predicate ListInv(s: State)
    requires D.SessionsInv(s)
  {
    && (forall id :: id in s.sessions ==> !s.conns[s.sessions[id]].pc.Gone?)
    && (forall c :: c in s.conns ==> Reached(s, s.conns[c]))
  }

  lemma QuietKeepsList(s: State, t: State, c: ConnId)
    requires D.SessionsInv(s) && D.SessionsInv(t) && ListInv(s) && OnlySubmit(s, t, c)
    ensures ListInv(t)
  {
  }

  // One connection moved, and the table is the same.
  lemma MovedKeepsList(s: State, t: State, c: ConnId)
    requires D.SessionsInv(s) && D.SessionsInv(t) && ListInv(s) && Same(t.sessions, s.sessions)
    requires c in t.conns && Same(t.conns, s.conns[c := t.conns[c]]) && !t.conns[c].pc.Gone?
    requires c !in s.conns ==> t.conns[c].session.None?
    requires c in s.conns ==>
      t.conns[c].session == s.conns[c].session && t.conns[c].notified == s.conns[c].notified && !s.conns[c].pc.Gone?
    ensures ListInv(t)
  {
    forall d | d in t.conns ensures Reached(t, t.conns[d]) {
      assert d in s.conns ==> Reached(s, s.conns[d]);
    }
  }

  lemma LoginKeepsList(s: State, c: ConnId, a: ConnAction)
    requires D.SessionsInv(s) && D.SessionsInv(ConnStep(s, c, a)) && ListInv(s)
    requires a.Open? || a.LoginAcquire? || a.LoginReply?
    ensures ListInv(ConnStep(s, c, a))
  {
    var t := ConnStep(s, c, a);
    match a {
      case Open =>
        if c !in s.conns { MovedKeepsList(s, t, c); }
      case LoginAcquire =>
        if c in s.conns && s.conns[c].pc.LoginWaiting? && !s.lock.writer { MovedKeepsList(s, t, c); }
      case LoginReply(_) =>
        if c in s.conns && s.conns[c].pc.LoginListed? { MovedKeepsList(s, t, c); }
    }
  }

  // Only the connection that logs in again, or ends, leaves the table.
  lemma OthersStayListed(s: State, t: State, c: ConnId, d: ConnId)
    requires D.SessionsInv(s) && ListInv(s) && d != c && d in s.conns && d in t.conns && t.conns[d] == s.conns[d]
    requires forall id :: id in s.sessions && id !in t.sessions ==> c in s.conns && s.conns[c].session == Some(id)
    ensures Reached(t, t.conns[d])
  {
    assert Reached(s, s.conns[d]);
    assert s.conns[d].session.Some? ==> D.Owns(s, s.conns[d].session.value, d);
    assert c in s.conns && s.conns[c].session.Some? ==> D.Owns(s, s.conns[c].session.value, c);
  }

  lemma LoginListKeepsList(s: State, c: ConnId)
    requires D.SessionsInv(s) && D.SessionsInv(LoginListBy(s, c)) && ListInv(s)
    ensures ListInv(LoginListBy(s, c))
  {
    var t := LoginListBy(s, c);
    forall d | d in t.conns && d != c ensures Reached(t, t.conns[d]) {
      OthersStayListed(s, t, c, d);
    }
  }

  lemma DisconnectKeepsList(s: State, c: ConnId)
    requires D.SessionsInv(s) && D.SessionsInv(DisconnectBy(s, c)) && ListInv(s)
    ensures ListInv(DisconnectBy(s, c))
  {
    var t := DisconnectBy(s, c);
    forall d | d in t.conns && d != c ensures Reached(t, t.conns[d]) {
      OthersStayListed(s, t, c, d);
    }
  }

  lemma DrainKeepsList(s: State)
    requires D.SessionsInv(s) && D.SessionsInv(MinerStep(s, PauseDrain)) && ListInv(s)
    ensures ListInv(MinerStep(s, PauseDrain))
  {
    var t := MinerStep(s, PauseDrain);
    forall c | c in t.conns ensures Reached(t, t.conns[c]) {
      assert Reached(s, s.conns[c]);
    }
  }

  lemma MinerKeepsList(s: State, a: MinerAction)
    requires D.SessionsInv(s) && D.SessionsInv(MinerStep(s, a)) && ListInv(s)
    ensures ListInv(MinerStep(s, a))
  {
    match a {
      case PauseDrain => DrainKeepsList(s);
      case PushOne(_, _) =>
      case _ => MinerKeepsTable(s, a);
    }
  }

  lemma {:induction false} Invariant(schedule: seq<Action>)
    ensures D.SessionsInv(Run(schedule)) && SeenInv(Run(schedule)) && ListInv(Run(schedule))
  {
    D.Invariant(schedule);
    if schedule != [] {
      var before := Run(schedule[..|schedule| - 1]);
      Invariant(schedule[..|schedule| - 1]);
      D.Invariant(schedule[..|schedule| - 1]);
      C.Invariant(schedule[..|schedule| - 1]);
      match schedule[|schedule| - 1] {
        case OfConn(c, a) => ConnKeepsSeen(before, c, a); ConnKeepsList(before, c, a);
        case OfMiner(a) => MinerKeepsSeen(before, a); MinerKeepsList(before, a);
      }
    }
  }

  lemma ConnKeepsList(s: State, c: ConnId, a: ConnAction)
    requires D.SessionsInv(s) && D.SessionsInv(ConnStep(s, c, a)) && ListInv(s)
    ensures ListInv(ConnStep(s, c, a))
  {
    match a {
      case Open | LoginAcquire | LoginReply(_) => LoginKeepsList(s, c, a);
      case LoginList => LoginListKeepsList(s, c);
      case Disconnect => DisconnectKeepsList(s, c);
      case _ =>
        QuietIsOnlySubmit(s, c, a);
        QuietKeepsList(s, ConnStep(s, c, a), c);
    }
  }

  // ---------------------------------------------------------------------------
  // For every schedule
  // ---------------------------------------------------------------------------

  // The duplicate set is never above its ceiling, and outside a roll it holds
  // live jobs' shares and ones inserted late, nothing else.
  lemma {:induction false} SeenIsBoundedAndLive(schedule: seq<Action>)
    ensures |Run(schedule).seen| <= MAX_SEEN_SHARES
    ensures !Rolled(Run(schedule).miner) ==>
      forall k :: k in Run(schedule).seen ==>
        || Run(schedule).jobs.current == Some(k.job) || Run(schedule).jobs.previous == Some(k.job)
        || k in Run(schedule).history.late
  {
    Invariant(schedule);
  }

  // A session is listed under an open connection, and a connection that logged
  // in stays listed until it is over or told to close.
  lemma {:induction false} NobodyDropsOutSilently(schedule: seq<Action>, c: ConnId)
    requires c in Run(schedule).conns && Run(schedule).conns[c].session.Some?
    ensures
      var s := Run(schedule);
      var conn := s.conns[c];
      if conn.pc.Gone? then conn.session.value !in s.sessions
      else conn.session.value in s.sessions || conn.notified
  {
    Invariant(schedule);
    var s := Run(schedule);
    assert D.Owns(s, s.conns[c].session.value, c);
  }
}
