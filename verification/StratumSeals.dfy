/**
 The operator's counters and the seals they count. A block-worthy share is
 counted by the connection that found it and resolved, if ever, by the mining
 loop, so the books balance over both tasks and the channel between them.
 */
module StratumSeals {
  import opened Prelude
  import opened StratumModel
  import D = StratumDelivery

  // Where an accepted block-worthy share stands before the channel: not yet
  // counted as a candidate, or counted and not yet passed on.
  datatype Stage = Uncounted | Counted

  predicate AtStage(conn: Conn, stage: Stage) {
    if stage.Uncounted? then conn.pc.Winning? else conn.pc.Handing?
  }

  ghost function Held(conns: map<ConnId, Conn>, stage: Stage): set<ConnId> {
    set c | c in conns && AtStage(conns[c], stage)
  }

  function InHand(miner: MinerPc): nat {
    if miner.InHand? || miner.Checked? || miner.Submitting? then 1 else 0
  }

  // Every candidate is somewhere, and every candidate was an accepted share.
  ghost predicate Balanced(s: State) {
    && s.counters.candidates ==
         s.counters.sealed + s.counters.superseded + |s.channel| + InHand(s.miner)
         + s.history.dropped + |Held(s.conns, Counted)|
    && s.counters.accepted == |s.history.credited|
    && s.counters.candidates + |Held(s.conns, Uncounted)| <= s.counters.accepted
  }

  // The channel is bounded and a seal past the comparison is the template's own.
  ghost predicate MinerOk(s: State) {
    && |s.channel| <= SEAL_CHANNEL_DEPTH
    && (s.miner.Checked? || s.miner.Submitting? ==> s.miner.seal.job == s.miner.job)
    && s.counters.sealed + (if D.MinersJob(s.miner).Some? then 1 else 0) <= s.jobCounter
  }

  // Each template ends with its first submit, so none is sealed twice and the
  // one in work is not sealed yet.
  ghost predicate SealedOk(s: State) {
    && |s.history.sealedJobs| == s.counters.sealed
    && (forall job :: s.history.sealedJobs[job] <= 1)
    && (forall job :: job in s.history.sealedJobs ==> 0 < job <= s.jobCounter)
    && (D.MinersJob(s.miner).Some? ==> s.jobCounter !in s.history.sealedJobs)
  }

  lemma Moved(conns: map<ConnId, Conn>, c: ConnId, conn: Conn, stage: Stage)
    ensures |Held(conns[c := conn], stage)| + One(c in Held(conns, stage))
         == |Held(conns, stage)| + One(AtStage(conn, stage))
  {
    HeldAfter(conns, c, conn, stage);
    var held := Held(conns, stage);
    assert held == held - {c} + if c in held then {c} else {};
  }

  lemma HeldAfter(conns: map<ConnId, Conn>, c: ConnId, conn: Conn, stage: Stage)
    ensures Held(conns[c := conn], stage) == Held(conns, stage) - {c} + if AtStage(conn, stage) then {c} else {}
  {
  }

  // ---------------------------------------------------------------------------
  // Connection actions
  // ---------------------------------------------------------------------------

  // A step of c that touches no seal: it is between neither count.
  lemma QuietBalanced(s: State, t: State, c: ConnId)
    requires Balanced(s) && c in t.conns && Same(t.conns, s.conns[c := t.conns[c]])
    requires c in s.conns ==> !s.conns[c].pc.Winning? && !s.conns[c].pc.Handing?
    requires !t.conns[c].pc.Winning? && !t.conns[c].pc.Handing?
    requires t.channel == s.channel && t.miner == s.miner && t.history.dropped == s.history.dropped
    requires t.counters == s.counters.(rejected := t.counters.rejected)
    requires Same(t.history.credited, s.history.credited)
    ensures Balanced(t)
  {
    Moved(s.conns, c, t.conns[c], Uncounted);
    Moved(s.conns, c, t.conns[c], Counted);
  }

  lemma HashBalanced(s: State, c: ConnId, verdict: Verdict)
    requires Balanced(s)
    ensures Balanced(SubmitHashBy(s, c, verdict))
  {
    var t := SubmitHashBy(s, c, verdict);
    if c in s.conns && s.conns[c].pc.Hashing? && s.conns[c].session.Some? {
      Moved(s.conns, c, t.conns[c], Uncounted);
      Moved(s.conns, c, t.conns[c], Counted);
    }
  }

  lemma CountBalanced(s: State, c: ConnId)
    requires Balanced(s)
    ensures Balanced(SubmitCountBy(s, c))
  {
    var t := SubmitCountBy(s, c);
    if c in s.conns && s.conns[c].pc.Winning? {
      Moved(s.conns, c, t.conns[c], Uncounted);
      Moved(s.conns, c, t.conns[c], Counted);
    }
  }

  // A counted candidate that is passed on: to the channel, or too late for it,
  // or dropped.
  lemma HandBalanced(s: State, c: ConnId)
    requires Balanced(s)
    ensures Balanced(SubmitHandBy(s, c))
  {
    if c in s.conns && s.conns[c].pc.Handing? {
      HandResolves(s, c);
      HandMoves(s, c);
    }
  }

  lemma HandResolves(s: State, c: ConnId)
    requires c in s.conns && s.conns[c].pc.Handing?
    ensures
      var t := SubmitHandBy(s, c);
      && t.miner == s.miner && t.history.credited == s.history.credited
      && t.counters == s.counters.(superseded := t.counters.superseded)
      && t.counters.superseded + |t.channel| + t.history.dropped
         == s.counters.superseded + |s.channel| + s.history.dropped + 1
  {
  }

  lemma HandMoves(s: State, c: ConnId)
    requires c in s.conns && s.conns[c].pc.Handing?
    ensures
      var t := SubmitHandBy(s, c);
      && |Held(t.conns, Counted)| + 1 == |Held(s.conns, Counted)|
      && |Held(t.conns, Uncounted)| == |Held(s.conns, Uncounted)|
  {
    var t := SubmitHandBy(s, c);
    Moved(s.conns, c, t.conns[c], Uncounted);
    Moved(s.conns, c, t.conns[c], Counted);
  }

  lemma InsertBalanced(s: State, c: ConnId)
    requires Balanced(s)
    ensures Balanced(SubmitInsertBy(s, c))
  {
    var t := SubmitInsertBy(s, c);
    if t.conns != s.conns {
      QuietBalanced(s, t, c);
    }
  }

  lemma LoginAcquireBalanced(s: State, c: ConnId)
    requires Balanced(s)
    ensures Balanced(LoginAcquireBy(s, c))
  {
    if c in s.conns && s.conns[c].pc.LoginWaiting? && !s.lock.writer {
      QuietBalanced(s, LoginAcquireBy(s, c), c);
    }
  }

  lemma LoginListBalanced(s: State, c: ConnId)
    requires Balanced(s)
    ensures Balanced(LoginListBy(s, c))
  {
    if c in s.conns && s.conns[c].pc.LoginReady? {
      QuietBalanced(s, LoginListBy(s, c), c);
    }
  }

  lemma LoginReplyBalanced(s: State, c: ConnId, ok: bool)
    requires Balanced(s)
    ensures Balanced(LoginReplyBy(s, c, ok))
  {
    if c in s.conns && s.conns[c].pc.LoginListed? {
      QuietBalanced(s, LoginReplyBy(s, c, ok), c);
    }
  }

  lemma ReadBalanced(s: State, c: ConnId, a: ConnAction)
    requires Balanced(s) && (a.ReadLogin? || a.ReadSubmit?)
    ensures Balanced(ConnStep(s, c, a))
  {
    if MayReadLine(s, c) {
      QuietBalanced(s, ConnStep(s, c, a), c);
    }
  }

  lemma LookupBalanced(s: State, c: ConnId)
    requires Balanced(s)
    ensures Balanced(SubmitLookupBy(s, c))
  {
    if c in s.conns && s.conns[c].pc.SubmitWaiting? && !s.lock.writer {
      QuietBalanced(s, SubmitLookupBy(s, c), c);
    }
  }

  lemma SessionBalanced(s: State, c: ConnId)
    requires Balanced(s)
    ensures Balanced(SubmitSessionBy(s, c))
  {
    if c in s.conns && s.conns[c].pc.Looked? && s.conns[c].session.Some? {
      QuietBalanced(s, SubmitSessionBy(s, c), c);
    }
  }

  lemma RestBalanced(s: State, c: ConnId, a: ConnAction)
    requires Balanced(s) && (a.Open? || a.SubmitRefuse? || a.Disconnect?)
    ensures Balanced(ConnStep(s, c, a))
  {
    var t := ConnStep(s, c, a);
    if !Same(t.conns, s.conns) {
      QuietBalanced(s, t, c);
    }
  }

  lemma ConnBalanced(s: State, c: ConnId, a: ConnAction)
    requires Balanced(s)
    ensures Balanced(ConnStep(s, c, a))
  {
    match a {
      case LoginAcquire => LoginAcquireBalanced(s, c);
      case LoginList => LoginListBalanced(s, c);
      case LoginReply(ok) => LoginReplyBalanced(s, c, ok);
      case SubmitInsert => InsertBalanced(s, c);
      case SubmitHash(verdict) => HashBalanced(s, c, verdict);
      case SubmitCount => CountBalanced(s, c);
      case SubmitHand => HandBalanced(s, c);
      case ReadLogin | ReadSubmit(_, _) => ReadBalanced(s, c, a);
      case SubmitLookup => LookupBalanced(s, c);
      case SubmitSession => SessionBalanced(s, c);
      case Open | SubmitRefuse | Disconnect => RestBalanced(s, c, a);
    }
  }

  // No connection touches what the mining loop alone decides.
  ghost predicate SameSealing(s: State, t: State) {
    && t.miner == s.miner && t.jobCounter == s.jobCounter && t.counters.sealed == s.counters.sealed
    && Same(t.history.sealedJobs, s.history.sealedJobs)
    && (|t.channel| <= |s.channel| || |t.channel| <= SEAL_CHANNEL_DEPTH)
  }

  lemma ConnIsSameSealing(s: State, c: ConnId, a: ConnAction)
    ensures SameSealing(s, ConnStep(s, c, a))
  {
    match a {
      case Open | ReadLogin | LoginAcquire | LoginList | LoginReply(_) | ReadSubmit(_, _) | Disconnect =>
      case SubmitLookup | SubmitSession | SubmitRefuse | SubmitInsert =>
      case SubmitHash(_) | SubmitCount | SubmitHand =>
    }
  }

  lemma ConnMinerOk(s: State, c: ConnId, a: ConnAction)
    requires MinerOk(s) && SealedOk(s)
    ensures MinerOk(ConnStep(s, c, a)) && SealedOk(ConnStep(s, c, a))
  {
    ConnIsSameSealing(s, c, a);
  }

  // ---------------------------------------------------------------------------
  // Actions of the mining loop
  // ---------------------------------------------------------------------------

  lemma SamePlaces(conns: map<ConnId, Conn>, other: map<ConnId, Conn>, stage: Stage)
    requires other.Keys == conns.Keys && forall c :: c in conns ==> other[c].pc == conns[c].pc
    ensures Held(other, stage) == Held(conns, stage)
  {
  }

  lemma DrainBalanced(s: State)
    requires Balanced(s)
    ensures Balanced(MinerStep(s, PauseDrain))
  {
    SamePlaces(s.conns, Drain(s).conns, Uncounted);
    SamePlaces(s.conns, Drain(s).conns, Counted);
  }

  lemma PushBalanced(s: State, session: SessionId, ok: bool)
    requires Balanced(s)
    ensures Balanced(PushTo(s, session, ok))
  {
    SamePlaces(s.conns, PushTo(s, session, ok).conns, Uncounted);
    SamePlaces(s.conns, PushTo(s, session, ok).conns, Counted);
  }

  lemma ReceiveBalanced(s: State)
    requires Balanced(s)
    ensures Balanced(MinerStep(s, Receive))
  {
  }

  lemma CompareBalanced(s: State)
    requires Balanced(s)
    ensures Balanced(MinerStep(s, Compare))
  {
  }

  lemma SealBalanced(s: State, a: MinerAction)
    requires Balanced(s) && (a.GiveUp? || a.Submit? || a.Submitted?)
    ensures Balanced(MinerStep(s, a))
  {
    match a {
      case GiveUp =>
      case Submit =>
      case Submitted(_) =>
    }
  }

  lemma MinerBalanced(s: State, a: MinerAction)
    requires Balanced(s)
    ensures Balanced(MinerStep(s, a))
  {
    match a {
      case PauseDrain => DrainBalanced(s);
      case PushOne(session, ok) => PushBalanced(s, session, ok);
      case Receive => ReceiveBalanced(s);
      case Compare => CompareBalanced(s);
      case GiveUp | Submit | Submitted(_) => SealBalanced(s, a);
      case Pause | PauseAcquire | PauseRoll | PauseEvict | PauseRelease =>
        MinerKeepsTable(s, a);
        PauseIsSameSeals(s, a);
      case Enable | NoTemplate | Template | PushAcquire | PushRoll | PushEvict | PushStart | PushRelease | Leave =>
        MinerKeepsTable(s, a);
        PushIsSameSeals(s, a);
    }
  }

  // No counter, no seal and no drop is touched.
  ghost predicate SameSeals(s: State, t: State) {
    && t.counters == s.counters && t.channel == s.channel && t.history.dropped == s.history.dropped
    && Same(t.history.credited, s.history.credited) && InHand(t.miner) == InHand(s.miner)
  }

  lemma PauseIsSameSeals(s: State, a: MinerAction)
    requires a.Pause? || a.PauseAcquire? || a.PauseRoll? || a.PauseEvict? || a.PauseRelease?
    ensures SameSeals(s, MinerStep(s, a))
  {
    match a {
      case Pause | PauseAcquire | PauseRoll | PauseEvict | PauseRelease =>
    }
  }

  lemma PushIsSameSeals(s: State, a: MinerAction)
    requires a.Enable? || a.NoTemplate? || a.Template? || a.PushAcquire? || a.PushRoll? || a.PushEvict?
      || a.PushStart? || a.PushRelease? || a.Leave?
    ensures SameSeals(s, MinerStep(s, a))
  {
    match a {
      case Enable | NoTemplate | Template | Leave =>
      case PushAcquire | PushRoll | PushEvict | PushStart | PushRelease =>
    }
  }

  lemma MinerKeepsOk(s: State, a: MinerAction)
    requires MinerOk(s)
    ensures MinerOk(MinerStep(s, a))
  {
    match a {
      case Pause | PauseAcquire | PauseRoll | PauseEvict | PauseDrain | PauseRelease | Enable
           | NoTemplate | Template | PushAcquire | PushRoll | PushEvict | PushStart | PushOne(_, _)
           | PushRelease | Receive | Compare | Leave | GiveUp | Submit | Submitted(_) =>
    }
  }

  // Only a submit that went through seals, and it seals the template in work.
  lemma SubmittedKeepsSealed(s: State, ok: bool)
    requires D.JobsInv(s) && MinerOk(s) && SealedOk(s)
    ensures SealedOk(MinerStep(s, Submitted(ok)))
  {
  }

  lemma OthersSealNothing(s: State, a: MinerAction)
    requires !a.Submitted?
    ensures
      var t := MinerStep(s, a);
      && Same(t.history.sealedJobs, s.history.sealedJobs) && t.counters.sealed == s.counters.sealed
      && t.jobCounter == s.jobCounter + One(a.Template? && s.miner.Enabled?)
  {
    match a {
      case Pause | PauseAcquire | PauseRoll | PauseEvict | PauseDrain | PauseRelease | Enable | NoTemplate =>
      case Template | PushAcquire | PushRoll | PushEvict | PushStart | PushOne(_, _) | PushRelease =>
      case Receive | Compare | Leave | GiveUp | Submit =>
    }
  }

  lemma OnlyTemplatesBegin(s: State, a: MinerAction)
    ensures
      var t := MinerStep(s, a);
      D.MinersJob(t.miner).Some? ==> D.MinersJob(s.miner).Some? || (a.Template? && s.miner.Enabled?)
  {
    match a {
      case Pause | PauseAcquire | PauseRoll | PauseEvict | PauseDrain | PauseRelease | Enable | NoTemplate =>
      case Template | PushAcquire | PushRoll | PushEvict | PushStart | PushOne(_, _) | PushRelease =>
      case Receive | Compare | Leave | GiveUp | Submit | Submitted(_) =>
    }
  }

  lemma MinerKeepsSealed(s: State, a: MinerAction)
    requires D.JobsInv(s) && MinerOk(s) && SealedOk(s)
    ensures SealedOk(MinerStep(s, a))
  {
    match a {
      case Submitted(ok) => SubmittedKeepsSealed(s, ok);
      case _ =>
        OthersSealNothing(s, a);
        OnlyTemplatesBegin(s, a);
    }
  }

  lemma {:induction false} Invariant(schedule: seq<Action>)
    ensures Balanced(Run(schedule)) && MinerOk(Run(schedule)) && SealedOk(Run(schedule))
  {
    if schedule == [] {
      assert Held(Init.conns, Counted) == {} && Held(Init.conns, Uncounted) == {};
    } else {
      var before := Run(schedule[..|schedule| - 1]);
      Invariant(schedule[..|schedule| - 1]);
      D.Invariant(schedule[..|schedule| - 1]);
      match schedule[|schedule| - 1] {
        case OfConn(c, a) =>
          ConnBalanced(before, c, a);
          ConnMinerOk(before, c, a);
        case OfMiner(a) =>
          MinerBalanced(before, a);
          MinerKeepsOk(before, a);
          MinerKeepsSealed(before, a);
      }
    }
  }

  // ---------------------------------------------------------------------------
  // What the operator can rely on, for every schedule
  // ---------------------------------------------------------------------------

  // Nothing is resolved that was not a candidate, and no share is a candidate
  // that was not accepted.
  lemma {:induction false} CountersAgree(schedule: seq<Action>)
    ensures
      var n := Run(schedule).counters;
      && n.sealed + n.superseded <= n.candidates <= n.accepted
      && n.sealed <= Run(schedule).jobCounter
  {
    Invariant(schedule);
  }

  // No template is sealed twice: the sealed counter counts different jobs, each
  // of them once published.
  lemma {:induction false} SealedAtMostOnce(schedule: seq<Action>, job: JobId)
    ensures Run(schedule).history.sealedJobs[job] <= 1
    ensures job in Run(schedule).history.sealedJobs ==> 0 < job <= Run(schedule).jobCounter
    ensures |Run(schedule).history.sealedJobs| == Run(schedule).counters.sealed
  {
    Invariant(schedule);
  }

  // With every task between two jobs of work and the channel empty, each
  // candidate was sealed, was too late or was dropped on a full channel.
  lemma {:induction false} QuiescentBooksBalance(schedule: seq<Action>)
    requires Run(schedule).channel == [] && InHand(Run(schedule).miner) == 0
    requires forall c :: c in Run(schedule).conns ==> !Run(schedule).conns[c].pc.Handing?
    ensures
      var n := Run(schedule).counters;
      n.candidates == n.sealed + n.superseded + Run(schedule).history.dropped
  {
    Invariant(schedule);
    assert Held(Run(schedule).conns, Counted) == {};
  }

  // A rig's seal reaches submit only under the id of the template being mined.
  lemma {:induction false} SubmittedSealIsOfItsTemplate(schedule: seq<Action>)
    ensures
      var s := Run(schedule);
      s.miner.Submitting? ==>
        s.miner.seal.job == s.miner.job == s.jobCounter && s.jobs.current == Some(s.miner.job)
  {
    Invariant(schedule);
    D.Invariant(schedule);
  }
}
