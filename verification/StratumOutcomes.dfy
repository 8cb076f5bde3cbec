/**
 A submit, a login and a seal from beginning to end, when no other task comes
 between: what they do to jobs, tables, channel and counters, in every case.
 */
module StratumOutcomes {
  import opened Prelude
  import opened StratumModel

  // ---------------------------------------------------------------------------
  // A submit
  // ---------------------------------------------------------------------------

  // A logged-in connection that may read its next line.
  predicate Ready(s: State, c: ConnId) {
    && c in s.conns && s.conns[c].pc.Reading? && !s.conns[c].notified && !s.lock.writer
    && s.conns[c].session.Some? && s.conns[c].session.value in s.sessions
  }

  function Checked(s: State, c: ConnId, job: JobId, nonce: nat): State {
    var read := ConnStep(s, c, ReadSubmit(job, nonce));
    ConnStep(ConnStep(read, c, SubmitLookup), c, SubmitSession)
  }

  function Answered(s: State, c: ConnId, verdict: Verdict): State {
    var hashed := ConnStep(ConnStep(s, c, SubmitInsert), c, SubmitHash(verdict));
    ConnStep(ConnStep(hashed, c, SubmitCount), c, SubmitHand)
  }

  function Served(s: State, c: ConnId, job: JobId, nonce: nat, verdict: Verdict): State {
    Answered(Checked(s, c, job, nonce), c, verdict)
  }

  predicate IsLive(s: State, job: JobId) {
    s.jobs.current == Some(job) || s.jobs.previous == Some(job)
  }

  // No roll came between lookup and insert, so nothing was late.
  ghost predicate InTime(s: State, t: State, cleared: bool) {
    Same(t.history.late, s.history.late) && t.history.clears == s.history.clears + One(cleared)
  }

  // What no submit touches, and the connection ready for its next line.
  ghost predicate Settled(s: State, t: State, c: ConnId) {
    && t.jobs == s.jobs && t.lock == s.lock && Same(t.sessions, s.sessions) && t.miner == s.miner
    && c in s.conns && c in t.conns && t.conns[c] == s.conns[c] && t.conns.Keys == s.conns.Keys
  }

  // Refused: one rejection, and nothing credited or sent.
  ghost predicate Refused(s: State, t: State) {
    && t.counters == s.counters.(rejected := s.counters.rejected + 1)
    && t.channel == s.channel && Same(t.history.credited, s.history.credited)
    && t.history.dropped == s.history.dropped
  }

  // Credited, as a candidate or not.
  ghost predicate Credited(s: State, t: State, share: Share, block: bool, late: bool) {
    && t.counters == s.counters.(accepted := s.counters.accepted + 1,
                                 candidates := s.counters.candidates + One(block),
                                 superseded := s.counters.superseded + One(late))
    && t.history.credited == s.history.credited + multiset{share}
  }

  lemma IdleStays(s: State, c: ConnId, verdict: Verdict)
    requires c in s.conns && s.conns[c].pc.Reading?
    ensures Answered(s, c, verdict) == s && ConnStep(s, c, SubmitSession) == s
  {
  }

  lemma UnknownJob(s: State, c: ConnId, job: JobId, nonce: nat)
    requires Ready(s, c) && !IsLive(s, job)
    ensures Settled(s, Checked(s, c, job, nonce), c) && Refused(s, Checked(s, c, job, nonce))
    ensures Same(Checked(s, c, job, nonce).seen, s.seen) && InTime(s, Checked(s, c, job, nonce), false)
  {
    var read := ConnStep(s, c, ReadSubmit(job, nonce));
    var looked := ConnStep(read, c, SubmitLookup);
    assert looked.conns[c] == s.conns[c];
    IdleStays(looked, c, TooWeak);
  }

  lemma KnownJob(s: State, c: ConnId, job: JobId, nonce: nat)
    requires Ready(s, c) && IsLive(s, job)
    ensures
      var pc := Known(job, s.jobs.current == Some(job), nonce, s.history.rolls);
      Checked(s, c, job, nonce) == s.(conns := s.conns[c := s.conns[c].(pc := pc)])
  {
    var read := ConnStep(s, c, ReadSubmit(job, nonce));
    assert read.conns == s.conns[c := s.conns[c].(pc := SubmitWaiting(job, nonce))];
    var looked := ConnStep(read, c, SubmitLookup);
    var pc := Looked(job, s.jobs.current == Some(job), nonce, s.history.rolls);
    assert looked.conns == s.conns[c := s.conns[c].(pc := pc)];
  }

  // The connection moved to `pc` and the rest of the endpoint stayed.
  ghost predicate Moved(s: State, t: State, c: ConnId, pc: ConnPc, cleared: bool := false) {
    && InTime(s, t, cleared)
    && t.jobs == s.jobs && t.lock == s.lock && Same(t.sessions, s.sessions) && t.miner == s.miner
    && c in s.conns && Same(t.conns, s.conns[c := s.conns[c].(pc := pc)])
  }

  ghost predicate SameMoney(s: State, t: State) {
    && t.counters == s.counters && t.channel == s.channel && t.history.dropped == s.history.dropped
    && Same(t.history.credited, s.history.credited)
  }

  predicate AtKnown(s: State, c: ConnId, share: Share, isCurrent: bool, roll: nat) {
    c in s.conns && s.conns[c].session == Some(share.session)
    && s.conns[c].pc == Known(share.job, isCurrent, share.nonce, roll)
  }

  lemma Duplicate(s: State, c: ConnId, share: Share, isCurrent: bool, roll: nat, verdict: Verdict)
    requires AtKnown(s, c, share, isCurrent, roll) && |s.seen| < MAX_SEEN_SHARES && share in s.seen
    ensures
      var t := Answered(s, c, verdict);
      Moved(s, t, c, Reading) && Refused(s, t) && t.seen == s.seen
  {
    IdleStays(ConnStep(s, c, SubmitInsert), c, verdict);
    IdleHash(ConnStep(s, c, SubmitInsert), c, verdict);
  }

  lemma IdleHash(s: State, c: ConnId, verdict: Verdict)
    requires c in s.conns && s.conns[c].pc.Reading?
    ensures ConnStep(s, c, SubmitHash(verdict)) == s && ConnStep(s, c, SubmitCount) == s
    ensures ConnStep(s, c, SubmitHand) == s
  {
  }

  lemma Fresh(s: State, c: ConnId, share: Share, isCurrent: bool, roll: nat)
    requires AtKnown(s, c, share, isCurrent, roll) && (|s.seen| < MAX_SEEN_SHARES ==> share !in s.seen)
    requires roll == s.history.rolls
    ensures
      var t := ConnStep(s, c, SubmitInsert);
      && Moved(s, t, c, Hashing(share.job, isCurrent, share.nonce, roll), |s.seen| >= MAX_SEEN_SHARES)
      && SameMoney(s, t) && share in t.seen
  {
  }

  predicate AtHashing(s: State, c: ConnId, share: Share, isCurrent: bool, roll: nat) {
    c in s.conns && s.conns[c].session == Some(share.session)
    && s.conns[c].pc == Hashing(share.job, isCurrent, share.nonce, roll)
  }

  function Judged(s: State, c: ConnId, verdict: Verdict): State {
    ConnStep(ConnStep(ConnStep(s, c, SubmitHash(verdict)), c, SubmitCount), c, SubmitHand)
  }

  lemma Weak(s: State, c: ConnId, share: Share, isCurrent: bool, roll: nat)
    requires AtHashing(s, c, share, isCurrent, roll)
    ensures var t := Judged(s, c, TooWeak); Moved(s, t, c, Reading) && Refused(s, t) && Same(t.seen, s.seen)
  {
    IdleHash(ConnStep(s, c, SubmitHash(TooWeak)), c, TooWeak);
  }

  lemma Good(s: State, c: ConnId, share: Share, isCurrent: bool, roll: nat)
    requires AtHashing(s, c, share, isCurrent, roll)
    ensures
      var t := Judged(s, c, GoodShare);
      && Moved(s, t, c, Reading) && Credited(s, t, share, false, false) && Same(t.seen, s.seen)
      && t.channel == s.channel && t.history.dropped == s.history.dropped
  {
    IdleHash(ConnStep(s, c, SubmitHash(GoodShare)), c, GoodShare);
  }

  // A block: counted, then sent last in the channel, dropped, or too late.
  ghost predicate BlockDone(s: State, t: State, share: Share, isCurrent: bool) {
    && Credited(s, t, share, true, !isCurrent)
    && var room := |s.channel| < SEAL_CHANNEL_DEPTH;
       && t.channel == (if isCurrent && room then s.channel + [Seal(share.job, share.nonce)] else s.channel)
       && t.history.dropped == s.history.dropped + One(isCurrent && !room)
  }

  lemma BlockCounted(s: State, c: ConnId, share: Share, isCurrent: bool, roll: nat)
    requires AtHashing(s, c, share, isCurrent, roll)
    ensures
      var t := ConnStep(ConnStep(s, c, SubmitHash(GoodBlock)), c, SubmitCount);
      && Moved(s, t, c, Handing(share.job, isCurrent, share.nonce, roll)) && Credited(s, t, share, true, false)
      && Same(t.seen, s.seen) && t.channel == s.channel && t.history.dropped == s.history.dropped
  {
    var won := ConnStep(s, c, SubmitHash(GoodBlock));
    assert won.conns == s.conns[c := s.conns[c].(pc := Winning(share.job, isCurrent, share.nonce, roll))];
    var t := ConnStep(won, c, SubmitCount);
    assert t.conns == s.conns[c := s.conns[c].(pc := Handing(share.job, isCurrent, share.nonce, roll))];
  }

  lemma BlockPassedOn(s: State, c: ConnId, job: JobId, isCurrent: bool, nonce: nat, roll: nat)
    requires c in s.conns && s.conns[c].pc == Handing(job, isCurrent, nonce, roll)
    ensures
      var t, room := ConnStep(s, c, SubmitHand), |s.channel| < SEAL_CHANNEL_DEPTH;
      && Moved(s, t, c, Reading) && Same(t.seen, s.seen) && Same(t.history.credited, s.history.credited)
      && t.counters == s.counters.(superseded := s.counters.superseded + One(!isCurrent))
      && t.channel == (if isCurrent && room then s.channel + [Seal(job, nonce)] else s.channel)
      && t.history.dropped == s.history.dropped + One(isCurrent && !room)
  {
  }

  lemma Block(s: State, c: ConnId, share: Share, isCurrent: bool, roll: nat)
    requires AtHashing(s, c, share, isCurrent, roll)
    ensures
      var t := Judged(s, c, GoodBlock);
      Moved(s, t, c, Reading) && BlockDone(s, t, share, isCurrent) && Same(t.seen, s.seen)
  {
    BlockCounted(s, c, share, isCurrent, roll);
    var counted := ConnStep(ConnStep(s, c, SubmitHash(GoodBlock)), c, SubmitCount);
    BlockPassedOn(counted, c, share.job, isCurrent, share.nonce, roll);
    assert Judged(s, c, GoodBlock).conns == s.conns[c := s.conns[c].(pc := Reading)];
  }

  // What a verdict on a share that was inserted leads to.
  ghost predicate Decided(s: State, t: State, share: Share, isCurrent: bool, verdict: Verdict) {
    match verdict
    case TooWeak => Refused(s, t)
    case GoodShare =>
      Credited(s, t, share, false, false) && t.channel == s.channel && t.history.dropped == s.history.dropped
    case GoodBlock => BlockDone(s, t, share, isCurrent)
  }

  lemma JudgedOutcome(s: State, c: ConnId, share: Share, isCurrent: bool, roll: nat, verdict: Verdict)
    requires AtHashing(s, c, share, isCurrent, roll)
    ensures
      var t := Judged(s, c, verdict);
      Moved(s, t, c, Reading) && Decided(s, t, share, isCurrent, verdict) && Same(t.seen, s.seen)
  {
    match verdict {
      case TooWeak => Weak(s, c, share, isCurrent, roll);
      case GoodShare => Good(s, c, share, isCurrent, roll);
      case GoodBlock => Block(s, c, share, isCurrent, roll);
    }
  }

  lemma FreshOutcome(k: State, c: ConnId, share: Share, isCurrent: bool, roll: nat, verdict: Verdict)
    requires AtKnown(k, c, share, isCurrent, roll) && (|k.seen| < MAX_SEEN_SHARES ==> share !in k.seen)
    requires roll == k.history.rolls
    ensures
      var t := Answered(k, c, verdict);
      && Moved(k, t, c, Reading, |k.seen| >= MAX_SEEN_SHARES)
      && Decided(k, t, share, isCurrent, verdict) && share in t.seen
  {
    Fresh(k, c, share, isCurrent, roll);
    var h := ConnStep(k, c, SubmitInsert);
    JudgedOutcome(h, c, share, isCurrent, roll, verdict);
    Compose(k, h, Judged(h, c, verdict), c, share, isCurrent, roll, verdict);
  }

  lemma Compose(k: State, h: State, t: State, c: ConnId, share: Share, isCurrent: bool, roll: nat, verdict: Verdict)
    requires Moved(k, h, c, Hashing(share.job, isCurrent, share.nonce, roll), |k.seen| >= MAX_SEEN_SHARES)
    requires SameMoney(k, h) && Moved(h, t, c, Reading) && Decided(h, t, share, isCurrent, verdict)
    ensures Moved(k, t, c, Reading, |k.seen| >= MAX_SEEN_SHARES) && Decided(k, t, share, isCurrent, verdict)
  {
    assert t.conns == k.conns[c := k.conns[c].(pc := Reading)];
  }

  // The whole of a submit. A job that is neither the current nor the previous
  // one, a share seen before and a weak hash are refused; any other share is
  // credited; and a block reaches the mining loop exactly if its job is the
  // current one and there is room, and is superseded exactly if it is not.
  lemma SubmitOutcome(s: State, c: ConnId, job: JobId, nonce: nat, verdict: Verdict)
    requires Ready(s, c)
    ensures
      var t, share := Served(s, c, job, nonce, verdict), Share(job, s.conns[c].session.value, nonce);
      && Settled(s, t, c) && InTime(s, t, IsLive(s, job) && |s.seen| >= MAX_SEEN_SHARES)
      && (if !IsLive(s, job) || (|s.seen| < MAX_SEEN_SHARES && share in s.seen)
          then Refused(s, t) && t.seen == s.seen
          else Decided(s, t, share, s.jobs.current == Some(job), verdict) && share in t.seen)
  {
    var k := Checked(s, c, job, nonce);
    if !IsLive(s, job) {
      UnknownJob(s, c, job, nonce);
      IdleStays(k, c, verdict);
    } else {
      KnownJob(s, c, job, nonce);
      KnownOutcome(s, k, c, Share(job, s.conns[c].session.value, nonce), verdict);
    }
  }

  // From there on, where the job was found.
  lemma KnownOutcome(s: State, k: State, c: ConnId, share: Share, verdict: Verdict)
    requires Ready(s, c) && s.conns[c].session == Some(share.session)
    requires
      var pc := Known(share.job, s.jobs.current == Some(share.job), share.nonce, s.history.rolls);
      k == s.(conns := s.conns[c := s.conns[c].(pc := pc)])
    ensures
      var t := Answered(k, c, verdict);
      && Settled(s, t, c) && InTime(s, t, |s.seen| >= MAX_SEEN_SHARES)
      && (if |s.seen| < MAX_SEEN_SHARES && share in s.seen then Refused(s, t) && t.seen == s.seen
          else Decided(s, t, share, s.jobs.current == Some(share.job), verdict) && share in t.seen)
  {
    var isCurrent := s.jobs.current == Some(share.job);
    var t := Answered(k, c, verdict);
    if |s.seen| < MAX_SEEN_SHARES && share in s.seen {
      Duplicate(k, c, share, isCurrent, s.history.rolls, verdict);
      BackAgain(s, k, t, c, false);
    } else {
      FreshOutcome(k, c, share, isCurrent, s.history.rolls, verdict);
      BackAgain(s, k, t, c, |s.seen| >= MAX_SEEN_SHARES);
    }
  }

  lemma BackAgain(s: State, k: State, t: State, c: ConnId, cleared: bool)
    requires Ready(s, c) && Moved(k, t, c, Reading, cleared)
    requires k == s.(conns := k.conns) && c in k.conns && k.conns == s.conns[c := s.conns[c].(pc := k.conns[c].pc)]
    ensures Settled(s, t, c) && InTime(s, t, cleared)
  {
    assert t.conns == s.conns;
  }

  // ---------------------------------------------------------------------------
  // A login
  // ---------------------------------------------------------------------------

  function LoggedIn(s: State, c: ConnId, queued: bool): State {
    var ready := ConnStep(ConnStep(s, c, ReadLogin), c, LoginAcquire);
    ConnStep(ConnStep(ready, c, LoginList), c, LoginReply(queued))
  }

  function Held(session: Option<SessionId>): set<SessionId> {
    if session.Some? then {session.value} else {}
  }

  function Welcomed(conn: Conn, session: SessionId, job: JobId, queued: bool): Conn {
    if queued then conn.(session := Some(session), queued := conn.queued + [job], missed := false)
    else conn.(session := Some(session), pc := Ending, missed := true)
  }

  // The whole of a login. Without a job the connection ends and nothing else
  // happens. With one, a new session is listed in place of the connection's old
  // one, and its job is queued, or the connection ends for want of room.
  lemma LoginOutcome(s: State, c: ConnId, queued: bool)
    requires c in s.conns && s.conns[c].pc.Reading? && !s.conns[c].notified && !s.lock.writer
    requires c !in s.lock.readers
    ensures
      var t, conn := LoggedIn(s, c, queued), s.conns[c];
      && t.jobs == s.jobs && t.lock == s.lock && t.miner == s.miner && t.channel == s.channel
      && t.counters == s.counters && Same(t.seen, s.seen)
      && (if s.jobs.current.None? then
            t.sessions == s.sessions && t.nextSession == s.nextSession
            && t.conns == s.conns[c := conn.(pc := Ending)]
          else
            && t.nextSession == s.nextSession + 1
            && t.sessions == (s.sessions - Held(conn.session))[s.nextSession := c]
            && t.conns == s.conns[c := Welcomed(conn, s.nextSession, s.jobs.current.value, queued)])
  {
    var read := ConnStep(s, c, ReadLogin);
    assert read.conns == s.conns[c := s.conns[c].(pc := LoginWaiting)];
    var ready := ConnStep(read, c, LoginAcquire);
    if s.jobs.current.None? {
      LoginEnds(ready, c, queued);
    } else {
      LoginGoesOn(s, ready, c, queued);
    }
  }

  lemma LoginEnds(s: State, c: ConnId, queued: bool)
    requires c in s.conns && s.conns[c].pc.Ending?
    ensures ConnStep(ConnStep(s, c, LoginList), c, LoginReply(queued)) == s
  {
  }

  lemma LoginGoesOn(s: State, ready: State, c: ConnId, queued: bool)
    requires c in s.conns && s.conns[c].pc.Reading? && s.jobs.current.Some? && c !in s.lock.readers
    requires ready == s.(conns := s.conns[c := s.conns[c].(pc := LoginReady(s.jobs.current.value))],
                         lock := s.lock.(readers := s.lock.readers + {c}))
    ensures
      var t, conn := ConnStep(ConnStep(ready, c, LoginList), c, LoginReply(queued)), s.conns[c];
      && t.jobs == s.jobs && t.lock == s.lock && t.miner == s.miner && t.channel == s.channel
      && t.counters == s.counters && Same(t.seen, s.seen)
      && t.nextSession == s.nextSession + 1
      && t.sessions == (s.sessions - Held(conn.session))[s.nextSession := c]
      && t.conns == s.conns[c := Welcomed(conn, s.nextSession, s.jobs.current.value, queued)]
  {
    var listed := ConnStep(ready, c, LoginList);
    var t := ConnStep(listed, c, LoginReply(queued));
    assert (s.lock.readers + {c}) - {c} == s.lock.readers;
    assert t.lock == s.lock;
  }

  // ---------------------------------------------------------------------------
  // A seal
  // ---------------------------------------------------------------------------

  // What the mining loop finds when it looks at a seal: that the template was
  // overtaken meanwhile, or what came of submitting it.
  datatype Fate = Overtaken | Landed(ok: bool)

  function Met(s: State, fate: Fate): State {
    match fate
    case Overtaken => MinerStep(s, GiveUp)
    case Landed(ok) => MinerStep(MinerStep(s, Submit), Submitted(ok))
  }

  function Mined(s: State, fate: Fate): State {
    Met(MinerStep(MinerStep(s, Receive), Compare), fate)
  }

  // What a seal leaves alone.
  ghost predicate Beside(s: State, t: State) {
    && t.jobs == s.jobs && t.lock == s.lock && Same(t.conns, s.conns) && Same(t.sessions, s.sessions)
    && Same(t.seen, s.seen) && t.authoring == s.authoring
  }

  // The whole of a seal at the mining loop. The oldest one in the channel is
  // taken. If it is for another job it is late, and the template is mined on. If
  // it is for this one the template is over, and was sealed exactly if the
  // submit landed; otherwise the seal is late.
  lemma SealOutcome(s: State, fate: Fate)
    requires s.miner.Mining? && s.channel != []
    ensures
      var t, job := Mined(s, fate), s.miner.job;
      var mine := s.channel[0].job == job;
      var won := mine && fate == Landed(true);
      && t.channel == s.channel[1..] && t.miner == (if mine then Head else Mining(job)) && Beside(s, t)
      && t.counters == s.counters.(sealed := s.counters.sealed + One(won),
                                   superseded := s.counters.superseded + One(!won))
      && t.history.sealedJobs == s.history.sealedJobs + (if won then multiset{job} else multiset{})
  {
    var checked := MinerStep(MinerStep(s, Receive), Compare);
    Compared(s);
    if s.channel[0].job == s.miner.job {
      FateOf(checked, fate);
    } else {
      MinesOn(checked, fate);
    }
  }

  lemma Compared(s: State)
    requires s.miner.Mining? && s.channel != []
    ensures
      var t, job, seal := MinerStep(MinerStep(s, Receive), Compare), s.miner.job, s.channel[0];
      if seal.job == job then t == s.(channel := s.channel[1..], miner := StratumModel.Checked(job, seal))
      else t == s.(channel := s.channel[1..],
                   counters := s.counters.(superseded := s.counters.superseded + 1))
  {
    var inHand := MinerStep(s, Receive);
    assert inHand == s.(channel := s.channel[1..], miner := InHand(s.miner.job, s.channel[0]));
  }

  lemma MinesOn(s: State, fate: Fate)
    requires s.miner.Mining?
    ensures Met(s, fate) == s
  {
  }

  lemma FateOf(s: State, fate: Fate)
    requires s.miner.Checked?
    ensures
      var t, won := Met(s, fate), fate == Landed(true);
      && t.channel == s.channel && t.miner.Head? && Beside(s, t)
      && t.counters == s.counters.(sealed := s.counters.sealed + One(won),
                                   superseded := s.counters.superseded + One(!won))
      && t.history.sealedJobs == s.history.sealedJobs + (if won then multiset{s.miner.job} else multiset{})
  {
    if fate.Landed? {
      assert MinerStep(s, Submit) == s.(miner := Submitting(s.miner.job, s.miner.seal));
    }
  }
}
