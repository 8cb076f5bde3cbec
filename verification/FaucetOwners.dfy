/**
 Every queued row has exactly one owner, so an update that checks no status
 only ever writes a row that is still queued.
 */
module FaucetOwners {
  import opened Prelude
  import opened FaucetLedger
  import opened FaucetModel

  // ---------------------------------------------------------------------------
  // The invariant
  // ---------------------------------------------------------------------------

  // A job is a copy of a queued row whose carrier is `place`.
  predicate JobAt(s: State, job: Job, place: Place) {
    && job.claim < |s.rows| == |s.history.place|
    && s.history.place[job.claim] == place
    && job.quanta == s.rows[job.claim].amount && job.address == s.rows[job.claim].address
  }

  predicate Unmarked(s: State, id: ClaimId) {
    id < |s.rows| && s.rows[id].submittedAt.None?
  }

  predicate AtWorker(s: State, id: ClaimId) {
    !s.worker.Idle? && s.worker.job.claim == id
  }

  predicate AtHandler(s: State, r: RequestId, id: ClaimId) {
    && r in s.handlers
    && ((s.handlers[r].Recorded? && s.handlers[r].job.claim == id)
        || (s.handlers[r].Bounced? && s.handlers[r].claim == id))
  }

  ghost predicate InChannel(s: State, id: ClaimId) {
    exists i :: 0 <= i < |s.channel| && s.channel[i].claim == id
  }

  ghost predicate PlacesInv(s: State) {
    && |s.history.place| == |s.rows|
    && (forall id :: 0 <= id < |s.rows| ==> (s.history.place[id].Settled? <==> !s.rows[id].status.Queued?))
  }

  ghost predicate ChannelInv(s: State) {
    && (forall i :: 0 <= i < |s.channel| ==>
          JobAt(s, s.channel[i], InQueue) && Unmarked(s, s.channel[i].claim))
    && (forall i, j :: 0 <= i < j < |s.channel| ==> s.channel[i].claim != s.channel[j].claim)
  }

  ghost predicate WorkerInv(s: State) {
    !s.worker.Idle? ==>
      && JobAt(s, s.worker.job, WithWorker)
      && (s.worker.Holding? ==> Unmarked(s, s.worker.job.claim))
      && (s.worker.Marked? || s.worker.Sending? || s.worker.Reported? ==> !Unmarked(s, s.worker.job.claim))
      && (s.worker.Erred? ==> s.worker.reason != Interrupted)
  }

  predicate HandlerOk(s: State, r: RequestId)
    requires r in s.handlers
  {
    && r in s.history.used
    && (s.handlers[r].Recorded? ==>
          JobAt(s, s.handlers[r].job, WithHandler(r)) && Unmarked(s, s.handlers[r].job.claim))
    && (s.handlers[r].Bounced? ==>
          && s.handlers[r].claim < |s.rows| == |s.history.place|
          && s.history.place[s.handlers[r].claim] == WithHandler(r) && Unmarked(s, s.handlers[r].claim))
  }

  ghost predicate HandlersInv(s: State) {
    forall r :: r in s.handlers ==> HandlerOk(s, r)
  }

  // The carrier on record does carry the claim.
  ghost predicate Carried(s: State, id: ClaimId)
    requires id < |s.history.place|
  {
    match s.history.place[id]
    case WithHandler(r) => AtHandler(s, r, id)
    case InQueue => InChannel(s, id)
    case WithWorker => AtWorker(s, id)
    case InRecovery => s.phase.Recovering? && id in s.phase.todo
    case Nowhere => s.phase.Down?
    case Settled => true
  }

  ghost predicate CarriedInv(s: State) {
    forall id :: 0 <= id < |s.history.place| ==> Carried(s, id)
  }

  ghost predicate PhaseInv(s: State) {
    && (!s.phase.Serving? ==> s.handlers == map[] && s.worker.Idle?)
    && (s.phase.Down? ==> s.channel == [])
    && (s.phase.Recovering? ==>
          && Ascending(s.phase.todo)
          && (forall id :: id in s.phase.todo ==> id < |s.history.place| && s.history.place[id].InRecovery?))
  }

  ghost predicate HeldInv(s: State) {
    PlacesInv(s) && ChannelInv(s) && WorkerInv(s) && HandlersInv(s) && PhaseInv(s)
  }

  ghost predicate Inv(s: State) {
    HeldInv(s) && CarriedInv(s)
  }

  // ---------------------------------------------------------------------------
  // Each action keeps it
  // ---------------------------------------------------------------------------

  // A claim whose carrier neither changed nor let go of it.
  lemma StillCarried(s: State, t: State, id: ClaimId)
    requires id < |s.history.place| && id < |t.history.place|
    requires Carried(s, id) && t.history.place[id] == s.history.place[id] && t.phase == s.phase
    requires forall r :: AtHandler(s, r, id) ==> AtHandler(t, r, id)
    requires InChannel(s, id) ==> InChannel(t, id)
    requires AtWorker(s, id) ==> AtWorker(t, id)
    ensures Carried(t, id)
  {
  }

  lemma ArriveKeeps(cfg: Config, s: State, r: RequestId, address: Address, client: Client, now: nat)
    requires Inv(s)
    ensures Inv(ArriveBy(cfg, s, r, address, client, now))
  {
    var t := ArriveBy(cfg, s, r, address, client, now);
    forall id | 0 <= id < |t.history.place| ensures Carried(t, id) {
      StillCarried(s, t, id);
    }
  }

  lemma AbandonKeeps(cfg: Config, s: State, r: RequestId)
    requires Inv(s)
    ensures Inv(Step(cfg, s, Abandon(r)))
  {
    if IsParked(s, r) {
      ParkedLeaves(s, r);
    }
  }

  // No row the others hold is touched by a row that is added.
  lemma WrittenHolds(s: State, r: RequestId, drip: nat)
    requires HeldInv(s) && IsParked(s, r)
    ensures PlacesInv(Written(s, r, drip)) && ChannelInv(Written(s, r, drip)) && WorkerInv(Written(s, r, drip))
  {
  }

  lemma WrittenHandlers(s: State, r: RequestId, drip: nat)
    requires HeldInv(s) && IsParked(s, r)
    ensures HandlersInv(Written(s, r, drip)) && PhaseInv(Written(s, r, drip))
  {
  }

  lemma WrittenKeeps(s: State, r: RequestId, drip: nat)
    requires Inv(s) && IsParked(s, r)
    ensures Inv(Written(s, r, drip))
  {
    WrittenHolds(s, r, drip);
    WrittenHandlers(s, r, drip);
    var t := Written(s, r, drip);
    forall id | 0 <= id < |t.history.place| ensures Carried(t, id) {
      if id < |s.history.place| {
        StillCarried(s, t, id);
      }
    }
  }

  // A parked handler that goes away.
  lemma ParkedLeaves(s: State, r: RequestId)
    requires Inv(s) && IsParked(s, r)
    ensures Inv(s.(handlers := s.handlers - {r}))
  {
    var t := s.(handlers := s.handlers - {r});
    forall id | 0 <= id < |t.history.place| ensures Carried(t, id) {
      StillCarried(s, t, id);
    }
  }

  lemma DecideKeeps(cfg: Config, s: State, r: RequestId)
    requires Inv(s)
    ensures Inv(DecideBy(cfg, s, r))
  {
    if IsParked(s, r) {
      WrittenKeeps(s, r, cfg.drip);
      ParkedLeaves(s, r);
    }
  }

  lemma EnqueueHolds(cfg: Config, s: State, r: RequestId)
    requires Inv(s)
    ensures HeldInv(EnqueueBy(cfg, s, r))
  {
    if r in s.handlers && s.handlers[r].Recorded? {
      assert HandlerOk(s, r);
      if |s.channel| < cfg.depth {
      }
    }
  }

  lemma EnqueueKeeps(cfg: Config, s: State, r: RequestId)
    requires Inv(s)
    ensures Inv(EnqueueBy(cfg, s, r))
  {
    EnqueueHolds(cfg, s, r);
    var t := EnqueueBy(cfg, s, r);
    forall id | 0 <= id < |t.history.place| ensures Carried(t, id) {
      if AtHandler(s, r, id) && t.channel != s.channel {
        assert t.channel[|s.channel|].claim == id;
      } else {
        assert forall i :: 0 <= i < |s.channel| ==> t.channel[i] == s.channel[i];
        StillCarried(s, t, id);
      }
    }
  }

  lemma BounceKeeps(s: State, r: RequestId)
    requires Inv(s)
    ensures Inv(BounceBy(s, r))
  {
    var t := BounceBy(s, r);
    forall id | 0 <= id < |t.history.place| ensures Carried(t, id) {
      if !AtHandler(s, r, id) {
        StillCarried(s, t, id);
      }
    }
  }

  lemma TakeKeeps(s: State)
    requires Inv(s)
    ensures Inv(WorkerStep(s, Take))
  {
    var t := WorkerStep(s, Take);
    forall id | 0 <= id < |t.history.place| ensures Carried(t, id) {
      if !AtWorker(t, id) {
        if i :| 0 <= i < |s.channel| && s.channel[i].claim == id {
          assert t.channel != s.channel ==> 0 < i && t.channel[i - 1] == s.channel[i];
        }
        StillCarried(s, t, id);
      }
    }
  }

  lemma SendHolds(s: State, a: Action)
    requires HeldInv(s) && (a.Refuse? || a.Mark? || a.StartSend? || a.ReportSent? || a.ReportError?)
    ensures HeldInv(WorkerStep(s, a))
  {
    match a {
      case Refuse(_) | StartSend | ReportSent(_) | ReportError(_) =>
      case Mark(_) =>
    }
  }

  lemma RecordHolds(s: State, a: Action)
    requires HeldInv(s) && (a.RecordSent? || a.RecordFailed?)
    ensures HeldInv(WorkerStep(s, a))
  {
    match a {
      case RecordSent(_) =>
      case RecordFailed(_) =>
    }
  }

  lemma WorkerHolds(s: State, a: Action)
    requires HeldInv(s) && !a.Take?
    ensures HeldInv(WorkerStep(s, a))
  {
    match a {
      case Refuse(_) | Mark(_) | StartSend | ReportSent(_) | ReportError(_) => SendHolds(s, a);
      case RecordSent(_) | RecordFailed(_) => RecordHolds(s, a);
      case _ =>
    }
  }

  lemma WorkerKeeps(s: State, a: Action)
    requires Inv(s)
    ensures Inv(WorkerStep(s, a))
  {
    if a.Take? {
      TakeKeeps(s);
    } else {
      WorkerHolds(s, a);
      var t := WorkerStep(s, a);
      forall id | 0 <= id < |t.history.place| ensures Carried(t, id) {
        if t.worker.Idle? && AtWorker(s, id) {
        } else {
          StillCarried(s, t, id);
        }
      }
    }
  }

  lemma RecoverPhase(cfg: Config, s: State, now: nat)
    requires HeldInv(s)
    ensures PhaseInv(ProcessStep(cfg, s, RecoverOne(now)))
  {
    if s.phase.Recovering? && s.phase.todo != [] {
      var todo := s.phase.todo;
      forall id | id in todo[1..] ensures id in todo && id != todo[0] {
        var i :| 0 <= i < |todo| - 1 && todo[1..][i] == id;
        assert todo[i + 1] == id;
      }
    }
  }

  lemma RecoverChannel(cfg: Config, s: State, now: nat)
    requires HeldInv(s)
    ensures ChannelInv(ProcessStep(cfg, s, RecoverOne(now)))
  {
    if s.phase.Recovering? && s.phase.todo != [] {
      var id := s.phase.todo[0];
      assert id in s.phase.todo;
      assert forall i :: 0 <= i < |s.channel| ==> s.channel[i].claim != id;
    }
  }

  lemma RecoverPlaces(cfg: Config, s: State, now: nat)
    requires PlacesInv(s) && PhaseInv(s)
    ensures PlacesInv(ProcessStep(cfg, s, RecoverOne(now)))
  {
    if s.phase.Recovering? && s.phase.todo != [] {
      assert s.phase.todo[0] in s.phase.todo;
    }
  }

  lemma RecoverHolds(cfg: Config, s: State, now: nat)
    requires Inv(s)
    ensures HeldInv(ProcessStep(cfg, s, RecoverOne(now)))
  {
    RecoverPhase(cfg, s, now);
    RecoverChannel(cfg, s, now);
    RecoverPlaces(cfg, s, now);
  }

  lemma RecoverKeeps(cfg: Config, s: State, now: nat)
    requires Inv(s)
    ensures Inv(ProcessStep(cfg, s, RecoverOne(now)))
  {
    RecoverHolds(cfg, s, now);
    var t := ProcessStep(cfg, s, RecoverOne(now));
    forall id | 0 <= id < |t.history.place| ensures Carried(t, id) {
      assert Carried(s, id);
      assert forall i :: 0 <= i < |s.channel| ==> t.channel[i] == s.channel[i];
      if |t.channel| > |s.channel| {
        assert t.channel[|s.channel|].claim == s.phase.todo[0];
      }
    }
  }

  lemma ProcessKeeps(cfg: Config, s: State, a: Action)
    requires Inv(s)
    ensures Inv(ProcessStep(cfg, s, a))
  {
    match a {
      case Crash =>
      case Restart =>
      case RecoverOne(now) => RecoverKeeps(cfg, s, now);
      case Open =>
        var t := ProcessStep(cfg, s, a);
        forall id | 0 <= id < |t.history.place| ensures Carried(t, id) {
          assert Carried(s, id);
        }
      case _ =>
    }
  }

  lemma StepKeeps(cfg: Config, s: State, a: Action)
    requires Inv(s)
    ensures Inv(Step(cfg, s, a))
  {
    match a {
      case Arrive(_, _, _, _) | Abandon(_) | Decide(_) | Enqueue(_) | Bounce(_) => HandlerKeeps(cfg, s, a);
      case Crash | Restart | RecoverOne(_) | Open => ProcessKeeps(cfg, s, a);
      case _ => WorkerKeeps(s, a);
    }
  }

  lemma HandlerKeeps(cfg: Config, s: State, a: Action)
    requires Inv(s) && (a.Arrive? || a.Abandon? || a.Decide? || a.Enqueue? || a.Bounce?)
    ensures Inv(Step(cfg, s, a))
  {
    match a {
      case Arrive(r, address, client, now) => ArriveKeeps(cfg, s, r, address, client, now);
      case Abandon(r) => AbandonKeeps(cfg, s, r);
      case Decide(r) => DecideKeeps(cfg, s, r);
      case Enqueue(r) => EnqueueKeeps(cfg, s, r);
      case Bounce(r) => BounceKeeps(s, r);
    }
  }

  lemma {:induction false} Invariant(cfg: Config, schedule: seq<Action>)
    ensures Inv(Run(cfg, schedule))
  {
    if schedule != [] {
      Invariant(cfg, schedule[..|schedule| - 1]);
      StepKeeps(cfg, Run(cfg, schedule[..|schedule| - 1]), schedule[|schedule| - 1]);
    }
  }

  // ---------------------------------------------------------------------------
  // One owner
  // ---------------------------------------------------------------------------

  datatype Owner = AtPosition(i: nat) | TheWorker | TheHandler(r: RequestId)

  predicate Owns(s: State, owner: Owner, id: ClaimId) {
    match owner
    case AtPosition(i) => i < |s.channel| && s.channel[i].claim == id
    case TheWorker => AtWorker(s, id)
    case TheHandler(r) => AtHandler(s, r, id)
  }

  // While the faucet serves, a queued row is at one position of the queue, or
  // with the worker, or with the one handler that wrote it, and a settled row
  // is with nobody.
  lemma {:induction false} OneOwner(cfg: Config, schedule: seq<Action>, id: ClaimId)
    requires Run(cfg, schedule).phase.Serving? && id < |Run(cfg, schedule).rows|
    ensures
      var s := Run(cfg, schedule);
      && (s.rows[id].status.Queued? <==> exists owner :: Owns(s, owner, id))
      && (forall o, p :: Owns(s, o, id) && Owns(s, p, id) ==> o == p)
  {
    Invariant(cfg, schedule);
    OwnerThere(Run(cfg, schedule), id);
  }

  // An owner is the carrier on record.
  lemma OwnerPlaced(s: State, owner: Owner, id: ClaimId)
    requires HeldInv(s) && id < |s.rows| && Owns(s, owner, id)
    ensures s.rows[id].status.Queued?
    ensures s.history.place[id] ==
      match owner case AtPosition(_) => InQueue case TheWorker => WithWorker case TheHandler(r) => WithHandler(r)
  {
    match owner {
      case AtPosition(i) => assert JobAt(s, s.channel[i], InQueue);
      case TheWorker =>
      case TheHandler(r) => assert HandlerOk(s, r);
    }
  }

  lemma OwnerUnique(s: State, o: Owner, p: Owner, id: ClaimId)
    requires HeldInv(s) && id < |s.rows| && Owns(s, o, id) && Owns(s, p, id)
    ensures o == p
  {
    OwnerPlaced(s, o, id);
    OwnerPlaced(s, p, id);
  }

  lemma OwnerThere(s: State, id: ClaimId)
    requires Inv(s) && s.phase.Serving? && id < |s.rows|
    ensures s.rows[id].status.Queued? <==> exists owner :: Owns(s, owner, id)
    ensures forall o, p :: Owns(s, o, id) && Owns(s, p, id) ==> o == p
  {
    forall o, p | Owns(s, o, id) && Owns(s, p, id) ensures o == p {
      OwnerUnique(s, o, p, id);
    }
    forall o | Owns(s, o, id) ensures s.rows[id].status.Queued? {
      OwnerPlaced(s, o, id);
    }
    assert Carried(s, id);
    if s.rows[id].status.Queued? {
      match s.history.place[id] {
        case WithHandler(r) => assert Owns(s, TheHandler(r), id);
        case InQueue =>
          var i :| 0 <= i < |s.channel| && s.channel[i].claim == id;
          assert Owns(s, AtPosition(i), id);
        case WithWorker => assert Owns(s, TheWorker, id);
      }
    }
  }

  // ---------------------------------------------------------------------------
  // Settled is final
  // ---------------------------------------------------------------------------

  // What the request was, which nothing ever changes.
  predicate SameRequest(a: Row, b: Row) {
    a.address == b.address && a.client == b.client && a.amount == b.amount && a.requestedAt == b.requestedAt
  }

  // Rows are only added, a row keeps its request and its mark, and only a
  // queued row changes.
  ghost predicate RowsMove(rows: seq<Row>, rows': seq<Row>) {
    && |rows| <= |rows'|
    && (forall i :: 0 <= i < |rows| ==>
          && SameRequest(rows[i], rows'[i])
          && (rows[i].submittedAt.Some? ==> rows'[i].submittedAt.Some?)
          && (rows[i].status.Queued? || rows'[i] == rows[i]))
  }

  lemma WorkerMovesRows(s: State, a: Action)
    requires PlacesInv(s) && WorkerInv(s)
    ensures RowsMove(s.rows, WorkerStep(s, a).rows)
  {
    match a {
      case Mark(_) | RecordSent(_) | RecordFailed(_) =>
      case _ =>
    }
  }

  lemma RecoveryMovesRows(cfg: Config, s: State, now: nat)
    requires PlacesInv(s) && PhaseInv(s)
    ensures RowsMove(s.rows, ProcessStep(cfg, s, RecoverOne(now)).rows)
  {
    if s.phase.Recovering? && s.phase.todo != [] {
      assert s.phase.todo[0] in s.phase.todo;
    }
  }

  lemma BounceMovesRows(s: State, r: RequestId)
    requires PlacesInv(s) && HandlersInv(s)
    ensures RowsMove(s.rows, BounceBy(s, r).rows)
  {
  }

  lemma StepMovesRows(cfg: Config, s: State, a: Action)
    requires Inv(s)
    ensures RowsMove(s.rows, Step(cfg, s, a).rows)
  {
    match a {
      case Arrive(_, _, _, _) | Abandon(_) | Decide(_) | Enqueue(_) =>
      case Bounce(r) => BounceMovesRows(s, r);
      case Crash | Restart | Open =>
      case RecoverOne(now) => RecoveryMovesRows(cfg, s, now);
      case _ => WorkerMovesRows(s, a);
    }
  }

  // Sent and failed are final over any continuation of a run, crashes and
  // restarts included, although no update looks at the status it overwrites.
  lemma {:induction false} SettledIsFinal(cfg: Config, schedule: seq<Action>, more: seq<Action>)
    ensures RowsMove(Run(cfg, schedule).rows, Run(cfg, schedule + more).rows)
  {
    if more == [] {
      assert schedule + more == schedule;
    } else {
      var n := |more| - 1;
      var head := schedule + more[..n];
      assert schedule + more == head + [more[n]];
      SettledIsFinal(cfg, schedule, more[..n]);
      Invariant(cfg, head);
      RunOneMore(cfg, head, more[n]);
      StepMovesRows(cfg, Run(cfg, head), more[n]);
      RowsMoveOn(Run(cfg, schedule).rows, Run(cfg, head).rows, Run(cfg, schedule + more).rows);
    }
  }

  lemma RunOneMore(cfg: Config, schedule: seq<Action>, a: Action)
    ensures Run(cfg, schedule + [a]) == Step(cfg, Run(cfg, schedule), a)
  {
    assert (schedule + [a])[..|schedule + [a]| - 1] == schedule;
  }

  lemma RowsMoveOn(rows: seq<Row>, rows': seq<Row>, rows'': seq<Row>)
    requires RowsMove(rows, rows') && RowsMove(rows', rows'')
    ensures RowsMove(rows, rows'')
  {
  }
}
