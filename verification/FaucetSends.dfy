/**
 Payments across crashes: a send is started at most once per claim, a claim
 whose send was started goes on counting unless the worker wrote it off, and
 the ledger's total is what was recorded.
 */
module FaucetSends {
  import opened Prelude
  import opened FaucetLedger
  import opened FaucetModel
  import O = FaucetOwners

  // A send is started once, on a marked row, and never while the worker is
  // only about to start it.
  ghost predicate StartsInv(s: State) {
    && (forall id: ClaimId :: s.history.started[id] <= 1)
    && (forall id: ClaimId :: id in s.history.started ==> id < |s.rows| && s.rows[id].submittedAt.Some?)
    && (s.worker.Marked? ==> s.worker.job.claim !in s.history.started)
    && (s.worker.Sending? || s.worker.Reported? ==> s.worker.job.claim in s.history.started)
  }

  // A row written off failed for a reason that does not count.
  ghost predicate WrittenOffInv(s: State) {
    && (forall id: ClaimId :: id in s.history.writtenOff ==> id < |s.rows| && !Counts(s.rows[id]))
    && (forall id: ClaimId :: id in s.history.started && id < |s.rows| && !Counts(s.rows[id])
          ==> id in s.history.writtenOff)
  }

  // ---------------------------------------------------------------------------
  // Actions of anyone but the worker
  // ---------------------------------------------------------------------------

  predicate ByWorker(a: Action) {
    a.Take? || a.Refuse? || a.Mark? || a.StartSend? || a.ReportSent? || a.ReportError?
    || a.RecordSent? || a.RecordFailed?
  }

  // No send is started or written off, and a row that is failed here counts or
  // was never marked.
  ghost predicate Elsewhere(s: State, t: State) {
    && Same(t.history.started, s.history.started) && Same(t.history.writtenOff, s.history.writtenOff)
    && (t.worker == s.worker || t.worker.Idle?)
    && |s.rows| <= |t.rows|
    && (forall i :: 0 <= i < |s.rows| ==>
          t.rows[i] == s.rows[i] || Counts(t.rows[i]) || s.rows[i].submittedAt.None?)
  }

  lemma HandlersAreElsewhere(cfg: Config, s: State, r: RequestId)
    requires O.HandlersInv(s)
    ensures Elsewhere(s, DecideBy(cfg, s, r))
    ensures Elsewhere(s, EnqueueBy(cfg, s, r))
    ensures Elsewhere(s, BounceBy(s, r))
  {
  }

  lemma IsElsewhere(cfg: Config, s: State, a: Action)
    requires O.HandlersInv(s) && !ByWorker(a)
    ensures Elsewhere(s, Step(cfg, s, a))
  {
    match a {
      case Arrive(_, _, _, _) | Abandon(_) =>
      case Decide(r) => HandlersAreElsewhere(cfg, s, r);
      case Enqueue(r) => HandlersAreElsewhere(cfg, s, r);
      case Bounce(r) => HandlersAreElsewhere(cfg, s, r);
      case Crash | Restart | RecoverOne(_) | Open =>
    }
  }

  lemma ElsewhereKeeps(s: State, t: State)
    requires StartsInv(s) && WrittenOffInv(s) && Elsewhere(s, t) && O.RowsMove(s.rows, t.rows)
    ensures StartsInv(t) && WrittenOffInv(t)
  {
  }

  // ---------------------------------------------------------------------------
  // Actions of the worker
  // ---------------------------------------------------------------------------

  lemma WorkerKeepsStarts(s: State, a: Action)
    requires O.WorkerInv(s) && StartsInv(s)
    ensures StartsInv(WorkerStep(s, a))
  {
    match a {
      case Take | Refuse(_) | Mark(_) | StartSend | ReportSent(_) | ReportError(_) =>
      case RecordSent(_) | RecordFailed(_) =>
      case _ =>
    }
  }

  lemma SettlingKeepsWrittenOff(s: State, now: nat)
    requires O.WorkerInv(s) && O.PlacesInv(s) && WrittenOffInv(s)
    ensures WrittenOffInv(WorkerStep(s, RecordSent(now)))
    ensures WrittenOffInv(WorkerStep(s, RecordFailed(now)))
  {
  }

  lemma WorkerKeepsWrittenOff(s: State, a: Action)
    requires O.WorkerInv(s) && O.PlacesInv(s) && WrittenOffInv(s)
    ensures WrittenOffInv(WorkerStep(s, a))
  {
    match a {
      case Take | Refuse(_) | Mark(_) | StartSend | ReportSent(_) | ReportError(_) =>
      case RecordSent(now) => SettlingKeepsWrittenOff(s, now);
      case RecordFailed(now) => SettlingKeepsWrittenOff(s, now);
      case _ =>
    }
  }

  lemma StepKeeps(cfg: Config, s: State, a: Action)
    requires O.Inv(s) && StartsInv(s) && WrittenOffInv(s)
    ensures StartsInv(Step(cfg, s, a)) && WrittenOffInv(Step(cfg, s, a))
  {
    if ByWorker(a) {
      WorkerKeepsStarts(s, a);
      WorkerKeepsWrittenOff(s, a);
    } else {
      O.StepMovesRows(cfg, s, a);
      IsElsewhere(cfg, s, a);
      ElsewhereKeeps(s, Step(cfg, s, a));
    }
  }

  lemma TotalWorker(s: State, a: Action)
    requires O.WorkerInv(s) && O.PlacesInv(s) && SentTotal(s.rows) == s.history.recorded
    ensures SentTotal(WorkerStep(s, a).rows) == WorkerStep(s, a).history.recorded
  {
    var t := WorkerStep(s, a);
    if (a.Mark? || a.RecordSent? || a.RecordFailed?) && t != s {
      SentTotalUpdate(s.rows, s.worker.job.claim, t.rows[s.worker.job.claim]);
    }
  }

  lemma TotalDecide(cfg: Config, s: State, r: RequestId)
    requires SentTotal(s.rows) == s.history.recorded
    ensures SentTotal(DecideBy(cfg, s, r).rows) == DecideBy(cfg, s, r).history.recorded
  {
    if IsParked(s, r) {
      var p := s.handlers[r];
      QueuedPaysNothing(s.rows, NewRow(p.address, p.client, cfg.drip, p.now));
    }
  }

  lemma QueuedPaysNothing(rows: seq<Row>, row: Row)
    requires row.status.Queued?
    ensures SentTotal(rows + [row]) == SentTotal(rows)
  {
    assert (rows + [row])[..|rows + [row]| - 1] == rows;
  }

  lemma TotalBounce(s: State, r: RequestId)
    requires O.PlacesInv(s) && O.HandlersInv(s) && SentTotal(s.rows) == s.history.recorded
    ensures SentTotal(BounceBy(s, r).rows) == BounceBy(s, r).history.recorded
  {
    if r in s.handlers && s.handlers[r].Bounced? {
      var id := s.handlers[r].claim;
      assert O.HandlerOk(s, r);
      SentTotalUpdate(s.rows, id, BounceBy(s, r).rows[id]);
    }
  }

  lemma TotalRecovery(cfg: Config, s: State, now: nat)
    requires O.Inv(s) && SentTotal(s.rows) == s.history.recorded
    ensures SentTotal(Step(cfg, s, RecoverOne(now)).rows) == Step(cfg, s, RecoverOne(now)).history.recorded
  {
    var t := Step(cfg, s, RecoverOne(now));
    if t.rows != s.rows {
      SentTotalUpdate(s.rows, s.phase.todo[0], t.rows[s.phase.todo[0]]);
    }
  }

  lemma TotalStep(cfg: Config, s: State, a: Action)
    requires O.Inv(s) && SentTotal(s.rows) == s.history.recorded
    ensures SentTotal(Step(cfg, s, a).rows) == Step(cfg, s, a).history.recorded
  {
    match a {
      case Decide(r) => TotalDecide(cfg, s, r);
      case Bounce(r) => TotalBounce(s, r);
      case RecoverOne(now) => TotalRecovery(cfg, s, now);
      case Arrive(_, _, _, _) | Abandon(_) | Enqueue(_) | Crash | Restart | Open => RowsStay(cfg, s, a);
      case _ => TotalWorker(s, a);
    }
  }

  lemma RowsStay(cfg: Config, s: State, a: Action)
    requires a.Arrive? || a.Abandon? || a.Enqueue? || a.Crash? || a.Restart? || a.Open?
    ensures Same(Step(cfg, s, a).rows, s.rows) && Step(cfg, s, a).history.recorded == s.history.recorded
  {
    match a {
      case Arrive(_, _, _, _) | Abandon(_) | Enqueue(_) =>
      case Crash | Restart | Open =>
    }
  }

  lemma {:induction false} Invariant(cfg: Config, schedule: seq<Action>)
    ensures var s := Run(cfg, schedule);
            StartsInv(s) && WrittenOffInv(s) && SentTotal(s.rows) == s.history.recorded
  {
    if schedule != [] {
      var before := Run(cfg, schedule[..|schedule| - 1]);
      Invariant(cfg, schedule[..|schedule| - 1]);
      O.Invariant(cfg, schedule[..|schedule| - 1]);
      StepKeeps(cfg, before, schedule[|schedule| - 1]);
      TotalStep(cfg, before, schedule[|schedule| - 1]);
    }
  }

  // ---------------------------------------------------------------------------
  // For every run, whatever stops and restarts it holds
  // ---------------------------------------------------------------------------

  lemma {:induction false} SendStartedAtMostOnce(cfg: Config, schedule: seq<Action>, id: ClaimId)
    ensures Run(cfg, schedule).history.started[id] <= 1
  {
    Invariant(cfg, schedule);
  }

  // A claim whose payment may be on the chain counts against its address and
  // its client exactly unless the wallet reported an error and the worker
  // recorded it.
  lemma {:induction false} StartedClaimCounts(cfg: Config, schedule: seq<Action>, id: ClaimId)
    requires id in Run(cfg, schedule).history.started
    ensures id < |Run(cfg, schedule).rows|
    ensures Counts(Run(cfg, schedule).rows[id]) <==> id !in Run(cfg, schedule).history.writtenOff
  {
    Invariant(cfg, schedule);
  }

  lemma {:induction false} TotalIsWhatWasRecorded(cfg: Config, schedule: seq<Action>)
    ensures SentTotal(Run(cfg, schedule).rows) == Run(cfg, schedule).history.recorded
  {
    Invariant(cfg, schedule);
  }
}
