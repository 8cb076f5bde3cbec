/**
 Who gets a drip, exactly, and in what order: the two limits as conditions on
 the ledger's rows, the queue as a queue, and what a settled row says.
 */
module FaucetDecisions {
  import opened Prelude
  import opened FaucetLedger
  import opened FaucetLimits
  import opened FaucetModel
  import O = FaucetOwners

  // ---------------------------------------------------------------------------
  // The limits, without the queries
  // ---------------------------------------------------------------------------

  // Each claim of the address is a cooldown old.
  ghost predicate Cooled(rows: seq<Row>, address: Address, cooldown: nat, now: nat) {
    forall i :: 0 <= i < |rows| && Counts(rows[i]) && rows[i].address == address ==>
      cooldown == 0 || rows[i].requestedAt + cooldown <= now
  }

  // The client's claims that are no older than the window, or ahead of the clock.
  ghost function Recent(rows: seq<Row>, client: Client, window: nat, now: nat): set<ClaimId> {
    set i | 0 <= i < |rows| && Counts(rows[i]) && rows[i].client == client && rows[i].requestedAt + window >= now
  }

  lemma CooldownExact(rows: seq<Row>, address: Address, cooldown: nat, now: nat)
    ensures CheckCooldown(LastClaim(rows, address), cooldown, now).None? <==> Cooled(rows, address, cooldown, now)
  {
  }

  lemma WindowExact(rows: seq<Row>, client: Client, limit: nat, window: nat, now: nat)
    ensures CheckClient(ClaimsSince(rows, client, WindowStart(now, window)), limit, window).None?
       <==> |Recent(rows, client, window, now)| < limit
  {
    assert Since(rows, client, WindowStart(now, window)) == Recent(rows, client, window, now);
  }

  lemma AllowedExact(cfg: Config, rows: seq<Row>, address: Address, client: Client, now: nat)
    ensures Allowed(cfg, rows, address, client, now) <==>
      Cooled(rows, address, cfg.cooldown, now) && |Recent(rows, client, cfg.window, now)| < cfg.limit
  {
    CooldownExact(rows, address, cfg.cooldown, now);
    WindowExact(rows, client, cfg.limit, cfg.window, now);
  }

  // A request past the first check gets a row if and only if its address has
  // cooled down and its client has fewer recent claims than the limit; the row
  // is what was asked for, dated when it was asked, and otherwise the request is
  // gone and the ledger as it was.
  lemma DripIsGrantedIff(cfg: Config, s: State, r: RequestId)
    requires r in s.handlers && s.handlers[r].Parked?
    ensures
      var p, t := s.handlers[r], DecideBy(cfg, s, r);
      && t.channel == s.channel && t.worker == s.worker && t.phase == s.phase
      && if Cooled(s.rows, p.address, cfg.cooldown, p.now) && |Recent(s.rows, p.client, cfg.window, p.now)| < cfg.limit
         then
           && t.rows == s.rows + [Row(p.address, p.client, cfg.drip, Queued, None, None, p.now, None, None)]
           && t.handlers == s.handlers[r := Recorded(Job(|s.rows|, p.address, cfg.drip), p.now)]
         else t.rows == s.rows && t.handlers == s.handlers - {r}
  {
    var p := s.handlers[r];
    AllowedExact(cfg, s.rows, p.address, p.client, p.now);
  }

  // The first check lets through the same requests.
  lemma RequestIsHeardIff(cfg: Config, s: State, r: RequestId, address: Address, client: Client, now: nat)
    requires s.phase.Serving? && r !in s.history.used
    ensures
      var t := ArriveBy(cfg, s, r, address, client, now);
      && t.rows == s.rows && t.channel == s.channel && t.worker == s.worker && t.phase == s.phase
      && t.handlers ==
           if Cooled(s.rows, address, cfg.cooldown, now) && |Recent(s.rows, client, cfg.window, now)| < cfg.limit
           then s.handlers[r := Parked(address, client, now)] else s.handlers
  {
    AllowedExact(cfg, s.rows, address, client, now);
  }

  // ---------------------------------------------------------------------------
  // The queue
  // ---------------------------------------------------------------------------

  // What an action puts at the end of the queue: the job of the row a handler
  // wrote, or a row that recovery queues again, while there is room.
  function PutBy(cfg: Config, s: State, a: Action): seq<Job> {
    match a
    case Enqueue(r) =>
      if r in s.handlers && s.handlers[r].Recorded? && |s.channel| < cfg.depth then [s.handlers[r].job] else []
    case RecoverOne(_) =>
      if s.phase.Recovering? && s.phase.todo != [] && s.phase.todo[0] < |s.rows|
         && s.rows[s.phase.todo[0]].submittedAt.None? && |s.channel| < cfg.depth
      then [Job(s.phase.todo[0], s.rows[s.phase.todo[0]].address, s.rows[s.phase.todo[0]].amount)]
      else []
    case _ => []
  }

  predicate Takes(s: State, a: Action) {
    a.Take? && s.phase.Serving? && s.worker.Idle? && s.channel != []
  }

  // Everything put on the queue since the process last stopped, and how much of
  // it the worker has taken.
  function Put(cfg: Config, schedule: seq<Action>): seq<Job> {
    if schedule == [] then []
    else
      var before, a := schedule[..|schedule| - 1], schedule[|schedule| - 1];
      if a.Crash? then [] else Put(cfg, before) + PutBy(cfg, Run(cfg, before), a)
  }

  function Taken(cfg: Config, schedule: seq<Action>): nat {
    if schedule == [] then 0
    else
      var before, a := schedule[..|schedule| - 1], schedule[|schedule| - 1];
      if a.Crash? then 0 else Taken(cfg, before) + One(Takes(Run(cfg, before), a))
  }

  ghost predicate QueueOk(s: State, put: seq<Job>, taken: nat) {
    && taken <= |put| && s.channel == put[taken..]
    && (!s.worker.Idle? ==> taken > 0 && s.worker.job == put[taken - 1])
  }

  lemma HandlerPuts(cfg: Config, s: State, a: Action)
    requires a.Arrive? || a.Abandon? || a.Decide? || a.Enqueue? || a.Bounce?
    ensures Step(cfg, s, a).channel == s.channel + PutBy(cfg, s, a) && Step(cfg, s, a).worker == s.worker
  {
    match a {
      case Arrive(_, _, _, _) | Abandon(_) | Decide(_) =>
      case Enqueue(_) =>
      case Bounce(_) =>
    }
  }

  lemma ProcessPuts(cfg: Config, s: State, a: Action)
    requires a.Restart? || a.RecoverOne? || a.Open?
    ensures Step(cfg, s, a).channel == s.channel + PutBy(cfg, s, a) && Step(cfg, s, a).worker == s.worker
  {
    match a {
      case Restart | Open =>
      case RecoverOne(_) =>
    }
  }

  // The worker takes the first job, and keeps it until it is recorded.
  lemma WorkerTakes(s: State, a: Action)
    requires !a.Arrive? && !a.Abandon? && !a.Decide? && !a.Enqueue? && !a.Bounce?
    requires !a.Crash? && !a.Restart? && !a.RecoverOne? && !a.Open?
    ensures
      var t := WorkerStep(s, a);
      if Takes(s, a) then
        s.channel != [] && t.channel == s.channel[1..] && !t.worker.Idle? && t.worker.job == s.channel[0]
      else
        t.channel == s.channel && (!t.worker.Idle? ==> !s.worker.Idle? && t.worker.job == s.worker.job)
  {
    match a {
      case Take =>
      case Refuse(_) | Mark(_) | StartSend | ReportSent(_) | ReportError(_) | RecordSent(_) | RecordFailed(_) =>
    }
  }

  lemma StepKeepsQueue(cfg: Config, s: State, a: Action, put: seq<Job>, taken: nat)
    requires QueueOk(s, put, taken) && !a.Crash?
    ensures QueueOk(Step(cfg, s, a), put + PutBy(cfg, s, a), taken + One(Takes(s, a)))
  {
    var more := PutBy(cfg, s, a);
    assert (put + more)[taken..] == put[taken..] + more;
    if a.Arrive? || a.Abandon? || a.Decide? || a.Enqueue? || a.Bounce? {
      HandlerPuts(cfg, s, a);
    } else if a.Restart? || a.RecoverOne? || a.Open? {
      ProcessPuts(cfg, s, a);
    } else {
      WorkerTakes(s, a);
      assert put + more == put;
      if Takes(s, a) {
        assert s.channel[0] == put[taken] && s.channel[1..] == put[taken + 1..];
      }
    }
  }

  // Between two stops the worker serves the jobs in the order they were put on
  // the queue, each once, and nothing else.
  lemma {:induction false} FirstInFirstOut(cfg: Config, schedule: seq<Action>)
    ensures QueueOk(Run(cfg, schedule), Put(cfg, schedule), Taken(cfg, schedule))
  {
    if schedule != [] {
      var before, a := schedule[..|schedule| - 1], schedule[|schedule| - 1];
      if !a.Crash? {
        FirstInFirstOut(cfg, before);
        StepKeepsQueue(cfg, Run(cfg, before), a, Put(cfg, before), Taken(cfg, before));
      }
    }
  }

  // ---------------------------------------------------------------------------
  // What a settled row says
  // ---------------------------------------------------------------------------

  // Only the one row changes, and that only in its outcome.
  ghost predicate OnlyRow(rows: seq<Row>, rows': seq<Row>, id: ClaimId) {
    && id < |rows| == |rows'| && (forall i :: 0 <= i < |rows| && i != id ==> rows'[i] == rows[i])
    && O.SameRequest(rows[id], rows'[id])
  }

  // In every reachable state: a job that is taken up is marked with the time of
  // the mark, before its send is started.
  lemma {:induction false} MarkedRowSays(cfg: Config, schedule: seq<Action>, now: nat)
    ensures
      var s := Run(cfg, schedule);
      s.worker.Holding? ==>
        var id, rows := s.worker.job.claim, Step(cfg, s, Mark(now)).rows;
        && OnlyRow(s.rows, rows, id) && rows[id] == s.rows[id].(submittedAt := Some(now))
        && s.history.started == Step(cfg, s, Mark(now)).history.started
  {
    O.Invariant(cfg, schedule);
  }

  // A payment the wallet reports as included says when, and when that was
  // recorded.
  lemma {:induction false} SentRowSays(cfg: Config, schedule: seq<Action>, included: nat, now: nat)
    ensures
      var s := Run(cfg, schedule);
      s.worker.Sending? ==>
        var id, rows := s.worker.job.claim, Step(cfg, Step(cfg, s, ReportSent(included)), RecordSent(now)).rows;
        && OnlyRow(s.rows, rows, id)
        && rows[id] == s.rows[id].(status := Sent, includedAt := Some(included), settledAt := Some(now))
  {
    O.Invariant(cfg, schedule);
  }

  // One that failed says why, as the wallet or the worker gave it.
  lemma {:induction false} FailedRowSays(cfg: Config, schedule: seq<Action>, reason: Reason, now: nat)
    requires reason != Interrupted
    ensures
      var s := Run(cfg, schedule);
      s.worker.Sending? || s.worker.Holding? ==>
        var why := if s.worker.Sending? then ReportError(reason) else Refuse(reason);
        var id, rows := s.worker.job.claim, Step(cfg, Step(cfg, s, why), RecordFailed(now)).rows;
        && OnlyRow(s.rows, rows, id)
        && rows[id] == s.rows[id].(status := Failed, detail := Some(reason), settledAt := Some(now))
  {
    O.Invariant(cfg, schedule);
    var s := Run(cfg, schedule);
    if s.worker.Sending? {
      FailureRecorded(cfg, s, ReportError(reason), reason, now);
    } else if s.worker.Holding? {
      FailureRecorded(cfg, s, Refuse(reason), reason, now);
    }
  }

  lemma FailureRecorded(cfg: Config, s: State, why: Action, reason: Reason, now: nat)
    requires reason != Interrupted && (s.worker.Sending? || s.worker.Holding?)
    requires why == if s.worker.Sending? then ReportError(reason) else Refuse(reason)
    ensures
      var id := s.worker.job.claim;
      Step(cfg, Step(cfg, s, why), RecordFailed(now)).rows == MarkFailed(s.rows, id, reason, now)
  {
    var erred := Step(cfg, s, why);
    assert erred == s.(worker := Erred(s.worker.job, reason));
  }

  // Or that the queue was full, at the time of the request.
  lemma {:induction false} BouncedRowSays(cfg: Config, schedule: seq<Action>, r: RequestId)
    ensures
      var s := Run(cfg, schedule);
      r in s.handlers && s.handlers[r].Bounced? ==>
        var id, rows := s.handlers[r].claim, Step(cfg, s, Bounce(r)).rows;
        && OnlyRow(s.rows, rows, id)
        && rows[id] == s.rows[id].(status := Failed, detail := Some(QueueFull), settledAt := Some(s.handlers[r].now))
  {
    O.Invariant(cfg, schedule);
    var s := Run(cfg, schedule);
    assert r in s.handlers ==> O.HandlerOk(s, r);
  }
}
