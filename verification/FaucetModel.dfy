/**
 The faucet as one interleaved state machine: request handlers, the bounded
 queue, the one worker, and a process that can stop at any point and recovers
 from its ledger. Times are parameters of the actions and follow no order.

 A schedule is any sequence of actions. An action whose task is elsewhere
 changes nothing, so every schedule is a run.
 */
module FaucetModel {
  import opened Prelude
  import opened FaucetLedger
  import opened FaucetLimits

  // One request; a number is used once.
  type RequestId = nat

  // Cooldown and window in whole seconds.
  datatype Config = Config(cooldown: nat, window: nat, limit: nat, depth: nat, drip: nat)

  datatype Job = Job(claim: ClaimId, address: Address, quanta: nat)

  /** A request handler: past the first check, its row written, or refused by a full queue. */
  datatype Handler =
    | Parked(address: Address, client: Client, now: nat)
    | Recorded(job: Job, now: nat)
    | Bounced(claim: ClaimId, now: nat)

  /** The worker: a job taken, marked, being sent, and what the wallet answered. */
  datatype Worker =
    | Idle
    | Holding(job: Job)
    | Marked(job: Job)
    | Sending(job: Job)
    | Reported(job: Job, includedAt: nat)
    | Erred(job: Job, reason: Reason)

  /** The process. `booted` is the ledger as it was read at the start. */
  datatype Phase = Down | Recovering(todo: seq<ClaimId>, booted: seq<Row>) | Serving

  // Who carries a claim: nobody once it is settled, or after a stop until the
  // next start.
  datatype Place = WithHandler(r: RequestId) | InQueue | WithWorker | InRecovery | Nowhere | Settled

  /**
   What has happened so far, which no task reads: who carries each row, the
   request numbers used, how often a send was started per claim, the claims
   failed by the worker after their send was started, and the sum of the
   payments recorded as sent.
   */
  datatype History = History(
    place: seq<Place>,
    used: set<RequestId>,
    started: multiset<ClaimId>,
    writtenOff: set<ClaimId>,
    recorded: nat)

  datatype State = State(
    rows: seq<Row>,
    channel: seq<Job>,
    worker: Worker,
    handlers: map<RequestId, Handler>,
    phase: Phase,
    history: History)

  const Init: State :=
    State([], [], Idle, map[], Down, History([], {}, multiset{}, {}, 0))

  datatype Action =
    // Request handlers.
    | Arrive(r: RequestId, address: Address, client: Client, now: nat)
    | Abandon(r: RequestId)
    | Decide(r: RequestId)
    | Enqueue(r: RequestId)
    | Bounce(r: RequestId)
      // The worker.
    | Take
    | Refuse(reason: Reason)
    | Mark(now: nat)
    | StartSend
    | ReportSent(includedAt: nat)
    | ReportError(reason: Reason)
    | RecordSent(now: nat)
    | RecordFailed(now: nat)
      // The process.
    | Crash
    | Restart
    | RecoverOne(now: nat)
    | Open

  function Placed(h: History, id: ClaimId, place: Place): History {
    if id < |h.place| then h.(place := h.place[id := place]) else h
  }

  // Every claim not settled moves.
  function AllPlaced(h: History, place: Place): History {
    h.(place := seq(|h.place|, i requires 0 <= i < |h.place| =>
         if h.place[i].Settled? then Settled else place))
  }

  // The two checks, as the handler makes them twice.
  predicate Allowed(cfg: Config, rows: seq<Row>, address: Address, client: Client, now: nat) {
    && CheckCooldown(LastClaim(rows, address), cfg.cooldown, now).None?
    && CheckClient(ClaimsSince(rows, client, WindowStart(now, cfg.window)), cfg.limit, cfg.window).None?
  }

  // ---------------------------------------------------------------------------
  // Request handlers
  // ---------------------------------------------------------------------------

  // The first pass; the time is read here and kept across the await.
  function ArriveBy(cfg: Config, s: State, r: RequestId, address: Address, client: Client, now: nat): State {
    if !(s.phase.Serving? && r !in s.history.used && Allowed(cfg, s.rows, address, client, now)) then s
    else s.(handlers := s.handlers[r := Parked(address, client, now)],
            history := s.history.(used := s.history.used + {r}))
  }

  predicate IsParked(s: State, r: RequestId) {
    r in s.handlers && s.handlers[r].Parked?
  }

  // The second pass and the row, under one hold of the ledger.
  function DecideBy(cfg: Config, s: State, r: RequestId): State {
    if !IsParked(s, r) then s
    else
      var p := s.handlers[r];
      if Allowed(cfg, s.rows, p.address, p.client, p.now) then Written(s, r, cfg.drip)
      else s.(handlers := s.handlers - {r})
  }

  function Written(s: State, r: RequestId, drip: nat): State
    requires IsParked(s, r)
  {
    var p := s.handlers[r];
    s.(rows := s.rows + [NewRow(p.address, p.client, drip, p.now)],
       handlers := s.handlers[r := Recorded(Job(|s.rows|, p.address, drip), p.now)],
       history := s.history.(place := s.history.place + [WithHandler(r)]))
  }

  // The queue push, outside the ledger lock.
  function EnqueueBy(cfg: Config, s: State, r: RequestId): State {
    if !(r in s.handlers && s.handlers[r].Recorded?) then s
    else
      var job := s.handlers[r].job;
      if |s.channel| < cfg.depth then
        s.(channel := s.channel + [job], handlers := s.handlers - {r},
           history := Placed(s.history, job.claim, InQueue))
      else
        s.(handlers := s.handlers[r := Bounced(job.claim, s.handlers[r].now)])
  }

  function BounceBy(s: State, r: RequestId): State {
    if !(r in s.handlers && s.handlers[r].Bounced?) then s
    else
      s.(rows := MarkFailed(s.rows, s.handlers[r].claim, QueueFull, s.handlers[r].now),
         handlers := s.handlers - {r},
         history := Placed(s.history, s.handlers[r].claim, Settled))
  }

  // ---------------------------------------------------------------------------
  // The worker
  // ---------------------------------------------------------------------------

  function WorkerStep(s: State, a: Action): State {
    match a
    case Take =>
      if !(s.phase.Serving? && s.worker.Idle? && s.channel != []) then s
      else s.(channel := s.channel[1..], worker := Holding(s.channel[0]),
              history := Placed(s.history, s.channel[0].claim, WithWorker))
    case Refuse(reason) =>
      if !(s.worker.Holding? && reason != Interrupted) then s
      else s.(worker := Erred(s.worker.job, reason))
    case Mark(now) =>
      if !s.worker.Holding? then s
      else s.(rows := MarkSubmitted(s.rows, s.worker.job.claim, now), worker := Marked(s.worker.job))
    case StartSend =>
      if !s.worker.Marked? then s
      else s.(worker := Sending(s.worker.job),
              history := s.history.(started := s.history.started + multiset{s.worker.job.claim}))
    case ReportSent(includedAt) =>
      if !s.worker.Sending? then s else s.(worker := Reported(s.worker.job, includedAt))
    case ReportError(reason) =>
      if !(s.worker.Sending? && reason != Interrupted) then s
      else s.(worker := Erred(s.worker.job, reason))
    case RecordSent(now) =>
      if !s.worker.Reported? then s
      else s.(rows := MarkSent(s.rows, s.worker.job.claim, s.worker.includedAt, now), worker := Idle,
              history := Placed(s.history, s.worker.job.claim, Settled)
                .(recorded := s.history.recorded + s.worker.job.quanta))
    case RecordFailed(now) =>
      if !s.worker.Erred? then s
      else
        var claim := s.worker.job.claim;
        s.(rows := MarkFailed(s.rows, claim, s.worker.reason, now), worker := Idle,
           history := Placed(s.history, claim, Settled)
             .(writtenOff := s.history.writtenOff + if claim in s.history.started then {claim} else {}))
    case _ => s
  }

  // ---------------------------------------------------------------------------
  // The process
  // ---------------------------------------------------------------------------

  // One row of the recovery loop: a marked row is failed as interrupted, an
  // unmarked one is queued again while there is room.
  function Recover(rows: seq<Row>, channel: seq<Job>, depth: nat, id: ClaimId, now: nat): (seq<Row>, seq<Job>) {
    if id >= |rows| then (rows, channel)
    else if rows[id].submittedAt.Some? then (MarkFailed(rows, id, Interrupted, now), channel)
    else if |channel| < depth then (rows, channel + [Job(id, rows[id].address, rows[id].amount)])
    else (MarkFailed(rows, id, QueueFull, now), channel)
  }

  function ProcessStep(cfg: Config, s: State, a: Action): State {
    match a
    case Crash =>
      s.(channel := [], worker := Idle, handlers := map[], phase := Down,
         history := AllPlaced(s.history, Nowhere))
    case Restart =>
      if !s.phase.Down? then s
      else
        s.(phase := Recovering(QueuedClaims(s.rows), s.rows),
           history := AllPlaced(s.history, InRecovery))
    case RecoverOne(now) =>
      if !(s.phase.Recovering? && s.phase.todo != []) then s
      else
        var (rows', channel') := Recover(s.rows, s.channel, cfg.depth, s.phase.todo[0], now);
        s.(rows := rows', channel := channel', phase := Recovering(s.phase.todo[1..], s.phase.booted),
           history := Placed(s.history, s.phase.todo[0], if channel' == s.channel then Settled else InQueue))
    case Open =>
      if !(s.phase.Recovering? && s.phase.todo == []) then s else s.(phase := Serving)
    case _ => s
  }

  function Step(cfg: Config, s: State, a: Action): State {
    match a
    case Arrive(r, address, client, now) => ArriveBy(cfg, s, r, address, client, now)
    case Abandon(r) =>
      if r in s.handlers && s.handlers[r].Parked? then s.(handlers := s.handlers - {r}) else s
    case Decide(r) => DecideBy(cfg, s, r)
    case Enqueue(r) => EnqueueBy(cfg, s, r)
    case Bounce(r) => BounceBy(s, r)
    case Crash | Restart | RecoverOne(_) | Open => ProcessStep(cfg, s, a)
    case _ => WorkerStep(s, a)
  }

  // The state after a schedule.
  function Run(cfg: Config, schedule: seq<Action>): State {
    if schedule == [] then Init
    else Step(cfg, Run(cfg, schedule[..|schedule| - 1]), schedule[|schedule| - 1])
  }
}
