/**
 The condition in `PaymentsAreApart` is needed. A send that the wallet reports
 as an error may still settle: it gives up waiting for a block after the payment
 was handed to the node. The worker then records a failure that does not count,
 and the same address is paid again at once.
 */
module FaucetPaidTwice {
  import opened Prelude
  import opened FaucetLedger
  import opened FaucetLimits
  import opened FaucetModel

  ghost predicate Reached(cfg: Config, s: State) {
    exists schedule :: Run(cfg, schedule) == s
  }

  lemma Start(cfg: Config)
    ensures Reached(cfg, Init)
  {
    assert Run(cfg, []) == Init;
  }

  lemma Then(cfg: Config, s: State, a: Action)
    requires Reached(cfg, s)
    ensures Reached(cfg, Step(cfg, s, a))
  {
    var schedule :| Run(cfg, schedule) == s;
    assert (schedule + [a])[..|schedule + [a]| - 1] == schedule;
    assert Run(cfg, schedule + [a]) == Step(cfg, s, a);
  }

  // An idle faucet with nothing queued.
  predicate Quiet(s: State) {
    && s.phase.Serving? && s.worker.Idle? && s.channel == [] && s.handlers == map[]
    && |s.history.place| == |s.rows|
  }

  lemma Boot(cfg: Config) returns (s: State)
    ensures Reached(cfg, s) && Quiet(s) && s.rows == [] && s.history.used == {} && s.history.started == multiset{}
  {
    Start(cfg);
    s := Init;
    Then(cfg, s, Restart); s := Step(cfg, s, Restart);
    Then(cfg, s, Open); s := Step(cfg, s, Open);
  }

  // Request r of client 0 for address 0 at time 0 reaches the queue.
  lemma Ask(cfg: Config, s: State, r: RequestId) returns (t: State)
    requires cfg.depth > 0 && Reached(cfg, s) && Quiet(s) && r !in s.history.used
    requires Allowed(cfg, s.rows, 0, 0, 0)
    ensures Reached(cfg, t) && t.phase.Serving? && t.worker.Idle? && t.handlers == map[]
    ensures t.channel == [Job(|s.rows|, 0, cfg.drip)]
    ensures t.rows == s.rows + [NewRow(0, 0, cfg.drip, 0)] && |t.history.place| == |t.rows|
    ensures t.history.used == s.history.used + {r} && t.history.started == s.history.started
  {
    Then(cfg, s, Arrive(r, 0, 0, 0));
    t := ArriveBy(cfg, s, r, 0, 0, 0);
    Then(cfg, t, Decide(r));
    t := Written(t, r, cfg.drip);
    t := Pushed(cfg, t, r);
  }

  lemma Pushed(cfg: Config, s: State, r: RequestId) returns (t: State)
    requires cfg.depth > 0 && Reached(cfg, s) && s.channel == []
    requires r in s.handlers && s.handlers[r].Recorded? && s.handlers.Keys == {r}
    ensures Reached(cfg, t) && t.phase == s.phase && t.worker == s.worker && t.handlers == map[]
    ensures t.channel == [s.handlers[r].job] && Same(t.rows, s.rows) && |t.history.place| == |s.history.place|
    ensures Same(t.history.used, s.history.used) && Same(t.history.started, s.history.started)
  {
    Then(cfg, s, Enqueue(r));
    t := EnqueueBy(cfg, s, r);
    assert t.handlers.Keys == {};
  }

  // The worker takes it, marks it and starts the send.
  lemma Send(cfg: Config, s: State) returns (t: State)
    requires Reached(cfg, s) && s.phase.Serving? && s.worker.Idle? && s.handlers == map[]
    requires |s.channel| == 1 && s.channel[0].claim < |s.rows| == |s.history.place|
    ensures Reached(cfg, t) && t.phase.Serving? && t.handlers == map[] && t.channel == []
    ensures t.worker == Sending(s.channel[0])
    ensures t.rows == MarkSubmitted(s.rows, s.channel[0].claim, 0) && |t.history.place| == |t.rows|
    ensures t.history.used == s.history.used
    ensures t.history.started == s.history.started + multiset{s.channel[0].claim}
  {
    Then(cfg, s, Take);
    t := WorkerStep(s, Take);
    Then(cfg, t, Mark(0));
    t := WorkerStep(t, Mark(0));
    Then(cfg, t, StartSend);
    t := WorkerStep(t, StartSend);
  }

  // The wallet stops waiting, and the worker records that.
  lemma TimeOut(cfg: Config, s: State) returns (t: State)
    requires Reached(cfg, s) && s.phase.Serving? && s.handlers == map[] && s.channel == []
    requires s.worker.Sending? && |s.history.place| == |s.rows|
    ensures Reached(cfg, t) && Quiet(t)
    ensures t.rows == MarkFailed(s.rows, s.worker.job.claim, NotIncluded, 0)
    ensures t.history.used == s.history.used && t.history.started == s.history.started
  {
    Then(cfg, s, ReportError(NotIncluded));
    t := WorkerStep(s, ReportError(NotIncluded));
    Then(cfg, t, RecordFailed(0));
    t := WorkerStep(t, RecordFailed(0));
  }

  // After it, the address may ask again in the same second.
  lemma FreedAtOnce(cfg: Config, rows: seq<Row>)
    requires cfg.limit > 0 && |rows| == 1 && !Counts(rows[0])
    ensures Allowed(cfg, rows, 0, 0, 0)
  {
    assert Since(rows, 0, WindowStart(0, cfg.window)) == {};
  }

  lemma FirstIsLost(cfg: Config) returns (s: State)
    requires cfg.depth > 0 && cfg.limit > 0
    ensures Reached(cfg, s) && Quiet(s) && Allowed(cfg, s.rows, 0, 0, 0)
    ensures |s.rows| == 1 && s.rows[0].address == 0 && s.rows[0].requestedAt == 0
    ensures s.history.used == {0} && s.history.started == multiset{0}
  {
    s := Boot(cfg);
    s := Ask(cfg, s, 0);
    s := Send(cfg, s);
    s := TimeOut(cfg, s);
    FreedAtOnce(cfg, s.rows);
  }

  // For every cooldown: two payments to one address, asked for in one second.
  lemma PaidTwiceInOneCooldown(cfg: Config)
    requires cfg.depth > 0 && cfg.limit > 0
    ensures exists schedule :: BothStarted(Run(cfg, schedule), 0, 1)
  {
    var s := FirstIsLost(cfg);
    s := SecondIsSent(cfg, s);
    var schedule :| Run(cfg, schedule) == s;
    assert BothStarted(Run(cfg, schedule), 0, 1);
  }

  // Two claims of one address and one second, each with a send started.
  predicate BothStarted(s: State, a: ClaimId, b: ClaimId) {
    && a < |s.rows| && b < |s.rows| && a != b
    && a in s.history.started && b in s.history.started
    && s.rows[a].address == s.rows[b].address && s.rows[a].requestedAt == s.rows[b].requestedAt
  }

  lemma SecondIsSent(cfg: Config, s: State) returns (t: State)
    requires cfg.depth > 0 && Reached(cfg, s) && Quiet(s) && Allowed(cfg, s.rows, 0, 0, 0) && 1 !in s.history.used
    requires |s.rows| == 1 && s.rows[0].address == 0 && s.rows[0].requestedAt == 0 && 0 in s.history.started
    ensures Reached(cfg, t) && BothStarted(t, 0, 1)
  {
    var asked := Ask(cfg, s, 1);
    t := Send(cfg, asked);
    assert asked.channel[0].claim == 1;
  }
}
