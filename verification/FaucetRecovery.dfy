/**
 What a restart does with the rows a stop left queued: the oldest that were
 never handed to the node go back on the queue while it has room, in order, and
 every other one is failed, as interrupted if it may have been paid.
 */
module FaucetRecovery {
  import opened Prelude
  import opened FaucetLedger
  import opened FaucetModel
  import opened FaucetStore
  import O = FaucetOwners

  // ---------------------------------------------------------------------------
  // The specification
  // ---------------------------------------------------------------------------

  predicate Within(ids: seq<ClaimId>, rows: seq<Row>) {
    forall i :: 0 <= i < |ids| ==> ids[i] < |rows|
  }

  // Of `ids`, in order, those whose drip was never submitted.
  function Waiting(rows: seq<Row>, ids: seq<ClaimId>): (waiting: seq<ClaimId>)
    requires Within(ids, rows)
    ensures Within(waiting, rows)
    ensures forall id :: id in waiting <==> id in ids && rows[id].submittedAt.None?
  {
    if ids == [] then []
    else
      var n := |ids| - 1;
      assert ids == ids[..n] + [ids[n]];
      Waiting(rows, ids[..n]) + if rows[ids[n]].submittedAt.None? then [ids[n]] else []
  }

  function First<T>(xs: seq<T>, n: nat): seq<T> {
    if |xs| <= n then xs else xs[..n]
  }

  // The row with the outcome recovery gives it, at whatever time it was given.
  predicate Outcome(before: Row, after: Row, requeued: bool) {
    if before.submittedAt.Some? then
      after == before.(status := Failed, detail := Some(Interrupted), settledAt := after.settledAt)
    else if requeued then
      after == before
    else
      after == before.(status := Failed, detail := Some(QueueFull), settledAt := after.settledAt)
  }

  // A row whose id is among those dealt with has its outcome, any other is as
  // it was.
  predicate RowDealt(booted: seq<Row>, ids: seq<ClaimId>, requeued: seq<ClaimId>, rows: seq<Row>, id: ClaimId)
    requires id < |booted| == |rows|
  {
    if id in ids then Outcome(booted[id], rows[id], id in requeued) else rows[id] == booted[id]
  }

  predicate JobOf(booted: seq<Row>, id: ClaimId, job: Job) {
    id < |booted| && job == Job(id, booted[id].address, booted[id].amount)
  }

  ghost predicate DealtAs(booted: seq<Row>, ids: seq<ClaimId>, requeued: seq<ClaimId>, rows: seq<Row>,
                          channel: seq<Job>) {
    && |rows| == |booted| && |channel| == |requeued|
    && (forall i :: 0 <= i < |channel| ==> JobOf(booted, requeued[i], channel[i]))
    && (forall id: ClaimId :: id < |booted| ==> RowDealt(booted, ids, requeued, rows, id))
  }

  // The first `ids` of the queued rows of `booted` have been dealt with.
  ghost predicate Dealt(booted: seq<Row>, ids: seq<ClaimId>, rows: seq<Row>, channel: seq<Job>, depth: nat)
    requires Within(ids, booted)
  {
    DealtAs(booted, ids, First(Waiting(booted, ids), depth), rows, channel)
  }

  // All of them have.
  ghost predicate Recovered(booted: seq<Row>, rows: seq<Row>, channel: seq<Job>, depth: nat) {
    assert Within(QueuedClaims(booted), booted) by {
      assert forall i :: 0 <= i < |QueuedClaims(booted)| ==> QueuedClaims(booted)[i] in QueuedClaims(booted);
    }
    Dealt(booted, QueuedClaims(booted), rows, channel, depth)
  }

  // One id more is requeued exactly when it was never submitted and there is room.
  lemma WaitingGrows(booted: seq<Row>, ids: seq<ClaimId>, id: ClaimId, more: seq<ClaimId>, depth: nat)
    requires id < |booted| && id !in ids && Within(ids, booted) && more == ids + [id]
    ensures Within(more, booted) && id !in First(Waiting(booted, ids), depth)
    ensures
      var before, after := First(Waiting(booted, ids), depth), First(Waiting(booted, more), depth);
      if booted[id].submittedAt.None? && |before| < depth then after == before + [id] else after == before
  {
    assert more[..|ids|] == ids;
  }

  // One row more.
  lemma DealOne(booted: seq<Row>, ids: seq<ClaimId>, id: ClaimId, before: seq<ClaimId>, after: seq<ClaimId>,
                rows: seq<Row>, channel: seq<Job>, depth: nat, now: nat)
    requires id < |booted| && id !in ids && id !in before && DealtAs(booted, ids, before, rows, channel)
    requires if booted[id].submittedAt.None? && |before| < depth then after == before + [id] else after == before
    ensures
      var (rows', channel') := Recover(rows, channel, depth, id, now);
      DealtAs(booted, ids + [id], after, rows', channel')
  {
    var (rows', channel') := Recover(rows, channel, depth, id, now);
    assert RowDealt(booted, ids, before, rows, id);
    forall k: ClaimId | k < |booted| ensures RowDealt(booted, ids + [id], after, rows', k) {
      assert RowDealt(booted, ids, before, rows, k);
      assert k in ids + [id] <==> k in ids || k == id;
      assert k in after <==> k in before || (after != before && k == id);
    }
  }

  lemma DealNext(booted: seq<Row>, all: seq<ClaimId>, k: nat, rows: seq<Row>, channel: seq<Job>, depth: nat, now: nat)
    requires k < |all| && Within(all, booted) && Ascending(all)
    requires Dealt(booted, all[..k], rows, channel, depth)
    ensures
      var (rows', channel') := Recover(rows, channel, depth, all[k], now);
      Dealt(booted, all[..k + 1], rows', channel', depth)
  {
    assert all[..k + 1] == all[..k] + [all[k]];
    assert all[k] !in all[..k];
    WaitingGrows(booted, all[..k], all[k], all[..k + 1], depth);
    DealOne(booted, all[..k], all[k], First(Waiting(booted, all[..k]), depth),
            First(Waiting(booted, all[..k + 1]), depth), rows, channel, depth, now);
  }

  // ---------------------------------------------------------------------------
  // The loop
  // ---------------------------------------------------------------------------

  /** The bounded queue in front of the worker. */
  class JobQueue {
    const depth: nat
    var jobs: seq<Job>

    constructor (depth: nat)
      ensures this.depth == depth && jobs == []
    {
      this.depth := depth;
      jobs := [];
    }

    method TrySend(job: Job) returns (ok: bool)
      modifies this
      ensures ok == (|old(jobs)| < depth)
      ensures jobs == if ok then old(jobs) + [job] else old(jobs)
    {
      ok := |jobs| < depth;
      if ok {
        jobs := jobs + [job];
      }
    }
  }

  // One row of the loop.
  method RecoverRow(store: Store, queue: JobQueue, id: ClaimId, now: nat)
    requires id < |store.rows|
    modifies store, queue
    ensures (store.rows, queue.jobs) == Recover(old(store.rows), old(queue.jobs), queue.depth, id, now)
  {
    if store.rows[id].submittedAt.Some? {
      store.Failed(id, Interrupted, now);
    } else {
      var ok := queue.TrySend(Job(id, store.rows[id].address, store.rows[id].amount));
      if !ok {
        store.Failed(id, QueueFull, now);
      }
    }
  }

  // `clock` is what each reading of the time gives.
  method RecoverQueuedClaims(store: Store, queue: JobQueue, clock: nat -> nat)
    requires queue.jobs == []
    modifies store, queue
    ensures Recovered(old(store.rows), store.rows, queue.jobs, queue.depth)
  {
    ghost var booted := store.rows;
    var queued := QueuedClaims(store.rows);
    assert forall i :: 0 <= i < |queued| ==> queued[i] in queued;
    var i := 0;
    while i < |queued|
      invariant 0 <= i <= |queued|
      invariant Dealt(booted, queued[..i], store.rows, queue.jobs, queue.depth)
    {
      DealNext(booted, queued, i, store.rows, queue.jobs, queue.depth, clock(i));
      RecoverRow(store, queue, queued[i], clock(i));
      i := i + 1;
    }
    assert queued[..i] == queued;
  }

  // ---------------------------------------------------------------------------
  // The same loop inside a run
  // ---------------------------------------------------------------------------

  lemma QueuedAreWithin(rows: seq<Row>)
    ensures Within(QueuedClaims(rows), rows)
  {
    assert forall i :: 0 <= i < |QueuedClaims(rows)| ==> QueuedClaims(rows)[i] in QueuedClaims(rows);
  }

  // Of `all`, everything before `todo` has been dealt with.
  ghost predicate Progress(booted: seq<Row>, all: seq<ClaimId>, todo: seq<ClaimId>, rows: seq<Row>,
                           channel: seq<Job>, depth: nat) {
    && Within(all, booted) && Ascending(all)
    && |todo| <= |all| && todo == all[|all| - |todo|..]
    && Dealt(booted, all[..|all| - |todo|], rows, channel, depth)
  }

  ghost predicate RecoveryInv(cfg: Config, s: State) {
    s.phase.Recovering? ==>
      Progress(s.phase.booted, QueuedClaims(s.phase.booted), s.phase.todo, s.rows, s.channel, cfg.depth)
  }

  lemma NothingYet(rows: seq<Row>, all: seq<ClaimId>, depth: nat)
    requires all == QueuedClaims(rows)
    ensures Progress(rows, all, all, rows, [], depth)
  {
    QueuedAreWithin(rows);
    assert all[..0] == [] && all[0..] == all;
  }

  lemma ProgressOne(booted: seq<Row>, all: seq<ClaimId>, todo: seq<ClaimId>, rows: seq<Row>,
                    channel: seq<Job>, depth: nat, now: nat)
    requires todo != [] && Progress(booted, all, todo, rows, channel, depth)
    ensures
      var (rows', channel') := Recover(rows, channel, depth, todo[0], now);
      Progress(booted, all, todo[1..], rows', channel', depth)
  {
    var k := |all| - |todo|;
    assert todo[0] == all[k] && todo[1..] == all[k + 1..];
    DealNext(booted, all, k, rows, channel, depth, now);
  }

  lemma RecoverOneKeeps(cfg: Config, s: State, all: seq<ClaimId>, now: nat)
    requires s.phase.Recovering? && s.phase.todo != []
    requires Progress(s.phase.booted, all, s.phase.todo, s.rows, s.channel, cfg.depth)
    ensures
      var t := ProcessStep(cfg, s, RecoverOne(now));
      && t.phase.Recovering? && t.phase.booted == s.phase.booted
      && Progress(t.phase.booted, all, t.phase.todo, t.rows, t.channel, cfg.depth)
  {
    ProgressOne(s.phase.booted, all, s.phase.todo, s.rows, s.channel, cfg.depth, now);
  }

  // While it recovers, nobody else is there to change anything.
  lemma RecoveringIsAlone(cfg: Config, s: State, a: Action)
    requires O.PhaseInv(s) && s.phase.Recovering? && !(a.RecoverOne? && s.phase.todo != [])
    ensures Step(cfg, s, a) == s || !Step(cfg, s, a).phase.Recovering?
  {
    match a {
      case Crash | Restart | RecoverOne(_) | Open =>
      case _ =>
    }
  }

  lemma OthersStartNoRecovery(cfg: Config, s: State, a: Action)
    requires !s.phase.Recovering? && !a.Restart?
    ensures !Step(cfg, s, a).phase.Recovering?
  {
  }

  lemma RestartKeeps(cfg: Config, s: State)
    requires O.PhaseInv(s) && !s.phase.Recovering?
    ensures RecoveryInv(cfg, Step(cfg, s, Restart))
  {
    if s.phase.Down? {
      NothingYet(s.rows, QueuedClaims(s.rows), cfg.depth);
    }
  }

  lemma RecoveryStep(cfg: Config, s: State, a: Action)
    requires O.PhaseInv(s) && RecoveryInv(cfg, s)
    ensures RecoveryInv(cfg, Step(cfg, s, a))
  {
    if s.phase.Recovering? && s.phase.todo != [] && a.RecoverOne? {
      RecoverOneKeeps(cfg, s, QueuedClaims(s.phase.booted), a.now);
    } else if s.phase.Recovering? {
      RecoveringIsAlone(cfg, s, a);
    } else if a.Restart? {
      RestartKeeps(cfg, s);
    } else {
      OthersStartNoRecovery(cfg, s, a);
    }
  }

  lemma {:induction false} Invariant(cfg: Config, schedule: seq<Action>)
    ensures RecoveryInv(cfg, Run(cfg, schedule))
  {
    if schedule != [] {
      Invariant(cfg, schedule[..|schedule| - 1]);
      O.Invariant(cfg, schedule[..|schedule| - 1]);
      RecoveryStep(cfg, Run(cfg, schedule[..|schedule| - 1]), schedule[|schedule| - 1]);
    }
  }

  // Whatever stopped the process and however often, a recovery that reaches
  // its end has done exactly that with the ledger it started from.
  lemma {:induction false} RecoveryIsExact(cfg: Config, schedule: seq<Action>)
    requires Run(cfg, schedule).phase.Recovering? && Run(cfg, schedule).phase.todo == []
    ensures
      var s := Run(cfg, schedule);
      Recovered(s.phase.booted, s.rows, s.channel, cfg.depth)
  {
    Invariant(cfg, schedule);
    var s := Run(cfg, schedule);
    ProgressDone(s.phase.booted, QueuedClaims(s.phase.booted), s.rows, s.channel, cfg.depth);
  }

  lemma ProgressDone(booted: seq<Row>, all: seq<ClaimId>, rows: seq<Row>, channel: seq<Job>, depth: nat)
    requires Progress(booted, all, [], rows, channel, depth)
    ensures Dealt(booted, all, rows, channel, depth)
  {
    assert all[..|all|] == all;
  }
}
