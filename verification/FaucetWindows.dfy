/**
 The two rate limits hold of the ledger in every reachable state, for any
 clock and any number of requests parked between their two checks.
 */
module FaucetWindows {
  import opened Prelude
  import opened FaucetLedger
  import opened FaucetLimits
  import opened FaucetModel
  import O = FaucetOwners
  import S = FaucetSends

  predicate Apart(a: nat, b: nat, gap: nat) {
    a + gap <= b || b + gap <= a
  }

  ghost predicate CooldownHolds(rows: seq<Row>, cooldown: nat) {
    forall i, j :: 0 <= i < j < |rows| && Counts(rows[i]) && Counts(rows[j]) && rows[i].address == rows[j].address
      ==> Apart(rows[i].requestedAt, rows[j].requestedAt, cooldown)
  }

  ghost predicate WindowHolds(rows: seq<Row>, limit: nat, window: nat) {
    forall client: Client, from: nat :: |Window(rows, client, from, window)| <= limit
  }

  // ---------------------------------------------------------------------------
  // Rows that settle
  // ---------------------------------------------------------------------------

  // No row is added, none changes its request, and none starts to count.
  ghost predicate Fewer(rows: seq<Row>, rows': seq<Row>) {
    && |rows'| == |rows|
    && (forall i :: 0 <= i < |rows| ==>
          O.SameRequest(rows[i], rows'[i]) && (Counts(rows'[i]) ==> Counts(rows[i])))
  }

  lemma FewerKeeps(rows: seq<Row>, rows': seq<Row>, cfg: Config)
    requires Fewer(rows, rows')
    requires CooldownHolds(rows, cfg.cooldown) && WindowHolds(rows, cfg.limit, cfg.window)
    ensures CooldownHolds(rows', cfg.cooldown) && WindowHolds(rows', cfg.limit, cfg.window)
  {
    forall client: Client, from: nat ensures |Window(rows', client, from, cfg.window)| <= cfg.limit {
      SubsetSize(Window(rows', client, from, cfg.window), Window(rows, client, from, cfg.window));
    }
  }

  // ---------------------------------------------------------------------------
  // The row a handler writes
  // ---------------------------------------------------------------------------

  lemma AddKeepsCooldown(rows: seq<Row>, row: Row, cooldown: nat)
    requires CooldownHolds(rows, cooldown)
    requires CheckCooldown(LastClaim(rows, row.address), cooldown, row.requestedAt).None?
    ensures CooldownHolds(rows + [row], cooldown)
  {
  }

  // Any window the new row falls in starts no earlier than the one counted.
  lemma AddKeepsWindow(rows: seq<Row>, row: Row, limit: nat, window: nat)
    requires WindowHolds(rows, limit, window)
    requires ClaimsSince(rows, row.client, WindowStart(row.requestedAt, window)) < limit
    ensures WindowHolds(rows + [row], limit, window)
  {
    forall client: Client, from: nat ensures |Window(rows + [row], client, from, window)| <= limit {
      AddToWindow(rows, row, limit, window, client, from);
    }
  }

  lemma AddToWindow(rows: seq<Row>, row: Row, limit: nat, window: nat, client: Client, from: nat)
    requires WindowHolds(rows, limit, window)
    requires ClaimsSince(rows, row.client, WindowStart(row.requestedAt, window)) < limit
    ensures |Window(rows + [row], client, from, window)| <= limit
  {
    WindowGrows(rows, row, client, from, window);
    if IsHit(row, client, from) && row.requestedAt <= from + window {
      InWindowIsCounted(rows, client, from, window, row.requestedAt);
    } else {
      assert |Window(rows, client, from, window)| <= limit;
    }
  }

  lemma WindowGrows(rows: seq<Row>, row: Row, client: Client, from: nat, window: nat)
    ensures |Window(rows + [row], client, from, window)|
         == |Window(rows, client, from, window)| + One(IsHit(row, client, from) && row.requestedAt <= from + window)
  {
    var before, after := Window(rows, client, from, window), Window(rows + [row], client, from, window);
    assert forall i :: i in before ==> (rows + [row])[i] == rows[i];
    assert after - {|rows|} == before;
    if IsHit(row, client, from) && row.requestedAt <= from + window {
      assert after == before + {|rows|};
    }
  }

  lemma InWindowIsCounted(rows: seq<Row>, client: Client, from: nat, window: nat, now: nat)
    requires from <= now <= from + window
    ensures |Window(rows, client, from, window)| <= ClaimsSince(rows, client, WindowStart(now, window))
  {
    SubsetSize(Window(rows, client, from, window), Since(rows, client, WindowStart(now, window)));
  }

  // ---------------------------------------------------------------------------
  // Every action
  // ---------------------------------------------------------------------------

  lemma OnlyDecideAdds(cfg: Config, s: State, a: Action)
    requires !a.Decide?
    ensures |Step(cfg, s, a).rows| == |s.rows|
  {
    match a {
      case Arrive(_, _, _, _) | Abandon(_) | Enqueue(_) | Bounce(_) =>
      case Crash | Restart | RecoverOne(_) | Open =>
      case Take | Refuse(_) | Mark(_) | StartSend | ReportSent(_) | ReportError(_) =>
      case RecordSent(_) | RecordFailed(_) =>
    }
  }

  lemma StepKeeps(cfg: Config, s: State, a: Action)
    requires O.Inv(s)
    requires CooldownHolds(s.rows, cfg.cooldown) && WindowHolds(s.rows, cfg.limit, cfg.window)
    ensures CooldownHolds(Step(cfg, s, a).rows, cfg.cooldown)
    ensures WindowHolds(Step(cfg, s, a).rows, cfg.limit, cfg.window)
  {
    var t := Step(cfg, s, a);
    if a.Decide? {
      if t.rows != s.rows {
        var p := s.handlers[a.r];
        AddKeepsCooldown(s.rows, NewRow(p.address, p.client, cfg.drip, p.now), cfg.cooldown);
        AddKeepsWindow(s.rows, NewRow(p.address, p.client, cfg.drip, p.now), cfg.limit, cfg.window);
      }
    } else {
      OnlyDecideAdds(cfg, s, a);
      O.StepMovesRows(cfg, s, a);
      FewerKeeps(s.rows, t.rows, cfg);
    }
  }

  lemma {:induction false} LimitsHold(cfg: Config, schedule: seq<Action>)
    ensures CooldownHolds(Run(cfg, schedule).rows, cfg.cooldown)
    ensures WindowHolds(Run(cfg, schedule).rows, cfg.limit, cfg.window)
  {
    if schedule != [] {
      LimitsHold(cfg, schedule[..|schedule| - 1]);
      O.Invariant(cfg, schedule[..|schedule| - 1]);
      StepKeeps(cfg, Run(cfg, schedule[..|schedule| - 1]), schedule[|schedule| - 1]);
    }
  }

  // ---------------------------------------------------------------------------
  // Payments
  // ---------------------------------------------------------------------------

  // Two payments to one address that were started, and neither written off,
  // were asked for at least a cooldown apart.
  lemma {:induction false} PaymentsAreApart(cfg: Config, schedule: seq<Action>, a: ClaimId, b: ClaimId)
    requires a != b
    requires a in Run(cfg, schedule).history.started && a !in Run(cfg, schedule).history.writtenOff
    requires b in Run(cfg, schedule).history.started && b !in Run(cfg, schedule).history.writtenOff
    ensures
      var rows := Run(cfg, schedule).rows;
      && a < |rows| && b < |rows|
      && (rows[a].address == rows[b].address ==>
            Apart(rows[a].requestedAt, rows[b].requestedAt, cfg.cooldown))
  {
    LimitsHold(cfg, schedule);
    S.StartedClaimCounts(cfg, schedule, a);
    S.StartedClaimCounts(cfg, schedule, b);
  }
}
