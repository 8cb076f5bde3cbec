/**
 The claims ledger: one table, three updates by row number, four queries. No
 update looks at the status of the row it writes.
 */
module FaucetLedger {
  import opened Prelude

  type Address = nat
  type Client = nat

  // The row number; rows are appended and never removed.
  type ClaimId = nat

  datatype Status = Queued | Sent | Failed

  datatype Reason =
    | Interrupted | QueueFull | BadAddress
    | NoSpendableFunds | FeeFloor | NotIncluded | SendFailed

  datatype Row = Row(
    address: Address,
    client: Client,
    amount: nat,
    status: Status,
    includedAt: Option<nat>,
    detail: Option<Reason>,
    requestedAt: nat,
    submittedAt: Option<nat>,
    settledAt: Option<nat>)

  // Queued, sent, or failed because the faucet stopped in the middle of it.
  predicate Counts(row: Row) {
    row.status.Queued? || row.status.Sent? || (row.status.Failed? && row.detail == Some(Interrupted))
  }

  // ---------------------------------------------------------------------------
  // Updates
  // ---------------------------------------------------------------------------

  function NewRow(address: Address, client: Client, amount: nat, now: nat): Row {
    Row(address, client, amount, Queued, None, None, now, None, None)
  }

  // Each update is by row number: a number that names no row changes nothing.

  function MarkSubmitted(rows: seq<Row>, id: ClaimId, now: nat): seq<Row> {
    if id < |rows| then rows[id := rows[id].(submittedAt := Some(now))] else rows
  }

  function MarkSent(rows: seq<Row>, id: ClaimId, includedAt: nat, now: nat): seq<Row> {
    if id < |rows|
    then rows[id := rows[id].(status := Sent, includedAt := Some(includedAt), settledAt := Some(now))]
    else rows
  }

  function MarkFailed(rows: seq<Row>, id: ClaimId, reason: Reason, now: nat): seq<Row> {
    if id < |rows|
    then rows[id := rows[id].(status := Failed, detail := Some(reason), settledAt := Some(now))]
    else rows
  }

  // ---------------------------------------------------------------------------
  // Queries
  // ---------------------------------------------------------------------------

  // The latest time this address had a claim that counts.
  function LastClaim(rows: seq<Row>, address: Address): (last: Option<nat>)
    ensures last.None? ==> forall i :: 0 <= i < |rows| && Counts(rows[i]) ==> rows[i].address != address
    ensures last.Some? ==>
      && (exists i :: 0 <= i < |rows| && Counts(rows[i]) && rows[i].address == address
                      && rows[i].requestedAt == last.value)
      && (forall i :: 0 <= i < |rows| && Counts(rows[i]) && rows[i].address == address
            ==> rows[i].requestedAt <= last.value)
  {
    if rows == [] then None
    else
      var row := rows[|rows| - 1];
      var before := LastClaim(rows[..|rows| - 1], address);
      assert rows == rows[..|rows| - 1] + [row];
      if Counts(row) && row.address == address && (before.None? || before.value < row.requestedAt)
      then Some(row.requestedAt)
      else before
  }

  // The rows of a client that count and were requested in [from, from + length].
  ghost function Window(rows: seq<Row>, client: Client, from: nat, length: nat): set<ClaimId> {
    set i | 0 <= i < |rows| && IsHit(rows[i], client, from) && rows[i].requestedAt <= from + length
  }

  ghost function Since(rows: seq<Row>, client: Client, from: nat): set<ClaimId> {
    set i | 0 <= i < |rows| && IsHit(rows[i], client, from)
  }

  predicate IsHit(row: Row, client: Client, from: nat) {
    Counts(row) && row.client == client && from <= row.requestedAt
  }

  lemma SinceLast(rows: seq<Row>, client: Client, from: nat)
    requires rows != []
    ensures |Since(rows, client, from)| == |Since(rows[..|rows| - 1], client, from)|
                                           + if IsHit(rows[|rows| - 1], client, from) then 1 else 0
  {
    var n := |rows| - 1;
    var before := Since(rows[..n], client, from);
    if IsHit(rows[n], client, from) {
      assert Since(rows, client, from) == before + {n};
    } else {
      assert Since(rows, client, from) == before;
    }
  }

  // How many of them there are since `from`, with no upper end.
  function ClaimsSince(rows: seq<Row>, client: Client, from: nat): (count: nat)
    ensures count == |Since(rows, client, from)|
  {
    if rows == [] then 0
    else
      SinceLast(rows, client, from);
      ClaimsSince(rows[..|rows| - 1], client, from) + if IsHit(rows[|rows| - 1], client, from) then 1 else 0
  }

  ghost predicate Ascending(ids: seq<ClaimId>) {
    forall i, j :: 0 <= i < j < |ids| ==> ids[i] < ids[j]
  }

  // The queued rows, oldest first.
  function QueuedClaims(rows: seq<Row>): (ids: seq<ClaimId>)
    ensures Ascending(ids)
    ensures forall id: ClaimId :: id in ids <==> id < |rows| && rows[id].status.Queued?
  {
    if rows == [] then []
    else
      var n := |rows| - 1;
      var before := QueuedClaims(rows[..n]);
      assert forall i :: 0 <= i < |before| ==> before[i] in before;
      if rows[n].status.Queued? then before + [n] else before
  }

  // Total paid out.
  function SentTotal(rows: seq<Row>): nat {
    if rows == [] then 0
    else
      var row := rows[|rows| - 1];
      SentTotal(rows[..|rows| - 1]) + if row.status.Sent? then row.amount else 0
  }

  lemma {:induction false} SentTotalUpdate(rows: seq<Row>, id: ClaimId, row: Row)
    requires id < |rows| && !rows[id].status.Sent? && row.amount == rows[id].amount
    ensures SentTotal(rows[id := row]) == SentTotal(rows) + if row.status.Sent? then row.amount else 0
  {
    var n := |rows| - 1;
    if id == n {
      assert rows[id := row][..n] == rows[..n];
    } else {
      assert rows[id := row][..n] == rows[..n][id := row];
      SentTotalUpdate(rows[..n], id, row);
    }
  }
}
