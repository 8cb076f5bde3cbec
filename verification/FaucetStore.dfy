/**
 The ledger as the process holds it, with each update specified by what it does
 to the answers of the queries: the limits, the queue to recover and the total.
 */
module FaucetStore {
  import opened Prelude
  import opened FaucetLedger

  ghost predicate SameLimits(rows: seq<Row>, rows': seq<Row>) {
    && (forall address :: LastClaim(rows', address) == LastClaim(rows, address))
    && (forall client, from :: ClaimsSince(rows', client, from) == ClaimsSince(rows, client, from))
  }

  // Every window of the client that the time is in has one claim more.
  ghost predicate OneMoreClaim(rows: seq<Row>, rows': seq<Row>, client: Client, now: nat) {
    forall c: Client, from: nat ::
      ClaimsSince(rows', c, from) == ClaimsSince(rows, c, from) + (if c == client && from <= now then 1 else 0)
  }

  // Writing over a row's outcome alone leaves the limits as they were.
  predicate SameClaim(row: Row, row': Row) {
    row'.address == row.address && row'.client == row.client && row'.requestedAt == row.requestedAt
    && Counts(row') == Counts(row)
  }

  lemma SameClaimKeepsLimits(rows: seq<Row>, id: ClaimId, row: Row)
    requires id < |rows| && SameClaim(rows[id], row)
    ensures SameLimits(rows, rows[id := row])
  {
    forall address ensures LastClaim(rows[id := row], address) == LastClaim(rows, address) {
      SameLast(rows, id, row, address);
    }
    forall client, from ensures ClaimsSince(rows[id := row], client, from) == ClaimsSince(rows, client, from) {
      assert Since(rows[id := row], client, from) == Since(rows, client, from);
    }
  }

  lemma {:induction false} SameLast(rows: seq<Row>, id: ClaimId, row: Row, address: Address)
    requires id < |rows| && SameClaim(rows[id], row)
    ensures LastClaim(rows[id := row], address) == LastClaim(rows, address)
  {
    var n := |rows| - 1;
    if id == n {
      assert rows[id := row][..n] == rows[..n];
    } else {
      assert rows[id := row][..n] == rows[..n][id := row];
      SameLast(rows[..n], id, row, address);
    }
  }

  class Store {
    var rows: seq<Row>

    constructor (saved: seq<Row>)
      ensures rows == saved
    {
      rows := saved;
    }

    // A new row is queued, and is one more claim of its address and client.
    method RecordQueued(address: Address, client: Client, amount: nat, now: nat) returns (id: ClaimId)
      modifies this
      ensures id == |old(rows)| && rows == old(rows) + [NewRow(address, client, amount, now)]
      ensures var last := LastClaim(old(rows), address);
        LastClaim(rows, address) == if last.Some? && last.value > now then last else Some(now)
      ensures forall other :: other != address ==> LastClaim(rows, other) == LastClaim(old(rows), other)
      ensures OneMoreClaim(old(rows), rows, client, now)
      ensures QueuedClaims(rows) == QueuedClaims(old(rows)) + [id] && SentTotal(rows) == SentTotal(old(rows))
    {
      id := |rows|;
      ghost var before := rows;
      rows := rows + [NewRow(address, client, amount, now)];
      assert rows[..|rows| - 1] == before;
    }

    // The submitted mark changes no answer but the one recovery asks for.
    method Submitted(id: ClaimId, now: nat)
      modifies this
      ensures rows == MarkSubmitted(old(rows), id, now)
      ensures SameLimits(old(rows), rows) && SentTotal(rows) == SentTotal(old(rows))
    {
      if id < |rows| {
        ghost var row := rows[id].(submittedAt := Some(now));
        SameClaimKeepsLimits(rows, id, row);
        SameTotal(rows, id, row);
        rows := rows[id := rows[id].(submittedAt := Some(now))];
      }
    }

    // A queued row that is sent goes on counting, and is paid once.
    method Sent(id: ClaimId, includedAt: nat, now: nat)
      modifies this
      ensures rows == MarkSent(old(rows), id, includedAt, now)
      ensures id < |old(rows)| && old(rows)[id].status.Queued? ==>
        && SameLimits(old(rows), rows) && id !in QueuedClaims(rows)
        && SentTotal(rows) == SentTotal(old(rows)) + old(rows)[id].amount
    {
      if id < |rows| {
        ghost var row := rows[id].(status := Status.Sent, includedAt := Some(includedAt), settledAt := Some(now));
        if rows[id].status.Queued? {
          SameClaimKeepsLimits(rows, id, row);
          SentTotalUpdate(rows, id, row);
        }
        rows := rows[id := rows[id].(status := Status.Sent, includedAt := Some(includedAt), settledAt := Some(now))];
      }
    }

    // A queued row that fails is never paid, and stops counting unless the
    // faucet was interrupted in the middle of it.
    method Failed(id: ClaimId, reason: Reason, now: nat)
      modifies this
      ensures rows == MarkFailed(old(rows), id, reason, now)
      ensures id < |old(rows)| && old(rows)[id].status.Queued? ==>
        && id !in QueuedClaims(rows) && SentTotal(rows) == SentTotal(old(rows))
        && (if reason == Interrupted then SameLimits(old(rows), rows) else !Counts(rows[id]))
    {
      if id < |rows| {
        ghost var row := rows[id].(status := Status.Failed, detail := Some(reason), settledAt := Some(now));
        if rows[id].status.Queued? {
          if reason == Interrupted {
            SameClaimKeepsLimits(rows, id, row);
          }
          SentTotalUpdate(rows, id, row);
        }
        rows := rows[id := rows[id].(status := Status.Failed, detail := Some(reason), settledAt := Some(now))];
      }
    }
  }

  lemma {:induction false} SameTotal(rows: seq<Row>, id: ClaimId, row: Row)
    requires id < |rows| && row.status == rows[id].status && row.amount == rows[id].amount
    ensures SentTotal(rows[id := row]) == SentTotal(rows)
  {
    var n := |rows| - 1;
    if id == n {
      assert rows[id := row][..n] == rows[..n];
    } else {
      assert rows[id := row][..n] == rows[..n][id := row];
      SameTotal(rows[..n], id, row);
    }
  }
}
