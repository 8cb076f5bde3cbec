/** The two rate limits a claim is refused by, over whole seconds. */
module FaucetLimits {
  import opened Prelude
  import opened FaucetLedger

  datatype Refusal =
    | AddressCooldown(retryAfter: nat)
    | ClientLimit(limit: nat, retryAfter: nat)

  function Elapsed(now: nat, last: nat): nat {
    if now < last then 0 else now - last
  }

  function CheckCooldown(last: Option<nat>, cooldown: nat, now: nat): Option<Refusal> {
    if last.None? then None
    else if Elapsed(now, last.value) >= cooldown then None
    else Some(AddressCooldown(cooldown - Elapsed(now, last.value)))
  }

  function CheckClient(claims: nat, limit: nat, window: nat): Option<Refusal> {
    if claims < limit then None else Some(ClientLimit(limit, window))
  }

  // The start of a client's window, saturating at the epoch.
  function WindowStart(now: nat, window: nat): nat {
    if now < window then 0 else now - window
  }

  // An address refused at `now` that comes back exactly when it was told to is
  // let through if and only if its last claim is not ahead of the clock.
  lemma CooldownRetryIsHonest(last: nat, cooldown: nat, now: nat)
    requires CheckCooldown(Some(last), cooldown, now).Some?
    ensures
      var wait := CheckCooldown(Some(last), cooldown, now).value.retryAfter;
      && CheckCooldown(Some(last), cooldown, now).value.AddressCooldown? && 0 < wait <= cooldown
      && (CheckCooldown(Some(last), cooldown, now + wait).None? <==> last <= now)
      && forall at :: now <= at < now + wait ==> CheckCooldown(Some(last), cooldown, at).Some?
  {
  }

  // A client refused at `now` that comes back after the window it was told is
  // let through if and only if fewer than `limit` of its claims are dated
  // `now` or later: the window is closed at both ends.
  lemma ClientRetryIsHonest(rows: seq<Row>, client: Client, limit: nat, window: nat, now: nat)
    requires CheckClient(ClaimsSince(rows, client, WindowStart(now, window)), limit, window).Some?
    ensures CheckClient(ClaimsSince(rows, client, WindowStart(now, window)), limit, window)
         == Some(ClientLimit(limit := limit, retryAfter := window))
    ensures
      CheckClient(ClaimsSince(rows, client, WindowStart(now + window, window)), limit, window).None?
      <==> |Since(rows, client, now)| < limit
  {
  }
}
