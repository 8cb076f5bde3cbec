/**
 The endpoint's two claims on a connection: one of all the slots, and one of
 its address's own. The accept loop takes them in that order and a connection
 that ends gives them back in the other, so the two tables are briefly apart.
 */
module ConnectionSlots {
  type Ip = nat

  class Endpoint {
    const maxConnections: nat
    const maxPerIp: nat

    var permits: nat
    var perIp: map<Ip, nat>

    // The connections that hold an address claim, by address, and those that
    // hold only a permit: being accepted, or gone from the address table.
    ghost var claimed: multiset<Ip>
    ghost var bare: nat

    ghost predicate Valid()
      reads this
    {
      && permits + |claimed| + bare == maxConnections
      && (forall ip :: Held(ip) == claimed[ip] <= maxPerIp)
      && (maxPerIp > 0 ==> forall ip :: ip in perIp ==> perIp[ip] > 0)
    }

    function Held(ip: Ip): nat
      reads this
    {
      if ip in perIp then perIp[ip] else 0
    }

    constructor (maxConnections: nat, maxPerIp: nat)
      ensures Valid() && claimed == multiset{} && bare == 0
      ensures this.maxConnections == maxConnections && this.maxPerIp == maxPerIp
    {
      this.maxConnections, this.maxPerIp := maxConnections, maxPerIp;
      permits, perIp, claimed, bare := maxConnections, map[], multiset{}, 0;
    }

    // The accept loop's first claim.
    method TryAcquire() returns (ok: bool)
      requires Valid()
      modifies this`permits, this`bare
      ensures Valid()
      ensures ok <==> |claimed| + old(bare) < maxConnections
      ensures bare == old(bare) + if ok then 1 else 0
    {
      ok := permits > 0;
      if ok {
        permits, bare := permits - 1, bare + 1;
      }
    }

    // The second. A zero entry is left behind only where no claim is allowed
    // at all.
    method Claim(ip: Ip) returns (ok: bool)
      requires Valid() && bare > 0
      modifies this`perIp, this`claimed, this`bare
      ensures Valid()
      ensures ok <==> old(claimed)[ip] < maxPerIp
      ensures claimed == if ok then old(claimed) + multiset{ip} else old(claimed)
      ensures bare == if ok then old(bare) - 1 else old(bare)
      ensures !ok && ip !in old(perIp) ==> maxPerIp == 0
      ensures maxPerIp == 0 ==> ip in perIp && perIp[ip] == 0
    {
      if ip !in perIp {
        perIp := perIp[ip := 0];
      }
      if perIp[ip] >= maxPerIp {
        return false;
      }
      perIp := perIp[ip := perIp[ip] + 1];
      claimed, bare := claimed + multiset{ip}, bare - 1;
      return true;
    }

    // Giving the address claim back.
    method DropClaim(ip: Ip)
      requires Valid() && ip in claimed
      modifies this`perIp, this`claimed, this`bare
      ensures Valid()
      ensures claimed == old(claimed) - multiset{ip} && bare == old(bare) + 1
      ensures ip in perIp <==> ip in claimed
    {
      if ip in perIp {
        var count := if perIp[ip] > 0 then perIp[ip] - 1 else 0;
        perIp := if count == 0 then perIp - {ip} else perIp[ip := count];
      }
      claimed, bare := claimed - multiset{ip}, bare + 1;
    }

    // Giving the permit back, refused or served.
    method DropPermit()
      requires Valid() && bare > 0
      modifies this`permits, this`bare
      ensures Valid() && bare == old(bare) - 1
    {
      permits, bare := permits + 1, bare - 1;
    }

    // One turn of the accept loop: a refusal for either reason holds nothing.
    method Accept(ip: Ip) returns (ok: bool)
      requires Valid()
      modifies this
      ensures Valid() && bare == old(bare)
      ensures ok <==> |old(claimed)| + old(bare) < maxConnections && old(claimed)[ip] < maxPerIp
      ensures claimed == if ok then old(claimed) + multiset{ip} else old(claimed)
    {
      var slot := TryAcquire();
      if !slot {
        return false;
      }
      ok := Claim(ip);
      if !ok {
        DropPermit();
      }
    }

    // The end of a connection: an address's entry goes with its last one.
    method Close(ip: Ip)
      requires Valid() && ip in claimed
      modifies this
      ensures Valid() && bare == old(bare)
      ensures claimed == old(claimed) - multiset{ip}
      ensures ip in perIp <==> ip in claimed
    {
      DropClaim(ip);
      DropPermit();
    }
  }
}
