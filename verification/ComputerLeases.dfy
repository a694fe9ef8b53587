/** Computers, their heartbeats and their leases. A lease is one object shared
    by the computer that holds it and the server's lease table: renewing it in
    one place renews it in the other. */
module ComputerLeases {
  const LEASE_SECONDS: int := 90
  const STALE_AFTER: int := 60
  const OFFLINE_AFTER: int := LEASE_SECONDS

  datatype Status = Unspecified | Online | Stale | Offline | Degraded

  /** A computer's status as seen at a given time. */
  function DerivedStatus(reported: Status, lastHeartbeat: int, now: int): Status {
    if lastHeartbeat <= 0 then reported
    else if now - lastHeartbeat >= OFFLINE_AFTER then Offline
    else if now - lastHeartbeat >= STALE_AFTER then Stale
    else if reported.Unspecified? || reported.Stale? || reported.Offline? then Online
    else reported
  }

  predicate Expired(expires: int, now: int) { now >= expires }

  function Decay(s: Status): nat {
    match s
    case Offline => 2
    case Stale => 1
    case _ => 0
  }

  /** A computer without a heartbeat is what it reports. With one it is offline from
      90 seconds on and stale from 60 on; before that it is Degraded if it says so, else online. */
  lemma StatusByAge(reported: Status, lastHeartbeat: int, now: int)
    ensures var status := DerivedStatus(reported, lastHeartbeat, now);
            if lastHeartbeat <= 0 then status == reported
            else if now >= lastHeartbeat + 90 then status == Offline
            else if now >= lastHeartbeat + 60 then status == Stale
            else status == if reported == Degraded then Degraded else Online
  {
  }

  /** Without a new heartbeat a computer only goes from fresh to stale to offline,
      even if a sync changes what it reports meanwhile; what it reports shows only while it is fresh. */
  lemma OnlyDecays(before: Status, after: Status, lastHeartbeat: int, earlier: int, later: int)
    requires lastHeartbeat > 0 && earlier <= later
    ensures var a, b := DerivedStatus(before, lastHeartbeat, earlier), DerivedStatus(after, lastHeartbeat, later);
            Decay(a) <= Decay(b) && (Decay(a) == Decay(b) && (Decay(a) > 0 || before == after) ==> a == b)
  {
  }

  /** If a lease runs out a fixed time after the heartbeat, a computer is
      offline exactly when it has run out, at all times, if and only if that time
      is the 90 seconds every heartbeat grants. */
  lemma OfflineIsExpiryIff(reported: Status, lastHeartbeat: int, expires: int)
    requires lastHeartbeat > 0
    ensures (forall now :: DerivedStatus(reported, lastHeartbeat, now) == Offline <==> Expired(expires, now)) <==>
            expires == lastHeartbeat + 90
  {
    if expires != lastHeartbeat + LEASE_SECONDS {
      var now := if expires < lastHeartbeat + LEASE_SECONDS then expires else lastHeartbeat + LEASE_SECONDS;
      assert !(DerivedStatus(reported, lastHeartbeat, now) == Offline <==> Expired(expires, now));
    }
  }

  class Lease {
    const id: string
    const resourceType: string
    var expires: int

    constructor (id: string, resourceType: string, ttl: int, now: int)
      ensures this.id == id && this.resourceType == resourceType
      ensures expires == now + if ttl <= 0 then 60 else ttl
    {
      this.id, this.resourceType := id, resourceType;
      expires := now + if ttl <= 0 then 60 else ttl;
    }
  }

  class Computer {
    var reported: Status
    var lease: Lease?
    var lastHeartbeat: int

    constructor (reported: Status, lease: Lease?, lastHeartbeat: int)
      ensures this.reported == reported && this.lease == lease && this.lastHeartbeat == lastHeartbeat
    {
      this.reported, this.lease, this.lastHeartbeat := reported, lease, lastHeartbeat;
    }

    /** The computer's part of a heartbeat: keeps the lease the caller names if
        it is this computer's, else takes a new one, and extends it either way. */
    method Beat(reported: Status, leaseId: string, now: int, freshId: string) returns (held: Lease)
      modifies this, if lease != null then {lease} else {}
      ensures this.reported == reported && lastHeartbeat == now
      ensures lease == held && held.expires == now + 90
      ensures if old(lease) != null && leaseId != "" && old(lease).id == leaseId
              then held == old(lease) else fresh(held) && held.id == freshId
    {
      this.reported := reported;
      lastHeartbeat := now;
      if lease == null || leaseId == "" || lease.id != leaseId {
        lease := new Lease(freshId, "computer", LEASE_SECONDS, now);
      }
      lease.expires := now + LEASE_SECONDS;
      held := lease;
    }
  }

  class LeaseServer {
    var computers: map<string, Computer>
    var leases: map<string, Lease>

    /** No two computers share their state, or their lease. */
    ghost predicate Separate()
      reads this, computers.Values
    {
      && (forall a, b :: a in computers && b in computers && a != b ==> computers[a] != computers[b])
      && (forall a, b :: a in computers && b in computers && a != b && computers[a].lease != null ==>
            computers[a].lease != computers[b].lease)
    }

    /** A computer has a lease exactly if it has a heartbeat, and the lease runs out 90 seconds after it. */
    ghost predicate LeaseFollowsHeartbeat(id: string)
      requires id in computers
      reads this, computers[id], computers[id].lease
    {
      var c := computers[id];
      if c.lease == null then c.lastHeartbeat == 0 else c.lastHeartbeat > 0 && c.lease.expires == c.lastHeartbeat + LEASE_SECONDS
    }

    ghost predicate Valid()
      reads this, computers.Values, set c | c in computers.Values && c.lease != null :: c.lease
    {
      && Separate()
      && (forall id :: id in computers ==> LeaseFollowsHeartbeat(id))
    }

    constructor ()
      ensures Valid() && computers == map[] && leases == map[]
    {
      computers, leases := map[], map[];
    }

    /** Offline and expired are the same thing for every computer that has a heartbeat. */
    lemma OfflineExactlyWhenExpired(id: string, now: int)
      requires Valid() && id in computers && computers[id].lastHeartbeat > 0
      ensures computers[id].lease != null
      ensures DerivedStatus(computers[id].reported, computers[id].lastHeartbeat, now) == Offline <==>
              Expired(computers[id].lease.expires, now)
    {
      assert LeaseFollowsHeartbeat(id);
      OfflineIsExpiryIff(computers[id].reported, computers[id].lastHeartbeat, computers[id].lease.expires);
    }

    method RegisterComputer(id: string, daemonId: string, reported: Status, now: int, freshId: string) returns (ok: bool)
      requires Valid() && now > 0
      modifies this
      ensures Valid() && ok == (id != "" && daemonId != "")
      ensures !ok ==> computers == old(computers) && leases == old(leases)
      ensures ok ==>
                && computers.Keys == old(computers).Keys + {id} && fresh(computers[id]) && fresh(computers[id].lease)
                && (forall other :: other in old(computers) && other != id ==> computers[other] == old(computers)[other])
                && computers[id].reported == reported && computers[id].lastHeartbeat == now
                && computers[id].lease.id == freshId && computers[id].lease.expires == now + 90
                && leases == old(leases)[freshId := computers[id].lease]
    {
      if id == "" || daemonId == "" {
        return false;
      }
      var lease := new Lease(freshId, "computer", LEASE_SECONDS, now);
      var computer := new Computer(reported, lease, now);
      computers := computers[id := computer];
      leases := leases[lease.id := lease];
      forall other | other in computers ensures LeaseFollowsHeartbeat(other) {
        assert other != id ==> old(LeaseFollowsHeartbeat(other));
      }
      ok := true;
    }

    /** Makes an unknown computer known, without a heartbeat or a lease. */
    method Ensure(id: string)
      requires Valid()
      modifies this`computers
      ensures Valid() && computers.Keys == old(computers).Keys + {id}
      ensures id in old(computers) ==> computers == old(computers)
      ensures id !in old(computers) ==> fresh(computers[id]) && computers == old(computers)[id := computers[id]]
      ensures id !in old(computers) ==> computers[id].lease == null && computers[id].lastHeartbeat == 0
    {
      if id !in computers {
        var unknown := new Computer(Unspecified, null, 0);
        computers := computers[id := unknown];
        assert forall other :: other in computers && other != id ==> old(LeaseFollowsHeartbeat(other));
      }
    }

    /** The rest of a heartbeat's lock hold, once the computer is in the table. */
    method HeartbeatKnown(id: string, reported: Status, leaseId: string, now: int, freshId: string)
      requires Valid() && now > 0 && id in computers
      modifies this`leases, computers[id], if computers[id].lease != null then {computers[id].lease} else {}
      ensures Valid()
      ensures computers[id].reported == reported && computers[id].lastHeartbeat == now
      ensures computers[id].lease != null && computers[id].lease.expires == now + 90
      ensures leases == old(leases)[computers[id].lease.id := computers[id].lease]
      ensures if old(computers[id].lease) != null && leaseId != "" && old(computers[id].lease).id == leaseId
              then computers[id].lease == old(computers[id].lease)
              else fresh(computers[id].lease) && computers[id].lease.id == freshId
    {
      var state := computers[id];
      var lease := state.Beat(reported, leaseId, now, freshId);
      leases := leases[lease.id := lease];
      forall other | other in computers && other != id ensures LeaseFollowsHeartbeat(other) {
        assert old(LeaseFollowsHeartbeat(other));
      }
    }

    /** After a heartbeat the lease the computer holds and the one in the table
        are the same object, running out 90 seconds from now. */
    method HeartbeatComputer(id: string, reported: Status, leaseId: string, now: int, freshId: string) returns (ok: bool)
      requires Valid() && now > 0
      modifies this, if id in computers then {computers[id]} else {},
               if id in computers && computers[id].lease != null then {computers[id].lease} else {}
      ensures Valid() && ok == (id != "")
      ensures !ok ==> computers == old(computers) && leases == old(leases)
      ensures ok ==>
                && computers.Keys == old(computers).Keys + {id}
                && (forall other :: other in old(computers) ==> computers[other] == old(computers)[other])
                && computers[id].reported == reported && computers[id].lastHeartbeat == now
                && computers[id].lease != null && computers[id].lease.expires == now + 90
                && leases == old(leases)[computers[id].lease.id := computers[id].lease]
      ensures ok ==>
                if id in old(computers) && old(computers[id].lease) != null && leaseId != "" && old(computers[id].lease).id == leaseId
                then computers[id].lease == old(computers[id].lease)
                else fresh(computers[id].lease) && computers[id].lease.id == freshId
    {
      if id == "" {
        return false;
      }
      Ensure(id);
      HeartbeatKnown(id, reported, leaseId, now, freshId);
      ok := true;
    }

    method Report(id: string, reported: Status)
      requires Valid() && id in computers
      modifies computers[id]
      ensures Valid() && computers[id].reported == reported
      ensures computers[id].lease == old(computers[id].lease) && computers[id].lastHeartbeat == old(computers[id].lastHeartbeat)
    {
      computers[id].reported := reported;
      forall other | other in computers ensures LeaseFollowsHeartbeat(other) {
        assert old(LeaseFollowsHeartbeat(other));
      }
    }

    method SyncComputerInventory(id: string, reported: Status) returns (ok: bool)
      requires Valid()
      modifies this, if id in computers then {computers[id]} else {}
      ensures Valid() && leases == old(leases) && ok == (id != "")
      ensures !ok ==> computers == old(computers)
      ensures ok ==> computers.Keys == old(computers).Keys + {id} && computers[id].reported == reported
      ensures forall other :: other in old(computers) ==> computers[other] == old(computers)[other]
      ensures ok ==>
                if id in old(computers)
                then computers[id].lease == old(computers[id].lease) && computers[id].lastHeartbeat == old(computers[id].lastHeartbeat)
                else computers[id].lease == null && computers[id].lastHeartbeat == 0
    {
      if id == "" {
        return false;
      }
      Ensure(id);
      Report(id, reported);
      ok := true;
    }

    method AcquireStartPermit(computerId: string, agentId: string, ttlSeconds: nat, now: int, freshId: string)
      returns (lease: Lease?)
      requires Valid()
      modifies this`leases
      ensures Valid() && (lease == null <==> computerId == "" || agentId == "")
      ensures lease == null ==> leases == old(leases)
      ensures lease != null ==> fresh(lease) && lease.id == freshId && leases == old(leases)[freshId := lease]
      ensures lease != null ==> lease.expires == now + if ttlSeconds == 0 then 60 else ttlSeconds
    {
      if computerId == "" || agentId == "" {
        return null;
      }
      lease := new Lease(freshId, "start_permit", if ttlSeconds == 0 then 60 else ttlSeconds, now);
      leases := leases[lease.id := lease];
    }

    /** Deletes by id, whatever kind of lease the id names. */
    method ReleaseStartPermit(leaseId: string)
      requires Valid()
      modifies this`leases
      ensures Valid() && leases == old(leases) - {leaseId}
    {
      leases := leases - {leaseId};
    }

    /** Extends the object the table holds. If that is some computer's lease, the computer's expiry moves too. */
    method RenewRunLease(runId: string, leaseId: string, ttlSeconds: nat, now: int) returns (accepted: bool)
      requires Valid()
      modifies if leaseId in leases then {leases[leaseId]} else {}
      ensures accepted == (runId != "" && leaseId != "" && leaseId in leases)
      ensures accepted ==> leases[leaseId].expires == now + if ttlSeconds == 0 then 300 else ttlSeconds
      ensures Valid() <==> !accepted || (forall id :: id in computers && computers[id].lease == leases[leaseId] ==>
                             leases[leaseId].expires == computers[id].lastHeartbeat + LEASE_SECONDS)
    {
      if runId == "" || leaseId == "" || leaseId !in leases {
        return false;
      }
      var lease := leases[leaseId];
      lease.expires := now + if ttlSeconds == 0 then 300 else ttlSeconds;
      accepted := true;
      assert forall id :: id in computers ==> old(LeaseFollowsHeartbeat(id));
      assert forall id :: id in computers && computers[id].lease != lease ==> LeaseFollowsHeartbeat(id);
    }
  }

  /** A computer registers, and its lease is renewed as if it were a run's: 90
      seconds later it is offline and its lease has 210 seconds to go. */
  method RenewedAsRun(id: string, daemonId: string, leaseId: string, now: int) returns (server: LeaseServer, later: int)
    requires id != "" && daemonId != "" && leaseId != "" && now > 0
    ensures fresh(server) && id in server.computers && server.computers[id].lease != null
    ensures DerivedStatus(server.computers[id].reported, server.computers[id].lastHeartbeat, later) == Offline
    ensures !Expired(server.computers[id].lease.expires, later)
    ensures !server.Valid()
  {
    server := new LeaseServer();
    var ok := server.RegisterComputer(id, daemonId, Online, now, leaseId);
    var accepted := server.RenewRunLease("run", leaseId, 300, now);
    later := now + LEASE_SECONDS;
    assert !server.LeaseFollowsHeartbeat(id);
  }
}
