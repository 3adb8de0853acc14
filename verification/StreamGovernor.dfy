/** The governor as it runs: loops over its clients in whatever order the map gives them. */
module StreamGovernors {
  import opened Options
  import opened Governors

  class StreamGovernor {
    var profile: nat
    var lastChange: Option<int>
    var settleUntil: Option<int>
    var clients: map<nat, Client>

    function State(): Governor
      reads this
    {
      Governor(profile, lastChange, settleUntil, clients)
    }

    constructor ()
      ensures State() == Initial
    {
      profile, lastChange, settleUntil, clients := 0, None, None, map[];
    }

    method Forget(id: nat)
      modifies this
      ensures State() == Remove(old(State()), id)
    {
      clients := clients - {id};
    }

    /** Clients not heard of for too long go. */
    method Purge(now: int)
      modifies this`clients
      ensures clients == Purged(old(clients), now)
    {
      var todo := clients.Keys;
      while todo != {}
        invariant todo <= old(clients).Keys
        invariant forall id :: id in clients <==> id in old(clients) && (id in todo || now - old(clients)[id].lastSeen <= SAMPLE_TTL)
        invariant forall id :: id in clients ==> clients[id] == old(clients)[id]
        decreases todo
      {
        var id :| id in todo;
        if now - clients[id].lastSeen > SAMPLE_TTL {
          clients := clients - {id};
        }
        todo := todo - {id};
      }
    }

    /** One function of the clients, applied to each in turn. */
    method ClearEvidence()
      modifies this`clients
      ensures clients == Cleared(old(clients))
    {
      var todo := clients.Keys;
      while todo != {}
        invariant todo <= clients.Keys == old(clients).Keys
        invariant forall id :: id in clients ==> clients[id] == if id in todo then old(clients)[id] else ClearedClient(old(clients)[id])
        decreases todo
      {
        var id :| id in todo;
        clients := clients[id := ClearedClient(clients[id])];
        todo := todo - {id};
      }
    }

    method SettleAfterDiscontinuity(now: int)
      modifies this
      ensures State() == Disturb(old(State()), now)
    {
      settleUntil := Some(now + PROFILE_SETTLE);
      var todo := clients.Keys;
      while todo != {}
        invariant profile == old(profile) && lastChange == old(lastChange) && settleUntil == Some(now + PROFILE_SETTLE)
        invariant todo <= clients.Keys == old(clients).Keys
        invariant forall id :: id in clients ==> clients[id] == if id in todo then old(clients)[id] else SettledClient(old(clients)[id])
        decreases todo
      {
        var id :| id in todo;
        clients := clients[id := SettledClient(clients[id])];
        todo := todo - {id};
      }
    }

    /** The loop over the clients. What it gives does not depend on the order. */
    method JudgeClients(now: int) returns (v: Verdict)
      ensures v == Judge(clients, now)
    {
      var severe, unhealthy, allStatic, allHealthy := false, false, clients != map[], clients != map[];
      var todo, done: set<nat> := clients.Keys, {};
      while todo != {}
        invariant todo + done == clients.Keys && todo !! done
        invariant severe <==> exists id :: id in done && SevereClient(clients[id])
        invariant unhealthy <==> exists id :: id in done && UnhealthyClient(clients[id])
        invariant allStatic <==> clients != map[] && forall id :: id in done ==> StaticClient(clients[id], now)
        invariant allHealthy <==> clients != map[] && forall id :: id in done ==> HealthyClient(clients[id], now)
        decreases todo
      {
        var id :| id in todo;
        if SevereClient(clients[id]) {
          severe := true;
        }
        if UnhealthyClient(clients[id]) {
          unhealthy := true;
        }
        if !StaticClient(clients[id], now) {
          allStatic := false;
        }
        if !HealthyClient(clients[id], now) {
          allHealthy := false;
        }
        todo, done := todo - {id}, done + {id};
      }
      assert done == clients.Keys;
      v := Verdict(severe, unhealthy, allStatic, allHealthy);
    }

    method Record(id: nat, now: int, stats: Stats)
      requires profile <= LAST_PROFILE
      modifies this`clients
      ensures clients == Reported(old(State()), id, now, stats)
    {
      Purge(now);
      var c := if id in clients then clients[id] else NewClient;
      c := c.(lastSeen := now);
      if settleUntil.Some? && now < settleUntil.value {
        clients := clients[id := WarmUp(c)];
      } else {
        clients := clients[id := Updated(c, now, Pressure(stats, profile))];
      }
    }

    /** observe: the new state, and so the profile, is a function of the state and the report. */
    method ObserveReport(id: nat, now: int, stats: Stats) returns (changed: bool)
      requires profile <= LAST_PROFILE
      modifies this
      ensures State() == Observe(old(State()), id, now, stats)
      ensures changed <==> profile != old(profile)
    {
      Record(id, now, stats);
      if settleUntil.Some? && now < settleUntil.value {
        return false;
      }
      var v := JudgeClients(now);
      var to := Chosen(State(), now, v);
      if to == profile {
        return false;
      }
      profile, lastChange, settleUntil := to, Some(now), Some(now + PROFILE_SETTLE);
      ClearEvidence();
      return true;
    }
  }
}
