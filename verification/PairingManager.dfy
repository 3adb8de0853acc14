/** The manager whose maps the operations of `Pairing` change. */
module PairingManagers {
  import opened Options
  import opened Pairing

  class PairingManager {
    var devices: map<nat, nat>
    var candidates: map<nat, Candidate>
    var challenges: map<nat, Challenge>
    var tickets: map<nat, Ticket>
    var pairing: Option<Session>
    ghost var pending: map<nat, (nat, nat)>
    var next: nat

    ghost function State(): Manager
      reads this
    {
      Manager(devices, candidates, challenges, tickets, pairing, pending, next)
    }

    constructor (devices: map<nat, nat>)
      ensures State() == Start(devices)
    {
      this.devices := devices;
      candidates, challenges, tickets, pairing, next := map[], map[], map[], None, 0;
      pending := map[];
    }

    /** pruneLocked. */
    method Prune(now: int)
      modifies this`candidates, this`challenges, this`tickets
      ensures State() == Pruned(old(State()), now)
    {
      PruneCandidates(now);
      var todo := challenges.Keys;
      while todo != {}
        invariant todo <= old(challenges).Keys && tickets == old(tickets) && candidates == Pruned(old(State()), now).candidates
        invariant forall id :: id in challenges <==> id in old(challenges) && (id in todo || now <= old(challenges)[id].expires)
        invariant forall id :: id in challenges ==> challenges[id] == old(challenges)[id]
        decreases todo
      {
        var id :| id in todo;
        if now > challenges[id].expires {
          challenges := challenges - {id};
        }
        todo := todo - {id};
      }
      assert challenges == Pruned(old(State()), now).challenges;
      todo := tickets.Keys;
      while todo != {}
        invariant todo <= old(tickets).Keys && State().(tickets := old(tickets)) == Pruned(old(State()), now).(tickets := old(tickets))
        invariant forall id :: id in tickets <==> id in old(tickets) && (id in todo || now <= old(tickets)[id].expires)
        invariant forall id :: id in tickets ==> tickets[id] == old(tickets)[id]
        decreases todo
      {
        var id :| id in todo;
        if now > tickets[id].expires {
          tickets := tickets - {id};
        }
        todo := todo - {id};
      }
    }

    method PruneCandidates(now: int)
      modifies this`candidates
      ensures candidates == Pruned(old(State()), now).candidates
    {
      var todo := candidates.Keys;
      while todo != {}
        invariant todo <= old(candidates).Keys
        invariant forall id :: id in candidates <==>
                    id in old(candidates) && (id in todo || !(old(candidates)[id].paired && now - old(candidates)[id].completedAt > COMPLETED_TTL))
        invariant forall id :: id in candidates ==> candidates[id] == old(candidates)[id]
        decreases todo
      {
        var id :| id in todo;
        if candidates[id].paired && now - candidates[id].completedAt > COMPLETED_TTL {
          candidates := candidates - {id};
        }
        todo := todo - {id};
      }
    }

    method Open()
      modifies this
      ensures State() == OpenPairing(old(State())).manager
    {
      var todo := candidates.Keys;
      while todo != {}
        invariant todo <= old(candidates).Keys && State() == old(State()).(candidates := candidates)
        invariant forall id :: id in candidates <==> id in old(candidates) && (id in todo || old(candidates)[id].paired)
        invariant forall id :: id in candidates ==> candidates[id] == old(candidates)[id]
        decreases todo
      {
        var id :| id in todo;
        if !candidates[id].paired {
          candidates := candidates - {id};
        }
        todo := todo - {id};
      }
      pairing := Some(Session(next, 0, None));
      next := next + 1;
    }

    method DropSession()
      requires pairing.Some?
      modifies this`candidates, this`pairing
      ensures State() == WithoutSession(old(State()))
    {
      var c := pairing.value.candidate;
      if c.Some? && c.value in candidates && !candidates[c.value].paired {
        candidates := candidates - {c.value};
      }
      pairing := None;
    }

    method Close() returns (reply: Reply)
      modifies this
      ensures Result(State(), reply, []) == ClosePairing(old(State()))
    {
      if pairing.None? {
        return NotOk;
      }
      DropSession();
      return Okay;
    }

    method Request(device: nat, key: nat, credential: bool, now: int) returns (reply: Reply)
      modifies this
      ensures Result(State(), reply, []) == RequestPair(old(State()), device, key, credential, now)
    {
      Prune(now);
      if pairing.None? {
        return ErrClosed;
      }
      var session := pairing.value;
      if !credential {
        if session.attempts + 1 >= MAX_ATTEMPTS {
          DropSession();
          return ErrLocked;
        }
        pairing := Some(session.(attempts := session.attempts + 1));
        return ErrCode;
      }
      if session.candidate.Some? {
        var id := session.candidate.value;
        return if id in candidates && candidates[id].device == device then Okay else ErrUsed;
      }
      if device in devices {
        return ErrAlreadyPaired;
      }
      candidates := candidates[next := Candidate(device, key, session.id, false, 0)];
      pairing := Some(session.(candidate := Some(next)));
      next := next + 1;
      return Okay;
    }

    method Confirm(id: nat, now: int, saved: bool) returns (reply: Reply, ghost events: seq<Event>)
      modifies this
      ensures Result(State(), reply, events) == ConfirmPair(old(State()), id, now, saved)
    {
      events := [];
      Prune(now);
      if id !in candidates {
        return ErrNotFound, events;
      }
      var c := candidates[id];
      if c.paired {
        return Okay, events;
      }
      candidates := candidates[id := c.(paired := true, completedAt := now)];
      devices := devices[c.device := c.key];
      if !saved {
        candidates := candidates[id := c];
        devices := devices - {c.device};
        assert candidates == Pruned(old(State()), now).candidates;
        assert devices == old(devices) - {c.device};
        return ErrSave, events;
      }
      if pairing.Some? && pairing.value.id == c.session {
        pairing := None;
      }
      return Okay, [Paired(c.session, c.device)];
    }

    method Reject(id: nat) returns (reply: Reply)
      modifies this
      ensures Result(State(), reply, []) == RejectPair(old(State()), id)
    {
      if id !in candidates || candidates[id].paired {
        return NotOk;
      }
      var session := candidates[id].session;
      candidates := candidates - {id};
      if pairing.Some? && pairing.value.id == session {
        pairing := None;
      }
      return Okay;
    }

    method Ack(id: nat) returns (reply: Reply)
      modifies this
      ensures Result(State(), reply, []) == AckPair(old(State()), id)
    {
      if id !in candidates || !candidates[id].paired {
        return NotOk;
      }
      candidates := candidates - {id};
      return Okay;
    }

    method RevokeDevice(device: nat, saved: bool) returns (reply: Reply, ghost events: seq<Event>)
      modifies this
      ensures Result(State(), reply, events) == Revoke(old(State()), device, saved)
    {
      events := [];
      if device !in devices {
        return NotOk, events;
      }
      var todo := challenges.Keys;
      while todo != {}
        invariant todo <= old(challenges).Keys && State() == old(State()).(challenges := challenges)
        invariant forall id :: id in challenges <==> id in old(challenges) && (id in todo || old(challenges)[id].device != device)
        invariant forall id :: id in challenges ==> challenges[id] == old(challenges)[id]
        decreases todo
      {
        var id :| id in todo;
        if challenges[id].device == device {
          challenges := challenges - {id};
        }
        todo := todo - {id};
      }
      ghost var kept := challenges;
      todo := tickets.Keys;
      while todo != {}
        invariant todo <= old(tickets).Keys && State() == old(State()).(challenges := kept, tickets := tickets)
        invariant forall id :: id in tickets <==> id in old(tickets) && (id in todo || old(tickets)[id].device != device)
        invariant forall id :: id in tickets ==> tickets[id] == old(tickets)[id]
        decreases todo
      {
        var id :| id in todo;
        if tickets[id].device == device {
          tickets := tickets - {id};
        }
        todo := todo - {id};
      }
      if !saved {
        return NotOk, events;
      }
      devices := devices - {device};
      return Okay, [Revoked(device)];
    }

    method Challenge(device: nat, now: int) returns (reply: Reply)
      modifies this
      ensures Result(State(), reply, []) == NewChallenge(old(State()), device, now)
    {
      Prune(now);
      if device !in devices {
        return ErrUnknown;
      }
      challenges := challenges[next := Pairing.Challenge(device, now + CHALLENGE_TTL)];
      next := next + 1;
      return Okay;
    }

    /** CompleteChallenge up to where the lock is given up for the signature check. */
    method Take(id: nat, now: int) returns (reply: Reply, device: nat, key: nat)
      modifies this
      ensures Result(State(), reply, []) == TakeChallenge(old(State()), id, now)
      ensures reply == Okay ==> id in pending && pending[id] == (device, key)
    {
      device, key := 0, 0;
      if id !in challenges || now > challenges[id].expires {
        challenges := challenges - {id};
        return ErrExpired, device, key;
      }
      device := challenges[id].device;
      challenges := challenges - {id};
      if device !in devices {
        return ErrUnknown, device, key;
      }
      key := devices[device];
      pending := pending[id := (device, key)];
      return Okay, device, key;
    }

    /** CompleteChallenge from there on. */
    method Finish(id: nat, device: nat, key: nat, signature: bool) returns (reply: Reply, ghost events: seq<Event>)
      requires id in pending && pending[id] == (device, key)
      modifies this
      ensures Result(State(), reply, events) == FinishChallenge(old(State()), id, signature)
    {
      events := [];
      pending := pending - {id};
      if !signature {
        return ErrSignature, events;
      }
      if device !in devices || devices[device] != key {
        return ErrUnknown, events;
      }
      var todo := candidates.Keys;
      while todo != {}
        invariant todo <= old(candidates).Keys && State() == old(State()).(pending := pending, candidates := candidates)
        invariant pending == old(pending) - {id}
        invariant forall c :: c in candidates <==>
                    c in old(candidates) && (c in todo || !(old(candidates)[c].device == device && old(candidates)[c].paired))
        invariant forall c :: c in candidates ==> candidates[c] == old(candidates)[c]
        decreases todo
      {
        var c :| c in todo;
        if candidates[c].device == device && candidates[c].paired {
          candidates := candidates - {c};
        }
        todo := todo - {c};
      }
      return Okay, [Passed(id, device)];
    }

    method WSTicket(device: nat, now: int)
      modifies this
      ensures State() == IssueTicket(old(State()), device, now).manager
    {
      tickets := tickets[next := Ticket(device, now + TICKET_TTL)];
      next := next + 1;
    }

    method VerifyWSTicket(id: nat, now: int) returns (reply: Reply, ghost events: seq<Event>)
      modifies this
      ensures Result(State(), reply, events) == VerifyTicket(old(State()), id, now)
    {
      events := [];
      Prune(now);
      var known := id in tickets && tickets[id].device in devices;
      var device := if known then tickets[id].device else 0;
      tickets := tickets - {id};
      if !known {
        return NotOk, events;
      }
      return Okay, [Admitted(id, device)];
    }
  }
}
