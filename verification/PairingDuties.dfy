/**
  * What the pairing manager's operations answer and leave behind, in every case, and what
  * that comes to over whole runs: how many wrong guesses a session survives, and how long a
  * completed pairing stays to be seen.
  */
module PairingDuties {
  import opened Options
  import opened Pairing
  import opened PairingRevocations

  // ---- Sessions and candidates -----------------------------------------------------------------------

  /** Everything but the session and the candidates is as it was. */
  predicate ElseSame(m: Manager, m': Manager) {
    m'.devices == m.devices && m'.challenges == m.challenges && m'.tickets == m.tickets && m'.pending == m.pending
  }

  /** Completed candidates are as they were, and there are no others. */
  ghost predicate OnlyCompleted(m: Manager, m': Manager) {
    && (forall c :: c in m'.candidates <==> c in m.candidates && m.candidates[c].paired)
    && (forall c :: c in m'.candidates ==> m'.candidates[c] == m.candidates[c])
  }

  /** Opening pairing starts a new session and gives up whatever was asked for in another. */
  lemma OpenLeaves(m: Manager)
    ensures var r := Perform(m, DoOpen);
            && r.reply == Okay && r.manager.pairing == Some(Session(m.next, 0, None)) && r.manager.next == m.next + 1
            && OnlyCompleted(m, r.manager) && ElseSame(m, r.manager)
  {
  }

  /** So does closing it, but for the new session. */
  lemma CloseLeaves(m: Manager)
    requires Shape(m)
    ensures var r := Perform(m, DoClose);
            if m.pairing.None? then r == Quiet(m, NotOk)
            else r.reply == Okay && r.manager.pairing == None && OnlyCompleted(m, r.manager) && ElseSame(m, r.manager)
  {
    forall c | c in m.candidates ensures CandidateOk(m, c) {
    }
  }

  /** A wrong credential is counted, and the fifth closes the session. */
  lemma WrongRequestLeaves(m: Manager, device: nat, key: nat, now: int)
    requires Shape(m) && m.pairing.Some?
    ensures var p, r := Pruned(m, now), Perform(m, DoRequest(device, key, false, now));
            var session := m.pairing.value;
            if session.attempts < 4 then
              r.reply == ErrCode && r.manager == p.(pairing := Some(Session(session.id, session.attempts + 1, session.candidate)))
            else r.reply == ErrLocked && r.manager.pairing == None && OnlyCompleted(p, r.manager) && ElseSame(p, r.manager)
  {
    PrunedKeeps(m, now);
    CloseLeaves(Pruned(m, now));
  }

  /** The right one is good for one device: the first, unless it is paired already. */
  lemma RightRequestLeaves(m: Manager, device: nat, key: nat, now: int)
    requires m.pairing.Some?
    ensures var p, r := Pruned(m, now), Perform(m, DoRequest(device, key, true, now));
            var session := m.pairing.value;
            if session.candidate.Some? then
              && r.manager == p
              && r.reply == if session.candidate.value in p.candidates && p.candidates[session.candidate.value].device == device then Okay else ErrUsed
            else if device in m.devices then r == Quiet(p, ErrAlreadyPaired)
            else
              && r.reply == Okay && ElseSame(p, r.manager) && r.manager.pairing == Some(Session(session.id, session.attempts, Some(m.next)))
              && r.manager.candidates == p.candidates[m.next := Candidate(device, key, session.id, false, 0)]
              && r.manager.next == m.next + 1
  {
  }

  lemma ClosedRequestLeaves(m: Manager, device: nat, key: nat, credential: bool, now: int)
    requires m.pairing.None?
    ensures Perform(m, DoRequest(device, key, credential, now)) == Quiet(Pruned(m, now), ErrClosed)
  {
  }

  /** A confirmation pairs the candidate's device and closes the session; when the registry cannot be written, nothing has happened. */
  lemma ConfirmLeaves(m: Manager, id: nat, now: int, saved: bool)
    requires Shape(m)
    ensures var p, r := Pruned(m, now), Perform(m, DoConfirm(id, now, saved));
            if id !in p.candidates then r == Quiet(p, ErrNotFound)
            else if p.candidates[id].paired then r == Quiet(p, Okay)
            else if !saved then r == Quiet(p, ErrSave)
            else
              var c := p.candidates[id];
              && r.reply == Okay && r.events == [Paired(c.session, c.device)] && r.manager.pairing == None
              && r.manager.devices == p.devices[c.device := c.key]
              && r.manager.candidates == p.candidates[id := Candidate(c.device, c.key, c.session, true, now)]
              && r.manager.challenges == p.challenges && r.manager.tickets == p.tickets && r.manager.pending == p.pending
  {
    PrunedKeeps(m, now);
    var p := Pruned(m, now);
    if id in p.candidates {
      assert CandidateOk(p, id);
      assert p.candidates[id].device !in p.devices ==> p.devices - {p.candidates[id].device} == p.devices;
    }
  }

  lemma RejectLeaves(m: Manager, id: nat)
    requires Shape(m)
    ensures var r := Perform(m, DoReject(id));
            if id !in m.candidates || m.candidates[id].paired then r == Quiet(m, NotOk)
            else r.reply == Okay && r.manager.pairing == None && r.manager.candidates == m.candidates - {id} && ElseSame(m, r.manager)
  {
    if id in m.candidates {
      assert CandidateOk(m, id);
    }
  }

  lemma AckLeaves(m: Manager, id: nat)
    ensures var r := Perform(m, DoAck(id));
            if id in m.candidates && m.candidates[id].paired then r == Quiet(m.(candidates := m.candidates - {id}), Okay)
            else r == Quiet(m, NotOk)
  {
  }

  /** What is too old when everything is looked through: a pairing completed ten minutes ago, a challenge or a ticket that has expired. */
  lemma PrunedLeaves(m: Manager, now: int)
    ensures var p := Pruned(m, now);
            && p.devices == m.devices && p.pairing == m.pairing && p.pending == m.pending && p.next == m.next
            && (forall c :: c in p.candidates <==> c in m.candidates && (!m.candidates[c].paired || now <= m.candidates[c].completedAt + 600_000))
            && (forall c :: c in p.challenges <==> c in m.challenges && now <= m.challenges[c].expires)
            && (forall t :: t in p.tickets <==> t in m.tickets && now <= m.tickets[t].expires)
            && (forall c :: c in p.candidates ==> p.candidates[c] == m.candidates[c])
            && (forall c :: c in p.challenges ==> p.challenges[c] == m.challenges[c])
            && (forall t :: t in p.tickets ==> p.tickets[t] == m.tickets[t])
  {
  }

  // ---- Devices, challenges and tickets ----------------------------------------------------------------

  /** A revocation ends every challenge and ticket of the device and no other; the device itself goes when the registry can be written. */
  lemma RevokeLeaves(m: Manager, device: nat, saved: bool)
    ensures var r := Perform(m, DoRevoke(device, saved));
            if device !in m.devices then r == Quiet(m, NotOk)
            else
              && r.reply == (if saved then Okay else NotOk) && r.events == (if saved then [Revoked(device)] else [])
              && r.manager.devices == (if saved then m.devices - {device} else m.devices)
              && r.manager.candidates == m.candidates && r.manager.pairing == m.pairing && r.manager.pending == m.pending
              && (forall c :: c in r.manager.challenges <==> c in m.challenges && m.challenges[c].device != device)
              && (forall t :: t in r.manager.tickets <==> t in m.tickets && m.tickets[t].device != device)
              && (forall c :: c in r.manager.challenges ==> r.manager.challenges[c] == m.challenges[c])
              && (forall t :: t in r.manager.tickets ==> r.manager.tickets[t] == m.tickets[t])
  {
  }

  lemma ChallengeLeaves(m: Manager, device: nat, now: int)
    ensures var p, r := Pruned(m, now), Perform(m, DoNewChallenge(device, now));
            if device !in m.devices then r == Quiet(p, ErrUnknown)
            else
              r.reply == Okay && r.events == [] && r.manager.next == m.next + 1
              && r.manager == p.(challenges := p.challenges[m.next := Challenge(device, now + 30_000)], next := m.next + 1)
  {
  }

  /** A challenge is gone once it is looked at, whatever comes of it. */
  lemma TakeLeaves(m: Manager, id: nat, now: int)
    ensures var r := Perform(m, DoTake(id, now));
            && r.events == [] && r.manager.challenges == m.challenges - {id}
            && (r.reply == ErrExpired <==> id !in m.challenges || now > m.challenges[id].expires)
            && (r.reply == ErrUnknown <==> id in m.challenges && now <= m.challenges[id].expires && m.challenges[id].device !in m.devices)
            && (r.reply == Okay <==> id in m.challenges && now <= m.challenges[id].expires && m.challenges[id].device in m.devices)
            && r.manager.candidates == m.candidates && r.manager.devices == m.devices && r.manager.tickets == m.tickets
            && r.manager.pairing == m.pairing && (r.reply != Okay ==> r.manager.pending == m.pending)
  {
  }

  /** A good signature for a device that still has its key logs it in, and its completed pairings need not be shown any longer. */
  lemma FinishLeaves(m: Manager, id: nat, signature: bool)
    requires id in m.pending
    ensures var r := Perform(m, DoFinish(id, signature));
            var device, key := m.pending[id].0, m.pending[id].1;
            var known := device in m.devices && m.devices[device] == key;
            && r.reply == (if !signature then ErrSignature else if !known then ErrUnknown else Okay)
            && r.events == (if signature && known then [Passed(id, device)] else [])
            && r.manager.pending == m.pending - {id}
            && r.manager.devices == m.devices && r.manager.challenges == m.challenges && r.manager.tickets == m.tickets && r.manager.pairing == m.pairing
            && (forall c :: c in r.manager.candidates <==>
                  c in m.candidates && !(signature && known && m.candidates[c].paired && m.candidates[c].device == device))
            && (forall c :: c in r.manager.candidates ==> r.manager.candidates[c] == m.candidates[c])
  {
  }

  lemma VerifyLeaves(m: Manager, id: nat, now: int)
    ensures var p, r := Pruned(m, now), Perform(m, DoVerify(id, now));
            && r.manager == p.(tickets := p.tickets - {id})
            && (r.reply == Okay <==> id in m.tickets && now <= m.tickets[id].expires && m.tickets[id].device in m.devices)
            && (r.reply == Okay ==> r.events == [Admitted(id, m.tickets[id].device)])
            && (r.reply != Okay ==> r.reply == NotOk && r.events == [])
  {
  }

  // ---- Whole runs ---------------------------------------------------------------------------------------

  /** How many requests of the run had the wrong credential. */
  function Wrong(ops: seq<Op>): nat {
    if ops == [] then 0 else Wrong(ops[..|ops| - 1]) + if ops[|ops| - 1].DoRequest? && !ops[|ops| - 1].credential then 1 else 0
  }

  lemma StepCounts(m: Manager, op: Op)
    requires Shape(m) && op != DoOpen
    ensures var m' := Perform(m, op).manager;
            m'.pairing.Some? ==>
              && m.pairing.Some? && m'.pairing.value.id == m.pairing.value.id
              && m'.pairing.value.attempts == m.pairing.value.attempts + if op.DoRequest? && !op.credential then 1 else 0
  {
  }

  /**
    * As long as a session lasts it has counted every request with a wrong credential, whatever else
    * happened; so it does not survive five, and anyone gets four wrong guesses at its code at most
    * and a fifth that closes it.
    */
  lemma {:induction false} FiveWrongClose(m: Manager, ops: seq<Op>)
    requires Shape(m) && forall i :: 0 <= i < |ops| ==> ops[i] != DoOpen
    ensures var m' := RunFrom(Perform(m, DoOpen).manager, ops).manager;
            Shape(m') && (m'.pairing.Some? ==> m'.pairing.value.id == m.next && m'.pairing.value.attempts == Wrong(ops) < 5)
    ensures Wrong(ops) >= 5 ==> RunFrom(Perform(m, DoOpen).manager, ops).manager.pairing.None?
    decreases |ops|
  {
    PerformKeeps(m, DoOpen);
    if ops != [] {
      var n := |ops| - 1;
      FiveWrongClose(m, ops[..n]);
      var before := RunFrom(Perform(m, DoOpen).manager, ops[..n]).manager;
      PerformKeeps(before, ops[n]);
      StepCounts(before, ops[n]);
    }
  }

  /** Nobody has seen it, nobody logs in, and the ten minutes are not over. */
  predicate LeavesCompleted(op: Op, id: nat, deadline: int) {
    && op != DoAck(id) && !(op.DoFinish? && op.signature)
    && ((op.DoRequest? || op.DoConfirm? || op.DoPrune? || op.DoNewChallenge? || op.DoVerify?) ==> op.now <= deadline)
  }

  lemma CompletedStaysBy(m: Manager, op: Op, id: nat)
    requires Shape(m) && id in m.candidates && m.candidates[id].paired && LeavesCompleted(op, id, m.candidates[id].completedAt + 600_000)
    ensures var m' := Perform(m, op).manager; id in m'.candidates && m'.candidates[id] == m.candidates[id]
  {
    if op.DoRequest? {
      RequestKeepsCompleted(Pruned(m, op.now), op, id);
    }
  }

  lemma RequestKeepsCompleted(m: Manager, op: Op, id: nat)
    requires op.DoRequest? && id in m.candidates && m.candidates[id].paired && id < m.next
    ensures var m' := Requested(m, op.device, op.key, op.credential).manager; id in m'.candidates && m'.candidates[id] == m.candidates[id]
  {
  }

  /** A completed pairing can be looked up for ten minutes, whatever else happens, unless it is acknowledged or a device logs in. */
  lemma {:induction false} CompletedStays(m: Manager, id: nat, ops: seq<Op>)
    requires Shape(m) && id in m.candidates && m.candidates[id].paired
    requires forall i :: 0 <= i < |ops| ==> LeavesCompleted(ops[i], id, m.candidates[id].completedAt + 600_000)
    ensures var m' := RunFrom(m, ops).manager; Shape(m') && id in m'.candidates && m'.candidates[id] == m.candidates[id]
    decreases |ops|
  {
    if ops != [] {
      var n := |ops| - 1;
      CompletedStays(m, id, ops[..n]);
      PerformKeeps(RunFrom(m, ops[..n]).manager, ops[n]);
      CompletedStaysBy(RunFrom(m, ops[..n]).manager, ops[n], id);
    }
  }
}
