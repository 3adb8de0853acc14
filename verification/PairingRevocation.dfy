/** What a revocation ends for good, even if the device is paired again, and what it does not. */
module PairingRevocations {
  import opened Options
  import opened Pairing

  /** What happens from `m` on. */
  function RunFrom(m: Manager, ops: seq<Op>): Trace {
    if ops == [] then Trace(m, [])
    else
      var t := RunFrom(m, ops[..|ops| - 1]);
      var r := Perform(t.manager, ops[|ops| - 1]);
      Trace(r.manager, t.log + r.events)
  }

  /** Of what was issued before `bound`, the device has no ticket and no challenge but those in `taken`. */
  predicate CutOff(m: Manager, device: nat, bound: nat, taken: map<nat, (nat, nat)>) {
    && bound <= m.next
    && (forall id :: id in m.tickets && id < bound ==> m.tickets[id].device != device)
    && (forall id :: id in m.challenges && id < bound ==> m.challenges[id].device != device)
    && (forall id :: id in m.pending && id < bound && m.pending[id].0 == device ==> id in taken && taken[id] == m.pending[id])
  }

  /** An event that lets the device in shows something issued since, or a challenge taken before. */
  predicate LateOnly(e: Event, device: nat, bound: nat, taken: map<nat, (nat, nat)>) {
    && (e.Admitted? && e.device == device ==> e.ticket >= bound)
    && (e.Passed? && e.device == device && e.challenge < bound ==> e.challenge in taken && taken[e.challenge].0 == device)
  }

  lemma PrunedCutOff(m: Manager, now: int, device: nat, bound: nat, taken: map<nat, (nat, nat)>)
    requires CutOff(m, device, bound, taken)
    ensures CutOff(Pruned(m, now), device, bound, taken)
  {
  }

  /** Whatever leaves tickets and challenges alone keeps the device cut off. */
  lemma SameCutOff(m: Manager, m': Manager, device: nat, bound: nat, taken: map<nat, (nat, nat)>)
    requires CutOff(m, device, bound, taken) && m.next <= m'.next
    requires m'.tickets == m.tickets && m'.challenges == m.challenges && m'.pending == m.pending
    ensures CutOff(m', device, bound, taken)
  {
  }

  lemma RequestedLeaves(m: Manager, device: nat, key: nat, credential: bool)
    ensures var r := Requested(m, device, key, credential);
            && r.events == [] && m.next <= r.manager.next
            && r.manager.tickets == m.tickets && r.manager.challenges == m.challenges && r.manager.pending == m.pending
  {
  }

  lemma RequestCutOff(m: Manager, op: Op, device: nat, bound: nat, taken: map<nat, (nat, nat)>)
    requires CutOff(m, device, bound, taken) && op.DoRequest?
    ensures CutOff(Perform(m, op).manager, device, bound, taken) && Perform(m, op).events == []
  {
    var p := Pruned(m, op.now);
    PrunedCutOff(m, op.now, device, bound, taken);
    RequestedLeaves(p, op.device, op.key, op.credential);
    SameCutOff(p, Perform(m, op).manager, device, bound, taken);
  }

  lemma ConfirmCutOff(m: Manager, op: Op, device: nat, bound: nat, taken: map<nat, (nat, nat)>)
    requires CutOff(m, device, bound, taken) && op.DoConfirm?
    ensures CutOff(Perform(m, op).manager, device, bound, taken)
    ensures forall e :: e in Perform(m, op).events ==> e.Paired?
  {
    PrunedCutOff(m, op.now, device, bound, taken);
  }

  /** Pairing leaves tickets and challenges alone, or drops some. */
  lemma PairingCutOff(m: Manager, op: Op, device: nat, bound: nat, taken: map<nat, (nat, nat)>)
    requires CutOff(m, device, bound, taken)
    requires op.DoOpen? || op.DoClose? || op.DoRequest? || op.DoConfirm? || op.DoReject? || op.DoAck? || op.DoPrune?
    ensures CutOff(Perform(m, op).manager, device, bound, taken)
    ensures forall e :: e in Perform(m, op).events ==> e.Paired?
  {
    if op.DoRequest? {
      RequestCutOff(m, op, device, bound, taken);
    } else if op.DoConfirm? {
      ConfirmCutOff(m, op, device, bound, taken);
    } else if op.DoPrune? {
      PrunedCutOff(m, op.now, device, bound, taken);
    }
  }

  lemma ChallengeCutOff(m: Manager, op: Op, device: nat, bound: nat, taken: map<nat, (nat, nat)>)
    requires CutOff(m, device, bound, taken) && (op.DoNewChallenge? || op.DoTake? || op.DoFinish?)
    ensures CutOff(Perform(m, op).manager, device, bound, taken)
    ensures forall e :: e in Perform(m, op).events ==> LateOnly(e, device, bound, taken)
  {
    if op.DoNewChallenge? {
      PrunedCutOff(m, op.now, device, bound, taken);
    }
  }

  lemma TicketCutOff(m: Manager, op: Op, device: nat, bound: nat, taken: map<nat, (nat, nat)>)
    requires CutOff(m, device, bound, taken) && (op.DoTicket? || op.DoVerify? || op.DoRevoke?)
    ensures CutOff(Perform(m, op).manager, device, bound, taken)
    ensures forall e :: e in Perform(m, op).events ==> LateOnly(e, device, bound, taken)
  {
    if op.DoVerify? {
      PrunedCutOff(m, op.now, device, bound, taken);
    }
  }

  lemma PerformCutOff(m: Manager, op: Op, device: nat, bound: nat, taken: map<nat, (nat, nat)>)
    requires CutOff(m, device, bound, taken)
    ensures CutOff(Perform(m, op).manager, device, bound, taken)
    ensures forall e :: e in Perform(m, op).events ==> LateOnly(e, device, bound, taken)
  {
    if op.DoNewChallenge? || op.DoTake? || op.DoFinish? {
      ChallengeCutOff(m, op, device, bound, taken);
    } else if op.DoTicket? || op.DoVerify? || op.DoRevoke? {
      TicketCutOff(m, op, device, bound, taken);
    } else {
      PairingCutOff(m, op, device, bound, taken);
    }
  }

  lemma {:induction false} RunCutOff(m: Manager, ops: seq<Op>, device: nat, bound: nat, taken: map<nat, (nat, nat)>)
    requires CutOff(m, device, bound, taken)
    ensures CutOff(RunFrom(m, ops).manager, device, bound, taken)
    ensures forall e :: e in RunFrom(m, ops).log ==> LateOnly(e, device, bound, taken)
    decreases |ops|
  {
    if ops != [] {
      var front := ops[..|ops| - 1];
      RunCutOff(m, front, device, bound, taken);
      PerformCutOff(RunFrom(m, front).manager, ops[|ops| - 1], device, bound, taken);
    }
  }

  lemma RevokedIsCutOff(m: Manager, device: nat)
    requires device in m.devices
    ensures CutOff(Revoke(m, device, true).manager, device, m.next, m.pending)
  {
  }

  /** A ticket issued before a revocation never admits the device again, even if it is paired again. */
  lemma RevokedTicketsStayOut(m: Manager, device: nat, ops: seq<Op>, ticket: nat)
    requires device in m.devices && ticket < m.next
    ensures Admitted(ticket, device) !in RunFrom(Revoke(m, device, true).manager, ops).log
  {
    RevokedIsCutOff(m, device);
    RunCutOff(Revoke(m, device, true).manager, ops, device, m.next, m.pending);
  }

  predicate PassesIn(m: Manager, ops: seq<Op>, challenge: nat, device: nat) {
    Passed(challenge, device) in RunFrom(m, ops).log
  }

  ghost predicate CanPass(m: Manager, challenge: nat, device: nat) {
    exists ops: seq<Op> :: PassesIn(m, ops, challenge, device)
  }

  lemma RunFromSnoc(m: Manager, ops: seq<Op>, op: Op)
    ensures var t := RunFrom(m, ops);
            var r := Perform(t.manager, op);
            RunFrom(m, ops + [op]) == Trace(r.manager, t.log + r.events)
  {
    assert (ops + [op])[..|ops|] == ops;
  }

  /** Pairing the device again with the key that was checked lets a challenge that was already taken pass. */
  lemma PairAgain(m: Manager, device: nat, key: nat, challenge: nat) returns (ops: seq<Op>)
    requires device !in m.devices && challenge in m.pending && m.pending[challenge] == (device, key)
    ensures PassesIn(m, ops, challenge, device)
  {
    var m1 := Perform(m, DoOpen).manager;
    var m2 := Perform(m1, DoRequest(device, key, true, 0)).manager;
    var m3 := Perform(m2, DoConfirm(m.next + 1, 0, true)).manager;
    assert m2.candidates[m.next + 1] == Candidate(device, key, m.next, false, 0);
    assert m3.devices[device] == key && m3.pending == m.pending;
    RunFromSnoc(m, [], DoOpen);
    RunFromSnoc(m, [] + [DoOpen], DoRequest(device, key, true, 0));
    RunFromSnoc(m, [] + [DoOpen] + [DoRequest(device, key, true, 0)], DoConfirm(m.next + 1, 0, true));
    ops := [] + [DoOpen] + [DoRequest(device, key, true, 0)] + [DoConfirm(m.next + 1, 0, true)];
    RunFromSnoc(m, ops, DoFinish(challenge, true));
    ops := ops + [DoFinish(challenge, true)];
  }

  /** A challenge issued before a revocation can pass after it if and only if it had been taken by then, for that device. */
  lemma RevokedChallengePassesIff(m: Manager, device: nat, challenge: nat)
    requires device in m.devices && challenge < m.next
    ensures CanPass(Revoke(m, device, true).manager, challenge, device) <==> challenge in m.pending && m.pending[challenge].0 == device
  {
    var m' := Revoke(m, device, true).manager;
    RevokedIsCutOff(m, device);
    if challenge in m.pending && m.pending[challenge].0 == device {
      var ops := PairAgain(m', device, m.pending[challenge].1, challenge);
    } else {
      forall ops: seq<Op> ensures !PassesIn(m', ops, challenge, device) {
        RunCutOff(m', ops, device, m.next, m.pending);
      }
    }
  }
}
