/**
  * Where every pairing and every admission comes from, over all runs: which operations,
  * with which device, key, credential, signature and time, have to have happened. And the
  * other way round: those operations do let the device in.
  */
module PairingProvenance {
  import opened Options
  import opened Pairing
  import opened PairingRevocations

  // ---- What happened in a run --------------------------------------------------------------------

  /** An operation, and the manager before and after it. */
  datatype Moment = Moment(before: Manager, op: Op, after: Manager)

  function Past(devices: map<nat, nat>, ops: seq<Op>): seq<Moment> {
    if ops == [] then []
    else
      var front, op := ops[..|ops| - 1], ops[|ops| - 1];
      var m := Run(devices, front).manager;
      Past(devices, front) + [Moment(m, op, Perform(m, op).manager)]
  }

  /** Pairing session `session` was opened at `i`. */
  predicate Opened(past: seq<Moment>, i: int, session: nat) {
    0 <= i < |past| && past[i].op == DoOpen && past[i].before.next == session
  }

  /** In that session, with the right credential, the device asked at `i` to be paired with this key. */
  predicate AskedAt(past: seq<Moment>, i: int, session: nat, device: nat, key: nat) {
    && 0 <= i < |past| && past[i].op.DoRequest? && past[i].op.device == device && past[i].op.key == key && past[i].op.credential
    && past[i].before.pairing.Some? && past[i].before.pairing.value.id == session
  }

  predicate IssuedAt(past: seq<Moment>, i: int, challenge: nat, device: nat, now: int) {
    && 0 <= i < |past| && past[i].op == DoNewChallenge(device, now)
    && past[i].before.next == challenge && device in past[i].before.devices
  }

  /** The challenge was taken at `j`, in time, when the device was registered with this key. */
  predicate TakenAt(past: seq<Moment>, j: int, challenge: nat, device: nat, key: nat, issued: int) {
    && 0 <= j < |past| && past[j].op.DoTake? && past[j].op.id == challenge && past[j].op.now <= issued + CHALLENGE_TTL
    && device in past[j].before.devices && past[j].before.devices[device] == key
  }

  predicate TicketAt(past: seq<Moment>, i: int, ticket: nat, device: nat, now: int) {
    0 <= i < |past| && past[i].op == DoTicket(device, now) && past[i].before.next == ticket
  }

  ghost predicate SessionBacked(past: seq<Moment>, session: nat) {
    exists i :: Opened(past, i, session)
  }

  ghost predicate RequestBacked(past: seq<Moment>, session: nat, device: nat, key: nat) {
    exists o, i :: o < i && Opened(past, o, session) && AskedAt(past, i, session, device, key)
  }

  ghost predicate ChallengeBacked(past: seq<Moment>, challenge: nat, device: nat, issued: int) {
    exists i :: IssuedAt(past, i, challenge, device, issued)
  }

  ghost predicate TakeBacked(past: seq<Moment>, challenge: nat, device: nat, key: nat) {
    exists i, j, issued :: i < j && IssuedAt(past, i, challenge, device, issued) && TakenAt(past, j, challenge, device, key, issued)
  }

  ghost predicate TicketBacked(past: seq<Moment>, ticket: nat, device: nat, issued: int) {
    exists i :: TicketAt(past, i, ticket, device, issued)
  }

  // Everything the manager holds was put there by such operations.

  ghost predicate SessionsBacked(past: seq<Moment>, pairing: Option<Session>) {
    pairing.Some? ==> SessionBacked(past, pairing.value.id)
  }

  ghost predicate RequestsBacked(past: seq<Moment>, candidates: map<nat, Candidate>) {
    forall c :: c in candidates ==> RequestBacked(past, candidates[c].session, candidates[c].device, candidates[c].key)
  }

  ghost predicate ChallengesBacked(past: seq<Moment>, challenges: map<nat, Challenge>) {
    forall c :: c in challenges ==> ChallengeBacked(past, c, challenges[c].device, challenges[c].expires - CHALLENGE_TTL)
  }

  ghost predicate TakesBacked(past: seq<Moment>, pending: map<nat, (nat, nat)>) {
    forall c :: c in pending ==> TakeBacked(past, c, pending[c].0, pending[c].1)
  }

  ghost predicate TicketsBacked(past: seq<Moment>, tickets: map<nat, Ticket>) {
    forall t :: t in tickets ==> TicketBacked(past, t, tickets[t].device, tickets[t].expires - TICKET_TTL)
  }

  ghost predicate AllBacked(past: seq<Moment>, m: Manager) {
    && SessionsBacked(past, m.pairing)
    && RequestsBacked(past, m.candidates)
    && ChallengesBacked(past, m.challenges)
    && TakesBacked(past, m.pending)
    && TicketsBacked(past, m.tickets)
  }

  /** What an event of the moment after `past` needs. */
  ghost predicate EventBacked(past: seq<Moment>, last: Moment, e: Event) {
    match e
    case Paired(session, device) =>
      && last.op.DoConfirm? && last.op.saved && device in last.after.devices
      && RequestBacked(past, session, device, last.after.devices[device])
    case Revoked(device) => last.op == DoRevoke(device, true) && device in last.before.devices
    case Passed(challenge, device) =>
      && last.op == DoFinish(challenge, true) && device in last.before.devices
      && TakeBacked(past, challenge, device, last.before.devices[device])
    case Admitted(ticket, device) =>
      && last.op.DoVerify? && last.op.id == ticket && device in last.before.devices
      && exists issued :: TicketBacked(past, ticket, device, issued) && last.op.now <= issued + TICKET_TTL
  }

  // ---- A longer past backs what a shorter one does -----------------------------------------------

  lemma SessionStays(past: seq<Moment>, x: Moment, session: nat)
    requires SessionBacked(past, session)
    ensures SessionBacked(past + [x], session)
  {
    var i :| Opened(past, i, session);
    assert Opened(past + [x], i, session);
  }

  lemma RequestStays(past: seq<Moment>, x: Moment, session: nat, device: nat, key: nat)
    requires RequestBacked(past, session, device, key)
    ensures RequestBacked(past + [x], session, device, key)
  {
    var o, i :| o < i && Opened(past, o, session) && AskedAt(past, i, session, device, key);
    assert Opened(past + [x], o, session) && AskedAt(past + [x], i, session, device, key);
  }

  lemma ChallengeStays(past: seq<Moment>, x: Moment, challenge: nat, device: nat, issued: int)
    requires ChallengeBacked(past, challenge, device, issued)
    ensures ChallengeBacked(past + [x], challenge, device, issued)
  {
    var i :| IssuedAt(past, i, challenge, device, issued);
    assert IssuedAt(past + [x], i, challenge, device, issued);
  }

  lemma TakeStays(past: seq<Moment>, x: Moment, challenge: nat, device: nat, key: nat)
    requires TakeBacked(past, challenge, device, key)
    ensures TakeBacked(past + [x], challenge, device, key)
  {
    var i, j, issued :| i < j && IssuedAt(past, i, challenge, device, issued) && TakenAt(past, j, challenge, device, key, issued);
    assert IssuedAt(past + [x], i, challenge, device, issued) && TakenAt(past + [x], j, challenge, device, key, issued);
  }

  lemma TicketStays(past: seq<Moment>, x: Moment, ticket: nat, device: nat, issued: int)
    requires TicketBacked(past, ticket, device, issued)
    ensures TicketBacked(past + [x], ticket, device, issued)
  {
    var i :| TicketAt(past, i, ticket, device, issued);
    assert TicketAt(past + [x], i, ticket, device, issued);
  }

  // ---- What each operation brings ------------------------------------------------------------------

  lemma NewSession(m: Manager, op: Op)
    ensures var p := Perform(m, op).manager.pairing;
            p.Some? ==> (m.pairing.Some? && p.value.id == m.pairing.value.id) || (op == DoOpen && p.value.id == m.next)
  {
  }

  predicate NewCandidate(m: Manager, op: Op, c: Candidate) {
    op.DoRequest? && op.credential && m.pairing.Some? && c.session == m.pairing.value.id && c.device == op.device && c.key == op.key
  }

  predicate SameRequest(a: Candidate, b: Candidate) {
    a.session == b.session && a.device == b.device && a.key == b.key
  }

  predicate OldOrNewCandidate(m: Manager, op: Op, id: nat, c: Candidate) {
    (id in m.candidates && SameRequest(c, m.candidates[id])) || NewCandidate(m, op, c)
  }

  lemma RequestedCandidates(m: Manager, op: Op, id: nat)
    requires op.DoRequest? && id in Requested(m, op.device, op.key, op.credential).manager.candidates
    ensures OldOrNewCandidate(m, op, id, Requested(m, op.device, op.key, op.credential).manager.candidates[id])
  {
  }

  lemma NewCandidates(m: Manager, op: Op)
    ensures var cs := Perform(m, op).manager.candidates; forall c :: c in cs ==> OldOrNewCandidate(m, op, c, cs[c])
  {
    if op.DoRequest? {
      var p := Pruned(m, op.now);
      var cs := Requested(p, op.device, op.key, op.credential).manager.candidates;
      forall c | c in cs ensures OldOrNewCandidate(m, op, c, cs[c]) {
        RequestedCandidates(p, op, c);
      }
    }
  }

  predicate OldOrNewChallenge(m: Manager, op: Op, c: nat, challenge: Challenge) {
    || (c in m.challenges && challenge == m.challenges[c])
    || (op.DoNewChallenge? && op.device in m.devices && c == m.next && challenge == Challenge(op.device, op.now + CHALLENGE_TTL))
  }

  lemma NewChallenges(m: Manager, op: Op)
    ensures var cs := Perform(m, op).manager.challenges; forall c :: c in cs ==> OldOrNewChallenge(m, op, c, cs[c])
  {
    if op.DoRequest? {
      RequestedLeaves(Pruned(m, op.now), op.device, op.key, op.credential);
    }
  }

  predicate OldOrNewTake(m: Manager, op: Op, c: nat, taken: (nat, nat)) {
    || (c in m.pending && taken == m.pending[c])
    || (op.DoTake? && op.id == c && c in m.challenges && op.now <= m.challenges[c].expires
        && m.challenges[c].device in m.devices && taken == (m.challenges[c].device, m.devices[m.challenges[c].device]))
  }

  lemma NewTakes(m: Manager, op: Op)
    ensures var ps := Perform(m, op).manager.pending; forall c :: c in ps ==> OldOrNewTake(m, op, c, ps[c])
  {
  }

  predicate OldOrNewTicket(m: Manager, op: Op, t: nat, ticket: Ticket) {
    (t in m.tickets && ticket == m.tickets[t]) || (op.DoTicket? && t == m.next && ticket == Ticket(op.device, op.now + TICKET_TTL))
  }

  lemma NewTickets(m: Manager, op: Op)
    ensures var ts := Perform(m, op).manager.tickets; forall t :: t in ts ==> OldOrNewTicket(m, op, t, ts[t])
  {
    if op.DoRequest? {
      RequestedLeaves(Pruned(m, op.now), op.device, op.key, op.credential);
    }
  }

  // ---- Every operation keeps everything backed -----------------------------------------------------

  lemma SessionsKept(past: seq<Moment>, m: Manager, op: Op, m': Manager)
    requires SessionsBacked(past, m.pairing) && m' == Perform(m, op).manager
    ensures SessionsBacked(past + [Moment(m, op, m')], m'.pairing)
  {
    NewSession(m, op);
    var x := Moment(m, op, m');
    if m'.pairing.Some? {
      if m.pairing.Some? && m'.pairing.value.id == m.pairing.value.id {
        SessionStays(past, x, m'.pairing.value.id);
      } else {
        assert Opened(past + [x], |past|, m'.pairing.value.id);
      }
    }
  }

  lemma RequestIsBacked(past: seq<Moment>, x: Moment)
    requires x.op.DoRequest? && x.op.credential && x.before.pairing.Some? && SessionBacked(past, x.before.pairing.value.id)
    ensures RequestBacked(past + [x], x.before.pairing.value.id, x.op.device, x.op.key)
  {
    var session := x.before.pairing.value.id;
    var o :| Opened(past, o, session);
    assert Opened(past + [x], o, session) && AskedAt(past + [x], |past|, session, x.op.device, x.op.key);
  }

  lemma RequestsKept(past: seq<Moment>, x: Moment, cs: map<nat, Candidate>)
    requires SessionsBacked(past, x.before.pairing) && RequestsBacked(past, x.before.candidates)
    requires forall c :: c in cs ==> OldOrNewCandidate(x.before, x.op, c, cs[c])
    ensures RequestsBacked(past + [x], cs)
  {
    forall c | c in cs ensures RequestBacked(past + [x], cs[c].session, cs[c].device, cs[c].key) {
      if NewCandidate(x.before, x.op, cs[c]) {
        RequestIsBacked(past, x);
      } else {
        RequestStays(past, x, cs[c].session, cs[c].device, cs[c].key);
      }
    }
  }

  lemma ChallengesKept(past: seq<Moment>, x: Moment, cs: map<nat, Challenge>)
    requires ChallengesBacked(past, x.before.challenges)
    requires forall c :: c in cs ==> OldOrNewChallenge(x.before, x.op, c, cs[c])
    ensures ChallengesBacked(past + [x], cs)
  {
    forall c | c in cs ensures ChallengeBacked(past + [x], c, cs[c].device, cs[c].expires - CHALLENGE_TTL) {
      if c in x.before.challenges && cs[c] == x.before.challenges[c] {
        ChallengeStays(past, x, c, cs[c].device, cs[c].expires - CHALLENGE_TTL);
      } else {
        assert IssuedAt(past + [x], |past|, c, cs[c].device, cs[c].expires - CHALLENGE_TTL);
      }
    }
  }

  lemma TakeIsBacked(past: seq<Moment>, x: Moment, device: nat, issued: int)
    requires x.op.DoTake? && x.op.now <= issued + CHALLENGE_TTL && device in x.before.devices
    requires ChallengeBacked(past, x.op.id, device, issued)
    ensures TakeBacked(past + [x], x.op.id, device, x.before.devices[device])
  {
    var i :| IssuedAt(past, i, x.op.id, device, issued);
    assert IssuedAt(past + [x], i, x.op.id, device, issued);
    assert TakenAt(past + [x], |past|, x.op.id, device, x.before.devices[device], issued);
  }

  lemma TakesKept(past: seq<Moment>, x: Moment, ps: map<nat, (nat, nat)>)
    requires ChallengesBacked(past, x.before.challenges) && TakesBacked(past, x.before.pending)
    requires forall c :: c in ps ==> OldOrNewTake(x.before, x.op, c, ps[c])
    ensures TakesBacked(past + [x], ps)
  {
    forall c | c in ps ensures TakeBacked(past + [x], c, ps[c].0, ps[c].1) {
      if c in x.before.pending && ps[c] == x.before.pending[c] {
        TakeStays(past, x, c, ps[c].0, ps[c].1);
      } else {
        TakeIsBacked(past, x, ps[c].0, x.before.challenges[c].expires - CHALLENGE_TTL);
      }
    }
  }

  lemma TicketsKept(past: seq<Moment>, x: Moment, ts: map<nat, Ticket>)
    requires TicketsBacked(past, x.before.tickets)
    requires forall t :: t in ts ==> OldOrNewTicket(x.before, x.op, t, ts[t])
    ensures TicketsBacked(past + [x], ts)
  {
    forall t | t in ts ensures TicketBacked(past + [x], t, ts[t].device, ts[t].expires - TICKET_TTL) {
      if t in x.before.tickets && ts[t] == x.before.tickets[t] {
        TicketStays(past, x, t, ts[t].device, ts[t].expires - TICKET_TTL);
      } else {
        assert TicketAt(past + [x], |past|, t, ts[t].device, ts[t].expires - TICKET_TTL);
      }
    }
  }

  lemma OpKeepsBacked(past: seq<Moment>, m: Manager, op: Op, m': Manager)
    requires AllBacked(past, m) && m' == Perform(m, op).manager
    ensures AllBacked(past + [Moment(m, op, m')], m')
  {
    var x := Moment(m, op, m');
    SessionsKept(past, m, op, m');
    NewCandidates(m, op);
    RequestsKept(past, x, m'.candidates);
    NewChallenges(m, op);
    ChallengesKept(past, x, m'.challenges);
    NewTakes(m, op);
    TakesKept(past, x, m'.pending);
    NewTickets(m, op);
    TicketsKept(past, x, m'.tickets);
  }

  lemma {:induction false} RunBacked(devices: map<nat, nat>, ops: seq<Op>)
    ensures AllBacked(Past(devices, ops), Run(devices, ops).manager)
    decreases |ops|
  {
    if ops != [] {
      var front, op := ops[..|ops| - 1], ops[|ops| - 1];
      RunBacked(devices, front);
      OpKeepsBacked(Past(devices, front), Run(devices, front).manager, op, Run(devices, ops).manager);
    }
  }

  // ---- Every event is backed ----------------------------------------------------------------------

  lemma PairedIsBacked(past: seq<Moment>, m: Manager, op: Op, e: Event)
    requires RequestsBacked(past, m.candidates) && e in Perform(m, op).events && e.Paired?
    ensures EventBacked(past, Moment(m, op, Perform(m, op).manager), e)
  {
  }

  lemma PassedIsBacked(past: seq<Moment>, m: Manager, op: Op, e: Event)
    requires TakesBacked(past, m.pending) && e in Perform(m, op).events && e.Passed?
    ensures EventBacked(past, Moment(m, op, Perform(m, op).manager), e)
  {
  }

  lemma AdmittedIsBacked(past: seq<Moment>, m: Manager, op: Op, e: Event)
    requires TicketsBacked(past, m.tickets) && e in Perform(m, op).events && e.Admitted?
    ensures EventBacked(past, Moment(m, op, Perform(m, op).manager), e)
  {
    assert op.DoVerify? && e.ticket in m.tickets && e.device == m.tickets[e.ticket].device;
    assert TicketBacked(past, e.ticket, e.device, m.tickets[e.ticket].expires - TICKET_TTL);
  }

  lemma RevokedIsBacked(past: seq<Moment>, m: Manager, op: Op, e: Event)
    requires e in Perform(m, op).events && e.Revoked?
    ensures EventBacked(past, Moment(m, op, Perform(m, op).manager), e)
  {
  }

  lemma OpEventBacked(past: seq<Moment>, m: Manager, op: Op, e: Event)
    requires AllBacked(past, m) && e in Perform(m, op).events
    ensures EventBacked(past, Moment(m, op, Perform(m, op).manager), e)
  {
    match e
    case Paired(_, _) => PairedIsBacked(past, m, op, e);
    case Revoked(_) => RevokedIsBacked(past, m, op, e);
    case Passed(_, _) => PassedIsBacked(past, m, op, e);
    case Admitted(_, _) => AdmittedIsBacked(past, m, op, e);
  }

  lemma PastGrows(devices: map<nat, nat>, ops: seq<Op>, n: nat)
    requires 0 < |ops| && n < |ops| - 1
    requires |Past(devices, ops[..|ops| - 1])| == |ops| - 1
    ensures |Past(devices, ops)| == |ops|
    ensures Past(devices, ops)[n] == Past(devices, ops[..|ops| - 1])[n] && Past(devices, ops)[..n] == Past(devices, ops[..|ops| - 1])[..n]
  {
  }

  lemma {:induction false} PastLength(devices: map<nat, nat>, ops: seq<Op>)
    ensures |Past(devices, ops)| == |ops|
    decreases |ops|
  {
    if ops != [] {
      PastLength(devices, ops[..|ops| - 1]);
    }
  }

  /**
    * In every run, whatever was logged came of these operations.
    * A device was paired by a saved confirmation of a request that named it, in the session
    * of the event, with the right credential, and its key is the one of that request.
    * A challenge was passed by finishing it with a good signature; it had been issued for that
    * device, while it was paired, and taken within thirty seconds; and the key that was registered
    * then still was. A ticket admitted the device it was issued for, within thirty seconds,
    * while it was paired. A revocation was asked for and saved.
    */
  lemma {:induction false} LoggedIsBacked(devices: map<nat, nat>, ops: seq<Op>, e: Event) returns (n: nat)
    requires e in Run(devices, ops).log
    ensures var past := Past(devices, ops); n < |past| == |ops| && EventBacked(past[..n], past[n], e)
    decreases |ops|
  {
    var front, op := ops[..|ops| - 1], ops[|ops| - 1];
    var past, m := Past(devices, front), Run(devices, front).manager;
    PastLength(devices, front);
    PastLength(devices, ops);
    if e in Run(devices, front).log {
      n := LoggedIsBacked(devices, front, e);
      PastGrows(devices, ops, n);
    } else {
      RunBacked(devices, front);
      OpEventBacked(past, m, op, e);
      n := |front|;
      assert Past(devices, ops)[..n] == past;
    }
  }

  // ---- And these operations do let the device in --------------------------------------------------

  predicate NotPrunedBy(op: Op, deadline: int) {
    (op.DoRequest? || op.DoConfirm? || op.DoPrune? || op.DoNewChallenge? || op.DoVerify?) ==> op.now <= deadline
  }

  /** Nobody takes the challenge, the device is not revoked, and the time has not come. */
  predicate LeavesChallenge(op: Op, challenge: nat, device: nat, deadline: int) {
    !(op.DoTake? && op.id == challenge) && !(op.DoRevoke? && op.device == device) && NotPrunedBy(op, deadline)
  }

  predicate LeavesTicket(op: Op, ticket: nat, device: nat, deadline: int) {
    !(op.DoVerify? && op.id == ticket) && !(op.DoRevoke? && op.device == device) && NotPrunedBy(op, deadline)
  }

  lemma ChallengeKeptByTimed(m: Manager, op: Op, c: nat)
    requires Shape(m) && c in m.challenges && LeavesChallenge(op, c, m.challenges[c].device, m.challenges[c].expires)
    requires op.DoRequest? || op.DoConfirm? || op.DoPrune? || op.DoNewChallenge? || op.DoVerify?
    ensures var m' := Perform(m, op).manager; c in m'.challenges && m'.challenges[c] == m.challenges[c]
  {
    var p := Pruned(m, op.now);
    assert c in p.challenges && p.challenges[c] == m.challenges[c];
    if op.DoRequest? {
      RequestedLeaves(p, op.device, op.key, op.credential);
    }
  }

  lemma ChallengeKeptBy(m: Manager, op: Op, c: nat)
    requires Shape(m) && c in m.challenges && LeavesChallenge(op, c, m.challenges[c].device, m.challenges[c].expires)
    ensures var m' := Perform(m, op).manager; c in m'.challenges && m'.challenges[c] == m.challenges[c]
  {
    if op.DoRequest? || op.DoConfirm? || op.DoPrune? || op.DoNewChallenge? || op.DoVerify? {
      ChallengeKeptByTimed(m, op, c);
    }
  }

  lemma {:induction false} ChallengeKept(m: Manager, ops: seq<Op>, c: nat)
    requires Shape(m) && c in m.challenges
    requires forall i :: 0 <= i < |ops| ==> LeavesChallenge(ops[i], c, m.challenges[c].device, m.challenges[c].expires)
    ensures var m' := RunFrom(m, ops).manager; Shape(m') && c in m'.challenges && m'.challenges[c] == m.challenges[c]
    decreases |ops|
  {
    if ops != [] {
      var n := |ops| - 1;
      ChallengeKept(m, ops[..n], c);
      PerformKeeps(RunFrom(m, ops[..n]).manager, ops[n]);
      ChallengeKeptBy(RunFrom(m, ops[..n]).manager, ops[n], c);
    }
  }

  lemma PendingKeptBy(m: Manager, op: Op, c: nat)
    requires Shape(m) && c in m.pending && !(op.DoFinish? && op.id == c)
    ensures var m' := Perform(m, op).manager; c in m'.pending && m'.pending[c] == m.pending[c]
  {
  }

  lemma {:induction false} PendingKept(m: Manager, ops: seq<Op>, c: nat)
    requires Shape(m) && c in m.pending && forall i :: 0 <= i < |ops| ==> !(ops[i].DoFinish? && ops[i].id == c)
    ensures var m' := RunFrom(m, ops).manager; Shape(m') && c in m'.pending && m'.pending[c] == m.pending[c]
    decreases |ops|
  {
    if ops != [] {
      var n := |ops| - 1;
      PendingKept(m, ops[..n], c);
      PerformKeeps(RunFrom(m, ops[..n]).manager, ops[n]);
      PendingKeptBy(RunFrom(m, ops[..n]).manager, ops[n], c);
    }
  }

  lemma TicketKeptByTimed(m: Manager, op: Op, t: nat)
    requires Shape(m) && t in m.tickets && LeavesTicket(op, t, m.tickets[t].device, m.tickets[t].expires)
    requires op.DoRequest? || op.DoConfirm? || op.DoPrune? || op.DoNewChallenge? || op.DoVerify?
    ensures var m' := Perform(m, op).manager; t in m'.tickets && m'.tickets[t] == m.tickets[t]
  {
    var p := Pruned(m, op.now);
    assert t in p.tickets && p.tickets[t] == m.tickets[t];
    if op.DoRequest? {
      RequestedLeaves(p, op.device, op.key, op.credential);
    }
  }

  lemma TicketKeptBy(m: Manager, op: Op, t: nat)
    requires Shape(m) && t in m.tickets && LeavesTicket(op, t, m.tickets[t].device, m.tickets[t].expires)
    ensures var m' := Perform(m, op).manager; t in m'.tickets && m'.tickets[t] == m.tickets[t]
  {
    if op.DoRequest? || op.DoConfirm? || op.DoPrune? || op.DoNewChallenge? || op.DoVerify? {
      TicketKeptByTimed(m, op, t);
    }
  }

  lemma {:induction false} TicketKept(m: Manager, ops: seq<Op>, t: nat)
    requires Shape(m) && t in m.tickets
    requires forall i :: 0 <= i < |ops| ==> LeavesTicket(ops[i], t, m.tickets[t].device, m.tickets[t].expires)
    ensures var m' := RunFrom(m, ops).manager; Shape(m') && t in m'.tickets && m'.tickets[t] == m.tickets[t]
    decreases |ops|
  {
    if ops != [] {
      var n := |ops| - 1;
      TicketKept(m, ops[..n], t);
      PerformKeeps(RunFrom(m, ops[..n]).manager, ops[n]);
      TicketKeptBy(RunFrom(m, ops[..n]).manager, ops[n], t);
    }
  }

  lemma IssueGives(m: Manager, device: nat, now: int)
    requires Shape(m) && device in m.devices
    ensures var m' := Perform(m, DoNewChallenge(device, now)).manager;
            Shape(m') && m.next in m'.challenges && m'.challenges[m.next] == Challenge(device, now + CHALLENGE_TTL)
  {
    PerformKeeps(m, DoNewChallenge(device, now));
  }

  lemma TakeGives(m: Manager, c: nat, now: int)
    requires Shape(m) && c in m.challenges && now <= m.challenges[c].expires && m.challenges[c].device in m.devices
    ensures var m' := Perform(m, DoTake(c, now)).manager;
            Shape(m') && c in m'.pending && m'.pending[c] == (m.challenges[c].device, m.devices[m.challenges[c].device])
  {
    PerformKeeps(m, DoTake(c, now));
  }

  lemma FinishGives(m: Manager, c: nat)
    requires c in m.pending && m.pending[c].0 in m.devices && m.devices[m.pending[c].0] == m.pending[c].1
    ensures Perform(m, DoFinish(c, true)).events == [Passed(c, m.pending[c].0)]
  {
  }

  lemma TicketGives(m: Manager, device: nat, now: int)
    requires Shape(m)
    ensures var m' := Perform(m, DoTicket(device, now)).manager;
            Shape(m') && m.next in m'.tickets && m'.tickets[m.next] == Ticket(device, now + TICKET_TTL)
  {
    PerformKeeps(m, DoTicket(device, now));
  }

  lemma VerifyGives(m: Manager, t: nat, now: int)
    requires t in m.tickets && now <= m.tickets[t].expires && m.tickets[t].device in m.devices
    ensures Perform(m, DoVerify(t, now)).events == [Admitted(t, m.tickets[t].device)]
  {
  }

  /**
    * A challenge issued to a paired device, taken in time before anyone else takes it and
    * finished with a good signature, lets the device in, whatever happens in between, if
    * the device was not revoked before the taking and has the same key at the end.
    */
  lemma LoginGoesThrough(m: Manager, device: nat, issued: int, before: seq<Op>, m2: Manager, now: int, between: seq<Op>, m4: Manager)
    requires Shape(m) && device in m.devices && now <= issued + CHALLENGE_TTL
    requires forall i :: 0 <= i < |before| ==> LeavesChallenge(before[i], m.next, device, issued + CHALLENGE_TTL)
    requires m2 == RunFrom(Perform(m, DoNewChallenge(device, issued)).manager, before).manager && device in m2.devices
    requires forall i :: 0 <= i < |between| ==> !(between[i].DoFinish? && between[i].id == m.next)
    requires m4 == RunFrom(Perform(m2, DoTake(m.next, now)).manager, between).manager
    requires device in m4.devices && m4.devices[device] == m2.devices[device]
    ensures Perform(m4, DoFinish(m.next, true)).events == [Passed(m.next, device)]
  {
    IssueGives(m, device, issued);
    ChallengeKept(Perform(m, DoNewChallenge(device, issued)).manager, before, m.next);
    TakeGives(m2, m.next, now);
    PendingKept(Perform(m2, DoTake(m.next, now)).manager, between, m.next);
    FinishGives(m4, m.next);
  }

  /** A ticket admits its device in time, whatever happened since, if it was not used and the device not revoked. */
  lemma TicketAdmits(m: Manager, device: nat, issued: int, between: seq<Op>, m2: Manager, now: int)
    requires Shape(m) && now <= issued + TICKET_TTL
    requires forall i :: 0 <= i < |between| ==> LeavesTicket(between[i], m.next, device, issued + TICKET_TTL)
    requires m2 == RunFrom(Perform(m, DoTicket(device, issued)).manager, between).manager && device in m2.devices
    ensures Perform(m2, DoVerify(m.next, now)).events == [Admitted(m.next, device)]
  {
    TicketGives(m, device, issued);
    TicketKept(Perform(m, DoTicket(device, issued)).manager, between, m.next);
    VerifyGives(m2, m.next, now);
  }

  predicate LeavesSession(op: Op) {
    !op.DoOpen? && !op.DoClose? && !op.DoRequest? && !op.DoConfirm? && !op.DoReject?
  }

  lemma CandidateKeptBy(m: Manager, op: Op, c: nat)
    requires Shape(m) && c in m.candidates && !m.candidates[c].paired && LeavesSession(op)
    ensures var m' := Perform(m, op).manager; c in m'.candidates && m'.candidates[c] == m.candidates[c]
  {
  }

  lemma {:induction false} CandidateKept(m: Manager, ops: seq<Op>, c: nat)
    requires Shape(m) && c in m.candidates && !m.candidates[c].paired && forall i :: 0 <= i < |ops| ==> LeavesSession(ops[i])
    ensures var m' := RunFrom(m, ops).manager; Shape(m') && c in m'.candidates && m'.candidates[c] == m.candidates[c]
    decreases |ops|
  {
    if ops != [] {
      var n := |ops| - 1;
      CandidateKept(m, ops[..n], c);
      PerformKeeps(RunFrom(m, ops[..n]).manager, ops[n]);
      CandidateKeptBy(RunFrom(m, ops[..n]).manager, ops[n], c);
    }
  }

  /**
    * In an open session without a candidate, a request by a device that is not paired, with the
    * right credential, and a confirmation that can be saved pair the device with its key.
    */
  lemma PairingGoesThrough(m: Manager, device: nat, key: nat, asked: int, between: seq<Op>, now: int)
    requires Shape(m) && m.pairing.Some? && m.pairing.value.candidate.None? && device !in m.devices
    requires forall i :: 0 <= i < |between| ==> LeavesSession(between[i])
    ensures var m1 := Perform(m, DoRequest(device, key, true, asked)).manager;
            var r := Perform(RunFrom(m1, between).manager, DoConfirm(m.next, now, true));
            r.events == [Paired(m.pairing.value.id, device)] && device in r.manager.devices && r.manager.devices[device] == key
  {
    var op := DoRequest(device, key, true, asked);
    PerformKeeps(m, op);
    CandidateKept(Perform(m, op).manager, between, m.next);
  }
}
