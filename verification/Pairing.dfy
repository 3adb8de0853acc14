/**
  * The pairing and authentication manager. Each operation under its lock is one step;
  * completing a challenge takes two, because the signature is checked in between.
  * Identifiers are drawn from a counter: the code draws them at random, and the model
  * leaves out that two might be equal. Times are in milliseconds.
  */
module Pairing {
  import opened Options

  const CHALLENGE_TTL: int := 30000
  const TICKET_TTL: int := 30000
  const COMPLETED_TTL: int := 600000
  const MAX_ATTEMPTS: nat := 5

  datatype Candidate = Candidate(device: nat, key: nat, session: nat, paired: bool, completedAt: int)

  datatype Session = Session(id: nat, attempts: nat, candidate: Option<nat>)

  datatype Challenge = Challenge(device: nat, expires: int)

  datatype Ticket = Ticket(device: nat, expires: int)

  /** `pending` holds challenges taken whose signatures are being checked; `next` is the next identifier. */
  datatype Manager = Manager(devices: map<nat, nat>, candidates: map<nat, Candidate>, challenges: map<nat, Challenge>,
                             tickets: map<nat, Ticket>, pairing: Option<Session>, pending: map<nat, (nat, nat)>, next: nat)

  /** What the outside can tell has happened. */
  datatype Event =
    | Paired(session: nat, device: nat)
    | Revoked(device: nat)
    | Passed(challenge: nat, device: nat)
    | Admitted(ticket: nat, device: nat)

  datatype Reply = Okay | NotOk | ErrClosed | ErrCode | ErrLocked | ErrUsed | ErrAlreadyPaired | ErrNotFound | ErrSave | ErrExpired | ErrUnknown | ErrSignature

  datatype Result = Result(manager: Manager, reply: Reply, events: seq<Event>)

  function Quiet(m: Manager, reply: Reply): Result {
    Result(m, reply, [])
  }

  // ---- The operations -------------------------------------------------------------------------

  function Pruned(m: Manager, now: int): Manager {
    m.(candidates := map id | id in m.candidates && !(m.candidates[id].paired && now - m.candidates[id].completedAt > COMPLETED_TTL)
                       :: m.candidates[id],
       challenges := map id | id in m.challenges && now <= m.challenges[id].expires :: m.challenges[id],
       tickets := map id | id in m.tickets && now <= m.tickets[id].expires :: m.tickets[id])
  }

  function OpenPairing(m: Manager): Result {
    Quiet(m.(candidates := map id | id in m.candidates && m.candidates[id].paired :: m.candidates[id],
             pairing := Some(Session(m.next, 0, None)), next := m.next + 1), Okay)
  }

  /** Drops the session together with its candidate, unless that one is paired. */
  function WithoutSession(m: Manager): Manager
    requires m.pairing.Some?
  {
    var c := m.pairing.value.candidate;
    m.(pairing := None,
       candidates := if c.Some? && c.value in m.candidates && !m.candidates[c.value].paired then m.candidates - {c.value} else m.candidates)
  }

  function ClosePairing(m: Manager): Result {
    if m.pairing.None? then Quiet(m, NotOk) else Quiet(WithoutSession(m), Okay)
  }

  function RequestPair(m: Manager, device: nat, key: nat, credential: bool, now: int): Result {
    Requested(Pruned(m, now), device, key, credential)
  }

  function Requested(m: Manager, device: nat, key: nat, credential: bool): Result {
    if m.pairing.None? then Quiet(m, ErrClosed)
    else
      var session := m.pairing.value;
      if !credential then
        var failed := session.(attempts := session.attempts + 1);
        if failed.attempts >= MAX_ATTEMPTS then Quiet(WithoutSession(m), ErrLocked)
        else Quiet(m.(pairing := Some(failed)), ErrCode)
      else if session.candidate.Some? then
        var id := session.candidate.value;
        if id in m.candidates && m.candidates[id].device == device then Quiet(m, Okay) else Quiet(m, ErrUsed)
      else if device in m.devices then Quiet(m, ErrAlreadyPaired)
      else Quiet(m.(candidates := m.candidates[m.next := Candidate(device, key, session.id, false, 0)],
                    pairing := Some(session.(candidate := Some(m.next))), next := m.next + 1), Okay)
  }

  /** updatePair; `saved` says whether the registry could be written. */
  function ConfirmPair(m0: Manager, id: nat, now: int, saved: bool): Result {
    var m := Pruned(m0, now);
    if id !in m.candidates then Quiet(m, ErrNotFound)
    else
      var c := m.candidates[id];
      if c.paired then Quiet(m, Okay)
      else if !saved then Quiet(m.(devices := m.devices - {c.device}), ErrSave)
      else Result(m.(candidates := m.candidates[id := c.(paired := true, completedAt := now)],
                     devices := m.devices[c.device := c.key],
                     pairing := if m.pairing.Some? && m.pairing.value.id == c.session then None else m.pairing),
                  Okay, [Paired(c.session, c.device)])
  }

  function RejectPair(m: Manager, id: nat): Result {
    if id !in m.candidates || m.candidates[id].paired then Quiet(m, NotOk)
    else
      var session := m.candidates[id].session;
      Quiet(m.(candidates := m.candidates - {id},
               pairing := if m.pairing.Some? && m.pairing.value.id == session then None else m.pairing), Okay)
  }

  function AckPair(m: Manager, id: nat): Result {
    if id !in m.candidates || !m.candidates[id].paired then Quiet(m, NotOk)
    else Quiet(m.(candidates := m.candidates - {id}), Okay)
  }

  /** The challenges and tickets go even when the registry cannot be written and the device stays. */
  function Revoke(m: Manager, device: nat, saved: bool): Result {
    if device !in m.devices then Quiet(m, NotOk)
    else
      var m' := m.(challenges := map id | id in m.challenges && m.challenges[id].device != device :: m.challenges[id],
                   tickets := map id | id in m.tickets && m.tickets[id].device != device :: m.tickets[id]);
      if !saved then Quiet(m', NotOk)
      else Result(m'.(devices := m.devices - {device}), Okay, [Revoked(device)])
  }

  function NewChallenge(m0: Manager, device: nat, now: int): Result {
    var m := Pruned(m0, now);
    if device !in m.devices then Quiet(m, ErrUnknown)
    else Quiet(m.(challenges := m.challenges[m.next := Challenge(device, now + CHALLENGE_TTL)], next := m.next + 1), Okay)
  }

  /** The first half of CompleteChallenge. The challenge is gone, whatever comes of it. */
  function TakeChallenge(m: Manager, id: nat, now: int): Result {
    var m' := m.(challenges := m.challenges - {id});
    if id !in m.challenges || now > m.challenges[id].expires then Quiet(m', ErrExpired)
    else
      var device := m.challenges[id].device;
      if device !in m.devices then Quiet(m', ErrUnknown)
      else Quiet(m'.(pending := m.pending[id := (device, m.devices[device])]), Okay)
  }

  /** The second half: the device has to be paired still, with the key that was checked. */
  function FinishChallenge(m: Manager, id: nat, signature: bool): Result {
    if id !in m.pending then Quiet(m, ErrExpired)
    else
      var device, key := m.pending[id].0, m.pending[id].1;
      var m' := m.(pending := m.pending - {id});
      if !signature then Quiet(m', ErrSignature)
      else if device !in m.devices || m.devices[device] != key then Quiet(m', ErrUnknown)
      else Result(m'.(candidates := map c | c in m.candidates && !(m.candidates[c].device == device && m.candidates[c].paired) :: m.candidates[c]),
                  Okay, [Passed(id, device)])
  }

  function IssueTicket(m: Manager, device: nat, now: int): Result {
    Quiet(m.(tickets := m.tickets[m.next := Ticket(device, now + TICKET_TTL)], next := m.next + 1), Okay)
  }

  function VerifyTicket(m0: Manager, id: nat, now: int): Result {
    var m := Pruned(m0, now);
    var m' := m.(tickets := m.tickets - {id});
    if id !in m.tickets || m.tickets[id].device !in m.devices then Quiet(m', NotOk)
    else Result(m', Okay, [Admitted(id, m.tickets[id].device)])
  }

  datatype Op =
    | DoOpen
    | DoClose
    | DoRequest(device: nat, key: nat, credential: bool, now: int)
    | DoConfirm(id: nat, now: int, saved: bool)
    | DoReject(id: nat)
    | DoAck(id: nat)
    | DoPrune(now: int)
    | DoRevoke(device: nat, saved: bool)
    | DoNewChallenge(device: nat, now: int)
    | DoTake(id: nat, now: int)
    | DoFinish(id: nat, signature: bool)
    | DoTicket(device: nat, now: int)
    | DoVerify(id: nat, now: int)

  function Perform(m: Manager, op: Op): Result {
    match op
    case DoOpen => OpenPairing(m)
    case DoClose => ClosePairing(m)
    case DoRequest(device, key, credential, now) => RequestPair(m, device, key, credential, now)
    case DoConfirm(id, now, saved) => ConfirmPair(m, id, now, saved)
    case DoReject(id) => RejectPair(m, id)
    case DoAck(id) => AckPair(m, id)
    case DoPrune(now) => Quiet(Pruned(m, now), Okay)
    case DoRevoke(device, saved) => Revoke(m, device, saved)
    case DoNewChallenge(device, now) => NewChallenge(m, device, now)
    case DoTake(id, now) => TakeChallenge(m, id, now)
    case DoFinish(id, signature) => FinishChallenge(m, id, signature)
    case DoTicket(device, now) => IssueTicket(m, device, now)
    case DoVerify(id, now) => VerifyTicket(m, id, now)
  }

  // ---- What every step keeps ----------------------------------------------------------------------

  /** An unpaired candidate is the one the open session names, and its device is not paired. */
  predicate CandidateOk(m: Manager, id: nat)
    requires id in m.candidates
  {
    && id < m.next
    && (!m.candidates[id].paired ==>
          && m.pairing.Some? && m.pairing.value.candidate == Some(id) && m.pairing.value.id == m.candidates[id].session
          && m.candidates[id].device !in m.devices)
  }

  predicate SessionOk(m: Manager) {
    m.pairing.Some? ==> m.pairing.value.attempts < MAX_ATTEMPTS && m.pairing.value.id < m.next
  }

  predicate Shape(m: Manager) {
    && SessionOk(m)
    && (forall id :: id in m.candidates ==> CandidateOk(m, id))
    && (forall id :: id in m.challenges ==> id < m.next && id !in m.pending)
    && (forall id :: id in m.tickets ==> id < m.next)
    && (forall id :: id in m.pending ==> id < m.next)
  }

  /** The identifier the event used up cannot be used again. */
  predicate Spent(m: Manager, e: Event) {
    match e
    case Paired(session, _) =>
      && session < m.next && (m.pairing.Some? ==> m.pairing.value.id != session)
    case Passed(challenge, _) => challenge < m.next && challenge !in m.challenges && challenge !in m.pending
    case Admitted(ticket, _) => ticket < m.next && ticket !in m.tickets
    case Revoked(_) => true
  }

  /** What the event needed was there before it. */
  predicate Live(m: Manager, e: Event) {
    match e
    case Paired(session, _) => m.pairing.Some? && m.pairing.value.id == session
    case Passed(challenge, _) => challenge in m.pending
    case Admitted(ticket, _) => ticket in m.tickets
    case Revoked(_) => true
  }

  /** Nothing that could be used up comes back; what is new has a new identifier. */
  predicate Later(m: Manager, m': Manager) {
    && m.next <= m'.next
    && (m'.pairing.Some? ==> (m.pairing.Some? && m'.pairing.value.id == m.pairing.value.id) || m.next <= m'.pairing.value.id)
    && (forall id :: id in m'.challenges ==> id in m.challenges || m.next <= id)
    && (forall id :: id in m'.pending ==> id in m.pending || id in m.challenges || m.next <= id)
    && (forall id :: id in m'.tickets ==> id in m.tickets || m.next <= id)
  }

  predicate StepOk(m: Manager, r: Result) {
    && Shape(r.manager) && Later(m, r.manager) && |r.events| <= 1
    && (r.events != [] ==> Live(m, r.events[0]) && Spent(r.manager, r.events[0]))
  }

  lemma SpentStays(m: Manager, m': Manager, e: Event)
    requires Spent(m, e) && Later(m, m')
    ensures Spent(m', e)
  {
  }

  lemma PrunedKeeps(m: Manager, now: int)
    requires Shape(m)
    ensures Shape(Pruned(m, now)) && Later(m, Pruned(m, now))
  {
    var m' := Pruned(m, now);
    forall id | id in m'.candidates ensures CandidateOk(m', id) {
      assert CandidateOk(m, id);
    }
  }

  lemma WithoutSessionKeeps(m: Manager)
    requires Shape(m) && m.pairing.Some?
    ensures Shape(WithoutSession(m)) && Later(m, WithoutSession(m))
  {
    var m' := WithoutSession(m);
    forall id | id in m'.candidates ensures CandidateOk(m', id) {
      assert CandidateOk(m, id);
    }
  }

  lemma OpenKeeps(m: Manager)
    requires Shape(m)
    ensures StepOk(m, OpenPairing(m))
  {
    var m' := OpenPairing(m).manager;
    forall id | id in m'.candidates ensures CandidateOk(m', id) {
      assert CandidateOk(m, id);
    }
  }

  lemma NewCandidateKeeps(m: Manager, device: nat, key: nat)
    requires Shape(m) && m.pairing.Some? && m.pairing.value.candidate.None? && device !in m.devices
    ensures var session := m.pairing.value;
            var m' := m.(candidates := m.candidates[m.next := Candidate(device, key, session.id, false, 0)],
                         pairing := Some(session.(candidate := Some(m.next))), next := m.next + 1);
            Shape(m') && Later(m, m')
  {
    var session := m.pairing.value;
    var m' := m.(candidates := m.candidates[m.next := Candidate(device, key, session.id, false, 0)],
                 pairing := Some(session.(candidate := Some(m.next))), next := m.next + 1);
    forall id | id in m'.candidates ensures CandidateOk(m', id) {
      if id != m.next {
        assert CandidateOk(m, id);
      }
    }
  }

  lemma FailedKeeps(m: Manager)
    requires Shape(m) && m.pairing.Some? && m.pairing.value.attempts + 1 < MAX_ATTEMPTS
    ensures var session := m.pairing.value;
            var m' := m.(pairing := Some(session.(attempts := session.attempts + 1)));
            Shape(m') && Later(m, m')
  {
    var session := m.pairing.value;
    var m' := m.(pairing := Some(session.(attempts := session.attempts + 1)));
    forall id | id in m'.candidates ensures CandidateOk(m', id) {
      assert CandidateOk(m, id);
    }
  }

  lemma LaterJoin(a: Manager, b: Manager, c: Manager)
    requires Later(a, b) && Later(b, c)
    ensures Later(a, c)
  {
  }

  lemma RequestedKeeps(m: Manager, device: nat, key: nat, credential: bool)
    requires Shape(m)
    ensures StepOk(m, Requested(m, device, key, credential))
  {
    if m.pairing.Some? {
      if !credential {
        if m.pairing.value.attempts + 1 < MAX_ATTEMPTS {
          FailedKeeps(m);
        } else {
          WithoutSessionKeeps(m);
        }
      } else if m.pairing.value.candidate.None? && device !in m.devices {
        NewCandidateKeeps(m, device, key);
      }
    }
  }

  lemma RequestKeeps(m: Manager, device: nat, key: nat, credential: bool, now: int)
    requires Shape(m)
    ensures StepOk(m, RequestPair(m, device, key, credential, now))
  {
    var p := Pruned(m, now);
    PrunedKeeps(m, now);
    RequestedKeeps(p, device, key, credential);
    LaterJoin(m, p, Requested(p, device, key, credential).manager);
  }

  lemma ConfirmKeeps(m: Manager, id: nat, now: int, saved: bool)
    requires Shape(m)
    ensures StepOk(m, ConfirmPair(m, id, now, saved))
  {
    var p, r := Pruned(m, now), ConfirmPair(m, id, now, saved);
    PrunedKeeps(m, now);
    if id in p.candidates && !p.candidates[id].paired {
      assert CandidateOk(p, id);
      forall c | c in r.manager.candidates ensures CandidateOk(r.manager, c) {
        assert CandidateOk(p, c);
      }
    }
  }

  lemma RejectKeeps(m: Manager, id: nat)
    requires Shape(m)
    ensures StepOk(m, RejectPair(m, id))
  {
    var m' := RejectPair(m, id).manager;
    if id in m.candidates {
      assert CandidateOk(m, id);
    }
    forall c | c in m'.candidates ensures CandidateOk(m', c) {
      assert CandidateOk(m, c);
    }
  }

  lemma AckKeeps(m: Manager, id: nat)
    requires Shape(m)
    ensures StepOk(m, AckPair(m, id))
  {
    SameCandidates(m, AckPair(m, id).manager);
  }

  lemma RevokeKeeps(m: Manager, device: nat, saved: bool)
    requires Shape(m)
    ensures StepOk(m, Revoke(m, device, saved))
  {
    var m' := Revoke(m, device, saved).manager;
    forall c | c in m'.candidates ensures CandidateOk(m', c) {
      assert CandidateOk(m, c);
    }
  }

  /** The operations that leave the session alone. */
  lemma SameCandidates(m: Manager, m': Manager)
    requires Shape(m) && m'.pairing == m.pairing && m'.devices == m.devices && m.next <= m'.next
    requires forall id :: id in m'.candidates ==> id in m.candidates && m'.candidates[id] == m.candidates[id]
    ensures SessionOk(m') && forall id :: id in m'.candidates ==> CandidateOk(m', id)
  {
    forall id | id in m'.candidates ensures CandidateOk(m', id) {
      assert CandidateOk(m, id);
    }
  }

  lemma NewChallengeKeeps(m: Manager, device: nat, now: int)
    requires Shape(m)
    ensures StepOk(m, NewChallenge(m, device, now))
  {
    PrunedKeeps(m, now);
    SameCandidates(Pruned(m, now), NewChallenge(m, device, now).manager);
  }

  lemma TakeKeeps(m: Manager, id: nat, now: int)
    requires Shape(m)
    ensures StepOk(m, TakeChallenge(m, id, now))
  {
    SameCandidates(m, TakeChallenge(m, id, now).manager);
  }

  lemma FinishKeeps(m: Manager, id: nat, signature: bool)
    requires Shape(m)
    ensures StepOk(m, FinishChallenge(m, id, signature))
  {
    SameCandidates(m, FinishChallenge(m, id, signature).manager);
  }

  lemma IssueKeeps(m: Manager, device: nat, now: int)
    requires Shape(m)
    ensures StepOk(m, IssueTicket(m, device, now))
  {
    SameCandidates(m, IssueTicket(m, device, now).manager);
  }

  lemma VerifyKeeps(m: Manager, id: nat, now: int)
    requires Shape(m)
    ensures StepOk(m, VerifyTicket(m, id, now))
  {
    PrunedKeeps(m, now);
    SameCandidates(Pruned(m, now), VerifyTicket(m, id, now).manager);
  }

  lemma PerformKeeps(m: Manager, op: Op)
    requires Shape(m)
    ensures StepOk(m, Perform(m, op))
  {
    match op
    case DoOpen => OpenKeeps(m);
    case DoClose => if m.pairing.Some? { WithoutSessionKeeps(m); }
    case DoRequest(device, key, credential, now) => RequestKeeps(m, device, key, credential, now);
    case DoConfirm(id, now, saved) => ConfirmKeeps(m, id, now, saved);
    case DoReject(id) => RejectKeeps(m, id);
    case DoAck(id) => AckKeeps(m, id);
    case DoPrune(now) => PrunedKeeps(m, now);
    case DoRevoke(device, saved) => RevokeKeeps(m, device, saved);
    case DoNewChallenge(device, now) => NewChallengeKeeps(m, device, now);
    case DoTake(id, now) => TakeKeeps(m, id, now);
    case DoFinish(id, signature) => FinishKeeps(m, id, signature);
    case DoTicket(device, now) => IssueKeeps(m, device, now);
    case DoVerify(id, now) => VerifyKeeps(m, id, now);
  }

  // ---- Whole runs --------------------------------------------------------------------------------

  /** The devices paired at the start are in the registry file. */
  function Start(devices: map<nat, nat>): Manager {
    Manager(devices, map[], map[], map[], None, map[], 0)
  }

  datatype Trace = Trace(manager: Manager, log: seq<Event>)

  function Run(devices: map<nat, nat>, ops: seq<Op>): Trace {
    if ops == [] then Trace(Start(devices), [])
    else
      var t := Run(devices, ops[..|ops| - 1]);
      var r := Perform(t.manager, ops[|ops| - 1]);
      Trace(r.manager, t.log + r.events)
  }

  /** One session pairs one device, one challenge and one ticket let in once. */
  predicate Distinct(a: Event, b: Event) {
    && (a.Paired? && b.Paired? ==> a.session != b.session)
    && (a.Passed? && b.Passed? ==> a.challenge != b.challenge)
    && (a.Admitted? && b.Admitted? ==> a.ticket != b.ticket)
  }

  /** Whether a device counts as paired, from the log alone: its latest pairing or revocation decides. */
  predicate PairedByLog(devices: map<nat, nat>, log: seq<Event>, device: nat) {
    if log == [] then device in devices
    else
      var e := log[|log| - 1];
      if e.Paired? && e.device == device then true
      else if e.Revoked? && e.device == device then false
      else PairedByLog(devices, log[..|log| - 1], device)
  }

  /** A device that passes a challenge or is admitted by a ticket is paired at that time. */
  predicate Backed(devices: map<nat, nat>, log: seq<Event>, k: nat)
    requires k < |log|
  {
    log[k].Passed? || log[k].Admitted? ==> PairedByLog(devices, log[..k], log[k].device)
  }

  ghost predicate Good(devices: map<nat, nat>, t: Trace) {
    && Shape(t.manager)
    && (forall i :: 0 <= i < |t.log| ==> Spent(t.manager, t.log[i]))
    && (forall i, j :: 0 <= i < j < |t.log| ==> Distinct(t.log[i], t.log[j]))
    && (forall d :: d in t.manager.devices <==> PairedByLog(devices, t.log, d))
    && (forall k :: 0 <= k < |t.log| ==> Backed(devices, t.log, k))
  }

  lemma LiveIsNew(m: Manager, old_: Event, e: Event)
    requires Spent(m, old_) && Live(m, e)
    ensures Distinct(old_, e)
  {
  }

  /** What an event says of the registry. */
  predicate Follows(before: set<nat>, events: seq<Event>, after: set<nat>) {
    if events == [] then after == before
    else match events[0]
      case Paired(_, d) => after == before + {d}
      case Revoked(d) => after == before - {d}
      case Passed(_, d) => after == before && d in before
      case Admitted(_, d) => after == before && d in before
  }

  lemma ConfirmFollows(m: Manager, id: nat, now: int, saved: bool)
    requires Shape(m)
    ensures var r := ConfirmPair(m, id, now, saved); Follows(m.devices.Keys, r.events, r.manager.devices.Keys)
  {
    var p := Pruned(m, now);
    PrunedKeeps(m, now);
    if id in p.candidates {
      assert CandidateOk(p, id);
    }
  }

  /** How a step changes the registry is what its event says. */
  lemma DevicesFollow(m: Manager, op: Op)
    requires Shape(m)
    ensures var r := Perform(m, op); Follows(m.devices.Keys, r.events, r.manager.devices.Keys)
  {
    if op.DoConfirm? {
      ConfirmFollows(m, op.id, op.now, op.saved);
    }
  }

  lemma LogAppend(devices: map<nat, nat>, log: seq<Event>, e: Event, d: nat)
    ensures PairedByLog(devices, log + [e], d) ==
            if e.Paired? && e.device == d then true else if e.Revoked? && e.device == d then false else PairedByLog(devices, log, d)
  {
    assert (log + [e])[..|log|] == log;
  }

  lemma StepGood(devices: map<nat, nat>, t: Trace, op: Op)
    requires Good(devices, t)
    ensures var r := Perform(t.manager, op); Good(devices, Trace(r.manager, t.log + r.events))
  {
    var m, log := t.manager, t.log;
    var r := Perform(m, op);
    PerformKeeps(m, op);
    DevicesFollow(m, op);
    if r.events == [] {
      assert log + r.events == log;
      forall i | 0 <= i < |log| ensures Spent(r.manager, log[i]) {
        SpentStays(m, r.manager, log[i]);
      }
    } else {
      EventGood(devices, t, r.events[0], r.manager);
      assert r.events == [r.events[0]];
    }
  }

  lemma AllSpent(t: Trace, e: Event, m': Manager)
    requires Later(t.manager, m') && Spent(m', e)
    requires forall i :: 0 <= i < |t.log| ==> Spent(t.manager, t.log[i])
    ensures forall i :: 0 <= i < |t.log + [e]| ==> Spent(m', (t.log + [e])[i])
  {
    forall i | 0 <= i < |t.log + [e]| ensures Spent(m', (t.log + [e])[i]) {
      if i < |t.log| {
        SpentStays(t.manager, m', t.log[i]);
      }
    }
  }

  lemma AllDistinct(t: Trace, e: Event)
    requires Live(t.manager, e)
    requires forall i :: 0 <= i < |t.log| ==> Spent(t.manager, t.log[i])
    requires forall i, j :: 0 <= i < j < |t.log| ==> Distinct(t.log[i], t.log[j])
    ensures forall i, j :: 0 <= i < j < |t.log + [e]| ==> Distinct((t.log + [e])[i], (t.log + [e])[j])
  {
    forall i, j | 0 <= i < j < |t.log + [e]| ensures Distinct((t.log + [e])[i], (t.log + [e])[j]) {
      if j < |t.log| {
        assert Distinct(t.log[i], t.log[j]);
      } else {
        LiveIsNew(t.manager, t.log[i], e);
      }
    }
  }

  lemma AllByLog(devices: map<nat, nat>, t: Trace, e: Event, m': Manager)
    requires Follows(t.manager.devices.Keys, [e], m'.devices.Keys)
    requires forall d :: d in t.manager.devices <==> PairedByLog(devices, t.log, d)
    ensures forall d :: d in m'.devices <==> PairedByLog(devices, t.log + [e], d)
  {
    forall d: nat ensures d in m'.devices <==> PairedByLog(devices, t.log + [e], d) {
      LogAppend(devices, t.log, e, d);
      assert d in m'.devices.Keys <==> d in m'.devices;
    }
  }

  lemma AllBacked(devices: map<nat, nat>, t: Trace, e: Event, m': Manager)
    requires Follows(t.manager.devices.Keys, [e], m'.devices.Keys)
    requires forall d :: d in t.manager.devices <==> PairedByLog(devices, t.log, d)
    requires forall k :: 0 <= k < |t.log| ==> Backed(devices, t.log, k)
    ensures forall k :: 0 <= k < |t.log + [e]| ==> Backed(devices, t.log + [e], k)
  {
    forall k | 0 <= k < |t.log + [e]| ensures Backed(devices, t.log + [e], k) {
      if k < |t.log| {
        assert Backed(devices, t.log, k) && (t.log + [e])[..k] == t.log[..k];
      } else {
        assert (t.log + [e])[..k] == t.log;
      }
    }
  }

  lemma EventGood(devices: map<nat, nat>, t: Trace, e: Event, m': Manager)
    requires Good(devices, t) && Shape(m') && Later(t.manager, m') && Live(t.manager, e) && Spent(m', e)
    requires Follows(t.manager.devices.Keys, [e], m'.devices.Keys)
    ensures Good(devices, Trace(m', t.log + [e]))
  {
    AllSpent(t, e, m');
    AllDistinct(t, e);
    AllByLog(devices, t, e, m');
    AllBacked(devices, t, e, m');
  }

  /**
    * In every run: an unpaired candidate is the one the open session names; an open
    * session has fewer than five failed attempts; no session pairs two devices; no
    * challenge and no ticket lets in twice; and whatever passes a challenge or is
    * admitted by a ticket is a device whose latest pairing is after its latest revocation.
    */
  lemma {:induction false} RunGood(devices: map<nat, nat>, ops: seq<Op>)
    ensures Good(devices, Run(devices, ops))
    decreases |ops|
  {
    if ops != [] {
      RunGood(devices, ops[..|ops| - 1]);
      StepGood(devices, Run(devices, ops[..|ops| - 1]), ops[|ops| - 1]);
    }
  }
}
