/** The touch lane's worker, whose steps are those of `TouchContacts`. */
module TouchInputs {
  import opened Options
  import opened TouchContacts

  lemma IdsOfSnoc(points: seq<Point>, i: nat)
    requires i < |points|
    ensures IdsOf(points[..i + 1]) == IdsOf(points[..i]) + {points[i].id}
  {
    var a, b := points[..i], points[..i + 1];
    forall x | x in IdsOf(b) ensures x in IdsOf(a) + {points[i].id} {
      var k :| 0 <= k < |b| && b[k].id == x;
      assert k < i ==> a[k].id == x;
    }
    forall x | x in IdsOf(a) + {points[i].id} ensures x in IdsOf(b) {
      if x in IdsOf(a) {
        var k :| 0 <= k < |a| && a[k].id == x;
        assert b[k].id == x;
      } else {
        assert b[i].id == x;
      }
    }
  }

  class TouchInput {
    var owner: Option<nat>
    var session: nat
    var surface: nat
    var lastSeq: nat
    var lastClientNS: nat
    var active: map<int, Point>
    var browserIds: map<int, int>
    ghost var sent: seq<Event>

    ghost function State(): Contacts
      reads this
    {
      Contacts(owner, session, surface, lastSeq, lastClientNS, active, browserIds)
    }

    constructor ()
      ensures State() == Idle && sent == []
    {
      owner, session, surface, lastSeq, lastClientNS, active, browserIds := None, 0, 0, 0, 0, map[], map[];
      sent := [];
    }

    method Reset()
      modifies this`owner, this`session, this`surface, this`lastSeq, this`lastClientNS, this`active, this`browserIds
      ensures State() == Idle && sent == old(sent)
    {
      owner, session, surface, lastSeq, lastClientNS, active, browserIds := None, 0, 0, 0, 0, map[], map[];
    }

    /** addBrowserTouchID: the lowest free number, kept while the contact lives. */
    method AddBrowserTouchId(id: int) returns (ok: bool)
      modifies this`browserIds
      ensures var r := AddId(old(browserIds), id); ok == r.Some? && browserIds == if ok then r.value else old(browserIds)
    {
      if id in browserIds {
        return true;
      }
      var used := browserIds.Values;
      for k := 0 to MAX_CONTACTS
        invariant browserIds == old(browserIds) && LowestFree(used, 0) == LowestFree(used, k)
      {
        if k !in used {
          browserIds := browserIds[id := k];
          return true;
        }
      }
      return false;
    }

    method CancelContacts(delivered: bool)
      modifies this
      ensures var o := CancelActive(old(State()), delivered); State() == o.contacts && sent == old(sent) + o.sent
    {
      if owner.Some? && session != 0 && active != map[] && delivered {
        sent := sent + [TouchCancel];
      }
      Reset();
    }

    /** The first loop over the points. */
    method AdmitPoints(command: Command) returns (ok: bool)
      modifies this`browserIds
      ensures var r := Admit(command.phase, active.Keys, command.points, {}, old(browserIds));
              ok == r.Some? && (ok ==> browserIds == r.value)
    {
      var points := command.points;
      var seen: set<int> := {};
      assert points[0..] == points;
      for i := 0 to |points|
        invariant Admit(command.phase, active.Keys, points, {}, old(browserIds)) == Admit(command.phase, active.Keys, points[i..], seen, browserIds)
      {
        var id := points[i].id;
        assert points[i..][0] == points[i] && points[i..][1..] == points[i + 1..];
        if id in seen || (command.phase == Start) == (id in active) {
          return false;
        }
        seen := seen + {id};
        if command.phase == Start {
          var added := AddBrowserTouchId(id);
          if !added {
            return false;
          }
        }
      }
      return true;
    }

    /** The second loop over the points. */
    method MapPoints(points: seq<Point>) returns (ok: bool, ids: seq<int>)
      ensures ok == Mappable(points, browserIds) && (ok ==> ids == BrowserIds(points, browserIds))
    {
      ids := [];
      for i := 0 to |points|
        invariant |ids| == i
        invariant forall k :: 0 <= k < i ==> points[k].id in browserIds && UnitPoint(points[k])
        invariant forall k :: 0 <= k < i ==> ids[k] == browserIds[points[k].id]
      {
        if points[i].id !in browserIds || !UnitPoint(points[i]) {
          return false, ids;
        }
        ids := ids + [browserIds[points[i].id]];
      }
      return true, ids;
    }

    /** The loop that takes a dispatched command's points over. */
    method StorePoints(command: Command)
      requires command.phase != Cancel
      modifies this`active, this`browserIds
      ensures active == if command.phase == End then old(active) - IdsOf(command.points) else Store(old(active), command.points)
      ensures browserIds == if command.phase == End then old(browserIds) - IdsOf(command.points) else old(browserIds)
    {
      var points := command.points;
      assert points[0..] == points && points[..|points|] == points;
      for i := 0 to |points|
        invariant command.phase == End ==>
                    active == old(active) - IdsOf(points[..i]) && browserIds == old(browserIds) - IdsOf(points[..i])
        invariant command.phase != End ==> Store(old(active), points) == Store(active, points[i..]) && browserIds == old(browserIds)
      {
        IdsOfSnoc(points, i);
        if command.phase == End {
          active := active - {points[i].id};
          browserIds := browserIds - {points[i].id};
        } else {
          assert points[i..][0] == points[i] && points[i..][1..] == points[i + 1..];
          active := active[points[i].id := points[i]];
        }
      }
    }

    /** What process does once the event has been dispatched. */
    method Accept(command: Command)
      modifies this`owner, this`session, this`surface, this`lastSeq, this`lastClientNS, this`active, this`browserIds
      ensures State() == Accepted(old(State()), command, old(browserIds)) && sent == old(sent)
    {
      lastSeq, lastClientNS := command.sequence, command.timestamp;
      if command.phase != Cancel {
        StorePoints(command);
      }
      if command.phase == Cancel || active == map[] {
        Reset();
      }
    }

    /** process behind the ownership checks. */
    method DeliverCommand(command: Command, env: Surroundings)
      requires ValidCommand(command)
      modifies this
      ensures var o := Deliver(old(State()), command, env); State() == o.contacts && sent == old(sent) + o.sent
    {
      ghost var c := State();
      var admitted := AdmitPoints(command);
      if !admitted || (command.phase == Move && |command.points| != |active|) {
        CancelContacts(env.dispatch);
        return;
      }
      var mapped, ids := MapPoints(command.points);
      if !mapped {
        CancelContacts(env.dispatch);
        return;
      }
      if command.phase == End && |command.points| == |active| {
        ids := [];
      }
      if !env.dispatch {
        Reset();
        return;
      }
      sent := sent + [PhaseEvent(command.phase, ids)];
      Accept(command);
    }

    method ProcessWork(client: nat, command: Command, env: Surroundings)
      modifies this
      ensures var o := Process(old(State()), client, command, env); State() == o.contacts && sent == old(sent) + o.sent
    {
      if env.suspended {
        return;
      }
      if !ValidCommand(command) || env.closed || env.session == 0 || env.surface != command.surface {
        CancelContacts(env.dispatch);
        return;
      }
      if owner.None? {
        if command.phase != Start || !env.firstViewport {
          return;
        }
        owner, session, surface := Some(client), env.session, env.surface;
        active, browserIds, lastSeq := map[], map[], 0;
      }
      if owner != Some(client) || session != env.session || surface != env.surface || command.sequence <= lastSeq {
        CancelContacts(env.dispatch);
        return;
      }
      if lastClientNS != 0 && command.timestamp < lastClientNS {
        CancelContacts(env.dispatch);
        return;
      }
      if (|active| > 1 || (command.phase == Start && |active| + |command.points| > 1)) && !env.viewport {
        CancelContacts(env.dispatch);
        return;
      }
      DeliverCommand(command, env);
    }
  }
}
