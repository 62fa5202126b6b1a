/** The manager of sessions and the use cases above it, each method running without interruption. */
module TableService {
  import opened Options
  import opened Merger
  import opened TableState
  import opened TableInvariants
  import opened TableSession
  import C = TableConnections
  import T = TableTimeout

  class TableManager {
    var sessions: map<T.SessionID, Session>
    ghost var refused: set<Conn> // connections closed without ever being registered

    constructor ()
      ensures sessions == map[] && refused == {}
    {
      sessions, refused := map[], {};
    }

    method CreateSession(id: T.SessionID, adminID: int, data: Json)
      modifies this`sessions
      ensures sessions.Keys == old(sessions).Keys + {id}
      ensures fresh(sessions[id]) && sessions[id].AsState() == Opened(adminID, data)
      ensures forall other | other in old(sessions) && other != id :: sessions[other] == old(sessions)[other]
    {
      var s := new Session(adminID, data);
      sessions := sessions[id := s];
    }

    /** Removes every participant, even when the announcements drop some of them on the way. */
    method RemoveSession(id: T.SessionID)
      requires id in sessions ==> !sessions[id].locked && Slots(sessions[id].AsState())
      modifies this`sessions, if id in sessions then {sessions[id]} else {}
      ensures sessions == old(sessions) - {id}
      ensures id in old(sessions) ==> TornDown(old(sessions[id].AsState()), old(sessions)[id].AsState())
    {
      if id !in sessions {
        return;
      }
      var s := sessions[id];
      ghost var before := s.AsState();
      var keys := s.participants.Keys;
      while s.participants.Keys * keys != {}
        invariant !s.locked && s.participants.Keys <= keys
        invariant sessions == old(sessions)
        invariant TornFrom(before, s.AsState())
        decreases s.participants.Keys
      {
        SomeMember(s.participants.Keys * keys);
        var key :| key in s.participants.Keys * keys;
        var failing: set<Conn> := *;
        TearMore(before, s.AsState(), key, failing);
        s.RemoveParticipant(key, failing);
      }
      assert s.participants.Keys == {};
      assert PlayerIDs(s.participants) == {};
      sessions := sessions - {id};
    }

    method GetEncounterData(id: T.SessionID) returns (data: Option<Json>)
      requires id in sessions ==> !sessions[id].locked
      ensures data == if id in sessions then sessions[id].encounterData else None
    {
      if id !in sessions {
        return None;
      }
      return sessions[id].encounterData;
    }

    /**
     watched: whether refreshCallback still finds the session's timer; otherwise it panics.
     A connection is refused, that is answered and closed, for an unknown session, a user who has an
     entry, or a full table.
     */
    method AddNewConnection(id: T.SessionID, user: int, name: string, conn: Conn, watched: bool,
                            failingInfo: set<Conn>, failingFirst: set<Conn>) returns (stage: C.Stage)
      requires id in sessions ==> !sessions[id].locked
      modifies this`refused, if id in sessions then {sessions[id]} else {}
      ensures refused == if stage == C.Refused then old(refused) + {conn} else old(refused)
      ensures stage == C.Refused <==>
        || id !in sessions
        || user in old(sessions[id].participants)
        || (user != sessions[id].adminID && old(sessions[id].playersNum) == MAX_PLAYERS)
      ensures id in sessions ==>
        var t := Joined(old(sessions[id].AsState()), user, name, conn, watched, failingInfo, failingFirst);
        && conn in t.attempts && stage == t.attempts[conn].stage && sessions[id].AsState() == t.session
        && (conn in t.refused <==> stage == C.Refused)
    {
      if id !in sessions {
        refused := refused + {conn};
        return C.Refused;
      }
      var s := sessions[id];
      JoinedCases(s.AsState(), user, name, conn, watched, failingInfo, failingFirst);
      JoinedRefused(s.AsState(), user, name, conn, watched, failingInfo, failingFirst);
      var present := s.CheckUser(user);
      if present {
        refused := refused + {conn};
        return C.Refused;
      }
      if user == s.adminID {
        s.AddAdmin(name, conn, failingInfo);
      } else {
        var added := s.AddParticipant(user, name, conn, failingInfo);
        if !added {
          refused := refused + {conn};
          return C.Refused;
        }
      }
      if !watched {
        return C.Panicked;
      }
      var panicked := s.WriteFirstMsg(user, failingFirst);
      return if panicked then C.Panicked else C.Returned;
    }
  }

  /** AddNewConnection's events one after the other, from a session in state s. */
  function Joined(s: State, user: int, name: string, conn: Conn, watched: bool,
                  failingInfo: set<Conn>, failingFirst: set<Conn>): C.Table
  {
    var t := C.Next(C.Table(s, map[], {}), C.Arrive(conn, user, name));
    C.Next(C.Next(C.Next(t, C.Enter(conn)), C.Tell(conn, failingInfo)), C.Greet(conn, watched, failingFirst))
  }

  /** The state after the joining section. */
  function Entered(s: State, user: int, name: string, conn: Conn): State {
    if user == s.adminID then AddAdmin(s, name, conn) else AddParticipant(s, user, name, conn)
  }

  lemma JoinedCases(s: State, user: int, name: string, conn: Conn, watched: bool,
                    failingInfo: set<Conn>, failingFirst: set<Conn>)
    requires !s.locked
    ensures
      var t := Joined(s, user, name, conn, watched, failingInfo, failingFirst);
      var entered := Entered(s, user, name, conn);
      var told := Announce(entered, failingInfo);
      conn in t.attempts && (t.session, t.attempts[conn].stage) ==
        if user in s.participants then (s, C.Refused)
        else if entered.locked then (entered, C.Refused)
        else if !watched then (told, C.Panicked)
        else (FirstMessage(told, user, failingFirst), if user in told.participants then C.Returned else C.Panicked)
  {
    var t1 := C.Next(C.Table(s, map[], {}), C.Arrive(conn, user, name));
    if user in s.participants {
      assert t1.session == s && C.At(t1, conn, C.Refused);
    } else {
      EnteredCases(t1, conn, name, watched, failingInfo, failingFirst);
    }
  }

  lemma EnteredCases(t1: C.Table, conn: Conn, name: string, watched: bool, failingInfo: set<Conn>,
                     failingFirst: set<Conn>)
    requires !t1.session.locked && C.At(t1, conn, C.Checked) && t1.attempts[conn].name == name
    ensures
      var t2 := C.Next(t1, C.Enter(conn));
      var t := C.Next(C.Next(t2, C.Tell(conn, failingInfo)), C.Greet(conn, watched, failingFirst));
      var user := t1.attempts[conn].user;
      var entered := Entered(t1.session, user, name, conn);
      var told := Announce(entered, failingInfo);
      conn in t.attempts && (t.session, t.attempts[conn].stage) ==
        if entered.locked then (entered, C.Refused)
        else if !watched then (told, C.Panicked)
        else (FirstMessage(told, user, failingFirst), if user in told.participants then C.Returned else C.Panicked)
  {
    var t2 := C.Next(t1, C.Enter(conn));
    var user := t1.attempts[conn].user;
    assert t2.session == Entered(t1.session, user, name, conn);
    assert C.At(t2, conn, if t2.session.locked then C.Refused else C.Registered) && t2.attempts[conn].user == user;
    if !t2.session.locked {
      var t3 := C.Next(t2, C.Tell(conn, failingInfo));
      assert t3.session == Announce(t2.session, failingInfo);
      assert C.At(t3, conn, C.Announced) && t3.attempts[conn].user == user;
    }
  }

  /** The connections of a table that AddNewConnection closed itself are those it refused. */
  ghost predicate RefusedClosed(t: C.Table) {
    forall conn | conn in t.attempts :: conn in t.refused <==> t.attempts[conn].stage == C.Refused
  }

  lemma NextRefused(t: C.Table, e: C.Event)
    requires RefusedClosed(t) && t.refused <= t.attempts.Keys
    ensures RefusedClosed(C.Next(t, e)) && C.Next(t, e).refused <= C.Next(t, e).attempts.Keys
  {
  }

  lemma JoinedRefused(s: State, user: int, name: string, conn: Conn, watched: bool,
                      failingInfo: set<Conn>, failingFirst: set<Conn>)
    ensures RefusedClosed(Joined(s, user, name, conn, watched, failingInfo, failingFirst))
  {
    var t0 := C.Table(s, map[], {});
    var t1 := C.Next(t0, C.Arrive(conn, user, name));
    var t2 := C.Next(t1, C.Enter(conn));
    NextRefused(t0, C.Arrive(conn, user, name));
    NextRefused(t1, C.Enter(conn));
    NextRefused(t2, C.Tell(conn, failingInfo));
    NextRefused(C.Next(t2, C.Tell(conn, failingInfo)), C.Greet(conn, watched, failingFirst));
  }

  /** Nobody is left, everybody who was there is closed, and only lost slots are still counted. */
  predicate TornDown(before: State, s: State) {
    && s.participants == map[] && !s.locked
    && Conns(before.participants) <= s.history.closed
    && s.playersNum == s.history.lost
    && s.history.received == before.history.received && s.data == before.data
  }

  /** s comes from before by removals and announcements: who is gone is closed. */
  predicate TornFrom(before: State, s: State) {
    && Slots(s) && s.adminID == before.adminID
    && s.data == before.data && s.history.received == before.history.received
    && forall id | id in before.participants ::
      || (id in s.participants && s.participants[id] == before.participants[id])
      || before.participants[id].conn in s.history.closed
  }

  lemma TearMore(before: State, s: State, key: int, failing: set<Conn>)
    requires TornFrom(before, s) && !s.locked && key in s.participants
    ensures TornFrom(before, Announce(Remove(s, key), failing))
    ensures !Announce(Remove(s, key), failing).locked
    ensures Announce(Remove(s, key), failing).participants.Keys <= s.participants.Keys - {key}
  {
    var r := Remove(s, key);
    StepSlots(s, Removing(key));
    StepSlots(r, Announcing(failing));
    C.StepEntries(s, Removing(key));
    C.StepEntries(r, Announcing(failing));
  }

  class TableUsecases {
    const manager: TableManager
    var watched: set<T.SessionID>
    var armed: set<T.SessionID> // the watched timers that run
    ghost var stored: seq<(T.SessionID, Option<Json>)>

    constructor (manager: TableManager)
      ensures this.manager == manager && watched == {} && armed == {} && stored == []
    {
      this.manager, watched, armed, stored := manager, {}, {}, [];
    }

    ghost function AsTables(): T.Tables
      reads this, manager, manager.sessions.Values
    {
      T.Tables(map id | id in manager.sessions :: manager.sessions[id].AsState(), manager.sessions.Keys, {}, watched,
               armed, map[], stored)
    }

    /** Only the owner of the encounter may open a session for it. */
    method CreateSession(adminID: int, encounter: Option<(int, Json)>, newID: T.SessionID)
      returns (id: Option<T.SessionID>)
      requires newID !in manager.sessions && this as object != manager
      modifies this, manager`sessions
      ensures id.Some? <==> encounter.Some? && encounter.value.0 == adminID
      ensures id.None? ==> watched == old(watched) && armed == old(armed) && manager.sessions == old(manager.sessions)
      ensures id.Some? ==>
        && id.value == newID && newID in manager.sessions
        && manager.sessions[newID].AsState() == Opened(adminID, encounter.value.1)
        && watched == old(watched) + {newID} && armed == old(armed) + {newID}
        && manager.sessions.Keys == old(manager.sessions).Keys + {newID}
      ensures stored == old(stored)
    {
      if encounter.None? || encounter.value.0 != adminID {
        return None;
      }
      manager.CreateSession(newID, adminID, encounter.value.1);
      watched, armed := watched + {newID}, armed + {newID};
      return Some(newID);
    }

    /** A join that is not refused resets the session's timer; the reset and the first message do not meet. */
    method AddNewConnection(id: T.SessionID, user: int, name: string, conn: Conn,
                            failingInfo: set<Conn>, failingFirst: set<Conn>) returns (stage: C.Stage)
      requires id in manager.sessions ==> !manager.sessions[id].locked
      requires this as object != manager
      modifies this`armed, manager`refused, if id in manager.sessions then {manager.sessions[id]} else {}
      ensures armed == if stage == C.Refused || id !in watched then old(armed) else old(armed) + {id}
      ensures stage != C.Refused ==> id in manager.sessions && (id !in watched ==> stage == C.Panicked)
      ensures id in manager.sessions ==>
        var before := old(manager.sessions[id].AsState());
        var t := Joined(before, user, name, conn, id in watched, failingInfo, failingFirst);
        conn in t.attempts && stage == t.attempts[conn].stage && manager.sessions[id].AsState() == t.session
    {
      stage := manager.AddNewConnection(id, user, name, conn, id in watched, failingInfo, failingFirst);
      if stage != C.Refused {
        var panicked := RefreshSession(id);
      }
    }

    /** Resets the timer; panics when it is gone. */
    method RefreshSession(id: T.SessionID) returns (panicked: bool)
      modifies this`armed
      ensures panicked <==> id !in watched
      ensures armed == if panicked then old(armed) else old(armed) + {id}
      ensures AsTables() == T.Next(old(AsTables()), T.Refresh(id))
    {
      if id !in watched {
        return true;
      }
      armed := armed + {id};
      return false;
    }

    /** The timer's function: fetch, forget the timer, save, tear down. */
    method StopTimer(id: T.SessionID) returns (crashed: bool)
      requires id in manager.sessions ==> !manager.sessions[id].locked && Slots(manager.sessions[id].AsState())
      requires this as object != manager
      modifies this, manager`sessions, if id in manager.sessions then {manager.sessions[id]} else {}
      ensures crashed <==> id !in old(watched)
      ensures
        var t := T.Run(old(AsTables()).(calls := map[0 := T.StopTimer(id, T.Fired, None, 0, 0)]), StopTimerActions());
        && manager.sessions.Keys == t.live && watched == t.watched && armed == t.armed && stored == t.stored
        && T.In(t, 0, if crashed then T.Crashed else T.Finished)
      ensures crashed ==>
        && manager.sessions == old(manager.sessions)
        && (id in manager.sessions ==> manager.sessions[id].AsState() == old(manager.sessions[id].AsState()))
      ensures !crashed ==>
        && manager.sessions == old(manager.sessions) - {id}
        && stored == old(stored)
           + [(id, if id in old(manager.sessions) then old(manager.sessions[id].encounterData) else None)]
        && (id in old(manager.sessions) ==>
          TornDown(old(manager.sessions[id].AsState()), old(manager.sessions)[id].AsState()))
    {
      StopTimerEffect(AsTables().(calls := map[0 := T.StopTimer(id, T.Fired, None, 0, 0)]), id);
      var data := manager.GetEncounterData(id);
      if id !in watched {
        return true;
      }
      watched, armed := watched - {id}, armed - {id};
      stored := stored + [(id, data)];
      manager.RemoveSession(id);
      return false;
    }
  }

  function StopTimerActions(): seq<T.Action> {
    [T.Fetch(0), T.Unwatch(0), T.Save(0), T.Finish(0)]
  }

  lemma FourActions(t: T.Tables)
    ensures T.Run(t, StopTimerActions())
         == T.Next(T.Next(T.Next(T.Next(t, T.Fetch(0)), T.Unwatch(0)), T.Save(0)), T.Finish(0))
  {
    T.RunSnoc(t, [], T.Fetch(0));
    T.RunSnoc(t, [T.Fetch(0)], T.Unwatch(0));
    T.RunSnoc(t, [T.Fetch(0), T.Unwatch(0)], T.Save(0));
    T.RunSnoc(t, [T.Fetch(0), T.Unwatch(0), T.Save(0)], T.Finish(0));
    assert [] + [T.Fetch(0)] == [T.Fetch(0)];
    assert [T.Fetch(0)] + [T.Unwatch(0)] == [T.Fetch(0), T.Unwatch(0)];
    assert [T.Fetch(0), T.Unwatch(0)] + [T.Save(0)] == [T.Fetch(0), T.Unwatch(0), T.Save(0)];
    assert [T.Fetch(0), T.Unwatch(0), T.Save(0)] + [T.Finish(0)] == StopTimerActions();
  }

  lemma StopTimerEffect(t: T.Tables, id: T.SessionID)
    requires t.calls == map[0 := T.StopTimer(id, T.Fired, None, 0, 0)] && t.live == t.objects.Keys
    requires id in t.live ==> !t.objects[id].locked
    ensures
      var u := T.Run(t, StopTimerActions());
      if id !in t.watched then
        && u.live == t.live && u.watched == t.watched && u.armed == t.armed && u.stored == t.stored
        && T.In(u, 0, T.Crashed)
      else
        && u.live == t.live - {id} && u.watched == t.watched - {id} && u.armed == t.armed - {id}
        && T.In(u, 0, T.Finished)
        && u.stored == t.stored + [(id, if id in t.live then t.objects[id].data else None)]
  {
    FourActions(t);
    var t1 := T.Next(t, T.Fetch(0));
    assert T.In(t1, 0, T.Fetched) && t1.calls[0].id == id;
    assert t1.calls[0].data == if id in t.live then t.objects[id].data else None;
    if id in t.watched {
      RestOfStopTimer(t1);
    } else {
      CrashedStays(T.Next(t1, T.Unwatch(0)));
    }
  }

  lemma RestOfStopTimer(t: T.Tables)
    requires T.In(t, 0, T.Fetched) && t.calls[0].id in t.watched
    ensures
      var u, c := T.Next(T.Next(T.Next(t, T.Unwatch(0)), T.Save(0)), T.Finish(0)), t.calls[0];
      && u.live == t.live - {c.id} && u.watched == t.watched - {c.id} && u.armed == t.armed - {c.id}
      && u.stored == t.stored + [(c.id, c.data)] && T.In(u, 0, T.Finished)
  {
    var t2 := T.Next(t, T.Unwatch(0));
    assert T.In(t2, 0, T.Unwatched) && t2.calls[0].id == t.calls[0].id && t2.calls[0].data == t.calls[0].data;
    var t3 := T.Next(t2, T.Save(0));
    assert T.In(t3, 0, T.Saved) && t3.calls[0].id == t.calls[0].id;
  }

  lemma CrashedStays(t: T.Tables)
    requires T.In(t, 0, T.Crashed)
    ensures T.Next(T.Next(t, T.Save(0)), T.Finish(0)) == t
  {
  }
}
