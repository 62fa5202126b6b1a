/** The session object. Each method takes and releases the mutex as the code does. */
module TableSession {
  import opened Options
  import opened Merger
  import opened MergerCode
  import opened TableState

  class Session {
    const adminID: int
    ghost const initial: Json
    var encounterData: Option<Json>
    var participants: Participants
    var playersNum: int
    var locked: bool
    ghost var history: History

    constructor (adminID: int, data: Json)
      ensures AsState() == Opened(adminID, data)
    {
      this.adminID, initial := adminID, data;
      encounterData, participants, playersNum, locked := Some(data), map[], 0, false;
      history := History([], map[], {}, {}, 0);
    }

    ghost function AsState(): State
      reads this
    {
      State(adminID, initial, encounterData, participants, playersNum, locked, history)
    }

    /** Closes the connection of a failed write and deletes its entry. */
    method DropEntry(id: int)
      requires id in participants
      modifies this
      ensures AsState() == Drop(old(AsState()), map[id := old(participants[id])])
    {
      var p := participants[id];
      ConnsExtend(map[], id, p);
      assert map[][id := p] == map[id := p];
      history := history.(closed := history.closed + {p.conn},
                          lost := history.lost + |PlayerIDs(map[id := p])|);
      participants := participants - {id};
    }

    /** sendParticipantsInfo */
    method SendParticipantsInfo(failing: set<Conn>)
      requires !locked
      modifies this
      ensures AsState() == Announce(old(AsState()), failing)
    {
      locked := true;
      ghost var s := AsState();
      var ids := participants.Keys;
      while ids != {}
        invariant ids <= participants.Keys
        invariant AsState() == Drop(s, Failing(Visited(s.participants, ids), failing))
        decreases ids
      {
        SomeMember(ids);
        var id :| id in ids;
        AnnounceNext(s, ids, id, failing);
        if participants[id].conn in failing {
          DropEntry(id);
        }
        ids := ids - {id};
      }
      assert Visited(s.participants, {}) == s.participants;
      locked := false;
    }

    /** One round of run; false when run ends, with the mutex held. */
    method BroadcastRound(msg: Option<Json>, failing: set<Conn>) returns (continued: bool)
      requires !locked
      modifies this
      ensures AsState() == Broadcast(old(AsState()), msg, failing)
      ensures continued <==> !locked
    {
      locked := true;
      if encounterData.None? || msg.None? {
        encounterData := None;
        return false;
      }
      var merged := MergeObjects(encounterData.value, msg.value, []);
      if merged.Rejected? {
        encounterData := None;
        return false;
      }
      encounterData := Some(merged.tree);
      history := history.(received := history.received + [msg.value]);
      ghost var s := AsState();
      var ids := participants.Keys;
      while ids != {}
        invariant ids <= participants.Keys
        invariant encounterData == s.data
        invariant AsState() == Drop(s, Failing(Visited(s.participants, ids), failing)).(history :=
          Drop(s, Failing(Visited(s.participants, ids), failing)).history.(lastInfo :=
            Told(s, Visited(s.participants, ids), failing).history.lastInfo))
        decreases ids
      {
        SomeMember(ids);
        var id :| id in ids;
        TellNext(s, ids, id, failing);
        AnnounceNext(s, ids, id, failing);
        if participants[id].conn in failing {
          DropEntry(id);
        } else {
          history := history.(lastInfo := history.lastInfo[participants[id].conn := encounterData]);
        }
        ids := ids - {id};
      }
      assert Visited(s.participants, {}) == s.participants;
      locked := false;
      return true;
    }

    /** Panics when the user has no entry; the deferred unlock runs all the same. */
    method WriteFirstMsg(userID: int, failing: set<Conn>) returns (panicked: bool)
      requires !locked
      modifies this
      ensures AsState() == FirstMessage(old(AsState()), userID, failing)
      ensures panicked <==> userID !in old(participants)
    {
      locked := true;
      if userID !in participants {
        locked := false;
        return true;
      }
      var conn := participants[userID].conn;
      if conn in failing {
        DropEntry(userID);
      } else {
        history := history.(lastInfo := history.lastInfo[conn := encounterData]);
      }
      locked := false;
      return false;
    }

    ghost method Registered(p: Participant)
      modifies this`history
      ensures history == Register(old(AsState()), p).history
    {
      history := Register(AsState(), p).history;
    }

    method AddParticipant(userID: int, name: string, conn: Conn, failing: set<Conn>) returns (added: bool)
      requires !locked
      modifies this
      ensures added <==> old(playersNum) != MAX_PLAYERS
      ensures AsState() ==
        var s := TableState.AddParticipant(old(AsState()), userID, name, conn);
        if added then Announce(s, failing) else s
    {
      locked := true;
      if playersNum == MAX_PLAYERS {
        return false;
      }
      playersNum := playersNum + 1;
      var p := Participant(userID, name, Player, conn);
      Registered(p);
      participants := participants[userID := p];
      locked := false;
      SendParticipantsInfo(failing);
      return true;
    }

    method AddAdmin(name: string, conn: Conn, failing: set<Conn>)
      requires !locked
      modifies this
      ensures AsState() == Announce(TableState.AddAdmin(old(AsState()), name, conn), failing)
    {
      locked := true;
      var p := Participant(adminID, name, Admin, conn);
      Registered(p);
      participants := participants[adminID := p];
      locked := false;
      SendParticipantsInfo(failing);
    }

    /** Removing an absent user panics after taking the mutex; the panic is recovered, the mutex is not released. */
    method RemoveParticipant(userID: int, failing: set<Conn>)
      requires !locked
      modifies this
      ensures AsState() ==
        if userID in old(participants) then Announce(Remove(old(AsState()), userID), failing)
        else Remove(old(AsState()), userID)
    {
      locked := true;
      if userID !in participants {
        return;
      }
      if participants[userID].role != Admin {
        playersNum := playersNum - 1;
      }
      history := history.(closed := history.closed + {participants[userID].conn});
      participants := participants - {userID};
      locked := false;
      SendParticipantsInfo(failing);
    }

    method CheckUser(userID: int) returns (present: bool)
      requires !locked
      ensures present <==> userID in participants
    {
      present := userID in participants;
    }
  }

  /** The entries a loop over the participants has passed when ids are still to come. */
  ghost function Visited(ps: Participants, ids: set<int>): Participants {
    map id | id in ps && id !in ids :: ps[id]
  }

  /** Every visited connection whose write succeeds has been sent the data. */
  ghost function Told(s: State, visited: Participants, failing: set<Conn>): State {
    s.(history := s.history.(lastInfo :=
      Deliver(s.history.lastInfo, Conns(visited - Failing(visited, failing).Keys), s.data)))
  }

  lemma SomeMember(ids: set<int>)
    ensures ids == {} || exists id :: id in ids
  {
    if forall id :: id !in ids {
      assert ids <= {};
    }
  }

  lemma ConnsExtend(ps: Participants, id: int, p: Participant)
    requires id !in ps
    ensures Conns(ps[id := p]) == Conns(ps) + {p.conn} && Conns(map[id := p]) == {p.conn}
  {
    var qs := ps[id := p];
    forall c | c in Conns(ps)
      ensures c in Conns(qs)
    {
      var other :| other in ps && ps[other].conn == c;
      assert other in qs && qs[other].conn == c;
    }
    assert id in qs && id in map[id := p];
  }

  lemma DropOneMore(s: State, seen: Participants, id: int)
    requires id in s.participants && id !in seen
    ensures Drop(s, seen[id := s.participants[id]]) == Drop(Drop(s, seen), map[id := s.participants[id]])
  {
    var p := s.participants[id];
    ConnsExtend(seen, id, p);
    PlayersExtend(seen, id, p);
    assert s.participants - seen[id := p].Keys == (s.participants - seen.Keys) - {id};
  }

  lemma PlayersExtend(ps: Participants, id: int, p: Participant)
    requires id !in ps
    ensures |PlayerIDs(ps[id := p])| == |PlayerIDs(ps)| + |PlayerIDs(map[id := p])|
  {
    assert PlayerIDs(ps[id := p]) == PlayerIDs(ps) + PlayerIDs(map[id := p]);
    assert PlayerIDs(ps) !! PlayerIDs(map[id := p]);
  }

  /** What a loop over the participants has dropped after one more entry. */
  lemma VisitNext(ps: Participants, ids: set<int>, id: int, failing: set<Conn>)
    requires id in ids && ids <= ps.Keys
    ensures id !in Visited(ps, ids) && Visited(ps, ids - {id}) == Visited(ps, ids)[id := ps[id]]
    ensures id !in Failing(Visited(ps, ids), failing)
    ensures Failing(Visited(ps, ids - {id}), failing) ==
      if ps[id].conn in failing then Failing(Visited(ps, ids), failing)[id := ps[id]]
      else Failing(Visited(ps, ids), failing)
  {
  }

  lemma AnnounceNext(s: State, ids: set<int>, id: int, failing: set<Conn>)
    requires id in ids && ids <= s.participants.Keys
    ensures
      var seen := Failing(Visited(s.participants, ids), failing);
      var next := Failing(Visited(s.participants, ids - {id}), failing);
      Drop(s, next) ==
        if s.participants[id].conn in failing then Drop(Drop(s, seen), map[id := s.participants[id]]) else Drop(s, seen)
  {
    VisitNext(s.participants, ids, id, failing);
    DropOneMore(s, Failing(Visited(s.participants, ids), failing), id);
  }

  lemma TellNext(s: State, ids: set<int>, id: int, failing: set<Conn>)
    requires id in ids && ids <= s.participants.Keys
    ensures
      var v, w := Visited(s.participants, ids), Visited(s.participants, ids - {id});
      var p := s.participants[id];
      Told(s, w, failing) == if p.conn in failing then Told(s, v, failing)
        else Told(s, v, failing).(history :=
          s.history.(lastInfo := Told(s, v, failing).history.lastInfo[p.conn := s.data]))
  {
    var v, w := Visited(s.participants, ids), Visited(s.participants, ids - {id});
    var p := s.participants[id];
    VisitNext(s.participants, ids, id, failing);
    var sent := v - Failing(v, failing).Keys;
    if p.conn in failing {
      assert w - Failing(w, failing).Keys == sent;
    } else {
      assert w - Failing(w, failing).Keys == sent[id := p];
      ConnsExtend(sent, id, p);
      assert Told(s, w, failing).history.lastInfo == Told(s, v, failing).history.lastInfo[p.conn := s.data];
    }
  }
}
