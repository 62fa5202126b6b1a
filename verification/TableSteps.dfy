/** What one section of a session with a free mutex leaves, entry by entry and connection by connection. */
module TableSteps {
  import opened Options
  import opened Merger
  import opened TableState
  import opened TableInvariants

  predicate Merges(s: State, msg: Option<Json>) {
    s.data.Some? && msg.Some? && Merge(s.data.value, msg.value).Some?
  }

  /** A section that writes to every entry: the announcements, and a round whose message merges. */
  predicate WritesToAll(s: State, c: Section) {
    c.Announcing? || (c.Broadcasting? && Merges(s, c.msg))
  }

  /** An entry goes, and is closed, exactly when its write fails; the slot of a player who goes stays counted. */
  lemma DroppedExactly(s: State, c: Section)
    requires !s.locked && WritesToAll(s, c)
    ensures forall id ::
      id in Step(s, c).participants <==> id in s.participants && s.participants[id].conn !in c.failing
    ensures forall id | id in Step(s, c).participants :: Step(s, c).participants[id] == s.participants[id]
    ensures forall conn ::
      conn in Step(s, c).history.closed <==>
        conn in s.history.closed || (conn in c.failing && HasConn(s, conn))
    ensures Step(s, c).playersNum == s.playersNum && !Step(s, c).locked
  {
    var gone := Failing(s.participants, c.failing);
    forall conn
      ensures conn in Conns(gone) <==> conn in c.failing && HasConn(s, conn)
    {
      if conn in c.failing && HasConn(s, conn) {
        var id :| id in s.participants && s.participants[id].conn == conn;
        assert id in gone && gone[id].conn == conn;
      }
    }
  }

  ghost predicate HasConn(s: State, conn: Conn) {
    exists id | id in s.participants :: s.participants[id].conn == conn
  }

  /** A message that merges reaches everybody who stays, and nobody else. */
  lemma RoundDelivers(s: State, msg: Option<Json>, failing: set<Conn>)
    requires !s.locked && Merges(s, msg)
    ensures
      var t := Step(s, Broadcasting(msg, failing));
      && t.data == Merge(s.data.value, msg.value) && t.history.received == s.history.received + [msg.value]
      && (forall id | id in t.participants ::
            t.participants[id].conn in t.history.lastInfo && t.history.lastInfo[t.participants[id].conn] == t.data)
      && (forall conn | !HasConn(t, conn) ::
            && (conn in t.history.lastInfo <==> conn in s.history.lastInfo)
            && (conn in s.history.lastInfo ==> t.history.lastInfo[conn] == s.history.lastInfo[conn]))
  {
    var t := Step(s, Broadcasting(msg, failing));
    DroppedExactly(s, Broadcasting(msg, failing));
    var stay := s.participants - Failing(s.participants, failing).Keys;
    assert t.participants == stay;
    forall conn
      ensures conn in Conns(stay) <==> HasConn(t, conn)
    {
      if HasConn(t, conn) {
        var id :| id in t.participants && t.participants[id].conn == conn;
        assert id in stay;
      }
    }
  }

  /** A message that does not merge ends the broadcaster: the data is gone, the mutex held, nobody told or dropped. */
  lemma RoundFails(s: State, msg: Option<Json>, failing: set<Conn>)
    requires !s.locked && !Merges(s, msg)
    ensures
      var t := Step(s, Broadcasting(msg, failing));
      && t.data.None? && t.locked && t.history == s.history
      && t.participants == s.participants && t.playersNum == s.playersNum
  {
  }

  /** The first message is written to the user's own connection, which goes exactly when that write fails. */
  lemma GreetingExactly(s: State, userID: int, failing: set<Conn>)
    requires !s.locked
    ensures
      var t := Step(s, Greeting(userID, failing));
      var fails := userID in s.participants && s.participants[userID].conn in failing;
      && !t.locked && t.data == s.data && t.playersNum == s.playersNum
      && t.participants == (if fails then s.participants - {userID} else s.participants)
      && t.history.closed == s.history.closed + (if fails then {s.participants[userID].conn} else {})
      && t.history.lastInfo == (if userID in s.participants && !fails
                                then s.history.lastInfo[s.participants[userID].conn := s.data]
                                else s.history.lastInfo)
  {
    if userID in s.participants {
      var p := s.participants[userID];
      assert map[userID := p][userID].conn == p.conn;
      assert Conns(map[userID := p]) == {p.conn};
    }
  }

  /** A slot is taken by a player who joins and freed by a player who is removed, by nothing else. */
  lemma SlotsMove(s: State, c: Section)
    requires !s.locked
    ensures Step(s, c).playersNum == s.playersNum
      + (if c.AddingParticipant? && s.playersNum != 4 then 1 else 0)
      - (if c.Removing? && c.userID in s.participants && s.participants[c.userID].role.Player? then 1 else 0)
  {
  }

  /** Who joins is entered with the connection, and nobody else's entry or connection is touched. */
  lemma JoinsExactly(s: State, c: Section)
    requires !s.locked && (c.AddingAdmin? || (c.AddingParticipant? && s.playersNum != 4))
    ensures
      var t := Step(s, c);
      var p := if c.AddingAdmin? then Participant(s.adminID, c.name, Admin, c.conn)
               else Participant(c.userID, c.name, Player, c.conn);
      && p.id in t.participants && t.participants[p.id] == p && t.participants.Keys == s.participants.Keys + {p.id}
      && (forall id | id in s.participants && id != p.id :: t.participants[id] == s.participants[id])
      && t.history.closed == s.history.closed && t.history.lastInfo == s.history.lastInfo
      && t.data == s.data && !t.locked
  {
  }

  /** Who is removed is closed, and nobody else's entry or connection is touched. */
  lemma RemovesExactly(s: State, userID: int)
    requires !s.locked && userID in s.participants
    ensures
      var t := Step(s, Removing(userID));
      && t.participants.Keys == s.participants.Keys - {userID}
      && (forall id | id in t.participants :: t.participants[id] == s.participants[id])
      && t.history.closed == s.history.closed + {s.participants[userID].conn}
      && t.history.lastInfo == s.history.lastInfo && t.data == s.data && !t.locked
  {
  }

  // ---- Slots run out ----

  /** A player is refused exactly when the players and the slots lost to failed writes make four. */
  lemma RefusedExactly(adminID: int, initial: Json, cs: seq<Section>, userID: int, name: string, conn: Conn)
    requires PossibleRun(Opened(adminID, initial), cs) && !Run(Opened(adminID, initial), cs).locked
    ensures
      var s := Run(Opened(adminID, initial), cs);
      Step(s, AddingParticipant(userID, name, conn)).locked <==>
        |PlayerIDs(s.participants)| + s.history.lost == 4
  {
    RunSlots(adminID, initial, cs);
    FullExactly(Run(Opened(adminID, initial), cs), userID, name, conn);
  }

  lemma FullExactly(s: State, userID: int, name: string, conn: Conn)
    requires Slots(s) && !s.locked
    ensures Step(s, AddingParticipant(userID, name, conn)).locked <==> |PlayerIDs(s.participants)| + s.history.lost == 4
  {
  }

  /** n players join one after the other, and the announcement of each fails on their own connection. */
  function Joins(adminID: int, n: nat): seq<Section> {
    if n == 0 then [] else Joins(adminID, n - 1) + [AddingParticipant(adminID + n, "", n), Announcing({n})]
  }

  lemma RunTwo(s: State, cs: seq<Section>, c: Section, d: Section)
    ensures Run(s, cs + [c, d]) == Step(Step(Run(s, cs), c), d)
    ensures PossibleRun(s, cs + [c, d]) <==>
      PossibleRun(s, cs) && Possible(Run(s, cs), c) && Possible(Step(Run(s, cs), c), d)
  {
    assert (cs + [c, d])[..|cs| + 1] == cs + [c];
    assert (cs + [c])[..|cs|] == cs;
  }

  lemma LosesSlot(s: State, userID: int, conn: Conn)
    requires !s.locked && s.participants == map[] && s.playersNum != 4
    requires userID != s.adminID && conn !in s.history.known
    ensures Possible(s, AddingParticipant(userID, "", conn))
    ensures
      var t := Step(Step(s, AddingParticipant(userID, "", conn)), Announcing({conn}));
      && !t.locked && t.participants == map[] && t.playersNum == s.playersNum + 1 && t.adminID == s.adminID
      && t.history.known == s.history.known + {conn}
  {
    var joined := Step(s, AddingParticipant(userID, "", conn));
    JoinsExactly(s, AddingParticipant(userID, "", conn));
    DroppedExactly(joined, Announcing({conn}));
    assert Step(joined, Announcing({conn})).participants.Keys == {};
  }

  lemma {:induction false} JoinsLoseSlots(adminID: int, initial: Json, n: nat)
    requires n <= 4
    ensures PossibleRun(Opened(adminID, initial), Joins(adminID, n))
    ensures
      var s := Run(Opened(adminID, initial), Joins(adminID, n));
      && !s.locked && s.participants == map[] && s.playersNum == n && s.adminID == adminID
      && forall conn | conn in s.history.known :: 0 < conn <= n
  {
    if n > 0 {
      var s0, front := Opened(adminID, initial), Joins(adminID, n - 1);
      JoinsLoseSlots(adminID, initial, n - 1);
      assert n !in Run(s0, front).history.known;
      LosesSlot(Run(s0, front), adminID + n, n);
      RunTwo(s0, front, AddingParticipant(adminID + n, "", n), Announcing({n}));
    }
  }

  /** After four such joins nobody is at the table, and the next player is refused all the same. */
  lemma EmptyTableRefuses(adminID: int, initial: Json, userID: int, name: string, conn: Conn)
    ensures
      var s := Run(Opened(adminID, initial), Joins(adminID, 4));
      && PossibleRun(Opened(adminID, initial), Joins(adminID, 4))
      && !s.locked && s.participants == map[] && Step(s, AddingParticipant(userID, name, conn)).locked
  {
    JoinsLoseSlots(adminID, initial, 4);
  }
}
