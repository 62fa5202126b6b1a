/** What joining a table and leaving it achieve, and what a second remover does to it. */
module TableJoins {
  import opened Options
  import opened Merger
  import opened MergeOrder
  import opened TableState
  import opened TableInvariants
  import opened TableConnections
  import opened TableSteps

  // ---- A connection whose reader has ended is nobody's ----

  ghost predicate LeftAreGone(t: Table) {
    forall conn | At(t, conn, Left) :: !IsEntryOf(t, conn)
  }

  /** conn is registered as its user's entry. */
  predicate IsEntryOf(t: Table, conn: Conn)
    requires conn in t.attempts
  {
    var user := t.attempts[conn].user;
    user in t.session.participants && t.session.participants[user].conn == conn
  }

  lemma StaysGone(t: Table, e: Event, conn: Conn)
    requires KeyedByID(t.session) && At(t, conn, Left) && !IsEntryOf(t, conn)
    ensures At(Next(t, e), conn, Left) && !IsEntryOf(Next(t, e), conn)
  {
    if Enabled(t, e) && SectionOf(t, e).Some? {
      StepEntries(t.session, SectionOf(t, e).value);
    }
  }

  lemma NextLeft(t: Table, e: Event)
    requires KeyedByID(t.session) && LeftAreGone(t)
    ensures LeftAreGone(Next(t, e))
  {
    forall conn | At(Next(t, e), conn, Left)
      ensures !IsEntryOf(Next(t, e), conn)
    {
      if At(t, conn, Left) {
        StaysGone(t, e, conn);
      }
    }
  }

  /** In every run, a connection whose reader has ended is not its user's entry. */
  lemma {:induction false} EndedReadersAreGone(adminID: int, initial: Json, es: seq<Event>)
    ensures LeftAreGone(Play(Empty(adminID, initial), es))
  {
    if es != [] {
      EndedReadersAreGone(adminID, initial, es[..|es| - 1]);
      AlwaysTidy(adminID, initial, es[..|es| - 1]);
      NextLeft(Play(Empty(adminID, initial), es[..|es| - 1]), es[|es| - 1]);
    }
  }

  // ---- One reader from its end ----

  /** A read error of a registered connection removes its user, closes the connection and frees a player's slot. */
  lemma ReaderRemoves(t: Table, conn: Conn)
    requires !t.session.locked && At(t, conn, Returned) && IsEntryOf(t, conn)
    ensures
      var user := t.attempts[conn].user;
      var u := Next(Next(t, HangUp(conn)), Leave(conn));
      && At(u, conn, Left) && !u.session.locked
      && u.session.participants == t.session.participants - {user}
      && u.session.history.closed == t.session.history.closed + {conn}
      && u.session.playersNum ==
         t.session.playersNum - if t.session.participants[user].role.Player? then 1 else 0
  {
    var user := t.attempts[conn].user;
    var t1 := Next(t, HangUp(conn));
    assert At(t1, conn, Leaving) && t1.session == t.session && t1.attempts[conn].user == user;
    RemovesExactly(t.session, user);
    SlotsMove(t.session, Removing(user));
  }

  /** A reader whose user has no entry any more removes nothing. */
  lemma ReaderFindsNothing(t: Table, conn: Conn)
    requires !t.session.locked && At(t, conn, Returned) && t.attempts[conn].user !in t.session.participants
    ensures At(Next(t, HangUp(conn)), conn, Left) && Next(t, HangUp(conn)).session == t.session
  {
  }

  /** The user may go between the reader's question and its removal; then the mutex is left held, and only then. */
  lemma LeaveLocksExactly(t: Table, conn: Conn)
    requires !t.session.locked && At(t, conn, Leaving)
    ensures Next(t, Leave(conn)).session.locked <==> t.attempts[conn].user !in t.session.participants
  {
  }

  // ---- One join from beginning to end ----

  function JoinEvents(conn: Conn, user: int, name: string): seq<Event> {
    [Arrive(conn, user, name), Enter(conn), Tell(conn, {}), Greet(conn, true, {})]
  }

  lemma PlayFour(t: Table, a: Event, b: Event, c: Event, d: Event)
    ensures Play(t, [a, b, c, d]) == Next(Next(Next(Next(t, a), b), c), d)
  {
    var es := [a, b, c, d];
    PlayStep(t, es, 0);
    PlayStep(t, es, 1);
    PlayStep(t, es, 2);
    PlayStep(t, es, 3);
    assert es[..4] == es;
  }

  /** A new user for whom there is room gets an entry with the right role, the data, and one slot if a player. */
  lemma JoinSucceeds(t: Table, conn: Conn, user: int, name: string)
    requires !t.session.locked && conn !in t.attempts && user !in t.session.participants
    requires user == t.session.adminID || t.session.playersNum != 4
    ensures
      var u := Play(t, JoinEvents(conn, user, name));
      var admin := user == t.session.adminID;
      && u.attempts == t.attempts[conn := Attempt(user, name, Returned)] && u.refused == t.refused
      && u.session.participants
         == t.session.participants[user := Participant(user, name, if admin then Admin else Player, conn)]
      && u.session.playersNum == t.session.playersNum + (if admin then 0 else 1)
      && u.session.history.lastInfo == t.session.history.lastInfo[conn := t.session.data]
      && u.session.history.closed == t.session.history.closed
      && u.session.data == t.session.data && u.session.adminID == t.session.adminID && !u.session.locked
  {
    PlayFour(t, Arrive(conn, user, name), Enter(conn), Tell(conn, {}), Greet(conn, true, {}));
    var t1 := Next(t, Arrive(conn, user, name));
    var t2 := Next(t1, Enter(conn));
    Enters(t1, conn);
    JoinedQuietly(t2, conn);
  }

  lemma Enters(t: Table, conn: Conn)
    requires !t.session.locked && At(t, conn, Checked) && t.attempts[conn].user !in t.session.participants
    requires t.attempts[conn].user == t.session.adminID || t.session.playersNum != 4
    ensures
      var a := t.attempts[conn];
      var admin := a.user == t.session.adminID;
      var u := Next(t, Enter(conn));
      && u.attempts == t.attempts[conn := a.(stage := Registered)] && u.refused == t.refused
      && u.session.participants
         == t.session.participants[a.user := Participant(a.user, a.name, if admin then Admin else Player, conn)]
      && u.session.playersNum == t.session.playersNum + (if admin then 0 else 1)
      && u.session.history.lastInfo == t.session.history.lastInfo && u.session.data == t.session.data
      && u.session.history.closed == t.session.history.closed && u.session.adminID == t.session.adminID
      && !u.session.locked
  {
  }

  lemma JoinedQuietly(t: Table, conn: Conn)
    requires !t.session.locked && At(t, conn, Registered) && IsEntryOf(t, conn)
    ensures
      var a := t.attempts[conn];
      var u := Next(Next(t, Tell(conn, {})), Greet(conn, true, {}));
      && u.attempts == t.attempts[conn := a.(stage := Returned)] && u.refused == t.refused
      && u.session == t.session.(history :=
           t.session.history.(lastInfo := t.session.history.lastInfo[conn := t.session.data]))
  {
    var t1 := Next(t, Tell(conn, {}));
    NothingFails(t.session);
    assert t1.session == t.session && At(t1, conn, Announced) && t1.attempts[conn].user == t.attempts[conn].user;
    assert t1.attempts[conn := t1.attempts[conn].(stage := Returned)]
        == t.attempts[conn := t.attempts[conn].(stage := Returned)];
  }

  lemma NothingFails(s: State)
    ensures Announce(s, {}) == s
  {
    assert Failing(s.participants, {}) == map[];
    assert s.participants - {} == s.participants;
    assert Conns(map[]) == {};
  }

  /** The announcement of a join drops exactly the entries whose writes fail, the new one included. */
  lemma TellDropsExactly(t: Table, conn: Conn, failing: set<Conn>)
    requires !t.session.locked && At(t, conn, Registered)
    ensures
      var u := Next(t, Tell(conn, failing));
      && At(u, conn, Announced) && !u.session.locked
      && (forall id ::
            id in u.session.participants <==>
              id in t.session.participants && t.session.participants[id].conn !in failing)
      && (forall id | id in u.session.participants :: u.session.participants[id] == t.session.participants[id])
      && (forall c :: c in u.session.history.closed <==>
            c in t.session.history.closed || (c in failing && HasConn(t.session, c)))
  {
    DroppedExactly(t.session, Announcing(failing));
  }

  /**
   A join returns exactly when the session's timer stands and its user still has an entry; without the timer
   it panics before the first message, which then reaches nobody.
   */
  lemma GreetReturnsExactly(t: Table, conn: Conn, watched: bool, failing: set<Conn>)
    requires !t.session.locked && At(t, conn, Announced)
    ensures
      var user := t.attempts[conn].user;
      var u := Next(t, Greet(conn, watched, failing));
      && At(u, conn, if watched && user in t.session.participants then Returned else Panicked)
      && (!watched ==> u.session == t.session)
      && (watched && user in t.session.participants && t.session.participants[user].conn !in failing ==>
            u.session.participants == t.session.participants
            && u.session.history.lastInfo
               == t.session.history.lastInfo[t.session.participants[user].conn := t.session.data])
      && (watched && user in t.session.participants && t.session.participants[user].conn in failing ==>
            u.session.participants == t.session.participants - {user}
            && u.session.history.closed == t.session.history.closed + {t.session.participants[user].conn})
  {
    if watched {
      GreetingExactly(t.session, t.attempts[conn].user, failing);
    }
  }

  // ---- What the table shows ----

  /** The messages posted to the table, oldest first. */
  function PostedIn(es: seq<Event>): seq<Option<Json>> {
    if es == [] then []
    else
      var e := es[|es| - 1];
      PostedIn(es[..|es| - 1]) + if e.Other? && e.section.Broadcasting? then [e.section.msg] else []
  }

  lemma NextReceives(t: Table, e: Event)
    requires !Next(t, e).session.locked
    ensures !t.session.locked && Next(t, e).session.initial == t.session.initial
    ensures Present(Next(t, e).session.history.received)
         == Present(t.session.history.received) + if e.Other? && e.section.Broadcasting? then [e.section.msg] else []
  {
    if Enabled(t, e) && SectionOf(t, e).Some? {
      StepInitial(t.session, SectionOf(t, e).value);
    }
  }

  lemma {:induction false} AllReceived(adminID: int, initial: Json, es: seq<Event>)
    requires !Play(Empty(adminID, initial), es).session.locked
    ensures
      var s := Play(Empty(adminID, initial), es).session;
      s.initial == initial && Present(s.history.received) == PostedIn(es)
  {
    if es != [] {
      var t := Play(Empty(adminID, initial), es[..|es| - 1]);
      NextReceives(t, es[|es| - 1]);
      AllReceived(adminID, initial, es[..|es| - 1]);
    }
  }

  /**
   In every interleaving, with the mutex free, every message posted parsed and was merged in order, the data
   is their fold over the initial data, and a connection that joined and is still registered shows it.
   */
  lemma JoinedShowsPosted(adminID: int, initial: Json, es: seq<Event>) returns (messages: seq<Json>)
    requires !Play(Empty(adminID, initial), es).session.locked
    ensures
      var t := Play(Empty(adminID, initial), es);
      && PostedIn(es) == Present(messages) && t.session.data.Some? && t.session.data == MergeAll(initial, messages)
      && forall conn | At(t, conn, Returned) && IsEntryOf(t, conn) ::
           conn in t.session.history.lastInfo && t.session.history.lastInfo[conn] == MergeAll(initial, messages)
  {
    var t := Play(Empty(adminID, initial), es);
    messages := t.session.history.received;
    AllReceived(adminID, initial, es);
    TableInvariantsHold(adminID, initial, es);
    forall conn | At(t, conn, Returned) && IsEntryOf(t, conn)
      ensures conn in t.session.history.lastInfo && t.session.history.lastInfo[conn] == t.session.data
    {
      JoinedShowsData(adminID, initial, es, conn);
    }
  }

  // ---- A user removed twice ----

  /** A user whose connection breaks while the user is removed: the reader leaves the mutex held. */
  lemma RemovedTwiceFreezes(t: Table, conn: Conn, user: int, name: string)
    requires !t.session.locked && conn !in t.attempts && user !in t.session.participants
    requires user == t.session.adminID || t.session.playersNum != 4
    ensures
      var es := JoinEvents(conn, user, name) + [HangUp(conn), Other(Removing(user)), Leave(conn)];
      Play(t, es).session.locked
  {
    var join := JoinEvents(conn, user, name);
    JoinSucceeds(t, conn, user, name);
    PlayOn(t, join, [HangUp(conn), Other(Removing(user)), Leave(conn)]);
    PlayThree(Play(t, join), HangUp(conn), Other(Removing(user)), Leave(conn));
    RemovedMeanwhile(Play(t, join), conn);
  }

  lemma PlayThree(t: Table, a: Event, b: Event, c: Event)
    ensures Play(t, [a, b, c]) == Next(Next(Next(t, a), b), c)
  {
    var es := [a, b, c];
    PlayStep(t, es, 0);
    PlayStep(t, es, 1);
    PlayStep(t, es, 2);
    assert es[..3] == es;
  }

  lemma {:induction false} PlayOn(t: Table, a: seq<Event>, b: seq<Event>)
    ensures Play(t, a + b) == Play(Play(t, a), b)
    decreases |b|
  {
    if b == [] {
      assert a + b == a;
    } else {
      PlayOn(t, a, b[..|b| - 1]);
      assert (a + b)[..|a + b| - 1] == a + b[..|b| - 1];
    }
  }

  lemma RemovedMeanwhile(t: Table, conn: Conn)
    requires !t.session.locked && At(t, conn, Returned) && IsEntryOf(t, conn)
    ensures
      var t2 := Next(Next(t, HangUp(conn)), Other(Removing(t.attempts[conn].user)));
      Next(t2, Leave(conn)).session.locked
  {
    var user := t.attempts[conn].user;
    var t1 := Next(t, HangUp(conn));
    assert At(t1, conn, Leaving) && t1.attempts[conn].user == user && t1.session == t.session;
    var t2 := Next(t1, Other(Removing(user)));
    RemovesExactly(t.session, user);
    assert At(t2, conn, Leaving) && t2.attempts[conn].user == user;
    LeaveLocksExactly(t2, conn);
  }
}
