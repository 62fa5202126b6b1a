/** Connections of one session: AddNewConnection and its reader, interleaved with everything else. */
module TableConnections {
  import opened Options
  import opened Merger
  import opened TableState
  import opened TableInvariants

  /** How far AddNewConnection, and then its reader, got for one connection. */
  datatype Stage = Checked | Registered | Announced | Returned | Leaving | Left | Refused | Panicked

  datatype Attempt = Attempt(user: int, name: string, stage: Stage)

  /** refused: the connections AddNewConnection closed itself. */
  datatype Table = Table(session: State, attempts: map<Conn, Attempt>, refused: set<Conn>)

  datatype Event =
    | Arrive(conn: Conn, user: int, name: string)         // CheckUser
    | Enter(conn: Conn)                                   // AddAdmin or AddParticipant, first section
    | Tell(conn: Conn, failing: set<Conn>)                // sendParticipantsInfo
    | Greet(conn: Conn, watched: bool, failing: set<Conn>) // refreshCallback, WriteFirstMsg
    | HangUp(conn: Conn)                                  // a read error, then CheckUser
    | Leave(conn: Conn)                                   // RemoveParticipant, first section
    | Other(section: Section)                             // the broadcaster, RemoveSession, announcements

  predicate At(t: Table, conn: Conn, stage: Stage) {
    conn in t.attempts && t.attempts[conn].stage == stage
  }

  function Move(t: Table, conn: Conn, stage: Stage): Table
    requires conn in t.attempts
  {
    t.(attempts := t.attempts[conn := t.attempts[conn].(stage := stage)])
  }

  function Refuse(t: Table, conn: Conn): Table
    requires conn in t.attempts
  {
    Move(t, conn, Refused).(refused := t.refused + {conn})
  }

  predicate Enabled(t: Table, e: Event) {
    && !t.session.locked
    && match e
       case Arrive(conn, _, _) => conn !in t.attempts
       case Enter(conn) => At(t, conn, Checked)
       case Tell(conn, _) => At(t, conn, Registered)
       case Greet(conn, _, _) => At(t, conn, Announced)
       case HangUp(conn) => At(t, conn, Returned)
       case Leave(conn) => At(t, conn, Leaving)
       case Other(section) => section.Broadcasting? || section.Announcing? || section.Removing?
  }

  /** The session section an event runs, if it changes the session. */
  function SectionOf(t: Table, e: Event): Option<Section>
    requires Enabled(t, e)
  {
    match e
    case Enter(conn) =>
      var a := t.attempts[conn];
      Some(if a.user == t.session.adminID then AddingAdmin(a.name, conn) else AddingParticipant(a.user, a.name, conn))
    case Tell(_, failing) => Some(Announcing(failing))
    case Greet(conn, watched, failing) => if watched then Some(Greeting(t.attempts[conn].user, failing)) else None
    case Leave(conn) => Some(Removing(t.attempts[conn].user))
    case Other(section) => Some(section)
    case _ => None
  }

  function After(t: Table, e: Event): Table
    requires Enabled(t, e)
  {
    var c := SectionOf(t, e);
    t.(session := if c.Some? then Step(t.session, c.value) else t.session)
  }

  function Next(t: Table, e: Event): Table {
    if !Enabled(t, e) then t
    else
      var u := After(t, e);
      match e
      case Arrive(conn, user, name) =>
        var v := u.(attempts := u.attempts[conn := Attempt(user, name, Checked)]);
        if user in t.session.participants then Refuse(v, conn) else v
      case Enter(conn) =>
        if t.attempts[conn].user != t.session.adminID && t.session.playersNum == MAX_PLAYERS then Refuse(u, conn)
        else Move(u, conn, Registered)
      case Tell(conn, _) => Move(u, conn, Announced)
      case Greet(conn, watched, _) =>
        Move(u, conn, if watched && t.attempts[conn].user in t.session.participants then Returned else Panicked)
      case HangUp(conn) => Move(u, conn, if t.attempts[conn].user in t.session.participants then Leaving else Left)
      case Leave(conn) => Move(u, conn, Left)
      case Other(_) => u
  }

  function Play(t: Table, es: seq<Event>): Table {
    if es == [] then t else Next(Play(t, es[..|es| - 1]), es[|es| - 1])
  }

  function Empty(adminID: int, initial: Json): Table {
    Table(Opened(adminID, initial), map[], {})
  }

  // ---- Every run of connections is a run of sections ----

  predicate Fresh(t: Table) {
    && t.session.history.known <= t.attempts.Keys
    && forall conn | conn in t.attempts && t.attempts[conn].stage.Checked? :: conn !in t.session.history.known
  }

  lemma NextFresh(t: Table, e: Event)
    requires Fresh(t)
    ensures Fresh(Next(t, e))
    ensures Enabled(t, e) && SectionOf(t, e).Some? ==> Possible(t.session, SectionOf(t, e).value)
  {
  }

  lemma {:induction false} TableIsSession(adminID: int, initial: Json, es: seq<Event>) returns (cs: seq<Section>)
    ensures Fresh(Play(Empty(adminID, initial), es))
    ensures PossibleRun(Opened(adminID, initial), cs)
    ensures Play(Empty(adminID, initial), es).session == Run(Opened(adminID, initial), cs)
  {
    cs := [];
    if es != [] {
      var t, e := Play(Empty(adminID, initial), es[..|es| - 1]), es[|es| - 1];
      cs := TableIsSession(adminID, initial, es[..|es| - 1]);
      NextFresh(t, e);
      if Enabled(t, e) && SectionOf(t, e).Some? {
        var c := SectionOf(t, e).value;
        assert (cs + [c])[..|cs|] == cs;
        cs := cs + [c];
      }
    }
  }

  /** Replica agreement and slot conservation hold whatever connections do. */
  lemma TableInvariantsHold(adminID: int, initial: Json, es: seq<Event>)
    ensures Agreement(Play(Empty(adminID, initial), es).session)
    ensures Slots(Play(Empty(adminID, initial), es).session)
    ensures |Play(Empty(adminID, initial), es).session.participants| <= 5
  {
    var cs := TableIsSession(adminID, initial, es);
    ReplicasAgree(adminID, initial, cs);
    RunSlots(adminID, initial, cs);
  }

  // ---- Lost connections ----

  predicate PastCheck(t: Table, conn: Conn) {
    conn in t.attempts && !t.attempts[conn].stage.Checked?
  }

  /** Closed, or registered as its user's entry. */
  predicate Kept(t: Table, conn: Conn)
    requires conn in t.attempts
  {
    || conn in t.refused
    || conn in t.session.history.closed
    || (t.attempts[conn].user in t.session.participants
        && t.session.participants[t.attempts[conn].user].conn == conn)
  }

  ghost predicate AllKept(t: Table) {
    forall conn | PastCheck(t, conn) :: Kept(t, conn)
  }

  /** A connection registers although its user got an entry since CheckUser, which is not asked again. */
  predicate Overwrites(t: Table, e: Event) {
    && Enabled(t, e) && e.Enter?
    && var user := t.attempts[e.conn].user;
       user in t.session.participants && (user == t.session.adminID || t.session.playersNum != MAX_PLAYERS)
  }

  predicate NeverOverwrites(t: Table, es: seq<Event>) {
    es == [] || (NeverOverwrites(t, es[..|es| - 1]) && !Overwrites(Play(t, es[..|es| - 1]), es[|es| - 1]))
  }

  predicate KeyedByID(s: State) {
    forall id | id in s.participants :: s.participants[id].id == id
  }

  /** An entry's connection is its own user's, registered and open. */
  predicate Open(t: Table, id: int)
    requires id in t.session.participants
  {
    var c := t.session.participants[id].conn;
    PastCheck(t, c) && t.attempts[c].user == id && c !in t.refused && c !in t.session.history.closed
  }

  ghost predicate Tidy(t: Table) {
    && KeyedByID(t.session)
    && (forall id | id in t.session.participants :: Open(t, id))
    && (forall c | At(t, c, Checked) :: c !in t.refused && c !in t.session.history.closed)
    && t.refused <= t.attempts.Keys && t.session.history.closed <= t.attempts.Keys
  }

  /** The user a section adds or replaces. */
  predicate Adds(s: State, c: Section, id: int, conn: Conn) {
    || (c.AddingAdmin? && id == s.adminID && conn == c.conn)
    || (c.AddingParticipant? && id == c.userID && conn == c.conn)
  }

  /** An entry stays, is closed, or is replaced; only a joining user's entry is new. */
  lemma StepEntries(s: State, c: Section)
    requires KeyedByID(s)
    ensures KeyedByID(Step(s, c))
    ensures s.history.closed <= Step(s, c).history.closed
    ensures forall id | id in s.participants ::
      || (id in Step(s, c).participants && Step(s, c).participants[id] == s.participants[id])
      || s.participants[id].conn in Step(s, c).history.closed
      || (c.AddingAdmin? && id == s.adminID) || (c.AddingParticipant? && id == c.userID)
    ensures forall id | id in Step(s, c).participants ::
      || (id in s.participants && Step(s, c).participants[id] == s.participants[id])
      || Adds(s, c, id, Step(s, c).participants[id].conn)
  {
  }

  /** Only connections of entries that go are closed. */
  lemma StepCloses(s: State, c: Section, conn: Conn)
    requires conn in Step(s, c).history.closed && conn !in s.history.closed
    ensures exists id | id in s.participants :: s.participants[id].conn == conn && id !in Step(s, c).participants
  {
    if c.Removing? {
      assert s.participants[c.userID].conn == conn && c.userID !in Step(s, c).participants;
    } else {
      var dropped :=
        if c.Greeting? then map[c.userID := s.participants[c.userID]] else Failing(s.participants, c.failing);
      assert conn in Conns(dropped);
      var id :| id in dropped && dropped[id].conn == conn;
      assert s.participants[id].conn == conn && id !in Step(s, c).participants;
    }
  }

  lemma ClosedFrom(t: Table, e: Event, conn: Conn)
    requires Tidy(t) && Enabled(t, e)
    requires conn in Next(t, e).session.history.closed && conn !in t.session.history.closed
    ensures PastCheck(t, conn) && t.attempts[conn].user in t.session.participants
    ensures t.session.participants[t.attempts[conn].user].conn == conn
    ensures t.attempts[conn].user !in Next(t, e).session.participants
  {
    StepCloses(t.session, SectionOf(t, e).value, conn);
    var id :| id in t.session.participants && t.session.participants[id].conn == conn
      && id !in Next(t, e).session.participants;
    assert Open(t, id);
  }

  lemma NextOpen(t: Table, e: Event, id: int)
    requires Tidy(t) && Enabled(t, e) && id in Next(t, e).session.participants
    ensures Open(Next(t, e), id)
  {
    var u := Next(t, e);
    if SectionOf(t, e).Some? {
      StepEntries(t.session, SectionOf(t, e).value);
    }
    var c := u.session.participants[id].conn;
    if c in u.session.history.closed && c !in t.session.history.closed {
      ClosedFrom(t, e, c);
    }
    if id in t.session.participants {
      assert Open(t, id);
    }
  }

  lemma NextClosed(t: Table, e: Event)
    requires Tidy(t) && Enabled(t, e)
    ensures forall c | c in Next(t, e).session.history.closed :: c in t.attempts
    ensures forall c | At(t, c, Checked) :: c !in Next(t, e).session.history.closed
  {
    forall c | c in Next(t, e).session.history.closed && c !in t.session.history.closed
      ensures PastCheck(t, c)
    {
      ClosedFrom(t, e, c);
    }
  }

  lemma NextTidy(t: Table, e: Event)
    requires Tidy(t)
    ensures Tidy(Next(t, e))
  {
    if Enabled(t, e) {
      var u := Next(t, e);
      if SectionOf(t, e).Some? {
        StepEntries(t.session, SectionOf(t, e).value);
      }
      forall id | id in u.session.participants
        ensures Open(u, id)
      {
        NextOpen(t, e, id);
      }
      NextClosed(t, e);
      if e.Arrive? {
        assert e.conn !in u.session.history.closed;
      }
      assert forall c | At(u, c, Checked) :: At(t, c, Checked) || (e.Arrive? && c == e.conn);
    }
  }

  lemma NoNewLoss(t: Table, e: Event)
    requires Tidy(t) && AllKept(t) && !Overwrites(t, e)
    ensures AllKept(Next(t, e))
  {
    if Enabled(t, e) {
      forall conn | PastCheck(Next(t, e), conn)
        ensures Kept(Next(t, e), conn)
      {
        StillKept(t, e, conn);
      }
    }
  }

  lemma StillKept(t: Table, e: Event, conn: Conn)
    requires Tidy(t) && Enabled(t, e) && !Overwrites(t, e) && PastCheck(Next(t, e), conn)
    requires PastCheck(t, conn) ==> Kept(t, conn)
    ensures Kept(Next(t, e), conn)
  {
    if SectionOf(t, e).Some? {
      StepEntries(t.session, SectionOf(t, e).value);
    }
  }

  lemma OverwriteLoses(t: Table, e: Event) returns (conn: Conn)
    requires Tidy(t) && Overwrites(t, e)
    ensures PastCheck(Next(t, e), conn) && !Kept(Next(t, e), conn)
  {
    var user := t.attempts[e.conn].user;
    conn := t.session.participants[user].conn;
    assert Open(t, user);
  }

  lemma LostForever(t: Table, e: Event, conn: Conn)
    requires Tidy(t) && PastCheck(t, conn) && !Kept(t, conn)
    ensures PastCheck(Next(t, e), conn) && !Kept(Next(t, e), conn)
  {
    if Enabled(t, e) {
      if SectionOf(t, e).Some? {
        StepEntries(t.session, SectionOf(t, e).value);
      }
      if conn in Next(t, e).session.history.closed {
        ClosedFrom(t, e, conn);
      }
    }
  }

  lemma {:induction false} AlwaysTidy(adminID: int, initial: Json, es: seq<Event>)
    ensures Tidy(Play(Empty(adminID, initial), es))
  {
    if es != [] {
      AlwaysTidy(adminID, initial, es[..|es| - 1]);
      NextTidy(Play(Empty(adminID, initial), es[..|es| - 1]), es[|es| - 1]);
    }
  }

  /** Connections are lost in exactly the runs in which some registration overwrites an entry. */
  lemma {:induction false} LostExactlyByOverwriting(adminID: int, initial: Json, es: seq<Event>)
    ensures AllKept(Play(Empty(adminID, initial), es)) <==> NeverOverwrites(Empty(adminID, initial), es)
  {
    if es != [] {
      var t, e := Play(Empty(adminID, initial), es[..|es| - 1]), es[|es| - 1];
      LostExactlyByOverwriting(adminID, initial, es[..|es| - 1]);
      AlwaysTidy(adminID, initial, es[..|es| - 1]);
      if !AllKept(t) {
        var conn :| PastCheck(t, conn) && !Kept(t, conn);
        LostForever(t, e, conn);
      } else if Overwrites(t, e) {
        var conn := OverwriteLoses(t, e);
      } else {
        NoNewLoss(t, e);
      }
    }
  }

  // ---- Users who connect once at a time ----

  /** No user has two connections between CheckUser and registration. */
  ghost predicate OneAtATime(t: Table, e: Event) {
    e.Arrive? ==> forall conn | At(t, conn, Checked) :: t.attempts[conn].user != e.user
  }

  ghost predicate OneAtATimeRun(t: Table, es: seq<Event>) {
    es == [] || (OneAtATimeRun(t, es[..|es| - 1]) && OneAtATime(Play(t, es[..|es| - 1]), es[|es| - 1]))
  }

  /** Connections between CheckUser and registration have distinct users, none of whom has an entry. */
  ghost predicate Waiting(t: Table) {
    && KeyedByID(t.session)
    && (forall c | At(t, c, Checked) :: t.attempts[c].user !in t.session.participants)
    && forall c, d | At(t, c, Checked) && At(t, d, Checked) && c != d :: t.attempts[c].user != t.attempts[d].user
  }

  lemma StillWaiting(t: Table, e: Event, c: Conn)
    requires Waiting(t) && OneAtATime(t, e) && Enabled(t, e) && At(Next(t, e), c, Checked)
    ensures Next(t, e).attempts[c].user !in Next(t, e).session.participants
    ensures (At(t, c, Checked) && Next(t, e).attempts[c] == t.attempts[c])
      || (e.Arrive? && c == e.conn && Next(t, e).attempts[c].user == e.user)
  {
    if SectionOf(t, e).Some? {
      StepEntries(t.session, SectionOf(t, e).value);
    }
    if e.Enter? {
      assert At(t, e.conn, Checked) && At(t, c, Checked);
    }
  }

  lemma NextWaiting(t: Table, e: Event)
    requires Waiting(t) && OneAtATime(t, e)
    ensures Waiting(Next(t, e)) && !Overwrites(t, e)
  {
    if Enabled(t, e) {
      if SectionOf(t, e).Some? {
        StepEntries(t.session, SectionOf(t, e).value);
      }
      forall c | At(Next(t, e), c, Checked)
        ensures Next(t, e).attempts[c].user !in Next(t, e).session.participants
        ensures (At(t, c, Checked) && Next(t, e).attempts[c] == t.attempts[c])
          || (e.Arrive? && c == e.conn && Next(t, e).attempts[c].user == e.user)
      {
        StillWaiting(t, e, c);
      }
    }
  }

  lemma {:induction false} OneAtATimeNeverOverwrites(adminID: int, initial: Json, es: seq<Event>)
    requires OneAtATimeRun(Empty(adminID, initial), es)
    ensures Waiting(Play(Empty(adminID, initial), es)) && NeverOverwrites(Empty(adminID, initial), es)
  {
    if es != [] {
      OneAtATimeNeverOverwrites(adminID, initial, es[..|es| - 1]);
      NextWaiting(Play(Empty(adminID, initial), es[..|es| - 1]), es[|es| - 1]);
    }
  }

  lemma NoLostConnection(adminID: int, initial: Json, es: seq<Event>, conn: Conn)
    requires OneAtATimeRun(Empty(adminID, initial), es)
    requires PastCheck(Play(Empty(adminID, initial), es), conn)
    ensures Kept(Play(Empty(adminID, initial), es), conn)
  {
    OneAtATimeNeverOverwrites(adminID, initial, es);
    LostExactlyByOverwriting(adminID, initial, es);
  }

  // ---- The first message ----

  /** A connection whose join has returned and that is still its user's has been sent the data. */
  predicate Served(t: Table, conn: Conn)
    requires conn in t.attempts
  {
    var a := t.attempts[conn];
    (a.stage.Returned? || a.stage.Leaving? || a.stage.Left?)
      && a.user in t.session.participants && t.session.participants[a.user].conn == conn ==>
      conn in t.session.history.lastInfo
  }

  lemma StepDelivers(s: State, c: Section)
    ensures s.history.lastInfo.Keys <= Step(s, c).history.lastInfo.Keys
    ensures !s.locked && c.Greeting? && c.userID in Step(s, c).participants ==>
      Step(s, c).participants[c.userID].conn in Step(s, c).history.lastInfo
  {
  }

  ghost predicate AllServed(t: Table) {
    KeyedByID(t.session) && forall conn | conn in t.attempts :: Served(t, conn)
  }

  lemma StillServed(t: Table, e: Event, conn: Conn)
    requires KeyedByID(t.session) && Enabled(t, e) && conn in Next(t, e).attempts
    requires conn in t.attempts ==> Served(t, conn)
    ensures Served(Next(t, e), conn)
  {
    if SectionOf(t, e).Some? {
      StepEntries(t.session, SectionOf(t, e).value);
      StepDelivers(t.session, SectionOf(t, e).value);
    }
  }

  lemma NextServes(t: Table, e: Event)
    requires AllServed(t)
    ensures AllServed(Next(t, e))
  {
    if Enabled(t, e) {
      if SectionOf(t, e).Some? {
        StepEntries(t.session, SectionOf(t, e).value);
      }
      forall conn | conn in Next(t, e).attempts
        ensures Served(Next(t, e), conn)
      {
        StillServed(t, e, conn);
      }
    }
  }

  lemma {:induction false} AlwaysServed(adminID: int, initial: Json, es: seq<Event>)
    ensures AllServed(Play(Empty(adminID, initial), es))
  {
    if es != [] {
      AlwaysServed(adminID, initial, es[..|es| - 1]);
      NextServes(Play(Empty(adminID, initial), es[..|es| - 1]), es[|es| - 1]);
    }
  }

  /**
   In every interleaving, with the mutex free, a connection that joined and is still registered shows
   exactly the session's data.
   */
  lemma JoinedShowsData(adminID: int, initial: Json, es: seq<Event>, conn: Conn)
    requires !Play(Empty(adminID, initial), es).session.locked
    requires At(Play(Empty(adminID, initial), es), conn, Returned)
    ensures
      var t := Play(Empty(adminID, initial), es);
      var user := t.attempts[conn].user;
      user in t.session.participants && t.session.participants[user].conn == conn ==>
        t.session.data.Some? && conn in t.session.history.lastInfo
        && t.session.history.lastInfo[conn] == t.session.data
  {
    AlwaysServed(adminID, initial, es);
    TableInvariantsHold(adminID, initial, es);
    assert Served(Play(Empty(adminID, initial), es), conn);
  }

  // ---- Connecting twice at once ----

  /** The user's entry belongs to conn, which the server has not closed. */
  predicate Holding(t: Table, user: int, conn: Conn) {
    && !t.session.locked
    && user in t.session.participants && t.session.participants[user].conn == conn
    && t.session.participants[user].id == user
  }

  lemma QuietHolds(t: Table, e: Event, user: int, conn: Conn)
    requires Holding(t, user, conn) && Enabled(t, e)
    requires e == Tell(conn, {}) || e == Greet(conn, true, {})
    requires At(t, conn, if e.Tell? then Registered else Announced) && t.attempts[conn].user == user
    ensures Holding(Next(t, e), user, conn) && At(Next(t, e), conn, if e.Tell? then Announced else Returned)
    ensures Next(t, e).session.history.closed == t.session.history.closed
    ensures Next(t, e).session.playersNum == t.session.playersNum && Next(t, e).session.adminID == t.session.adminID
    ensures Next(t, e).refused == t.refused && Next(t, e).attempts == t.attempts[conn := Next(t, e).attempts[conn]]
  {
    assert Failing(t.session.participants, {}) == map[];
    assert t.session.participants - {} == t.session.participants;
    assert Conns(map[]) == {};
  }

  predicate Room(t: Table, user: int, places: nat) {
    user == t.session.adminID || t.session.playersNum <= MAX_PLAYERS - places
  }

  lemma BothArrive(t: Table, user: int, name: string, c: Conn, d: Conn)
    requires !t.session.locked && user !in t.session.participants
    requires c != d && c !in t.attempts && d !in t.attempts
    ensures
      var u := Next(Next(t, Arrive(c, user, name)), Arrive(d, user, name));
      && u.session == t.session && u.refused == t.refused
      && u.attempts == t.attempts[c := Attempt(user, name, Checked)][d := Attempt(user, name, Checked)]
  {
  }

  lemma FirstEnters(t: Table, user: int, c: Conn)
    requires !t.session.locked && user !in t.session.participants && Room(t, user, 2)
    requires At(t, c, Checked) && t.attempts[c].user == user
    ensures
      var u := Next(t, Enter(c));
      && Holding(u, user, c) && At(u, c, Registered) && Room(u, user, 1)
      && u.session.history.closed == t.session.history.closed && u.refused == t.refused
      && u.attempts == t.attempts[c := u.attempts[c]] && u.attempts[c].user == user
  {
  }

  lemma SecondEnters(t: Table, user: int, c: Conn, d: Conn)
    requires Holding(t, user, c) && Room(t, user, 1) && c != d
    requires At(t, c, Returned) && At(t, d, Checked) && t.attempts[c].user == t.attempts[d].user == user
    requires c !in t.refused && c !in t.session.history.closed
    ensures At(Next(t, Enter(d)), c, Returned) && !Kept(Next(t, Enter(d)), c)
  {
  }

  /**
   A user who connects twice at once loses the first connection, from every table with room for both:
   it has returned, yet it is neither registered nor closed.
   */
  lemma OverlapLosesConnection(t: Table, user: int, name: string, c: Conn, d: Conn)
    requires !t.session.locked && user !in t.session.participants
    requires Room(t, user, 2)
    requires c != d && c !in t.attempts && d !in t.attempts
    requires c !in t.refused && c !in t.session.history.closed
    ensures
      var u := Play(t, [Arrive(c, user, name), Arrive(d, user, name), Enter(c), Tell(c, {}),
                        Greet(c, true, {}), Enter(d)]);
      At(u, c, Returned) && !Kept(u, c)
  {
    var es := [Arrive(c, user, name), Arrive(d, user, name), Enter(c), Tell(c, {}), Greet(c, true, {}), Enter(d)];
    var t2 := Next(Next(t, es[0]), es[1]);
    var t3, t4, t5 := Next(t2, es[2]), Next(Next(t2, es[2]), es[3]), Next(Next(Next(t2, es[2]), es[3]), es[4]);
    BothArrive(t, user, name, c, d);
    FirstEnters(t2, user, c);
    QuietHolds(t3, es[3], user, c);
    QuietHolds(t4, es[4], user, c);
    SecondEnters(t5, user, c, d);
    PlaySix(t, es);
  }

  lemma PlaySix(t: Table, es: seq<Event>)
    requires |es| == 6
    ensures Play(t, es) == Next(Next(Next(Next(Next(Next(t, es[0]), es[1]), es[2]), es[3]), es[4]), es[5])
  {
    PlayStep(t, es, 0);
    PlayStep(t, es, 1);
    PlayStep(t, es, 2);
    PlayStep(t, es, 3);
    PlayStep(t, es, 4);
    PlayStep(t, es, 5);
    assert es[..6] == es;
  }

  lemma PlayStep(t: Table, es: seq<Event>, i: nat)
    requires i < |es|
    ensures Play(t, es[..i + 1]) == Next(Play(t, es[..i]), es[i])
  {
    assert es[..i + 1][..i] == es[..i];
  }
}
