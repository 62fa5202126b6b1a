/**
 A live table session as a value, and each mutex-protected section of its code as a function.
 Which socket writes fail is chosen by the caller of a section: failing is the set of connections
 whose writes fail while the section runs.
 */
module TableState {
  import opened Options
  import opened Merger

  const MAX_PLAYERS: int := 4

  /** A websocket connection; each accepted request has its own. */
  type Conn = nat

  datatype Role = Admin | Player

  datatype Participant = Participant(id: int, name: string, role: Role, conn: Conn)

  type Participants = map<int, Participant>

  /** What happened so far. The program does not keep this; the properties speak of it. */
  datatype History = History(
    received: seq<Json>, // messages merged into the data, oldest first
    lastInfo: map<Conn, Option<Json>>, // the data last delivered to a connection
    known: set<Conn>, // connections that were ever registered
    closed: set<Conn>, // connections the server closed
    lost: nat) // slots counted in playersNum that no entry accounts for

  /** locked: the mutex is held by a section that returned without releasing it. */
  datatype State = State(
    adminID: int,
    initial: Json,
    data: Option<Json>,
    participants: Participants,
    playersNum: int,
    locked: bool,
    history: History)

  function Opened(adminID: int, initial: Json): State {
    State(adminID, initial, Some(initial), map[], 0, false, History([], map[], {}, {}, 0))
  }

  // ---- Participants ----

  function PlayerIDs(ps: Participants): set<int> {
    set id | id in ps && ps[id].role.Player?
  }

  function Conns(ps: Participants): set<Conn> {
    set id | id in ps :: ps[id].conn
  }

  /** The entries whose connection fails. */
  function Failing(ps: Participants, failing: set<Conn>): Participants {
    map id | id in ps && ps[id].conn in failing :: ps[id]
  }

  /** Closes and deletes the given entries without touching playersNum. */
  function Drop(s: State, dropped: Participants): State {
    s.(participants := s.participants - dropped.Keys,
       history := s.history.(closed := s.history.closed + Conns(dropped),
                             lost := s.history.lost + |PlayerIDs(dropped)|))
  }

  // ---- Sections ----

  /** sendParticipantsInfo: every entry is written to, a failed write drops its entry. */
  function Announce(s: State, failing: set<Conn>): State {
    Drop(s, Failing(s.participants, failing))
  }

  /** One round of run. None is a message that does not parse; a failed merge leaves the mutex held. */
  function Broadcast(s: State, msg: Option<Json>, failing: set<Conn>): State {
    var merged := if s.data.Some? && msg.Some? then Merge(s.data.value, msg.value) else None;
    if merged.None? then s.(data := None, locked := true)
    else
      var dropped := Failing(s.participants, failing);
      var written := Conns(s.participants - dropped.Keys);
      var told := s.(data := merged,
                     history := s.history.(received := s.history.received + [msg.value],
                                           lastInfo := Deliver(s.history.lastInfo, written, merged)));
      Drop(told, dropped)
  }

  function Deliver(lastInfo: map<Conn, Option<Json>>, written: set<Conn>, data: Option<Json>): map<Conn, Option<Json>> {
    map c | c in lastInfo.Keys + written :: if c in written then data else lastInfo[c]
  }

  /** WriteFirstMsg. For an absent user it panics; the deferred unlock still runs. */
  function FirstMessage(s: State, userID: int, failing: set<Conn>): State {
    if userID !in s.participants then s
    else
      var p := s.participants[userID];
      if p.conn in failing then Drop(s, map[userID := p])
      else s.(history := s.history.(lastInfo := s.history.lastInfo[p.conn := s.data]))
  }

  /** The entry is replaced if the user has one; a replaced player's slot stays counted. */
  function Register(s: State, p: Participant): State {
    var replaced := if p.id in s.participants then PlayerIDs(map[p.id := s.participants[p.id]]) else {};
    s.(participants := s.participants[p.id := p],
       history := s.history.(known := s.history.known + {p.conn}, lost := s.history.lost + |replaced|))
  }

  /** First section of AddAdmin. */
  function AddAdmin(s: State, name: string, conn: Conn): State {
    Register(s, Participant(s.adminID, name, Admin, conn))
  }

  /** First section of AddParticipant. A full table is refused with the mutex still held. */
  function AddParticipant(s: State, userID: int, name: string, conn: Conn): State {
    if s.playersNum == MAX_PLAYERS then s.(locked := true)
    else Register(s, Participant(userID, name, Player, conn)).(playersNum := s.playersNum + 1)
  }

  /** First section of RemoveParticipant. For an absent user the panic is recovered with the mutex still held. */
  function Remove(s: State, userID: int): State {
    if userID !in s.participants then s.(locked := true)
    else
      var p := s.participants[userID];
      s.(participants := s.participants - {userID},
         playersNum := if p.role.Admin? then s.playersNum else s.playersNum - 1,
         history := s.history.(closed := s.history.closed + {p.conn}))
  }

  // ---- Runs ----

  datatype Section =
    | Announcing(failing: set<Conn>)
    | Broadcasting(msg: Option<Json>, failing: set<Conn>)
    | Greeting(userID: int, failing: set<Conn>)
    | AddingAdmin(name: string, conn: Conn)
    | AddingParticipant(userID: int, name: string, conn: Conn)
    | Removing(userID: int)

  /** The connection of a new entry is new, and only the admin's own id is added as admin. */
  predicate Possible(s: State, c: Section) {
    match c
    case AddingAdmin(_, conn) => conn !in s.history.known
    case AddingParticipant(userID, _, conn) => conn !in s.history.known && userID != s.adminID
    case _ => true
  }

  /** One section; while the mutex is held no section gets in. */
  function Step(s: State, c: Section): State {
    if s.locked then s
    else
      match c
      case Announcing(failing) => Announce(s, failing)
      case Broadcasting(msg, failing) => Broadcast(s, msg, failing)
      case Greeting(userID, failing) => FirstMessage(s, userID, failing)
      case AddingAdmin(name, conn) => AddAdmin(s, name, conn)
      case AddingParticipant(userID, name, conn) => AddParticipant(s, userID, name, conn)
      case Removing(userID) => Remove(s, userID)
  }

  /** Any sections of any threads, one after the other. */
  function Run(s: State, cs: seq<Section>): State {
    if cs == [] then s else Step(Run(s, cs[..|cs| - 1]), cs[|cs| - 1])
  }

  predicate PossibleRun(s: State, cs: seq<Section>) {
    cs == [] || (PossibleRun(s, cs[..|cs| - 1]) && Possible(Run(s, cs[..|cs| - 1]), cs[|cs| - 1]))
  }
}
