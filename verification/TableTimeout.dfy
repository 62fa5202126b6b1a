/** Session ids, the timer watcher and stopTimer, interleaved with the sessions themselves. */
module TableTimeout {
  import opened Options
  import opened Merger
  import opened MergeOrder
  import opened TableState
  import opened TableInvariants

  type SessionID = string

  /** How far one call of stopTimer got. */
  datatype Phase = Fired | Fetched | Unwatched | Saved | Finished | Crashed

  /** firedAt, fetchedAt: how many messages the session had merged when the call fired and when it fetched. */
  datatype StopTimer = StopTimer(id: SessionID, phase: Phase, data: Option<Json>, firedAt: nat, fetchedAt: nat)

  /**
   objects: every session created; live: the keys of the manager's map; watched: the keys of the
   watcher map; armed: the timers that run; pending: created, timer not yet set; stored: the saved data
   of each encounter write.
   */
  datatype Tables = Tables(
    objects: map<SessionID, State>,
    live: set<SessionID>,
    pending: set<SessionID>,
    watched: set<SessionID>,
    armed: set<SessionID>,
    calls: map<nat, StopTimer>,
    stored: seq<(SessionID, Option<Json>)>)

  datatype Action =
    | Create(id: SessionID, adminID: int, initial: Json)
    | Watch(id: SessionID)
    | Play(id: SessionID, section: Section)
    | Refresh(id: SessionID)             // refreshSession resets the timer
    | Fire(call: nat, id: SessionID)     // the timer runs out
    | Fetch(call: nat)                   // GetEncounterData
    | Unwatch(call: nat)                 // stop the timer and delete it from the map
    | Save(call: nat)                    // UpdateEncounter
    | Finish(call: nat)                  // RemoveSession deletes the session

  predicate In(t: Tables, call: nat, phase: Phase) {
    call in t.calls && t.calls[call].phase == phase
  }

  /** New sessions get ids never used before; a timer that ran out fires again only after a reset. */
  predicate Enabled(t: Tables, a: Action) {
    match a
    case Create(id, _, _) => id !in t.objects
    case Watch(id) => id in t.pending
    case Play(id, section) => id in t.objects && Possible(t.objects[id], section)
    case Refresh(id) => id in t.watched
    case Fire(call, id) => call !in t.calls && id in t.armed
    case Fetch(call) =>
      && In(t, call, Fired)
      && (t.calls[call].id in t.live && t.calls[call].id in t.objects ==> !t.objects[t.calls[call].id].locked)
    case Unwatch(call) => In(t, call, Fetched)
    case Save(call) => In(t, call, Unwatched)
    case Finish(call) => In(t, call, Saved)
  }

  function Merged(t: Tables, id: SessionID): nat {
    if id in t.objects then |t.objects[id].history.received| else 0
  }

  function Advance(t: Tables, call: nat, phase: Phase): Tables
    requires call in t.calls
  {
    t.(calls := t.calls[call := t.calls[call].(phase := phase)])
  }

  function Next(t: Tables, a: Action): Tables {
    if !Enabled(t, a) then t
    else
      match a
      case Create(id, adminID, initial) =>
        t.(objects := t.objects[id := Opened(adminID, initial)], live := t.live + {id}, pending := t.pending + {id})
      case Watch(id) => t.(pending := t.pending - {id}, watched := t.watched + {id}, armed := t.armed + {id})
      case Play(id, section) => t.(objects := t.objects[id := Step(t.objects[id], section)])
      case Refresh(id) => t.(armed := t.armed + {id})
      case Fire(call, id) =>
        t.(armed := t.armed - {id}, calls := t.calls[call := StopTimer(id, Fired, None, Merged(t, id), Merged(t, id))])
      case Fetch(call) =>
        var id := t.calls[call].id;
        var data := if id in t.live && id in t.objects then t.objects[id].data else None;
        t.(calls := t.calls[call := StopTimer(id, Fetched, data, t.calls[call].firedAt, Merged(t, id))])
      case Unwatch(call) =>
        var id := t.calls[call].id;
        if id in t.watched then Advance(t, call, Unwatched).(watched := t.watched - {id}, armed := t.armed - {id})
        else Advance(t, call, Crashed)
      case Save(call) => Advance(t, call, Saved).(stored := t.stored + [(t.calls[call].id, t.calls[call].data)])
      case Finish(call) => Advance(t, call, Finished).(live := t.live - {t.calls[call].id})
  }

  function Run(t: Tables, actions: seq<Action>): Tables {
    if actions == [] then t else Next(Run(t, actions[..|actions| - 1]), actions[|actions| - 1])
  }

  const Start: Tables := Tables(map[], {}, {}, {}, {}, map[], [])

  /** data is the fold of exactly the first n messages the session received. */
  predicate FoldAt(s: State, n: nat, data: Option<Json>) {
    n <= |s.history.received| && data.Some? && data == MergeAll(s.initial, s.history.received[..n])
  }

  predicate Committed(phase: Phase) {
    phase.Unwatched? || phase.Saved? || phase.Finished?
  }

  /** What c fetched is the fold of exactly the messages merged by then, those merged before it fired included. */
  predicate Fetching(t: Tables, c: StopTimer) {
    c.id in t.objects && c.firedAt <= c.fetchedAt && FoldAt(t.objects[c.id], c.fetchedAt, c.data)
  }

  predicate CallOK(t: Tables, c: StopTimer) {
    && c.id in t.objects && c.id !in t.pending
    && c.firedAt <= |t.objects[c.id].history.received|
    && (c.phase.Fetched? && c.id in t.watched ==> Fetching(t, c))
    && (Committed(c.phase) ==> c.id !in t.watched && Fetching(t, c))
    && (c.phase.Unwatched? || c.phase.Saved? ==> c.id in t.live)
    && (c.phase.Crashed? ==> c.id !in t.watched)
  }

  /** No two calls get past the watcher for one session. */
  ghost predicate OneCommitted(calls: map<nat, StopTimer>) {
    forall j, k | j in calls && k in calls && j != k && Committed(calls[j].phase) && Committed(calls[k].phase) ::
      calls[j].id != calls[k].id
  }

  /** Some call got past the watcher for the session. */
  ghost predicate HasCommitted(calls: map<nat, StopTimer>, id: SessionID) {
    exists k | k in calls :: calls[k].id == id && Committed(calls[k].phase)
  }

  ghost predicate Safe(t: Tables) {
    && t.live <= t.objects.Keys
    && t.pending <= t.live && t.armed <= t.watched <= t.live && t.pending !! t.watched
    && (forall id | id in t.objects :: Agreement(t.objects[id]))
    && (forall id | id in t.objects && id !in t.pending && id !in t.watched :: HasCommitted(t.calls, id))
    && (forall k | k in t.calls :: CallOK(t, t.calls[k]))
    && OneCommitted(t.calls)
  }

  lemma StepKeepsFold(s: State, c: Section, n: nat, data: Option<Json>)
    requires FoldAt(s, n, data)
    ensures FoldAt(Step(s, c), n, data)
  {
    StepInitial(s, c);
    assert Step(s, c).history.received[..n] == s.history.received[..n];
  }

  lemma AllOfIt(s: State)
    requires Agreement(s) && !s.locked
    ensures FoldAt(s, |s.history.received|, s.data)
  {
    assert s.history.received[..|s.history.received|] == s.history.received;
  }

  lemma PlaySafe(t: Tables, id: SessionID, section: Section)
    requires Safe(t) && Enabled(t, Play(id, section))
    ensures Safe(Next(t, Play(id, section)))
  {
    var u := Next(t, Play(id, section));
    StepAgrees(t.objects[id], section);
    StepInitial(t.objects[id], section);
    assert u.calls == t.calls;
    forall k | k in u.calls
      ensures CallOK(u, u.calls[k])
    {
      var c := t.calls[k];
      assert CallOK(t, c);
      if c.id == id && Fetching(t, c) {
        StepKeepsFold(t.objects[id], section, c.fetchedAt, c.data);
      }
    }
  }

  lemma OpenedAgrees(adminID: int, initial: Json)
    ensures Agreement(Opened(adminID, initial))
  {
  }

  lemma CreateSafe(t: Tables, id: SessionID, adminID: int, initial: Json)
    requires Safe(t) && Enabled(t, Create(id, adminID, initial))
    ensures Safe(Next(t, Create(id, adminID, initial)))
  {
    var u := Next(t, Create(id, adminID, initial));
    OpenedAgrees(adminID, initial);
    assert u.calls == t.calls && u.objects.Keys == t.objects.Keys + {id};
    assert forall other | other in t.objects :: u.objects[other] == t.objects[other];
    forall k | k in u.calls
      ensures CallOK(u, u.calls[k])
    {
      assert CallOK(t, t.calls[k]);
    }
  }

  lemma TimerSafe(t: Tables, a: Action)
    requires Safe(t) && Enabled(t, a) && (a.Watch? || a.Refresh?)
    ensures Safe(Next(t, a))
  {
    var u := Next(t, a);
    forall k | k in u.calls
      ensures CallOK(u, u.calls[k])
    {
      assert CallOK(t, t.calls[k]);
    }
  }

  /** A step of stopTimer: only the calling run of it changes. */
  predicate CallMoves(t: Tables, u: Tables, call: nat) {
    && call in u.calls && u.calls == t.calls[call := u.calls[call]]
    && u.objects == t.objects && u.pending == t.pending
    && (call in t.calls ==>
      t.calls[call].id == u.calls[call].id && (Committed(t.calls[call].phase) ==> Committed(u.calls[call].phase)))
    && u.watched == (if u.calls[call].phase.Unwatched? then t.watched - {u.calls[call].id} else t.watched)
    && u.live == (if u.calls[call].phase.Finished? then t.live - {u.calls[call].id} else t.live)
  }

  /** No call but this one got past the watcher for its session. */
  ghost predicate Alone(calls: map<nat, StopTimer>, call: nat, id: SessionID) {
    forall k | k in calls && k != call && Committed(calls[k].phase) :: calls[k].id != id
  }

  /** It keeps everything in order if the calling run is, and if it is the only one past the watcher. */
  lemma CallSafe(t: Tables, u: Tables, call: nat)
    requires Safe(t) && CallMoves(t, u, call) && CallOK(u, u.calls[call])
    requires u.pending <= u.live && u.armed <= u.watched <= u.live
    requires Committed(u.calls[call].phase) ==> Alone(t.calls, call, u.calls[call].id)
    ensures Safe(u)
  {
    CallKeepsCommitted(t, u, call);
    CallKeepsOne(t, u, call);
    CallKeepsOthers(t, u, call);
  }

  lemma CallKeepsOne(t: Tables, u: Tables, call: nat)
    requires CallMoves(t, u, call) && OneCommitted(t.calls)
    requires Committed(u.calls[call].phase) ==> Alone(t.calls, call, u.calls[call].id)
    ensures OneCommitted(u.calls)
  {
  }

  lemma CallKeepsOthers(t: Tables, u: Tables, call: nat)
    requires CallMoves(t, u, call) && CallOK(u, u.calls[call])
    requires forall k | k in t.calls :: CallOK(t, t.calls[k])
    requires Committed(u.calls[call].phase) ==> Alone(t.calls, call, u.calls[call].id)
    ensures forall k | k in u.calls :: CallOK(u, u.calls[k])
  {
    forall k | k in u.calls
      ensures CallOK(u, u.calls[k])
    {
      if k != call {
        assert u.calls[k] == t.calls[k] && CallOK(t, t.calls[k]);
      }
    }
  }

  lemma CallKeepsCommitted(t: Tables, u: Tables, call: nat)
    requires CallMoves(t, u, call)
    requires forall id | id in t.objects && id !in t.pending && id !in t.watched :: HasCommitted(t.calls, id)
    ensures forall id | id in u.objects && id !in u.pending && id !in u.watched :: HasCommitted(u.calls, id)
  {
    forall id | id in u.objects && id !in u.pending && id !in u.watched
      ensures HasCommitted(u.calls, id)
    {
      if id in t.watched {
        assert u.calls[call].id == id && Committed(u.calls[call].phase);
      } else {
        var k :| k in t.calls && t.calls[k].id == id && Committed(t.calls[k].phase);
        assert k in u.calls && u.calls[k].id == id && Committed(u.calls[k].phase);
      }
    }
  }

  lemma FireSafe(t: Tables, call: nat, id: SessionID)
    requires Safe(t) && Enabled(t, Fire(call, id))
    ensures Safe(Next(t, Fire(call, id)))
  {
    CallSafe(t, Next(t, Fire(call, id)), call);
  }

  lemma FetchSafe(t: Tables, call: nat)
    requires Safe(t) && Enabled(t, Fetch(call))
    ensures Safe(Next(t, Fetch(call)))
  {
    assert CallOK(t, t.calls[call]);
    if t.calls[call].id in t.live {
      AllOfIt(t.objects[t.calls[call].id]);
    }
    CallSafe(t, Next(t, Fetch(call)), call);
  }

  lemma UnwatchSafe(t: Tables, call: nat)
    requires Safe(t) && Enabled(t, Unwatch(call))
    ensures Safe(Next(t, Unwatch(call)))
  {
    assert forall k | k in t.calls :: CallOK(t, t.calls[k]);
    CallSafe(t, Next(t, Unwatch(call)), call);
  }

  lemma EndSafe(t: Tables, a: Action)
    requires Safe(t) && (a.Save? || a.Finish?) && Enabled(t, a)
    ensures Safe(Next(t, a))
  {
    assert CallOK(t, t.calls[a.call]);
    CallSafe(t, Next(t, a), a.call);
  }

  lemma NextSafe(t: Tables, a: Action)
    requires Safe(t)
    ensures Safe(Next(t, a))
  {
    if Enabled(t, a) {
      match a
      case Create(id, adminID, initial) =>
        CreateSafe(t, id, adminID, initial);
      case Watch(_) =>
        TimerSafe(t, a);
      case Refresh(_) =>
        TimerSafe(t, a);
      case Play(id, section) =>
        PlaySafe(t, id, section);
      case Fire(call, id) =>
        FireSafe(t, call, id);
      case Fetch(call) =>
        FetchSafe(t, call);
      case Unwatch(call) =>
        UnwatchSafe(t, call);
      case Save(_) =>
        EndSafe(t, a);
      case Finish(_) =>
        EndSafe(t, a);
    }
  }

  /** A watched session whose timer does not run has a call of stopTimer on its way to the watcher. */
  ghost predicate Ticking(t: Tables) {
    forall id | id in t.watched && id !in t.armed :: OnItsWay(t.calls, id)
  }

  ghost predicate OnItsWay(calls: map<nat, StopTimer>, id: SessionID) {
    exists k | k in calls :: calls[k].id == id && (calls[k].phase.Fired? || calls[k].phase.Fetched?)
  }

  lemma NextTicking(t: Tables, a: Action)
    requires Ticking(t)
    ensures Ticking(Next(t, a))
  {
    if Enabled(t, a) {
      var u := Next(t, a);
      forall id | id in u.watched && id !in u.armed
        ensures OnItsWay(u.calls, id)
      {
        if a.Fire? && a.id == id {
          assert u.calls[a.call].id == id && u.calls[a.call].phase.Fired?;
        } else {
          var k :| k in t.calls && t.calls[k].id == id && (t.calls[k].phase.Fired? || t.calls[k].phase.Fetched?);
          assert u.calls[k].id == id && (u.calls[k].phase.Fired? || u.calls[k].phase.Fetched?);
        }
      }
    }
  }

  // ---- Saves ----

  predicate Wrote(phase: Phase) {
    phase.Saved? || phase.Finished?
  }

  ghost predicate SavedBy(calls: map<nat, StopTimer>, entry: (SessionID, Option<Json>)) {
    exists k | k in calls :: Wrote(calls[k].phase) && (calls[k].id, calls[k].data) == entry
  }

  /** The saves are what the calls that got past saving fetched, and no session is saved twice. */
  ghost predicate SavedOnce(t: Tables) {
    && (forall i | 0 <= i < |t.stored| :: SavedBy(t.calls, t.stored[i]))
    && (forall k | k in t.calls && Wrote(t.calls[k].phase) :: (t.calls[k].id, t.calls[k].data) in t.stored)
    && forall i, j | 0 <= i < j < |t.stored| :: t.stored[i].0 != t.stored[j].0
  }

  lemma StaysSaved(t: Tables, a: Action, entry: (SessionID, Option<Json>))
    requires SavedBy(t.calls, entry)
    ensures SavedBy(Next(t, a).calls, entry)
  {
    var k :| k in t.calls && Wrote(t.calls[k].phase) && (t.calls[k].id, t.calls[k].data) == entry;
    assert k in Next(t, a).calls && Next(t, a).calls[k].id == entry.0;
  }

  lemma NextSavedOnce(t: Tables, a: Action)
    requires OneCommitted(t.calls) && SavedOnce(t)
    ensures SavedOnce(Next(t, a))
  {
    var u := Next(t, a);
    forall i | 0 <= i < |t.stored|
      ensures SavedBy(u.calls, t.stored[i])
    {
      StaysSaved(t, a, t.stored[i]);
    }
    if Enabled(t, a) && a.Save? {
      SaveSavedOnce(t, a.call);
    } else {
      assert u.stored == t.stored;
    }
  }

  lemma SaveSavedOnce(t: Tables, call: nat)
    requires OneCommitted(t.calls) && SavedOnce(t) && Enabled(t, Save(call))
    requires forall i | 0 <= i < |t.stored| :: SavedBy(Next(t, Save(call)).calls, t.stored[i])
    ensures SavedOnce(Next(t, Save(call)))
  {
    var u := Next(t, Save(call));
    var entry := (t.calls[call].id, t.calls[call].data);
    assert u.stored == t.stored + [entry];
    assert call in u.calls && Wrote(u.calls[call].phase) && (u.calls[call].id, u.calls[call].data) == entry;
    forall i | 0 <= i < |t.stored|
      ensures t.stored[i].0 != entry.0
    {
      assert SavedBy(t.calls, t.stored[i]);
    }
    assert SavedBy(u.calls, entry);
  }

  lemma {:induction false} AlwaysSafe(actions: seq<Action>)
    ensures Safe(Run(Start, actions)) && SavedOnce(Run(Start, actions)) && Ticking(Run(Start, actions))
  {
    if actions != [] {
      AlwaysSafe(actions[..|actions| - 1]);
      NextSafe(Run(Start, actions[..|actions| - 1]), actions[|actions| - 1]);
      NextSavedOnce(Run(Start, actions[..|actions| - 1]), actions[|actions| - 1]);
      NextTicking(Run(Start, actions[..|actions| - 1]), actions[|actions| - 1]);
    }
  }

  /**
   In every reachable state each watched session is live and no session was saved twice. Each save was
   made by a call for that session and is the fold of exactly the messages merged when the call fetched.
   */
  lemma TimeoutSafety(actions: seq<Action>)
    ensures
      var t := Run(Start, actions);
      && t.armed <= t.watched <= t.live <= t.objects.Keys
      && (forall i, j | 0 <= i < j < |t.stored| :: t.stored[i].0 != t.stored[j].0)
      && (forall i | 0 <= i < |t.stored| :: MadeByCall(t, t.stored[i].0, t.stored[i].1))
  {
    AlwaysSafe(actions);
    var t := Run(Start, actions);
    forall i | 0 <= i < |t.stored|
      ensures MadeByCall(t, t.stored[i].0, t.stored[i].1)
    {
      assert SavedBy(t.calls, t.stored[i]);
      var k :| k in t.calls && Wrote(t.calls[k].phase) && (t.calls[k].id, t.calls[k].data) == t.stored[i];
      assert CallOK(t, t.calls[k]);
    }
  }

  ghost predicate MadeByCall(t: Tables, id: SessionID, data: Option<Json>) {
    exists k | k in t.calls :: t.calls[k].id == id && SaveOf(t, t.calls[k], data)
  }

  /** c saved data: the fold of the first fetchedAt messages, at least those merged before it fired. */
  predicate SaveOf(t: Tables, c: StopTimer, data: Option<Json>) {
    && Wrote(c.phase) && c.id in t.objects
    && c.firedAt <= c.fetchedAt <= |t.objects[c.id].history.received|
    && FoldAt(t.objects[c.id], c.fetchedAt, data)
  }

  // ---- A timer that fires twice ----

  /** Another call for the same session got past the watcher. */
  ghost predicate HasTwin(calls: map<nat, StopTimer>, k: nat)
    requires k in calls
  {
    exists j | j in calls && j != k :: calls[j].id == calls[k].id && Committed(calls[j].phase)
  }

  /**
   Forgetting the timer crashes exactly when another call for the session got there first; then the
   timer's entry is gone. A call that gets past the watcher finds its session still live.
   */
  lemma CrashesExactly(actions: seq<Action>, k: nat)
    requires Enabled(Run(Start, actions), Unwatch(k))
    ensures
      var t := Run(Start, actions);
      var u := Next(t, Unwatch(k));
      && (u.calls[k].phase.Crashed? <==> HasTwin(t.calls, k))
      && (!u.calls[k].phase.Crashed? ==> u.calls[k].id in u.live)
  {
    AlwaysSafe(actions);
    var t := Run(Start, actions);
    assert forall j | j in t.calls :: CallOK(t, t.calls[j]);
    if t.calls[k].id !in t.watched {
      assert HasCommitted(t.calls, t.calls[k].id);
    }
  }

  /** A timer that fires once does not crash. */
  lemma CrashedHasTwin(actions: seq<Action>, k: nat)
    requires In(Run(Start, actions), k, Crashed)
    ensures HasTwin(Run(Start, actions).calls, k)
  {
    AlwaysSafe(actions);
    var t := Run(Start, actions);
    assert CallOK(t, t.calls[k]);
    assert HasCommitted(t.calls, t.calls[k].id);
    var j :| j in t.calls && t.calls[j].id == t.calls[k].id && Committed(t.calls[j].phase);
    assert j != k;
  }

  lemma RunSnoc(t: Tables, actions: seq<Action>, a: Action)
    ensures Run(t, actions + [a]) == Next(Run(t, actions), a)
  {
    assert (actions + [a])[..|actions|] == actions;
  }

  lemma {:induction false} RunCons(t: Tables, a: Action, actions: seq<Action>)
    ensures Run(t, [a] + actions) == Run(Next(t, a), actions)
  {
    if actions == [] {
      RunSnoc(t, [], a);
      assert [] + [a] == [a] + actions;
    } else {
      var front, last := actions[..|actions| - 1], actions[|actions| - 1];
      RunCons(t, a, front);
      RunSnoc(t, [a] + front, last);
      assert [a] + actions == [a] + front + [last];
    }
  }

  function FiresTwice(id: SessionID, adminID: int, initial: Json): seq<Action> {
    [Create(id, adminID, initial), Watch(id)] + TwoCalls(id)
  }

  function TwoCalls(id: SessionID): seq<Action> {
    [Fire(0, id), Refresh(id), Fire(1, id), Fetch(0), Fetch(1), Unwatch(0), Unwatch(1)]
  }

  /** A timer that ran out is reset and runs out again before the first call has forgotten it. */
  lemma SecondFiringCrashes(id: SessionID, adminID: int, initial: Json)
    ensures In(Run(Start, FiresTwice(id, adminID, initial)), 1, Crashed)
  {
    var c, w, a := Create(id, adminID, initial), Watch(id), TwoCalls(id);
    RunCons(Start, c, [w] + a);
    RunCons(Next(Start, c), w, a);
    assert FiresTwice(id, adminID, initial) == [c] + ([w] + a);
    TwoCallsCrash(Next(Next(Start, c), w), id);
  }

  lemma TwoCallsCrash(t: Tables, id: SessionID)
    requires t.calls == map[] && id in t.watched && id in t.armed && (id in t.objects ==> !t.objects[id].locked)
    ensures In(Run(t, TwoCalls(id)), 1, Crashed)
  {
    TwoCallsStepwise(t, id);
    var t2 := Next(Next(t, Fire(0, id)), Refresh(id));
    assert In(t2, 0, Fired) && t2.calls[0].id == id && id in t2.armed && id in t2.watched;
    var t3 := Next(t2, Fire(1, id));
    assert In(t3, 0, Fired) && In(t3, 1, Fired) && t3.calls[0].id == t3.calls[1].id == id;
    BothFetchedCrash(Next(Next(t3, Fetch(0)), Fetch(1)), id);
  }

  lemma BothFetchedCrash(t: Tables, id: SessionID)
    requires In(t, 0, Fetched) && In(t, 1, Fetched) && t.calls[0].id == t.calls[1].id == id && id in t.watched
    ensures In(Next(Next(t, Unwatch(0)), Unwatch(1)), 1, Crashed)
  {
    var u := Next(t, Unwatch(0));
    assert id !in u.watched && u.calls[1] == t.calls[1];
  }

  lemma TwoCallsStepwise(t: Tables, id: SessionID)
    ensures Run(t, TwoCalls(id)) ==
      var t3 := Next(Next(Next(t, Fire(0, id)), Refresh(id)), Fire(1, id));
      Next(Next(Next(Next(t3, Fetch(0)), Fetch(1)), Unwatch(0)), Unwatch(1))
  {
    var a := TwoCalls(id);
    assert a[..6] + [a[6]] == a && a[..5] + [a[5]] == a[..6] && a[..4] + [a[4]] == a[..5];
    assert a[..3] + [a[3]] == a[..4] && a[..2] + [a[2]] == a[..3] && a[..1] + [a[1]] == a[..2] && [] + [a[0]] == a[..1];
    RunSnoc(t, [], a[0]);
    RunSnoc(t, a[..1], a[1]);
    RunSnoc(t, a[..2], a[2]);
    RunSnoc(t, a[..3], a[3]);
    RunSnoc(t, a[..4], a[4]);
    RunSnoc(t, a[..5], a[5]);
    RunSnoc(t, a[..6], a[6]);
  }

  // ---- A mutex left held ----

  ghost predicate IsStored(t: Tables, id: SessionID) {
    exists i | 0 <= i < |t.stored| :: t.stored[i].0 == id
  }

  ghost predicate CanBeStored(t: Tables, id: SessionID) {
    exists more :: IsStored(Run(t, more), id)
  }

  /** The mutex was left held and no call has fetched the data yet. */
  predicate Stuck(t: Tables, id: SessionID) {
    && id in t.objects && t.objects[id].locked
    && forall k | k in t.calls && t.calls[k].id == id :: t.calls[k].phase.Fired?
  }

  lemma NextStuck(t: Tables, a: Action, id: SessionID)
    requires Stuck(t, id) && id in t.live && !IsStored(t, id)
    ensures Stuck(Next(t, a), id) && id in Next(t, a).live && !IsStored(Next(t, a), id)
  {
    if a.Play? && Enabled(t, a) {
      StepInitial(t.objects[a.id], a.section);
    }
  }

  lemma {:induction false} StaysStuck(t: Tables, more: seq<Action>, id: SessionID)
    requires Stuck(t, id) && id in t.live && !IsStored(t, id)
    ensures Stuck(Run(t, more), id) && id in Run(t, more).live && !IsStored(Run(t, more), id)
  {
    if more != [] {
      StaysStuck(t, more[..|more| - 1], id);
      NextStuck(Run(t, more[..|more| - 1]), more[|more| - 1], id);
    }
  }

  lemma StoredFrom(t: Tables, a: Action, id: SessionID)
    requires CanBeStored(Next(t, a), id)
    ensures CanBeStored(t, id)
  {
    var more :| IsStored(Run(Next(t, a), more), id);
    RunCons(t, a, more);
  }

  lemma SaveStores(t: Tables, k: nat)
    requires In(t, k, Unwatched)
    ensures CanBeStored(t, t.calls[k].id)
  {
    var u := Next(t, Save(k));
    assert u.stored[|t.stored|].0 == t.calls[k].id;
    assert IsStored(Run(u, []), t.calls[k].id);
    StoredFrom(t, Save(k), t.calls[k].id);
  }

  lemma UnwatchStores(t: Tables, k: nat)
    requires In(t, k, Fetched) && t.calls[k].id in t.watched
    ensures CanBeStored(t, t.calls[k].id)
  {
    SaveStores(Next(t, Unwatch(k)), k);
    StoredFrom(t, Unwatch(k), t.calls[k].id);
  }

  lemma FetchStores(t: Tables, k: nat)
    requires In(t, k, Fired) && t.calls[k].id in t.watched
    requires t.calls[k].id in t.objects ==> !t.objects[t.calls[k].id].locked
    ensures CanBeStored(t, t.calls[k].id)
  {
    UnwatchStores(Next(t, Fetch(k)), k);
    StoredFrom(t, Fetch(k), t.calls[k].id);
  }

  lemma FireStores(t: Tables, id: SessionID)
    requires id in t.watched && id in t.armed && id in t.objects && !t.objects[id].locked
    ensures CanBeStored(t, id)
  {
    var k := Unused(t.calls.Keys);
    FetchStores(Next(t, Fire(k, id)), k);
    StoredFrom(t, Fire(k, id), id);
  }

  lemma {:induction false} Unused(s: set<nat>) returns (n: nat)
    ensures forall m | m in s :: m < n
  {
    if s == {} {
      n := 0;
    } else {
      var m :| m in s;
      var above := Unused(s - {m});
      n := if m < above then above else m + 1;
      assert forall other | other in s && other != m :: other in s - {m};
    }
  }

  /** A created session can still be saved if and only if its mutex was not left held before any call fetched. */
  lemma SavedUnlessStuck(actions: seq<Action>, id: SessionID)
    requires id in Run(Start, actions).objects
    ensures CanBeStored(Run(Start, actions), id) <==> !Stuck(Run(Start, actions), id)
  {
    AlwaysSafe(actions);
    var t := Run(Start, actions);
    if Stuck(t, id) {
      NeverStored(t, id);
    } else if id in t.pending {
      assert forall k | k in t.calls :: CallOK(t, t.calls[k]);
      FireStores(Next(t, Watch(id)), id);
      StoredFrom(t, Watch(id), id);
    } else if id in t.watched {
      WatchedStores(t, id);
    } else {
      CommittedStores(t, id);
    }
  }

  lemma NeverStored(t: Tables, id: SessionID)
    requires Safe(t) && SavedOnce(t) && Stuck(t, id)
    ensures !CanBeStored(t, id)
  {
    assert id in t.live by {
      assert !HasCommitted(t.calls, id);
    }
    forall i | 0 <= i < |t.stored|
      ensures t.stored[i].0 != id
    {
      assert SavedBy(t.calls, t.stored[i]);
    }
    forall more
      ensures !IsStored(Run(t, more), id)
    {
      StaysStuck(t, more, id);
    }
  }

  lemma WatchedStores(t: Tables, id: SessionID)
    requires Safe(t) && Ticking(t) && id in t.watched && !Stuck(t, id)
    ensures CanBeStored(t, id)
  {
    if !t.objects[id].locked && id in t.armed {
      FireStores(t, id);
    } else if !t.objects[id].locked {
      assert OnItsWay(t.calls, id);
      var k :| k in t.calls && t.calls[k].id == id && (t.calls[k].phase.Fired? || t.calls[k].phase.Fetched?);
      if t.calls[k].phase.Fired? {
        FetchStores(t, k);
      } else {
        UnwatchStores(t, k);
      }
    } else {
      var k :| k in t.calls && t.calls[k].id == id && !t.calls[k].phase.Fired?;
      assert CallOK(t, t.calls[k]);
      UnwatchStores(t, k);
    }
  }

  lemma CommittedStores(t: Tables, id: SessionID)
    requires Safe(t) && SavedOnce(t) && HasCommitted(t.calls, id)
    ensures CanBeStored(t, id)
  {
    var k :| k in t.calls && t.calls[k].id == id && Committed(t.calls[k].phase);
    if t.calls[k].phase.Unwatched? {
      SaveStores(t, k);
    } else {
      var entry := (t.calls[k].id, t.calls[k].data);
      assert entry in t.stored;
      var i :| 0 <= i < |t.stored| && t.stored[i] == entry;
      assert IsStored(Run(t, []), id);
    }
  }

  /** A message that does not parse leaves a new session's mutex held; the session is never saved. */
  lemma StuckIsReal(id: SessionID, adminID: int, initial: Json)
    ensures
      var t := Run(Start, [Create(id, adminID, initial), Watch(id), Play(id, Broadcasting(None, {}))]);
      Stuck(t, id) && !CanBeStored(t, id)
  {
    var c, w, p := Create(id, adminID, initial), Watch(id), Play(id, Broadcasting(None, {}));
    var a := [c, w, p];
    assert a == [c, w] + [p] && [c, w] == [c] + [w] && [c] == [] + [c];
    RunSnoc(Start, [], c);
    RunSnoc(Start, [c], w);
    RunSnoc(Start, [c, w], p);
    assert Run(Start, a).objects[id].locked && Run(Start, a).calls == map[];
    SavedUnlessStuck(a, id);
  }
}
