/** What the tables hold after a run, told from the actions of the run alone. */
module TimeoutRuns {
  import opened Options
  import opened Merger
  import opened MergeOrder
  import opened TableInvariants
  import opened TableTimeout
  import S = TableState

  /** The admin and the data of the first creation of a session. */
  function Creation(actions: seq<Action>, id: SessionID): Option<(int, Json)> {
    if actions == [] then None
    else
      var earlier, a := Creation(actions[..|actions| - 1], id), actions[|actions| - 1];
      if earlier.Some? then earlier
      else if a.Create? && a.id == id then Some((a.adminID, a.initial))
      else None
  }

  /** The sections played on a session, oldest first. */
  function Sections(actions: seq<Action>, id: SessionID): seq<S.Section> {
    if actions == [] then []
    else
      var t, a := Run(Start, actions[..|actions| - 1]), actions[|actions| - 1];
      Sections(actions[..|actions| - 1], id)
      + if a.Play? && a.id == id && id in t.objects && S.Possible(t.objects[id], a.section) then [a.section] else []
  }

  lemma SectionsSnoc(s: S.State, cs: seq<S.Section>, c: S.Section)
    ensures S.Run(s, cs + [c]) == S.Step(S.Run(s, cs), c)
    ensures S.PossibleRun(s, cs + [c]) <==> S.PossibleRun(s, cs) && S.Possible(S.Run(s, cs), c)
  {
    assert (cs + [c])[..|cs|] == cs;
  }

  /** s is the session opened with its creation's data after all its sections. */
  predicate IsRun(s: S.State, actions: seq<Action>, id: SessionID)
    requires Creation(actions, id).Some?
  {
    var first := S.Opened(Creation(actions, id).value.0, Creation(actions, id).value.1);
    S.PossibleRun(first, Sections(actions, id)) && s == S.Run(first, Sections(actions, id))
  }

  function Played(s: S.State, a: Action, id: SessionID): S.State {
    if a.Play? && a.id == id && S.Possible(s, a.section) then S.Step(s, a.section) else s
  }

  lemma NextObject(t: Tables, a: Action, id: SessionID)
    ensures id in Next(t, a).objects <==> id in t.objects || (a.Create? && a.id == id)
    ensures id in t.objects ==> Next(t, a).objects[id] == Played(t.objects[id], a, id)
    ensures id !in t.objects && a.Create? && a.id == id ==> Next(t, a).objects[id] == S.Opened(a.adminID, a.initial)
  {
  }

  /** In every run, the sessions are those created, and each is the run of its own sections from its own data. */
  lemma {:induction false} ObjectsAreRuns(actions: seq<Action>, id: SessionID)
    ensures id in Run(Start, actions).objects <==> Creation(actions, id).Some?
    ensures Creation(actions, id).None? ==> Sections(actions, id) == []
    ensures Creation(actions, id).Some? ==> IsRun(Run(Start, actions).objects[id], actions, id)
  {
    if actions != [] {
      var front, a := actions[..|actions| - 1], actions[|actions| - 1];
      var t := Run(Start, front);
      ObjectsAreRuns(front, id);
      NextObject(t, a, id);
      if Creation(front, id).Some? {
        ObjectPlays(actions, id);
      }
    }
  }

  lemma ObjectPlays(actions: seq<Action>, id: SessionID)
    requires actions != []
    requires Creation(actions[..|actions| - 1], id).Some? && id in Run(Start, actions[..|actions| - 1]).objects
    requires IsRun(Run(Start, actions[..|actions| - 1]).objects[id], actions[..|actions| - 1], id)
    ensures IsRun(Played(Run(Start, actions[..|actions| - 1]).objects[id], actions[|actions| - 1], id), actions, id)
  {
    var front, a := actions[..|actions| - 1], actions[|actions| - 1];
    if a.Play? {
      var created := Creation(front, id).value;
      SectionsSnoc(S.Opened(created.0, created.1), Sections(front, id), a.section);
    }
    assert Creation(actions, id) == Creation(front, id);
    assert Sections(front, id) + [] == Sections(front, id);
  }

  /** data is the fold of every message posted to the session, over the data it was created with. */
  ghost predicate FoldOfPosted(actions: seq<Action>, id: SessionID, data: Option<Json>) {
    && Creation(actions, id).Some? && data.Some?
    && exists messages :: FoldsTo(actions, id, messages, data)
  }

  predicate FoldsTo(actions: seq<Action>, id: SessionID, messages: seq<Json>, data: Option<Json>)
    requires Creation(actions, id).Some?
  {
    Present(messages) == Posted(Sections(actions, id)) && data == MergeAll(Creation(actions, id).value.1, messages)
  }

  lemma FreeSessionFolds(actions: seq<Action>, id: SessionID)
    requires id in Run(Start, actions).objects && !Run(Start, actions).objects[id].locked
    ensures FoldOfPosted(actions, id, Run(Start, actions).objects[id].data)
  {
    ObjectsAreRuns(actions, id);
    var created, s := Creation(actions, id).value, Run(Start, actions).objects[id];
    ReplicasAgree(created.0, created.1, Sections(actions, id));
    assert FoldsTo(actions, id, s.history.received, s.data);
  }

  // ---- What is saved ----

  /** Call k fired, then fetched, and data is the fold of what was posted before the fetch. */
  ghost predicate FetchedBy(actions: seq<Action>, k: nat, id: SessionID, data: Option<Json>) {
    exists m | 0 <= m < |actions| ::
      actions[m] == Fetch(k) && Fire(k, id) in actions[..m] && FoldOfPosted(actions[..m], id, data)
  }

  lemma FetchedEarlier(front: seq<Action>, a: Action, k: nat, id: SessionID, data: Option<Json>)
    requires FetchedBy(front, k, id, data)
    ensures FetchedBy(front + [a], k, id, data)
  {
    var m :| 0 <= m < |front|
      && front[m] == Fetch(k) && Fire(k, id) in front[..m] && FoldOfPosted(front[..m], id, data);
    assert (front + [a])[..m] == front[..m] && (front + [a])[m] == front[m];
  }

  lemma FetchedNow(front: seq<Action>, k: nat)
    requires Enabled(Run(Start, front), Fetch(k)) && Fire(k, Run(Start, front).calls[k].id) in front
    ensures
      var c := Next(Run(Start, front), Fetch(k)).calls[k];
      c.data.Some? ==> FetchedBy(front + [Fetch(k)], k, c.id, c.data)
  {
    var t, c := Run(Start, front), Next(Run(Start, front), Fetch(k)).calls[k];
    if c.data.Some? {
      FreeSessionFolds(front, c.id);
      var actions := front + [Fetch(k)];
      assert actions[..|front|] == front && actions[|front|] == Fetch(k);
    }
  }

  /** Every call fired, and what it holds it fetched. */
  ghost predicate CallFetched(actions: seq<Action>, k: nat, c: StopTimer) {
    Fire(k, c.id) in actions && (c.data.Some? ==> FetchedBy(actions, k, c.id, c.data))
  }

  /** A call keeps its session, appears when it fires, and holds data only from its fetch. */
  lemma NextCall(t: Tables, a: Action, k: nat)
    requires k in Next(t, a).calls
    ensures k in t.calls ==> Next(t, a).calls[k].id == t.calls[k].id
    ensures k in t.calls && !(a == Fetch(k) && Enabled(t, a)) ==> Next(t, a).calls[k].data == t.calls[k].data
    ensures k !in t.calls ==>
      a == Fire(k, Next(t, a).calls[k].id) && Next(t, a).calls[k].id in t.armed && Next(t, a).calls[k].data.None?
  {
  }

  lemma {:induction false} CallsFetched(actions: seq<Action>, k: nat)
    requires k in Run(Start, actions).calls
    ensures CallFetched(actions, k, Run(Start, actions).calls[k])
  {
    if actions != [] {
      var front, a := actions[..|actions| - 1], actions[|actions| - 1];
      assert actions == front + [a];
      var t := Run(Start, front);
      NextCall(t, a, k);
      if k in t.calls {
        CallsFetched(front, k);
        CallStillFetched(front, a, k);
      }
    }
  }

  lemma CallStillFetched(front: seq<Action>, a: Action, k: nat)
    requires k in Run(Start, front).calls && k in Next(Run(Start, front), a).calls
    requires CallFetched(front, k, Run(Start, front).calls[k])
    ensures CallFetched(front + [a], k, Next(Run(Start, front), a).calls[k])
  {
    var t := Run(Start, front);
    NextCall(t, a, k);
    if a == Fetch(k) && Enabled(t, a) {
      FetchedNow(front, k);
    } else if t.calls[k].data.Some? {
      FetchedEarlier(front, a, k, t.calls[k].id, t.calls[k].data);
    }
  }

  /**
   Whatever runs, the data saved for a session is the fold, over the data the session was created with, of
   exactly the messages posted to it before a call of stopTimer that had fired for it fetched them.
   */
  lemma SavesWhatWasPosted(actions: seq<Action>, i: nat)
    requires i < |Run(Start, actions).stored|
    ensures
      var t := Run(Start, actions);
      exists k | k in t.calls :: Wrote(t.calls[k].phase) && FetchedBy(actions, k, t.stored[i].0, t.stored[i].1)
  {
    AlwaysSafe(actions);
    var t := Run(Start, actions);
    assert SavedBy(t.calls, t.stored[i]);
    var k :| k in t.calls && Wrote(t.calls[k].phase) && (t.calls[k].id, t.calls[k].data) == t.stored[i];
    assert CallOK(t, t.calls[k]);
    CallsFetched(actions, k);
  }

  // ---- A timer that is never reset ----

  /** At most one call fired for the session, and none while its timer runs. */
  ghost predicate FiredOnce(t: Tables, id: SessionID) {
    && (forall j, k | j in t.calls && k in t.calls && t.calls[j].id == t.calls[k].id == id :: j == k)
    && (id in t.armed ==> forall k | k in t.calls :: t.calls[k].id != id)
  }

  lemma NextArmed(t: Tables, a: Action, id: SessionID)
    requires id in Next(t, a).armed
    ensures id in t.armed || a == Refresh(id) || (a == Watch(id) && id in t.pending)
    ensures !a.Fire? || a.id != id || !Enabled(t, a)
  {
  }

  lemma NextFiredOnce(t: Tables, a: Action, id: SessionID)
    requires Safe(t) && FiredOnce(t, id) && a != Refresh(id)
    ensures FiredOnce(Next(t, a), id)
  {
    var u := Next(t, a);
    forall k | k in u.calls && u.calls[k].id == id
      ensures if k in t.calls then t.calls[k].id == id && id !in t.armed else a == Fire(k, id) && id in t.armed
    {
      NextCall(t, a, k);
    }
    if id in u.armed {
      NextArmed(t, a, id);
      forall k | k in u.calls
        ensures u.calls[k].id != id
      {
        NextCall(t, a, k);
        if k in t.calls {
          assert CallOK(t, t.calls[k]);
        }
      }
    }
  }

  lemma {:induction false} AlwaysFiredOnce(actions: seq<Action>, id: SessionID)
    requires Refresh(id) !in actions
    ensures FiredOnce(Run(Start, actions), id)
  {
    if actions != [] {
      var front := actions[..|actions| - 1];
      AlwaysFiredOnce(front, id);
      AlwaysSafe(front);
      NextFiredOnce(Run(Start, front), actions[|actions| - 1], id);
    }
  }

  /** Without a reset the timer fires once, and its call never panics. */
  lemma NoResetNoCrash(actions: seq<Action>, id: SessionID, j: nat, k: nat)
    requires Refresh(id) !in actions
    requires j in Run(Start, actions).calls && Run(Start, actions).calls[j].id == id
    requires k in Run(Start, actions).calls && Run(Start, actions).calls[k].id == id
    ensures j == k && !Run(Start, actions).calls[k].phase.Crashed?
  {
    AlwaysFiredOnce(actions, id);
    if Run(Start, actions).calls[k].phase.Crashed? {
      CrashedHasTwin(actions, k);
    }
  }
}
