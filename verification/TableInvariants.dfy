/** What every run of a session keeps. */
module TableInvariants {
  import opened Options
  import opened Merger
  import opened MergeOrder
  import opened TableState

  // ---- Replica agreement ----

  predicate Agreement(s: State) {
    && (s.data.Some? ==> s.data == MergeAll(s.initial, s.history.received))
    && (s.data.None? ==> s.locked)
    && (forall id | id in s.participants :: s.participants[id].conn in s.history.known)
    && s.history.lastInfo.Keys <= s.history.known
    && (s.data.Some? ==>
      forall id | id in s.participants && s.participants[id].conn in s.history.lastInfo ::
        s.history.lastInfo[s.participants[id].conn] == s.data)
  }

  lemma StepAgrees(s: State, c: Section)
    requires Agreement(s) && Possible(s, c)
    ensures Agreement(Step(s, c))
  {
    if !s.locked && c.Broadcasting? && Step(s, c).data.Some? {
      MergeAllSnoc(s.initial, s.history.received, c.msg.value);
    }
  }

  /** The messages of the broadcaster's rounds, oldest first. */
  function Posted(cs: seq<Section>): seq<Option<Json>> {
    if cs == [] then []
    else Posted(cs[..|cs| - 1]) + if cs[|cs| - 1].Broadcasting? then [cs[|cs| - 1].msg] else []
  }

  function Present<T>(s: seq<T>): seq<Option<T>> {
    seq(|s|, i requires 0 <= i < |s| => Some(s[i]))
  }

  /** With the mutex free, the data is the fold of every posted message and every delivered copy is current. */
  lemma {:induction false} ReplicasAgree(adminID: int, initial: Json, cs: seq<Section>)
    requires PossibleRun(Opened(adminID, initial), cs)
    ensures
      var s := Run(Opened(adminID, initial), cs);
      && Agreement(s) && s.initial == initial
      && (!s.locked ==>
        && Posted(cs) == Present(s.history.received)
        && s.data.Some? && s.data == MergeAll(initial, s.history.received)
        && forall id | id in s.participants && s.participants[id].conn in s.history.lastInfo ::
             s.history.lastInfo[s.participants[id].conn] == s.data)
  {
    if cs != [] {
      var before := Run(Opened(adminID, initial), cs[..|cs| - 1]);
      ReplicasAgree(adminID, initial, cs[..|cs| - 1]);
      StepAgrees(before, cs[|cs| - 1]);
      StepInitial(before, cs[|cs| - 1]);
    }
  }

  lemma StepInitial(s: State, c: Section)
    ensures Step(s, c).initial == s.initial && Step(s, c).adminID == s.adminID
    ensures s.locked ==> Step(s, c).locked
    ensures !Step(s, c).locked && c.Broadcasting? ==>
      c.msg.Some? && Step(s, c).history.received == s.history.received + [c.msg.value]
    ensures !c.Broadcasting? ==> Step(s, c).history.received == s.history.received
    ensures s.history.received <= Step(s, c).history.received
  {
  }

  /** Two sessions that get the same pairwise disjoint messages, in any orders, end with the same data. */
  lemma SessionsConverge(a: int, b: int, initial: Json, cs: seq<Section>, cs': seq<Section>)
    requires PossibleRun(Opened(a, initial), cs) && !Run(Opened(a, initial), cs).locked
    requires PossibleRun(Opened(b, initial), cs') && !Run(Opened(b, initial), cs').locked
    requires multiset(Posted(cs)) == multiset(Posted(cs'))
    requires PairwiseDisjoint(Run(Opened(a, initial), cs).history.received)
    ensures Run(Opened(a, initial), cs).data == Run(Opened(b, initial), cs').data
  {
    ReplicasAgree(a, initial, cs);
    ReplicasAgree(b, initial, cs');
    var r, r' := Run(Opened(a, initial), cs).history.received, Run(Opened(b, initial), cs').history.received;
    PresentMultiset(r, r');
    OrderIndependent(initial, r, r');
  }

  lemma {:induction false} PresentMultiset<T>(s: seq<T>, t: seq<T>)
    requires multiset(Present(s)) == multiset(Present(t))
    ensures multiset(s) == multiset(t)
  {
    forall x: T
      ensures multiset(s)[x] == multiset(t)[x]
    {
      PresentCount(s, x);
      PresentCount(t, x);
    }
  }

  lemma {:induction false} PresentCount<T>(s: seq<T>, x: T)
    ensures multiset(Present(s))[Some(x)] == multiset(s)[x]
  {
    if s == [] {
      assert Present(s) == [];
    } else {
      var front, last := s[..|s| - 1], s[|s| - 1];
      PresentCount(front, x);
      assert s == front + [last];
      assert Present(s) == Present(front) + [Some(last)];
    }
  }

  // ---- Slots ----

  predicate Slots(s: State) {
    && s.playersNum == |PlayerIDs(s.participants)| + s.history.lost
    && s.playersNum <= MAX_PLAYERS
    && forall id | id in s.participants ::
      s.participants[id].id == id && (s.participants[id].role.Admin? <==> id == s.adminID)
  }

  lemma DropSlots(s: State, dropped: Participants)
    requires Slots(s) && dropped.Keys <= s.participants.Keys
    requires forall id | id in dropped :: dropped[id] == s.participants[id]
    ensures Slots(Drop(s, dropped))
  {
    var before, gone := PlayerIDs(s.participants), PlayerIDs(dropped);
    forall id | id in dropped
      ensures id in s.participants && (id in gone <==> id in before)
    {
      assert dropped[id] == s.participants[id];
    }
    assert gone <= before;
    assert PlayerIDs(s.participants - dropped.Keys) == before - gone;
    assert |before - gone| == |before| - |gone|;
  }

  lemma StepSlots(s: State, c: Section)
    requires Slots(s) && Possible(s, c)
    ensures Slots(Step(s, c))
    ensures Step(s, c).history.lost >= s.history.lost
  {
    if !s.locked {
      match c
      case Announcing(failing) =>
        DropSlots(s, Failing(s.participants, failing));
      case Broadcasting(msg, failing) =>
        DropSlots(s, Failing(s.participants, failing));
      case Greeting(userID, failing) =>
        if userID in s.participants {
          DropSlots(s, map[userID := s.participants[userID]]);
        }
      case AddingAdmin(name, conn) =>
        RegisterPlayers(s, Participant(s.adminID, name, Admin, conn));
      case AddingParticipant(userID, name, conn) =>
        RegisterPlayers(s, Participant(userID, name, Player, conn));
      case Removing(userID) =>
        assert PlayerIDs(s.participants - {userID}) == PlayerIDs(s.participants) - {userID};
    }
  }

  lemma RegisterPlayers(s: State, p: Participant)
    requires p.id in s.participants ==> s.participants[p.id].role == p.role
    ensures |PlayerIDs(Register(s, p).participants)| + Register(s, p).history.lost
         == |PlayerIDs(s.participants)| + s.history.lost + if p.role.Player? then 1 else 0
  {
    var before := PlayerIDs(s.participants);
    if p.role.Player? {
      assert PlayerIDs(Register(s, p).participants) == before + {p.id};
      if p.id in s.participants {
        assert PlayerIDs(map[p.id := s.participants[p.id]]) == {p.id};
        assert before + {p.id} == before;
      }
    } else {
      assert PlayerIDs(Register(s, p).participants) == before;
      if p.id in s.participants {
        assert PlayerIDs(map[p.id := s.participants[p.id]]) == {};
      }
    }
  }

  lemma {:induction false} RunSlots(adminID: int, initial: Json, cs: seq<Section>)
    requires PossibleRun(Opened(adminID, initial), cs)
    ensures Slots(Run(Opened(adminID, initial), cs)) && Run(Opened(adminID, initial), cs).adminID == adminID
    ensures
      var s := Run(Opened(adminID, initial), cs);
      && |s.participants| <= 5 && s.playersNum <= 4
      && forall id | id in s.participants :: s.participants[id].role.Admin? <==> id == adminID
  {
    if cs == [] {
      assert PlayerIDs(map[]) == {};
    } else {
      RunSlots(adminID, initial, cs[..|cs| - 1]);
      StepSlots(Run(Opened(adminID, initial), cs[..|cs| - 1]), cs[|cs| - 1]);
      StepInitial(Run(Opened(adminID, initial), cs[..|cs| - 1]), cs[|cs| - 1]);
    }
    AtMostFive(Run(Opened(adminID, initial), cs));
  }

  lemma AtMostFive(s: State)
    requires Slots(s)
    ensures |s.participants| <= MAX_PLAYERS + 1
  {
    var all, players := s.participants.Keys, PlayerIDs(s.participants);
    forall id | id in all
      ensures id in players + {s.adminID}
    {
      assert s.participants[id].role.Admin? <==> id == s.adminID;
    }
    SubsetSize(all, players + {s.adminID});
    assert |players + {s.adminID}| <= |players| + 1;
    assert |all| == |s.participants|;
  }

  lemma {:induction false} SubsetSize<T>(a: set<T>, b: set<T>)
    requires a <= b
    ensures |a| <= |b|
  {
    assert b == a + (b - a);
  }

  // ---- The mutex ----

  /** The three exits that return without unlocking. */
  predicate LeavesLocked(s: State, c: Section) {
    match c
    case Broadcasting(msg, _) => s.data.None? || msg.None? || Merge(s.data.value, msg.value).None?
    case AddingParticipant(_, _, _) => s.playersNum == MAX_PLAYERS
    case Removing(userID) => userID !in s.participants
    case _ => false
  }

  lemma LockBalance(s: State, c: Section)
    requires !s.locked
    ensures Step(s, c).locked <==> LeavesLocked(s, c)
  {
  }

  lemma {:induction false} LockedIsFinal(s: State, cs: seq<Section>, more: seq<Section>)
    requires Run(s, cs).locked
    ensures Run(s, cs + more) == Run(s, cs)
    decreases |more|
  {
    if more == [] {
      assert cs + more == cs;
    } else {
      LockedIsFinal(s, cs, more[..|more| - 1]);
      assert (cs + more)[..|cs + more| - 1] == cs + more[..|more| - 1];
    }
  }

  /** Some section of the run found the mutex free and returned without releasing it. */
  ghost predicate LeftLocked(s: State, cs: seq<Section>) {
    exists k | 0 <= k < |cs| :: !Run(s, cs[..k]).locked && LeavesLocked(Run(s, cs[..k]), cs[k])
  }

  lemma LeftLockedSnoc(s: State, front: seq<Section>, c: Section)
    ensures LeftLocked(s, front + [c]) <==>
      LeftLocked(s, front) || (!Run(s, front).locked && LeavesLocked(Run(s, front), c))
  {
    var cs := front + [c];
    assert cs[..|front|] == front;
    assert forall k | 0 <= k < |front| :: front[..k] == cs[..k] && front[k] == cs[k];
    if LeftLocked(s, front) {
      var k :| 0 <= k < |front| && !Run(s, front[..k]).locked && LeavesLocked(Run(s, front[..k]), front[k]);
      assert !Run(s, cs[..k]).locked && LeavesLocked(Run(s, cs[..k]), cs[k]);
    }
    if LeftLocked(s, cs) {
      var k :| 0 <= k < |cs| && !Run(s, cs[..k]).locked && LeavesLocked(Run(s, cs[..k]), cs[k]);
      if k < |front| {
        assert !Run(s, front[..k]).locked && LeavesLocked(Run(s, front[..k]), front[k]);
      }
    }
  }

  /**
   The mutex is held after a run exactly when one of its sections took one of the three exits, and from
   then on nothing changes.
   */
  lemma {:induction false} LockedExactly(adminID: int, initial: Json, cs: seq<Section>)
    ensures Run(Opened(adminID, initial), cs).locked <==> LeftLocked(Opened(adminID, initial), cs)
    ensures LeftLocked(Opened(adminID, initial), cs) ==>
      forall more :: Run(Opened(adminID, initial), cs + more) == Run(Opened(adminID, initial), cs)
  {
    var s := Opened(adminID, initial);
    LeftLockedIff(s, cs);
    if LeftLocked(s, cs) {
      forall more
        ensures Run(s, cs + more) == Run(s, cs)
      {
        LockedIsFinal(s, cs, more);
      }
    }
  }

  lemma {:induction false} LeftLockedIff(s: State, cs: seq<Section>)
    requires !s.locked
    ensures Run(s, cs).locked <==> LeftLocked(s, cs)
  {
    if cs != [] {
      var front, c := cs[..|cs| - 1], cs[|cs| - 1];
      LeftLockedIff(s, front);
      assert front + [c] == cs;
      LeftLockedSnoc(s, front, c);
      LockedAfter(Run(s, front), c);
    }
  }

  lemma LockedAfter(s: State, c: Section)
    ensures Step(s, c).locked <==> s.locked || LeavesLocked(s, c)
  {
    if !s.locked {
      LockBalance(s, c);
    }
  }
}
