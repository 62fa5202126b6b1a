/** When logins, links and unlinks succeed, whom they answer with, and which rows they leave. */
module IdentityLaws {
  import opened Options
  import opened IdentityDb
  import opened IdentityFlow

  /** Where a call that runs alone ends. */
  ghost predicate Ends(db: Db, task: Task, faults: seq<Fault>, after: Db, result: Result) {
    Steps(db, Call(task, Begin), faults) == (after, Call(task, Finished(result)))
  }

  lemma OwnerIs(db: Db, key: Key, u: nat)
    requires Valid(db) && OwnedBy(db, key, u)
    ensures Owner(db, key) == Some(u) && u in db.users && KeyTaken(db, key)
  {
    var r :| r in db.identities && db.identities[r] == Identity(u, key);
    assert db.identities[r].key == key;
    OneOwner(db, key, u, Owner(db, key).value);
  }

  // ---- A login alone ----

  ghost function Sessioned(u: nat, faults: seq<Fault>): Result
    requires |faults| > 0
  {
    if faults[0].Fine? then LoggedIn(u) else Failed
  }

  lemma OpeningEnds(db: Db, task: Task, u: nat, faults: seq<Fault>)
    requires task.LoginTask? && |faults| > 0
    ensures Steps(db, Call(task, Opening(u)), faults) == (db, Call(task, Finished(Sessioned(u, faults))))
  {
    LastStep(db, Call(task, Opening(u)), faults, db, Sessioned(u, faults));
  }

  lemma LoadedEnds(db: Db, key: Key, profile: User, u: nat, faults: seq<Fault>)
    requires u in db.users && |faults| >= 2
    ensures
      var after := if faults[0].Broken? then db else db.(users := db.users[u := profile]);
      Steps(db, Call(LoginTask(key, profile), Loaded(u)), faults)
      == (after, Call(LoginTask(key, profile),
                      Finished(if faults[0].Fine? && faults[1].Fine? then LoggedIn(u) else Failed)))
  {
    var task := LoginTask(key, profile);
    var after := if faults[0].Broken? then db else db.(users := db.users[u := profile]);
    if faults[0].Fine? {
      OneStep(db, Call(task, Loaded(u)), faults, after, Call(task, Opening(u)));
      OpeningEnds(after, task, u, faults[1..]);
    } else {
      LastStep(db, Call(task, Loaded(u)), faults, after, Failed);
    }
  }

  /**
   A login with an owned key is answered with the owner exactly when no call it makes goes wrong, and the
   owner then has the profile the provider reports; it changes nothing else.
   */
  lemma LoginOfOwner(db: Db, key: Key, profile: User, u: nat, faults: seq<Fault>)
    requires Valid(db) && OwnedBy(db, key, u) && |faults| == 5 && faults[0].Fine?
    ensures
      var changed := u in db.users && db.users[u] != profile;
      var answered := faults[1].Fine? && faults[2].Fine? && (changed ==> faults[3].Fine?);
      var written := faults[1].Fine? && changed && !faults[2].Broken?;
      Ends(db, LoginTask(key, profile), faults,
           if written then db.(users := db.users[u := profile]) else db, if answered then LoggedIn(u) else Failed)
  {
    var task := LoginTask(key, profile);
    OwnerIs(db, key, u);
    OneStep(db, Call(task, Begin), faults, db, Call(task, Located(u)));
    var rest := faults[1..];
    if !rest[0].Fine? {
      LastStep(db, Call(task, Located(u)), rest, db, Failed);
    } else if db.users[u] != profile {
      OneStep(db, Call(task, Located(u)), rest, db, Call(task, Loaded(u)));
      LoadedEnds(db, key, profile, u, rest[1..]);
    } else {
      OneStep(db, Call(task, Located(u)), rest, db, Call(task, Opening(u)));
      OpeningEnds(db, task, u, rest[1..]);
    }
  }

  /** A login with a free key creates the user and the identity in one go, and is answered with that user. */
  lemma LoginOfNewcomer(db: Db, key: Key, profile: User, faults: seq<Fault>)
    requires !KeyTaken(db, key) && |faults| == 5
    ensures
      var u, r := db.nextUser, db.nextRow;
      var after := Db(db.users[u := profile], db.identities[r := Identity(u, key)], u + 1, r + 1);
      Ends(db, LoginTask(key, profile), faults,
           if faults[1].Broken? then db else after, if faults[1].Fine? && faults[2].Fine? then LoggedIn(u) else Failed)
  {
    var task, u, r := LoginTask(key, profile), db.nextUser, db.nextRow;
    var after := Db(db.users[u := profile], db.identities[r := Identity(u, key)], u + 1, r + 1);
    OneStep(db, Call(task, Begin), faults, db, Call(task, Missing));
    var rest := faults[1..];
    if rest[0].Fine? {
      OneStep(db, Call(task, Missing), rest, after, Call(task, Opening(u)));
      OpeningEnds(after, task, u, rest[1..]);
    } else {
      LastStep(db, Call(task, Missing), rest, if rest[0].Broken? then db else after, Failed);
    }
  }

  /**
   A lookup that wrongly finds nothing does no harm: the insert meets the identity, the login goes on with
   its owner, and no row is written.
   */
  lemma LoginAfterWrongLookup(db: Db, key: Key, profile: User, u: nat, faults: seq<Fault>)
    requires Valid(db) && OwnedBy(db, key, u) && |faults| == 5 && !faults[0].Fine?
    ensures
      var answered := faults[1].Fine? && faults[2].Fine? && faults[3].Fine? && faults[4].Fine?;
      Ends(db, LoginTask(key, profile), faults,
           if faults[1].Broken? then db else Db(db.users, db.identities, db.nextUser + 1, db.nextRow + 1),
           if answered then LoggedIn(u) else Failed)
  {
    var task := LoginTask(key, profile);
    OwnerIs(db, key, u);
    OneStep(db, Call(task, Begin), faults, db, Call(task, Missing));
    var rest := faults[1..];
    var after := Db(db.users, db.identities, db.nextUser + 1, db.nextRow + 1);
    if rest[0].Fine? {
      OneStep(db, Call(task, Missing), rest, after, Call(task, Raced));
      RacedEnds(after, key, profile, u, rest[1..]);
    } else {
      LastStep(db, Call(task, Missing), rest, if rest[0].Broken? then db else after, Failed);
    }
  }

  lemma RacedEnds(db: Db, key: Key, profile: User, u: nat, faults: seq<Fault>)
    requires Owner(db, key) == Some(u) && u in db.users && |faults| == 3
    ensures
      Steps(db, Call(LoginTask(key, profile), Raced), faults)
      == (db, Call(LoginTask(key, profile),
                   Finished(if faults[0].Fine? && faults[1].Fine? && faults[2].Fine? then LoggedIn(u) else Failed)))
  {
    var task := LoginTask(key, profile);
    if !faults[0].Fine? {
      LastStep(db, Call(task, Raced), faults, db, Failed);
    } else {
      OneStep(db, Call(task, Raced), faults, db, Call(task, Reloading(u)));
      var rest := faults[1..];
      if !rest[0].Fine? {
        LastStep(db, Call(task, Reloading(u)), rest, db, Failed);
      } else {
        OneStep(db, Call(task, Reloading(u)), rest, db, Call(task, Opening(u)));
        OpeningEnds(db, task, u, rest[1..]);
      }
    }
  }

  // ---- A link alone ----

  /**
   A link succeeds exactly when the user owns the key already, or the key is free and the user exists and
   has no identity of that provider; the second adds one row.
   */
  lemma LinkExactly(db: Db, userID: nat, key: Key, faults: seq<Fault>)
    requires Valid(db) && |faults| == 2
    ensures
      var had := faults[0].Fine? && OwnedBy(db, key, userID);
      var room := !KeyTaken(db, key) && userID in db.users && !ProviderTaken(db, userID, key.provider);
      var added := room && !faults[1].Broken?;
      var asked := (faults[0].Fine? ==> !KeyTaken(db, key)) && !faults[1].Broken?;
      Ends(db, LinkTask(userID, key), faults,
           if added then Db(db.users, db.identities[db.nextRow := Identity(userID, key)], db.nextUser, db.nextRow + 1)
           else if asked then db.(nextRow := db.nextRow + 1)
           else db,
           if had || (room && faults[1].Fine?) then Linked else Failed)
  {
    var task := LinkTask(userID, key);
    if faults[0].Fine? && KeyTaken(db, key) {
      var owner := Owner(db, key).value;
      OwnerIs(db, key, owner);
      if OwnedBy(db, key, userID) {
        OneOwner(db, key, userID, owner);
      }
      LastStep(db, Call(task, Begin), faults, db, if owner == userID then Linked else Failed);
    } else {
      if OwnedBy(db, key, userID) {
        OwnerIs(db, key, userID);
      }
      OneStep(db, Call(task, Begin), faults, db, Call(task, Missing));
      var (after, written) := CreateIdentity(db, userID, key, faults[1]);
      LastStep(db, Call(task, Missing), faults[1..], after, if written.Done? then Linked else Failed);
    }
  }

  // ---- An unlink alone ----

  /**
   An unlink succeeds exactly when the user has more than one identity and one of that provider, and then
   that row, and no other, is gone.
   */
  lemma UnlinkExactly(db: Db, userID: nat, provider: string, r: nat, faults: seq<Fault>)
    requires Valid(db) && |faults| == 2
    requires r in db.identities && db.identities[r].userID == userID && db.identities[r].key.provider == provider
    ensures
      var listed := faults[0].Fine? && |RowsOf(db, userID)| > 1;
      Ends(db, UnlinkTask(userID, provider), faults,
           if listed && !faults[1].Broken? then db.(identities := db.identities - {r}) else db,
           if listed && faults[1].Fine? then Unlinked else Failed)
  {
    var task := UnlinkTask(userID, provider);
    if faults[0].Fine? && |RowsOf(db, userID)| > 1 {
      OneStep(db, Call(task, Begin), faults, db, Call(task, Deleting));
      var (after, written) := DeleteIdentity(db, userID, provider, faults[1]);
      if !faults[1].Broken? {
        DeleteTakes(db, r, faults[1]);
      }
      LastStep(db, Call(task, Deleting), faults[1..], after, if written.Done? then Unlinked else Failed);
    } else {
      LastStep(db, Call(task, Begin), faults, db, Failed);
    }
  }

  /** An unlink of a provider the user has no identity of fails and changes nothing. */
  lemma UnlinkOfNothing(db: Db, userID: nat, provider: string, faults: seq<Fault>)
    requires !ProviderTaken(db, userID, provider) && |faults| == 2
    ensures Ends(db, UnlinkTask(userID, provider), faults, db, Failed)
  {
    var task := UnlinkTask(userID, provider);
    if faults[0].Fine? && |RowsOf(db, userID)| > 1 {
      OneStep(db, Call(task, Begin), faults, db, Call(task, Deleting));
      LastStep(db, Call(task, Deleting), faults[1..], db, Failed);
    } else {
      LastStep(db, Call(task, Begin), faults, db, Failed);
    }
  }

  // ---- Links and unlinks while others run ----

  lemma LinkedFrom(db: Db, c: Call, fault: Fault)
    requires c.task.LinkTask? && Advance(db, c, fault).1.stage == Finished(Linked)
    ensures
      || c.stage == Finished(Linked)
      || OwnedBy(db, c.task.key, c.task.userID) || OwnedBy(Advance(db, c, fault).0, c.task.key, c.task.userID)
  {
    var after := Advance(db, c, fault).0;
    if c.stage.Missing? {
      assert after.identities[db.nextRow] == Identity(c.task.userID, c.task.key);
    }
  }

  /** Whatever runs, a link reports success only if at some moment of the run its user owned the key. */
  lemma {:induction false} LinkedOwnedOnce(s: System, actions: seq<Action>, id: nat)
    requires Initial(s) && id in Run(s, actions).calls
    requires Run(s, actions).calls[id].task.LinkTask? && Run(s, actions).calls[id].stage == Finished(Linked)
    ensures
      var task := Run(s, actions).calls[id].task;
      OwnedOnce(s, actions, task.key, task.userID)
  {
    if actions != [] {
      var front, a := actions[..|actions| - 1], actions[|actions| - 1];
      var t, task := Run(s, front), Run(s, actions).calls[id].task;
      if a.Proceed? && a.id == id {
        LinkedFrom(t.db, t.calls[id], a.fault);
      }
      if OwnedBy(Run(s, actions).db, task.key, task.userID) {
        OwnedNow(s, actions, task.key, task.userID);
      } else {
        if OwnedBy(t.db, task.key, task.userID) {
          OwnedNow(s, front, task.key, task.userID);
        } else {
          LinkedOwnedOnce(s, front, id);
        }
        OwnedOnceMore(s, front, actions, task.key, task.userID);
      }
    }
  }

  /** Some step of the run took the user's identity of the provider. */
  ghost predicate TakenOnce(s: System, actions: seq<Action>, userID: nat, provider: string) {
    exists n | 0 <= n < |actions| :: TakesProvider(Run(s, actions[..n]), actions[n], userID, provider)
  }

  ghost predicate TakesProvider(s: System, a: Action, userID: nat, provider: string) {
    ProviderTaken(s.db, userID, provider) && !ProviderTaken(Next(s, a).db, userID, provider)
  }

  lemma TakenEarlier(s: System, front: seq<Action>, a: Action, userID: nat, provider: string)
    requires TakenOnce(s, front, userID, provider)
    ensures TakenOnce(s, front + [a], userID, provider)
  {
    var n :| 0 <= n < |front| && TakesProvider(Run(s, front[..n]), front[n], userID, provider);
    assert (front + [a])[..n] == front[..n] && (front + [a])[n] == front[n];
  }

  lemma UnlinkedFrom(s: System, id: nat, fault: Fault)
    requires id in s.calls && s.calls[id].task.UnlinkTask? && s.calls[id].stage != Finished(Unlinked)
    requires Next(s, Proceed(id, fault)).calls[id].stage == Finished(Unlinked)
    ensures TakesProvider(s, Proceed(id, fault), s.calls[id].task.userID, s.calls[id].task.provider)
  {
  }

  /** Whatever runs, an unlink reports success only if some step of the run took that identity. */
  lemma {:induction false} UnlinkedTakenOnce(s: System, actions: seq<Action>, id: nat)
    requires s.calls == map[] && id in Run(s, actions).calls
    requires Run(s, actions).calls[id].task.UnlinkTask? && Run(s, actions).calls[id].stage == Finished(Unlinked)
    ensures
      var task := Run(s, actions).calls[id].task;
      TakenOnce(s, actions, task.userID, task.provider)
  {
    if actions != [] {
      var front, a := actions[..|actions| - 1], actions[|actions| - 1];
      var t, task := Run(s, front), Run(s, actions).calls[id].task;
      assert actions == front + [a];
      if id in t.calls && t.calls[id].stage == Finished(Unlinked) {
        UnlinkedTakenOnce(s, front, id);
        TakenEarlier(s, front, a, task.userID, task.provider);
      } else {
        UnlinkedFrom(t, id, a.fault);
        assert actions[..|front|] == front;
      }
    }
  }

  // ---- Two first logins at once ----

  function FirstLogins(i: nat, j: nat, task: Task): seq<Action> {
    [Start(i, task), Start(j, task), Proceed(i, Fine), Proceed(j, Fine), Proceed(i, Fine), Proceed(j, Fine)]
  }

  function LastSteps(i: nat, j: nat): seq<Action> {
    [Proceed(i, Fine), Proceed(j, Fine), Proceed(j, Fine), Proceed(j, Fine)]
  }

  lemma BothMiss(s: System, i: nat, j: nat, key: Key, profile: User)
    requires !KeyTaken(s.db, key) && i !in s.calls && j !in s.calls && i != j
    ensures
      var task := LoginTask(key, profile);
      var t := Next(Next(Next(Next(s, Start(i, task)), Start(j, task)), Proceed(i, Fine)), Proceed(j, Fine));
      && t.db == s.db && i in t.calls && j in t.calls
      && t.calls[i] == Call(task, Missing) && t.calls[j] == Call(task, Missing)
  {
  }

  lemma OneInserts(s: System, i: nat, j: nat, key: Key, profile: User)
    requires Valid(s.db) && !KeyTaken(s.db, key) && i in s.calls && j in s.calls && i != j
    requires s.calls[i] == s.calls[j] == Call(LoginTask(key, profile), Missing)
    ensures
      var task := LoginTask(key, profile);
      var t := Next(Next(s, Proceed(i, Fine)), Proceed(j, Fine));
      && Owner(t.db, key) == Some(s.db.nextUser)
      && t.db.users == s.db.users[s.db.nextUser := profile]
      && i in t.calls && j in t.calls
      && t.calls[i] == Call(task, Opening(s.db.nextUser)) && t.calls[j] == Call(task, Raced)
  {
    var t := Next(s, Proceed(i, Fine));
    CreateUserKeeps(s.db, profile, key, Fine);
    OwnerIs(t.db, key, s.db.nextUser);
    var u := Next(t, Proceed(j, Fine));
    assert u.db.identities == t.db.identities && Valid(u.db) && OwnedBy(u.db, key, s.db.nextUser);
    OwnerIs(u.db, key, s.db.nextUser);
  }

  lemma BothOpen(s: System, i: nat, j: nat, key: Key, profile: User, u: nat)
    requires i in s.calls && j in s.calls && i != j && Owner(s.db, key) == Some(u) && u in s.db.users
    requires s.calls[i] == Call(LoginTask(key, profile), Opening(u))
    requires s.calls[j] == Call(LoginTask(key, profile), Raced)
    ensures
      var t := Next(Next(Next(Next(s, Proceed(i, Fine)), Proceed(j, Fine)), Proceed(j, Fine)), Proceed(j, Fine));
      && t.db == s.db && i in t.calls && j in t.calls
      && t.calls[i].stage == Finished(LoggedIn(u)) && t.calls[j].stage == Finished(LoggedIn(u))
  {
    var s1 := Next(s, Proceed(i, Fine));
    assert s1.db == s.db && s1.calls[i].stage == Finished(LoggedIn(u)) && s1.calls[j] == s.calls[j];
    var s2 := Next(s1, Proceed(j, Fine));
    assert s2.db == s.db && s2.calls[i] == s1.calls[i] && s2.calls[j] == Call(LoginTask(key, profile), Reloading(u));
    var s3 := Next(s2, Proceed(j, Fine));
    assert s3.db == s.db && s3.calls[i] == s1.calls[i] && s3.calls[j] == Call(LoginTask(key, profile), Opening(u));
  }

  lemma RunFour(s: System, a: Action, b: Action, c: Action, d: Action)
    ensures Run(s, [a, b, c, d]) == Next(Next(Next(Next(s, a), b), c), d)
  {
    RunThree(s, a, b, c);
    assert [a, b, c, d][..3] == [a, b, c];
  }

  /** Two first logins with one key that both find nothing: one user is created, and both are answered with it. */
  lemma BothFirstLoginsSucceed(s: System, i: nat, j: nat, key: Key, profile: User)
    requires Valid(s.db) && !KeyTaken(s.db, key) && i !in s.calls && j !in s.calls && i != j
    ensures
      var t := Run(s, FirstLogins(i, j, LoginTask(key, profile)) + LastSteps(i, j));
      && t.db.users == s.db.users[s.db.nextUser := profile] && i in t.calls && j in t.calls
      && t.calls[i].stage == Finished(LoggedIn(s.db.nextUser)) && t.calls[j].stage == Finished(LoggedIn(s.db.nextUser))
  {
    var task := LoginTask(key, profile);
    var first := FirstLogins(i, j, task);
    RunSix(s, first);
    var missing := Next(Next(Next(Next(s, Start(i, task)), Start(j, task)), Proceed(i, Fine)), Proceed(j, Fine));
    BothMiss(s, i, j, key, profile);
    OneInserts(missing, i, j, key, profile);
    var t := Run(s, first);
    BothOpen(t, i, j, key, profile, s.db.nextUser);
    RunFour(t, Proceed(i, Fine), Proceed(j, Fine), Proceed(j, Fine), Proceed(j, Fine));
    RunOn(s, first, LastSteps(i, j));
  }
}
