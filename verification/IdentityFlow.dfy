/** Login, LinkIdentity and UnlinkIdentity as steps of one repository call each, interleaved at will. */
module IdentityFlow {
  import opened Options
  import opened IdentityDb

  datatype Task =
    | LoginTask(key: Key, profile: User)
    | LinkTask(userID: nat, key: Key)
    | UnlinkTask(userID: nat, provider: string)

  /** Where a call stands; the payload is what the code holds in its locals. */
  datatype Stage =
    | Begin
    | Located(owner: nat)      // login: an identity was found
    | Loaded(owner: nat)       // login: its user was read and the profile differs
    | Missing                  // login, link: no identity was found
    | Raced                    // login: the insert met an existing identity
    | Reloading(owner: nat)    // login: that identity was found
    | Opening(owner: nat)      // login: about to create the web session
    | Deleting                 // unlink: more than one identity was listed
    | Finished(result: Result)

  datatype Result = LoggedIn(userID: nat) | Linked | Unlinked | Failed

  datatype Call = Call(task: Task, stage: Stage)

  /** One repository call of one task; a faulty lookup wrongly reports nothing. */
  ghost function Advance(db: Db, c: Call, fault: Fault): (Db, Call) {
    match c.task
    case LoginTask(key, profile) => AdvanceLogin(db, c, key, profile, fault)
    case LinkTask(userID, key) => AdvanceLink(db, c, userID, key, fault)
    case UnlinkTask(userID, provider) => AdvanceUnlink(db, c, userID, provider, fault)
  }

  ghost function Find(db: Db, key: Key, fault: Fault): Option<nat> {
    if !fault.Fine? then None else Owner(db, key)
  }

  ghost function AdvanceLogin(db: Db, c: Call, key: Key, profile: User, fault: Fault): (Db, Call) {
    match c.stage
    case Begin =>
      var found := Find(db, key, fault);
      (db, c.(stage := if found.Some? then Located(found.value) else Missing))
    case Located(owner) =>
      if !fault.Fine? || owner !in db.users then (db, c.(stage := Finished(Failed)))
      else (db, c.(stage := if db.users[owner] != profile then Loaded(owner) else Opening(owner)))
    case Loaded(owner) =>
      if owner !in db.users then (db, c.(stage := Finished(Failed)))
      else (if fault.Broken? then db else UpdateUser(db, owner, profile),
            c.(stage := if fault.Fine? then Opening(owner) else Finished(Failed)))
    case Missing =>
      var (after, written) := CreateUserWithIdentity(db, profile, key, fault);
      (after, c.(stage := if written.Done? then Opening(db.nextUser)
                          else if written.AlreadyLinked? then Raced
                          else Finished(Failed)))
    case Raced =>
      var found := Find(db, key, fault);
      (db, c.(stage := if found.Some? then Reloading(found.value) else Finished(Failed)))
    case Reloading(owner) =>
      (db, c.(stage := if !fault.Fine? || owner !in db.users then Finished(Failed) else Opening(owner)))
    case Opening(owner) =>
      (db, c.(stage := Finished(if fault.Fine? then LoggedIn(owner) else Failed)))
    case _ => (db, c)
  }

  ghost function AdvanceLink(db: Db, c: Call, userID: nat, key: Key, fault: Fault): (Db, Call) {
    match c.stage
    case Begin =>
      var found := Find(db, key, fault);
      (db, c.(stage := if found.None? then Missing else Finished(if found.value == userID then Linked else Failed)))
    case Missing =>
      var (after, written) := CreateIdentity(db, userID, key, fault);
      (after, c.(stage := Finished(if written.Done? then Linked else Failed)))
    case _ => (db, c)
  }

  ghost function AdvanceUnlink(db: Db, c: Call, userID: nat, provider: string, fault: Fault): (Db, Call) {
    match c.stage
    case Begin => (db, c.(stage := if !fault.Fine? || |RowsOf(db, userID)| <= 1 then Finished(Failed) else Deleting))
    case Deleting =>
      var (after, written) := DeleteIdentity(db, userID, provider, fault);
      (after, c.(stage := Finished(if written.Done? then Unlinked else Failed)))
    case _ => (db, c)
  }

  // ---- Interleavings ----

  /** created: the users inserted by logins, with the key each was inserted for. */
  datatype System = System(db: Db, calls: map<nat, Call>, created: map<nat, Key>)

  datatype Action = Start(id: nat, task: Task) | Proceed(id: nat, fault: Fault)

  ghost function Next(s: System, a: Action): System {
    match a
    case Start(id, task) => if id in s.calls then s else s.(calls := s.calls[id := Call(task, Begin)])
    case Proceed(id, fault) =>
      if id !in s.calls then s
      else
        var (db, c) := Advance(s.db, s.calls[id], fault);
        System(db, s.calls[id := c],
          if Creates(s, id, fault) then s.created[s.db.nextUser := s.calls[id].task.key] else s.created)
  }

  ghost predicate Creates(s: System, id: nat, fault: Fault) {
    && id in s.calls && s.calls[id].task.LoginTask? && s.calls[id].stage.Missing?
    && s.db.nextUser in CreateUserWithIdentity(s.db, s.calls[id].task.profile, s.calls[id].task.key, fault).0.users
  }

  ghost function Run(s: System, actions: seq<Action>): System {
    if actions == [] then s else Next(Run(s, actions[..|actions| - 1]), actions[|actions| - 1])
  }

  ghost predicate Initial(s: System) {
    Valid(s.db) && s.calls == map[] && s.created == map[]
  }

  // ---- Constraints and owners, whatever runs ----

  /** The one step that takes an identity away: its owner unlinking that provider. */
  ghost predicate UnlinksOf(s: System, a: Action, userID: nat, provider: string) {
    && a.Proceed? && a.id in s.calls && s.calls[a.id] == Call(UnlinkTask(userID, provider), Deleting)
  }

  lemma LoginGrows(db: Db, c: Call, fault: Fault)
    requires Valid(db) && c.task.LoginTask?
    ensures Valid(Advance(db, c, fault).0) && Grows(db, Advance(db, c, fault).0)
  {
    if c.stage.Missing? {
      CreateUserKeeps(db, c.task.profile, c.task.key, fault);
    }
  }

  lemma LinkGrows(db: Db, c: Call, fault: Fault)
    requires Valid(db) && c.task.LinkTask?
    ensures Valid(Advance(db, c, fault).0) && Grows(db, Advance(db, c, fault).0)
  {
    if c.stage.Missing? {
      CreateIdentityKeeps(db, c.task.userID, c.task.key, fault);
    }
  }

  /** Every step but an unlink's delete loses no row. */
  lemma StepGrows(s: System, a: Action)
    requires Valid(s.db)
    ensures Valid(Next(s, a).db)
    ensures (forall u, p :: !UnlinksOf(s, a, u, p)) ==> Grows(s.db, Next(s, a).db)
  {
    if a.Proceed? && a.id in s.calls {
      var c := s.calls[a.id];
      match c.task
      case LoginTask(_, _) =>
        LoginGrows(s.db, c, a.fault);
      case LinkTask(_, _) =>
        LinkGrows(s.db, c, a.fault);
      case UnlinkTask(userID, provider) =>
        DeleteKeeps(s.db, userID, provider, a.fault);
        if c.stage.Deleting? {
          assert UnlinksOf(s, a, userID, provider);
        }
    }
  }

  lemma OwnerChangesOnlyByUnlink(s: System, a: Action)
    requires Valid(s.db)
    ensures forall k, u | OwnedBy(s.db, k, u) && !UnlinksOf(s, a, u, k.provider) :: OwnedBy(Next(s, a).db, k, u)
  {
    StepGrows(s, a);
    if u, p :| UnlinksOf(s, a, u, p) {
      DeleteKeeps(s.db, u, p, a.fault);
    } else {
      OwnersStay(s.db, Next(s, a).db);
    }
  }

  lemma {:induction false} AlwaysValid(s: System, actions: seq<Action>)
    requires Initial(s)
    ensures Valid(Run(s, actions).db)
  {
    if actions != [] {
      AlwaysValid(s, actions[..|actions| - 1]);
      StepGrows(Run(s, actions[..|actions| - 1]), actions[|actions| - 1]);
    }
  }

  // ---- Concurrent first logins ----

  predicate HoldsOwner(stage: Stage) {
    stage.Located? || stage.Loaded? || stage.Reloading? || stage.Opening?
    || (stage.Finished? && stage.result.LoggedIn?)
  }

  function OwnerIn(stage: Stage): nat
    requires HoldsOwner(stage)
  {
    match stage
    case Located(u) => u
    case Loaded(u) => u
    case Reloading(u) => u
    case Opening(u) => u
    case Finished(r) => r.userID
  }

  /** Every user a login holds, and every user created for a key, owns that key. */
  ghost predicate LoginsAgree(s: System) {
    && Valid(s.db)
    && (forall id | id in s.calls && s.calls[id].task.LoginTask? && HoldsOwner(s.calls[id].stage) ::
      OwnedBy(s.db, s.calls[id].task.key, OwnerIn(s.calls[id].stage)))
    && (forall u | u in s.created :: OwnedBy(s.db, s.created[u], u))
    && (forall id | id in s.calls :: !s.calls[id].task.UnlinkTask?)
  }

  predicate NoUnlink(actions: seq<Action>) {
    forall i | 0 <= i < |actions| :: actions[i].Start? ==> !actions[i].task.UnlinkTask?
  }

  /** A login in step with the tables stays so. */
  lemma LoginAgrees(db: Db, c: Call, fault: Fault)
    requires Valid(db) && c.task.LoginTask?
    requires HoldsOwner(c.stage) ==> OwnedBy(db, c.task.key, OwnerIn(c.stage))
    ensures
      var (after, c') := Advance(db, c, fault);
      c'.task == c.task && (HoldsOwner(c'.stage) ==> OwnedBy(after, c.task.key, OwnerIn(c'.stage)))
  {
    CreateUserKeeps(db, c.task.profile, c.task.key, fault);
    LoginGrows(db, c, fault);
    OwnersStay(db, Advance(db, c, fault).0);
  }

  lemma NextAgrees(s: System, a: Action)
    requires LoginsAgree(s) && (a.Start? ==> !a.task.UnlinkTask?)
    ensures LoginsAgree(Next(s, a))
    ensures Grows(s.db, Next(s, a).db)
  {
    StepGrows(s, a);
    OwnersStay(s.db, Next(s, a).db);
    if a.Proceed? && a.id in s.calls && s.calls[a.id].task.LoginTask? {
      LoginAgrees(s.db, s.calls[a.id], a.fault);
      CreatedOwns(s, a);
    }
  }

  /** A user created by a step owns the key of the login that took it. */
  lemma CreatedOwns(s: System, a: Action)
    requires Valid(s.db) && a.Proceed? && a.id in s.calls && s.calls[a.id].task.LoginTask?
    ensures Creates(s, a.id, a.fault) ==> OwnedBy(Next(s, a).db, s.calls[a.id].task.key, s.db.nextUser)
  {
    CreateUserKeeps(s.db, s.calls[a.id].task.profile, s.calls[a.id].task.key, a.fault);
  }

  lemma {:induction false} AlwaysAgree(s: System, actions: seq<Action>)
    requires Initial(s) && NoUnlink(actions)
    ensures LoginsAgree(Run(s, actions))
    ensures forall k, u | OwnedBy(s.db, k, u) :: OwnedBy(Run(s, actions).db, k, u)
  {
    if actions != [] {
      var front := actions[..|actions| - 1];
      assert forall i | 0 <= i < |front| :: front[i] == actions[i];
      AlwaysAgree(s, front);
      NextAgrees(Run(s, front), actions[|actions| - 1]);
      OwnersStay(Run(s, front).db, Run(s, actions).db);
    }
  }

  lemma KeyStaysTaken(db: Db, after: Db, key: Key)
    requires KeyTaken(db, key) && forall k, u | OwnedBy(db, k, u) :: OwnedBy(after, k, u)
    ensures KeyTaken(after, key)
  {
    var r :| r in db.identities && db.identities[r].key == key;
    assert OwnedBy(db, key, db.identities[r].userID);
  }

  lemma {:induction false} CreatedForFreeKeys(s: System, actions: seq<Action>)
    requires Initial(s) && NoUnlink(actions)
    ensures forall u | u in Run(s, actions).created :: !KeyTaken(s.db, Run(s, actions).created[u])
  {
    if actions != [] {
      var front, a := actions[..|actions| - 1], actions[|actions| - 1];
      var t := Run(s, front);
      assert forall i | 0 <= i < |front| :: front[i] == actions[i];
      CreatedForFreeKeys(s, front);
      AlwaysAgree(s, front);
      if a.Proceed? && Creates(t, a.id, a.fault) && KeyTaken(s.db, t.calls[a.id].task.key) {
        KeyStaysTaken(s.db, t.db, t.calls[a.id].task.key);
      }
    }
  }

  /** One user per key, and one answer to everybody who logs in with it. */
  lemma ConcurrentFirstLogins(s: System, actions: seq<Action>)
    requires Initial(s) && NoUnlink(actions)
    ensures
      var t := Run(s, actions);
      && (forall u, v | u in t.created && v in t.created && t.created[u] == t.created[v] :: u == v)
      && (forall u | u in t.created :: !KeyTaken(s.db, t.created[u]))
      && (forall i, j | i in t.calls && j in t.calls && Succeeded(t.calls[i]) && Succeeded(t.calls[j])
                        && t.calls[i].task.key == t.calls[j].task.key ::
            t.calls[i].stage.result == t.calls[j].stage.result)
      && (forall i, u | i in t.calls && Succeeded(t.calls[i]) && u in t.created
                        && t.created[u] == t.calls[i].task.key ::
            t.calls[i].stage.result == LoggedIn(u))
  {
    AlwaysAgree(s, actions);
    CreatedForFreeKeys(s, actions);
    var t := Run(s, actions);
    forall k, u, v | OwnedBy(t.db, k, u) && OwnedBy(t.db, k, v)
      ensures u == v
    {
      OneOwner(t.db, k, u, v);
    }
    forall i | i in t.calls && Succeeded(t.calls[i])
      ensures OwnedBy(t.db, t.calls[i].task.key, t.calls[i].stage.result.userID)
    {
      assert HoldsOwner(t.calls[i].stage);
    }
  }

  predicate Succeeded(c: Call) {
    c.task.LoginTask? && c.stage.Finished? && c.stage.result.LoggedIn?
  }

  // ---- Logins while identities come and go ----

  /** The user a login holds after a step it held before, or the user owned the key before or after the step. */
  lemma HeldFrom(db: Db, c: Call, fault: Fault)
    requires Valid(db) && c.task.LoginTask? && HoldsOwner(Advance(db, c, fault).1.stage)
    ensures
      var (after, c') := Advance(db, c, fault);
      var owner := OwnerIn(c'.stage);
      || (HoldsOwner(c.stage) && OwnerIn(c.stage) == owner)
      || OwnedBy(db, c.task.key, owner) || OwnedBy(after, c.task.key, owner)
  {
    CreateUserKeeps(db, c.task.profile, c.task.key, fault);
  }

  /** At some moment of the run the user owned the key. */
  ghost predicate OwnedOnce(s: System, actions: seq<Action>, key: Key, userID: nat) {
    exists n | 0 <= n <= |actions| :: OwnedBy(Run(s, actions[..n]).db, key, userID)
  }

  lemma OwnedOnceMore(s: System, front: seq<Action>, actions: seq<Action>, key: Key, userID: nat)
    requires front <= actions && OwnedOnce(s, front, key, userID)
    ensures OwnedOnce(s, actions, key, userID)
  {
    var n :| 0 <= n <= |front| && OwnedBy(Run(s, front[..n]).db, key, userID);
    assert front[..n] == actions[..n];
  }

  lemma OwnedNow(s: System, actions: seq<Action>, key: Key, userID: nat)
    requires OwnedBy(Run(s, actions).db, key, userID)
    ensures OwnedOnce(s, actions, key, userID)
  {
    assert actions[..|actions|] == actions;
  }

  /**
   Whatever runs, unlinks and faults included, the user a login holds, and so the user it returns, owned
   the key it logs in with at some moment of the run.
   */
  lemma {:induction false} LoginsOwnedOnce(s: System, actions: seq<Action>, id: nat)
    requires Initial(s) && id in Run(s, actions).calls
    requires Run(s, actions).calls[id].task.LoginTask? && HoldsOwner(Run(s, actions).calls[id].stage)
    ensures
      var c := Run(s, actions).calls[id];
      OwnedOnce(s, actions, c.task.key, OwnerIn(c.stage))
  {
    if actions != [] {
      var front, a := actions[..|actions| - 1], actions[|actions| - 1];
      var t, c := Run(s, front), Run(s, actions).calls[id];
      var key, owner := c.task.key, OwnerIn(c.stage);
      AlwaysValid(s, front);
      if a.Proceed? && a.id == id {
        HeldFrom(t.db, t.calls[id], a.fault);
      }
      if OwnedBy(Run(s, actions).db, key, owner) {
        OwnedNow(s, actions, key, owner);
      } else {
        if OwnedBy(t.db, key, owner) {
          OwnedNow(s, front, key, owner);
        } else {
          LoginsOwnedOnce(s, front, id);
        }
        OwnedOnceMore(s, front, actions, key, owner);
      }
    }
  }

  // ---- A last identity ----

  ghost predicate Deletes(s: System, id: nat, userID: nat) {
    id in s.calls && s.calls[id].task.UnlinkTask? && s.calls[id].stage.Deleting? && s.calls[id].task.userID == userID
  }

  /** An unlink deletes although the count it listed no longer holds: one identity is left, and it is this one. */
  ghost predicate Strands(s: System, a: Action, u: nat) {
    && a.Proceed? && !a.fault.Broken? && Deletes(s, a.id, u)
    && |RowsOf(s.db, u)| <= 1 && ProviderTaken(s.db, u, s.calls[a.id].task.provider)
  }

  lemma RowsGrow(s: System, a: Action, u: nat)
    requires Valid(s.db) && forall v, p :: !UnlinksOf(s, a, v, p)
    ensures |RowsOf(Next(s, a).db, u)| >= |RowsOf(s.db, u)|
  {
    StepGrows(s, a);
    RowsStay(s.db, Next(s, a).db, u);
  }

  /** Only a user's own delete takes a row of theirs, and then one. */
  lemma RowsAfter(s: System, a: Action, u: nat)
    requires Valid(s.db)
    ensures |RowsOf(Next(s, a).db, u)| >= |RowsOf(s.db, u)| - if a.Proceed? && Deletes(s, a.id, u) then 1 else 0
  {
    if v, p :| UnlinksOf(s, a, v, p) {
      DeleteKeeps(s.db, v, p, a.fault);
    } else {
      RowsGrow(s, a, u);
    }
  }

  lemma OnlyRow(db: Db, u: nat, r: nat)
    requires r in RowsOf(db, u) && |RowsOf(db, u)| <= 1
    ensures RowsOf(db, u) == {r}
  {
    assert |RowsOf(db, u) - {r}| == 0;
  }

  /** A step takes a user's last identity exactly when it is such a delete. */
  lemma StrandsExactly(s: System, a: Action, u: nat)
    requires Valid(s.db) && RowsOf(s.db, u) != {}
    ensures RowsOf(Next(s, a).db, u) == {} <==> Strands(s, a, u)
  {
    RowsAfter(s, a, u);
    if a.Proceed? && Deletes(s, a.id, u) {
      var provider := s.calls[a.id].task.provider;
      if !a.fault.Broken? && ProviderTaken(s.db, u, provider) {
        var r :| r in s.db.identities && s.db.identities[r].userID == u && s.db.identities[r].key.provider == provider;
        DeleteTakes(s.db, r, a.fault);
        assert RowsOf(Next(s, a).db, u) == RowsOf(s.db, u) - {r};
        if |RowsOf(s.db, u)| <= 1 {
          OnlyRow(s.db, u, r);
        }
      }
    }
  }

  /** At every moment so far the user, once created by a login, had an identity. */
  ghost predicate KeptThroughout(s: System, actions: seq<Action>, u: nat) {
    && (u in Run(s, actions).created ==> RowsOf(Run(s, actions).db, u) != {})
    && (actions != [] ==> KeptThroughout(s, actions[..|actions| - 1], u))
  }

  ghost predicate NeverStranded(s: System, actions: seq<Action>, u: nat) {
    actions == []
    || (NeverStranded(s, actions[..|actions| - 1], u)
        && !(u in Run(s, actions[..|actions| - 1]).created
             && Strands(Run(s, actions[..|actions| - 1]), actions[|actions| - 1], u)))
  }

  lemma NewUserHasRow(s: System, a: Action, u: nat)
    requires Valid(s.db) && u !in s.created && u in Next(s, a).created
    ensures RowsOf(Next(s, a).db, u) != {}
  {
    CreateUserKeeps(s.db, s.calls[a.id].task.profile, s.calls[a.id].task.key, a.fault);
  }

  /** A created user loses the last identity in exactly the runs that contain such a delete. */
  lemma {:induction false} StrandedExactly(s: System, actions: seq<Action>, u: nat)
    requires Initial(s)
    ensures KeptThroughout(s, actions, u) <==> NeverStranded(s, actions, u)
  {
    if actions != [] {
      var front, last := actions[..|actions| - 1], actions[|actions| - 1];
      var t := Run(s, front);
      StrandedExactly(s, front, u);
      AlwaysValid(s, front);
      if u in t.created {
        if RowsOf(t.db, u) != {} {
          StrandsExactly(t, last, u);
        }
      } else if u in Next(t, last).created {
        NewUserHasRow(t, last, u);
      }
    }
  }

  // ---- Unlinks of one user that do not overlap ----

  /** Between the listing and the delete of one unlink of u, no other unlink of u lists. */
  ghost predicate Alone(s: System, a: Action, u: nat) {
    a.Proceed? && a.id in s.calls && s.calls[a.id].task.UnlinkTask? && s.calls[a.id].stage.Begin?
      && s.calls[a.id].task.userID == u ==>
      forall id :: !Deletes(s, id, u)
  }

  ghost predicate AloneRun(s: System, actions: seq<Action>, u: nat) {
    actions == []
    || (AloneRun(s, actions[..|actions| - 1], u) && Alone(Run(s, actions[..|actions| - 1]), actions[|actions| - 1], u))
  }

  /** At most one unlink of u is about to delete, and then u has another identity. */
  ghost predicate Spared(s: System, u: nat) {
    && (forall id | Deletes(s, id, u) :: |RowsOf(s.db, u)| >= 2)
    && (forall i, j | Deletes(s, i, u) && Deletes(s, j, u) :: i == j)
  }

  /** Calls still to delete were so before, or have just listed. */
  lemma DeletesBefore(s: System, a: Action, id: nat, u: nat)
    requires Deletes(Next(s, a), id, u)
    ensures
      || (Deletes(s, id, u) && !(a.Proceed? && a.id == id))
      || (a == Proceed(id, Fine) && id in s.calls && s.calls[id] == Call(s.calls[id].task, Begin)
          && s.calls[id].task.UnlinkTask? && s.calls[id].task.userID == u && |RowsOf(s.db, u)| > 1)
  {
  }

  lemma NextSpares(s: System, a: Action, u: nat)
    requires Valid(s.db) && Spared(s, u) && Alone(s, a, u)
    ensures Spared(Next(s, a), u)
  {
    forall id | Deletes(Next(s, a), id, u)
      ensures |RowsOf(Next(s, a).db, u)| >= 2
    {
      DeletesBefore(s, a, id, u);
      RowsAfter(s, a, u);
    }
    forall i, j | Deletes(Next(s, a), i, u) && Deletes(Next(s, a), j, u)
      ensures i == j
    {
      DeletesBefore(s, a, i, u);
      DeletesBefore(s, a, j, u);
    }
  }

  /** A user whose own unlinks do not overlap keeps an identity, whatever others do. */
  lemma {:induction false} LastIdentityKept(s: System, actions: seq<Action>, u: nat)
    requires Initial(s) && AloneRun(s, actions, u)
    ensures KeptThroughout(s, actions, u)
  {
    AloneNeverStranded(s, actions, u);
    StrandedExactly(s, actions, u);
  }

  lemma {:induction false} AloneNeverStranded(s: System, actions: seq<Action>, u: nat)
    requires Initial(s) && AloneRun(s, actions, u)
    ensures Spared(Run(s, actions), u) && NeverStranded(s, actions, u)
  {
    if actions != [] {
      AloneNeverStranded(s, actions[..|actions| - 1], u);
      AlwaysValid(s, actions[..|actions| - 1]);
      NextSpares(Run(s, actions[..|actions| - 1]), actions[|actions| - 1], u);
    }
  }

  // ---- Unlinks that do overlap ----

  /** Two unlinks of a user's two identities, each listing before the other deletes. */
  function Overlap(i: nat, j: nat, first: Task, second: Task): seq<Action> {
    [Start(i, first), Start(j, second), Proceed(i, Fine), Proceed(j, Fine), Proceed(i, Fine), Proceed(j, Fine)]
  }

  lemma BothList(s: System, i: nat, j: nat, user: nat, p: string, q: string)
    requires i !in s.calls && j !in s.calls && i != j && |RowsOf(s.db, user)| == 2
    ensures
      var t := Next(Next(s, Start(i, UnlinkTask(user, p))), Start(j, UnlinkTask(user, q)));
      var u := Next(Next(t, Proceed(i, Fine)), Proceed(j, Fine));
      && u.db == s.db && u.created == s.created
      && u.calls == s.calls[i := Call(UnlinkTask(user, p), Deleting)][j := Call(UnlinkTask(user, q), Deleting)]
  {
  }

  lemma BothDelete(s: System, i: nat, j: nat, user: nat, r: nat, q: nat)
    requires Valid(s.db) && i in s.calls && j in s.calls && i != j
    requires r != q && RowsOf(s.db, user) == {r, q} && r in s.db.identities && q in s.db.identities
    requires s.calls[i] == Call(UnlinkTask(user, s.db.identities[r].key.provider), Deleting)
    requires s.calls[j] == Call(UnlinkTask(user, s.db.identities[q].key.provider), Deleting)
    ensures RowsOf(Next(Next(s, Proceed(i, Fine)), Proceed(j, Fine)).db, user) == {}
    ensures Next(Next(s, Proceed(i, Fine)), Proceed(j, Fine)).created == s.created
  {
    assert r in RowsOf(s.db, user) && q in RowsOf(s.db, user);
    var t := Next(s, Proceed(i, Fine));
    DeleteTakes(s.db, r, Fine);
    assert Valid(t.db) && q in t.db.identities && t.db.identities[q] == s.db.identities[q];
    DeleteTakes(t.db, q, Fine);
    var u := Next(t, Proceed(j, Fine));
    assert u.db.identities == s.db.identities - {r} - {q};
    assert RowsOf(u.db, user) == RowsOf(s.db, user) - {r} - {q};
  }

  /** From every system, two overlapping unlinks of a user's only two identities take both. */
  lemma OverlapStrands(s: System, i: nat, j: nat, user: nat, r: nat, q: nat)
    requires Valid(s.db) && i !in s.calls && j !in s.calls && i != j
    requires r != q && RowsOf(s.db, user) == {r, q} && r in s.db.identities && q in s.db.identities
    ensures
      var p, p' := s.db.identities[r].key.provider, s.db.identities[q].key.provider;
      var t := Run(s, Overlap(i, j, UnlinkTask(user, p), UnlinkTask(user, p')));
      RowsOf(t.db, user) == {} && t.created == s.created
  {
    var p, p' := s.db.identities[r].key.provider, s.db.identities[q].key.provider;
    var actions := Overlap(i, j, UnlinkTask(user, p), UnlinkTask(user, p'));
    assert |{r, q}| == 2;
    BothList(s, i, j, user, p, p');
    var t := Next(Next(Next(Next(s, actions[0]), actions[1]), actions[2]), actions[3]);
    BothDelete(t, i, j, user, r, q);
    RunSix(s, actions);
  }

  lemma {:induction false} RunOn(s: System, a: seq<Action>, b: seq<Action>)
    ensures Run(s, a + b) == Run(Run(s, a), b)
    decreases |b|
  {
    if b == [] {
      assert a + b == a;
    } else {
      RunOn(s, a, b[..|b| - 1]);
      assert (a + b)[..|a + b| - 1] == a + b[..|b| - 1];
    }
  }

  lemma RunThree(s: System, a: Action, b: Action, c: Action)
    ensures Run(s, [a, b, c]) == Next(Next(Next(s, a), b), c)
  {
    assert [a, b, c][..2] == [a, b] && [a, b][..1] == [a] && [a][..0] == [];
    var u := Next(s, a);
    assert Run(s, [a]) == Next(Run(s, []), a) == u;
    assert Run(s, [a, b]) == Next(u, b);
  }

  lemma RunSix(s: System, a: seq<Action>)
    requires |a| == 6
    ensures Run(s, a) == Next(Next(Next(Next(Next(Next(s, a[0]), a[1]), a[2]), a[3]), a[4]), a[5])
  {
    var front, back := [a[0], a[1], a[2]], [a[3], a[4], a[5]];
    assert a == front + back;
    RunThree(s, a[0], a[1], a[2]);
    RunThree(Run(s, front), a[3], a[4], a[5]);
    RunOn(s, front, back);
  }

  const Nobody: System := System(Db(map[], map[], 0, 0), map[], map[])

  /** A first login by one provider, then a link of another. */
  function LoginAndLink(profile: User, k: Key, k': Key): seq<Action> {
    [Start(0, LoginTask(k, profile)), Proceed(0, Fine), Proceed(0, Fine),
     Start(1, LinkTask(0, k')), Proceed(1, Fine), Proceed(1, Fine)]
  }

  lemma TwoIdentities(profile: User, k: Key, k': Key)
    requires k.provider != k'.provider
    ensures
      var t := Run(Nobody, LoginAndLink(profile, k, k'));
      && t.db == Db(map[0 := profile], map[0 := Identity(0, k), 1 := Identity(0, k')], 1, 2)
      && t.created == map[0 := k] && t.calls.Keys == {0, 1}
  {
    var a := LoginAndLink(profile, k, k');
    RunSix(Nobody, a);
    var s3 := Next(Next(Next(Nobody, a[0]), a[1]), a[2]);
    var db := Db(map[0 := profile], map[0 := Identity(0, k)], 1, 1);
    assert s3 == System(db, map[0 := Call(LoginTask(k, profile), Opening(0))], map[0 := k]);
    assert !KeyTaken(db, k') && !ProviderTaken(db, 0, k'.provider);
    var s5 := Next(Next(s3, a[3]), a[4]);
    assert s5.db == db && s5.calls[1] == Call(LinkTask(0, k'), Missing);
  }

  /** Such a run begins with empty tables, one login and one link. */
  lemma OverlapIsReal(profile: User, k: Key, k': Key)
    requires k.provider != k'.provider
    ensures
      var unlinks := Overlap(2, 3, UnlinkTask(0, k.provider), UnlinkTask(0, k'.provider));
      var actions := LoginAndLink(profile, k, k') + unlinks;
      0 in Run(Nobody, actions).created && RowsOf(Run(Nobody, actions).db, 0) == {}
  {
    var setup := LoginAndLink(profile, k, k');
    var s := Run(Nobody, setup);
    TwoIdentities(profile, k, k');
    AlwaysValid(Nobody, setup);
    assert RowsOf(s.db, 0) == {0, 1};
    OverlapStrands(s, 2, 3, 0, 0, 1);
    RunOn(Nobody, setup, Overlap(2, 3, UnlinkTask(0, k.provider), UnlinkTask(0, k'.provider)));
  }

  // ---- One call from beginning to end ----

  /** A call running alone; repository call number i meets faults[i]. */
  ghost function Steps(db: Db, c: Call, faults: seq<Fault>): (Db, Call)
    decreases |faults|
  {
    if faults == [] then (db, c)
    else
      var (after, c') := Advance(db, c, faults[0]);
      Steps(after, c', faults[1..])
  }

  lemma {:induction false} FinishedStays(db: Db, c: Call, faults: seq<Fault>)
    requires c.stage.Finished?
    ensures Steps(db, c, faults) == (db, c)
    decreases |faults|
  {
    if faults != [] {
      FinishedStays(db, c, faults[1..]);
    }
  }

  lemma OneStep(db: Db, c: Call, faults: seq<Fault>, after: Db, c': Call)
    requires faults != [] && Advance(db, c, faults[0]) == (after, c')
    ensures Steps(db, c, faults) == Steps(after, c', faults[1..])
  {
  }

  lemma LastStep(db: Db, c: Call, faults: seq<Fault>, after: Db, result: Result)
    requires faults != [] && Advance(db, c, faults[0]) == (after, c.(stage := Finished(result)))
    ensures Steps(db, c, faults) == (after, c.(stage := Finished(result)))
  {
    FinishedStays(after, c.(stage := Finished(result)), faults[1..]);
  }
}
