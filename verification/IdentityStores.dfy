/** The two Postgres stores and the use cases over them, each method running without interruption. */
module IdentityStores {
  import opened Options
  import opened IdentityDb
  import opened IdentityFlow

  /** The tables both stores reach through their connection pool. */
  class Tables {
    var users: map<nat, User>
    var identities: map<nat, Identity>
    var nextUser: nat
    var nextRow: nat

    ghost function AsDb(): Db
      reads this
    {
      Db(users, identities, nextUser, nextRow)
    }
  }

  class AuthStorage {
    const tables: Tables

    constructor (tables: Tables)
      ensures this.tables == tables
    {
      this.tables := tables;
    }

    method GetUserByID(userID: nat, fault: Fault) returns (user: Option<User>)
      ensures user == if !fault.Fine? || userID !in tables.users then None else Some(tables.users[userID])
    {
      if !fault.Fine? || userID !in tables.users {
        return None;
      }
      return Some(tables.users[userID]);
    }

    method UpdateUser(userID: nat, user: User, fault: Fault) returns (updated: bool)
      modifies tables
      ensures updated <==> fault.Fine? && userID in old(tables.users)
      ensures tables.AsDb() ==
        if fault.Broken? then old(tables.AsDb()) else IdentityDb.UpdateUser(old(tables.AsDb()), userID, user)
    {
      if fault.Broken? || userID !in tables.users {
        return false;
      }
      tables.users := tables.users[userID := user];
      return fault.Fine?;
    }

    /** Inserts the user, then the identity; an identity already there rolls the user back. */
    method CreateUserWithIdentity(user: User, key: Key, fault: Fault) returns (written: Written, userID: nat)
      modifies tables
      ensures (tables.AsDb(), written) == IdentityDb.CreateUserWithIdentity(old(tables.AsDb()), user, key, fault)
      ensures written.Done? ==> userID == old(tables.nextUser)
    {
      userID := tables.nextUser;
      if fault.Broken? {
        return TxError, userID;
      }
      var committed := tables.users;
      tables.users := tables.users[userID := user];
      tables.nextUser := tables.nextUser + 1;
      var row := tables.nextRow;
      tables.nextRow := tables.nextRow + 1;
      var affected := 0;
      if !exists r | r in tables.identities :: tables.identities[r].key == key {
        tables.identities := tables.identities[row := Identity(userID, key)];
        affected := 1;
      }
      if affected == 0 {
        tables.users := committed;
        return Answer(fault, AlreadyLinked), userID;
      }
      return Answer(fault, Done), userID;
    }
  }

  class IdentityStorage {
    const tables: Tables

    constructor (tables: Tables)
      ensures this.tables == tables
    {
      this.tables := tables;
    }

    method FindByProvider(key: Key, fault: Fault) returns (owner: Option<nat>)
      requires Valid(tables.AsDb())
      ensures owner == Find(tables.AsDb(), key, fault)
    {
      if !fault.Fine? || !KeyTaken(Db(tables.users, tables.identities, tables.nextUser, tables.nextRow), key) {
        return None;
      }
      var r :| r in tables.identities && tables.identities[r].key == key;
      assert tables.identities[r] == Identity(tables.identities[r].userID, key);
      OneOwner(tables.AsDb(), key, tables.identities[r].userID, Owner(tables.AsDb(), key).value);
      return Some(tables.identities[r].userID);
    }

    method CreateIdentity(userID: nat, key: Key, fault: Fault) returns (written: Written)
      modifies tables
      ensures (tables.AsDb(), written) == IdentityDb.CreateIdentity(old(tables.AsDb()), userID, key, fault)
    {
      if fault.Broken? {
        return TxError;
      }
      var row := tables.nextRow;
      tables.nextRow := tables.nextRow + 1;
      if exists r | r in tables.identities :: tables.identities[r].key == key {
        return Answer(fault, AlreadyLinked);
      }
      if exists r | r in tables.identities ::
        tables.identities[r].userID == userID && tables.identities[r].key.provider == key.provider
      {
        return TxError;
      }
      if userID !in tables.users {
        return TxError;
      }
      tables.identities := tables.identities[row := Identity(userID, key)];
      return Answer(fault, Done);
    }

    /** One entry for each row of the user, or the error of the query or of reading a row. */
    method ListByUserID(userID: nat, fault: Fault) returns (listed: Option<seq<nat>>)
      ensures listed.Some? <==> fault.Fine?
      ensures listed.Some? ==> Lists(listed.value, RowsOf(tables.AsDb(), userID))
    {
      if !fault.Fine? {
        return None;
      }
      var result := [];
      var identities := tables.identities;
      var rows := identities.Keys;
      while rows != {}
        invariant rows <= identities.Keys
        invariant Lists(result, Passed(identities, rows, userID))
        decreases rows
      {
        var r :| r in rows;
        ghost var passed := Passed(identities, rows, userID);
        rows := rows - {r};
        if identities[r].userID == userID {
          ListMore(result, passed, r);
          result := result + [r];
          assert Passed(identities, rows, userID) == passed + {r};
        } else {
          assert Passed(identities, rows, userID) == passed;
        }
      }
      assert Passed(identities, {}, userID) == RowsOf(tables.AsDb(), userID);
      return Some(result);
    }

    method DeleteByUserAndProvider(userID: nat, provider: string, fault: Fault) returns (written: Written)
      modifies tables
      ensures (tables.AsDb(), written) == DeleteIdentity(old(tables.AsDb()), userID, provider, fault)
    {
      if fault.Broken? {
        return TxError;
      }
      var rows := tables.identities;
      var kept := map r | r in rows && !(rows[r].userID == userID && rows[r].key.provider == provider) :: rows[r];
      tables.identities := kept;
      var affected := rows.Keys - kept.Keys;
      if affected == {} {
        assert forall r | r in rows :: r !in affected;
        assert kept == rows;
        return Answer(fault, NotFound);
      }
      assert exists r :: r in affected;
      return Answer(fault, Done);
    }
  }

  /** The user's rows a query has passed when rows are still to come. */
  ghost function Passed(identities: map<nat, Identity>, rows: set<nat>, userID: nat): set<nat> {
    set r | r in identities && r !in rows && identities[r].userID == userID
  }

  /** Every row once. */
  ghost predicate Lists(result: seq<nat>, rows: set<nat>) {
    (forall r :: r in result <==> r in rows) && |result| == |rows|
  }

  lemma ListMore(result: seq<nat>, rows: set<nat>, r: nat)
    requires Lists(result, rows) && r !in rows
    ensures Lists(result + [r], rows + {r})
  {
  }

  class AuthUsecases {
    const tables: Tables
    const repo: AuthStorage
    const identityRepo: IdentityStorage

    constructor (tables: Tables, repo: AuthStorage, identityRepo: IdentityStorage)
      requires repo.tables == tables && identityRepo.tables == tables
      ensures this.tables == tables && this.repo == repo && this.identityRepo == identityRepo
    {
      this.tables, this.repo, this.identityRepo := tables, repo, identityRepo;
    }

    ghost predicate Wired() {
      repo.tables == tables && identityRepo.tables == tables
    }

    /** faults[i] is the foreign outcome of the i-th repository or session call made. */
    method Login(key: Key, profile: User, faults: seq<Fault>) returns (result: Result)
      requires Wired() && Valid(tables.AsDb()) && |faults| == 5
      modifies tables
      ensures Steps(old(tables.AsDb()), Call(LoginTask(key, profile), Begin), faults)
           == (tables.AsDb(), Call(LoginTask(key, profile), Finished(result)))
    {
      ghost var db, task := tables.AsDb(), LoginTask(key, profile);
      ghost var begin := Call(task, Begin);
      var actualUser: nat;
      var rest := faults[1..];
      var identity := identityRepo.FindByProvider(key, faults[0]);
      if identity.Some? {
        ghost var located := Call(task, Located(identity.value));
        assert Steps(db, begin, faults) == Steps(db, located, rest);
        var user := repo.GetUserByID(identity.value, rest[0]);
        if user.None? {
          LastStep(db, located, rest, db, Failed);
          return Failed;
        }
        if user.value != profile {
          ghost var loaded := Call(task, Loaded(identity.value));
          assert Steps(db, located, rest) == Steps(db, loaded, rest[1..]);
          rest := rest[1..];
          var updated := repo.UpdateUser(identity.value, profile, rest[0]);
          if !updated {
            LastStep(db, loaded, rest, tables.AsDb(), Failed);
            return Failed;
          }
        }
        rest := rest[1..];
        actualUser := identity.value;
      } else {
        ghost var missing := Call(task, Missing);
        assert Steps(db, begin, faults) == Steps(db, missing, rest);
        var written, created := repo.CreateUserWithIdentity(profile, key, rest[0]);
        if written.AlreadyLinked? {
          CreateUserKeeps(db, profile, key, Fine);
          ghost var raced := Call(task, Raced);
          assert Steps(db, missing, rest) == Steps(tables.AsDb(), raced, rest[1..]);
          rest := rest[1..];
          var existing := identityRepo.FindByProvider(key, rest[0]);
          if existing.None? {
            LastStep(tables.AsDb(), raced, rest, tables.AsDb(), Failed);
            return Failed;
          }
          ghost var reloading := Call(task, Reloading(existing.value));
          assert Steps(tables.AsDb(), raced, rest) == Steps(tables.AsDb(), reloading, rest[1..]);
          rest := rest[1..];
          var user := repo.GetUserByID(existing.value, rest[0]);
          if user.None? {
            LastStep(tables.AsDb(), reloading, rest, tables.AsDb(), Failed);
            return Failed;
          }
          actualUser := existing.value;
        } else if !written.Done? {
          LastStep(db, missing, rest, tables.AsDb(), Failed);
          return Failed;
        } else {
          actualUser := created;
        }
        rest := rest[1..];
      }
      ghost var opening := Call(task, Opening(actualUser));
      assert Steps(db, begin, faults) == Steps(tables.AsDb(), opening, rest);
      var session := rest[0];
      result := if session.Fine? then LoggedIn(actualUser) else Failed;
      LastStep(tables.AsDb(), opening, rest, tables.AsDb(), result);
    }

    method LinkIdentity(userID: nat, key: Key, faults: seq<Fault>) returns (result: Result)
      requires Wired() && Valid(tables.AsDb()) && |faults| == 2
      modifies tables
      ensures Steps(old(tables.AsDb()), Call(LinkTask(userID, key), Begin), faults)
           == (tables.AsDb(), Call(LinkTask(userID, key), Finished(result)))
    {
      ghost var db, task := tables.AsDb(), LinkTask(userID, key);
      var existing := identityRepo.FindByProvider(key, faults[0]);
      if existing.Some? {
        result := if existing.value == userID then Linked else Failed;
        FinishedStays(db, Call(task, Finished(result)), faults[1..]);
        return;
      }
      assert Steps(db, Call(task, Begin), faults) == Steps(db, Call(task, Missing), faults[1..]);
      var written := identityRepo.CreateIdentity(userID, key, faults[1]);
      result := if written.Done? then Linked else Failed;
      FinishedStays(tables.AsDb(), Call(task, Finished(result)), faults[1..][1..]);
    }

    method UnlinkIdentity(userID: nat, provider: string, faults: seq<Fault>) returns (result: Result)
      requires Wired() && |faults| == 2
      modifies tables
      ensures Steps(old(tables.AsDb()), Call(UnlinkTask(userID, provider), Begin), faults)
           == (tables.AsDb(), Call(UnlinkTask(userID, provider), Finished(result)))
    {
      ghost var db, task := tables.AsDb(), UnlinkTask(userID, provider);
      var identities := identityRepo.ListByUserID(userID, faults[0]);
      if identities.None? || |identities.value| <= 1 {
        FinishedStays(db, Call(task, Finished(Failed)), faults[1..]);
        return Failed;
      }
      assert Steps(db, Call(task, Begin), faults) == Steps(db, Call(task, Deleting), faults[1..]);
      var written := identityRepo.DeleteByUserAndProvider(userID, provider, faults[1]);
      result := if written.Done? then Unlinked else Failed;
      FinishedStays(tables.AsDb(), Call(task, Finished(result)), faults[1..][1..]);
    }
  }
}
