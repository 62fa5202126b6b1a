/** The users and identities tables, and each statement the two stores run on them as one function. */
module IdentityDb {
  import opened Options

  datatype User = User(displayName: string, avatarURL: string)

  /** A provider's name and the provider's id of a person. */
  datatype Key = Key(provider: string, providerUserID: string)

  datatype Identity = Identity(userID: nat, key: Key)

  /** Rows by primary key; the two sequences that number new rows never run backwards. */
  datatype Db = Db(users: map<nat, User>, identities: map<nat, Identity>, nextUser: nat, nextRow: nat)

  /** Neither unique constraint stands against having both rows. */
  predicate Compatible(a: Identity, b: Identity) {
    a.key != b.key && !(a.userID == b.userID && a.key.provider == b.key.provider)
  }

  /** uq_identity_provider, uq_identity_user_provider, the foreign key, and the sequences ahead of their rows. */
  ghost predicate Valid(db: Db) {
    && (forall r, r' | r in db.identities && r' in db.identities && r != r' ::
      Compatible(db.identities[r], db.identities[r']))
    && (forall r | r in db.identities :: db.identities[r].userID in db.users)
    && (forall u | u in db.users :: u < db.nextUser)
    && (forall r | r in db.identities :: r < db.nextRow)
  }

  predicate KeyTaken(db: Db, key: Key) {
    exists r | r in db.identities :: db.identities[r].key == key
  }

  predicate ProviderTaken(db: Db, userID: nat, provider: string) {
    exists r | r in db.identities :: db.identities[r].userID == userID && db.identities[r].key.provider == provider
  }

  ghost predicate OwnedBy(db: Db, key: Key, userID: nat) {
    exists r | r in db.identities :: db.identities[r] == Identity(userID, key)
  }

  lemma OneOwner(db: Db, key: Key, u: nat, v: nat)
    requires Valid(db) && OwnedBy(db, key, u) && OwnedBy(db, key, v)
    ensures u == v
  {
  }

  /** The owner FindByProvider reads; None when no row matches. */
  ghost function Owner(db: Db, key: Key): (owner: Option<nat>)
    ensures owner.Some? ==> OwnedBy(db, key, owner.value)
    ensures owner.None? <==> !KeyTaken(db, key)
  {
    if KeyTaken(db, key) then
      var r :| r in db.identities && db.identities[r].key == key;
      assert db.identities[r] == Identity(db.identities[r].userID, key);
      Some(db.identities[r].userID)
    else None
  }

  function RowsOf(db: Db, userID: nat): set<nat> {
    set r | r in db.identities && db.identities[r].userID == userID
  }

  /** A foreign fault of one call: it did nothing, or it was done and only the answer was lost. */
  datatype Fault = Fine | Broken | AnswerLost

  datatype Written = Done | AlreadyLinked | TxError | NotFound

  /** The answer the caller gets. */
  function Answer(fault: Fault, written: Written): Written {
    if fault.Fine? then written else TxError
  }

  /** CreateUserWithIdentity: both rows or neither; a conflict rolls back but uses up the numbers. */
  function CreateUserWithIdentity(db: Db, user: User, key: Key, fault: Fault): (Db, Written) {
    var numbered := db.(nextUser := db.nextUser + 1, nextRow := db.nextRow + 1);
    if fault.Broken? then (db, TxError)
    else if KeyTaken(db, key) then (numbered, Answer(fault, AlreadyLinked))
    else
      (numbered.(users := db.users[db.nextUser := user],
                 identities := db.identities[db.nextRow := Identity(db.nextUser, key)]), Answer(fault, Done))
  }

  /** CreateIdentity: the row is inserted unless a constraint stands against it. */
  function CreateIdentity(db: Db, userID: nat, key: Key, fault: Fault): (Db, Written) {
    var numbered := db.(nextRow := db.nextRow + 1);
    if fault.Broken? then (db, TxError)
    else if KeyTaken(db, key) then (numbered, Answer(fault, AlreadyLinked))
    else if ProviderTaken(db, userID, key.provider) || userID !in db.users then (numbered, TxError)
    else (numbered.(identities := db.identities[db.nextRow := Identity(userID, key)]), Answer(fault, Done))
  }

  /** DeleteByUserAndProvider. */
  function DeleteIdentity(db: Db, userID: nat, provider: string, fault: Fault): (Db, Written) {
    if fault.Broken? then (db, TxError)
    else if !ProviderTaken(db, userID, provider) then (db, Answer(fault, NotFound))
    else
      (db.(identities := map r | r in db.identities
             && !(db.identities[r].userID == userID && db.identities[r].key.provider == provider) :: db.identities[r]),
       Answer(fault, Done))
  }

  function UpdateUser(db: Db, userID: nat, user: User): Db {
    if userID in db.users then db.(users := db.users[userID := user]) else db
  }

  // ---- What the statements keep ----

  /** No row is lost or changes its owner. */
  ghost predicate Grows(db: Db, after: Db) {
    && db.users.Keys <= after.users.Keys
    && forall r | r in db.identities :: r in after.identities && after.identities[r] == db.identities[r]
  }

  lemma OwnersStay(db: Db, after: Db)
    requires Grows(db, after)
    ensures forall k, u | OwnedBy(db, k, u) :: OwnedBy(after, k, u)
  {
    forall k, u | OwnedBy(db, k, u)
      ensures OwnedBy(after, k, u)
    {
      var r :| r in db.identities && db.identities[r] == Identity(u, k);
      assert r in after.identities;
    }
  }

  lemma RowsStay(db: Db, after: Db, u: nat)
    requires Grows(db, after)
    ensures |RowsOf(after, u)| >= |RowsOf(db, u)|
  {
    var rows, rows' := RowsOf(db, u), RowsOf(after, u);
    assert rows' == rows + (rows' - rows);
  }

  lemma InsertKeeps(db: Db, users: map<nat, User>, nextUser: nat, row: Identity)
    requires Valid(db) && !KeyTaken(db, row.key) && !ProviderTaken(db, row.userID, row.key.provider)
    requires db.users.Keys <= users.Keys && row.userID in users && forall u | u in users :: u < nextUser
    ensures
      var after := Db(users, db.identities[db.nextRow := row], nextUser, db.nextRow + 1);
      Valid(after) && Grows(db, after)
  {
    assert db.nextRow !in db.identities;
    forall r | r in db.identities
      ensures Compatible(db.identities[r], row) && Compatible(row, db.identities[r])
    {
      assert db.identities[r].key != row.key;
    }
  }

  lemma CreateUserKeeps(db: Db, user: User, key: Key, fault: Fault)
    requires Valid(db)
    ensures
      var (after, written) := CreateUserWithIdentity(db, user, key, fault);
      && Valid(after) && Grows(db, after)
      && db.nextUser !in db.users
      && (written.Done? ==> db.nextUser in after.users)
      && (db.nextUser in after.users ==>
            OwnedBy(after, key, db.nextUser) && RowsOf(after, db.nextUser) == {db.nextRow})
  {
    var after := CreateUserWithIdentity(db, user, key, fault).0;
    if db.nextUser in after.users {
      InsertKeeps(db, after.users, after.nextUser, Identity(db.nextUser, key));
      assert db.nextRow in after.identities && after.identities[db.nextRow] == Identity(db.nextUser, key);
    }
  }

  lemma CreateIdentityKeeps(db: Db, userID: nat, key: Key, fault: Fault)
    requires Valid(db)
    ensures Valid(CreateIdentity(db, userID, key, fault).0) && Grows(db, CreateIdentity(db, userID, key, fault).0)
  {
    if CreateIdentity(db, userID, key, fault).0.identities != db.identities {
      InsertKeeps(db, db.users, db.nextUser, Identity(userID, key));
    }
  }

  /** A delete takes at most one row, and only its own user's. */
  lemma DeleteKeeps(db: Db, userID: nat, provider: string, fault: Fault)
    requires Valid(db)
    ensures
      var after := DeleteIdentity(db, userID, provider, fault).0;
      && Valid(after)
      && |RowsOf(after, userID)| >= |RowsOf(db, userID)| - 1
      && (forall u | u != userID :: RowsOf(after, u) == RowsOf(db, u))
      && (forall k, u | OwnedBy(db, k, u) && !(u == userID && k.provider == provider) :: OwnedBy(after, k, u))
  {
    var after := DeleteIdentity(db, userID, provider, fault).0;
    if after != db {
      var r :| r in db.identities && db.identities[r].userID == userID && db.identities[r].key.provider == provider;
      assert RowsOf(after, userID) == RowsOf(db, userID) - {r};
      forall k, u | OwnedBy(db, k, u) && !(u == userID && k.provider == provider)
        ensures OwnedBy(after, k, u)
      {
        var q :| q in db.identities && db.identities[q] == Identity(u, k);
        assert q in after.identities && after.identities[q] == Identity(u, k);
      }
    }
  }

  /** The constraint on user and provider makes a delete name one row. */
  lemma DeleteTakes(db: Db, r: nat, fault: Fault)
    requires Valid(db) && r in db.identities && !fault.Broken?
    ensures DeleteIdentity(db, db.identities[r].userID, db.identities[r].key.provider, fault)
         == (db.(identities := db.identities - {r}), Answer(fault, Done))
  {
    var row := db.identities[r];
    assert forall q | q in db.identities && q != r :: Compatible(db.identities[q], row);
    assert ProviderTaken(db, row.userID, row.key.provider);
    assert DeleteIdentity(db, row.userID, row.key.provider, fault).0.identities == db.identities - {r};
  }
}
