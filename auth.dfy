/**
 * `src/services/auth.ts`: the module-level `currentUser` and its mirror in
 * the session slot (`sessionStorage['currentUser']`), moved by login,
 * register and logout over the record store.
 */
module Auth {
  import opened Wrappers
  import opened Seqs
  import opened Records
  import opened Database

  /** `getCurrentUser`'s rule: the user in memory, or else the one saved in the session. */
  function Restored(inMemory: Option<User>, saved: Option<User>): (r: Option<User>)
    ensures inMemory.Some? ==> r == inMemory
    ensures inMemory.None? ==> r == saved
  {
    if inMemory.Some? then inMemory else saved
  }

  class AuthService {
    const db: Store
    var currentUser: Option<User>
    /** The session slot; `None` when the key is absent. */
    var session: Option<User>

    /** A fresh page: nothing in memory, the session slot as the tab left it. */
    constructor (db: Store, session: Option<User>)
      ensures this.db == db && currentUser == None && this.session == session
    {
      this.db := db;
      currentUser := None;
      this.session := session;
    }

    /** `login`: on a match the user becomes current and is saved; otherwise nothing changes. */
    method Login(email: string, password: string) returns (r: Option<User>)
      modifies this`currentUser, this`session
      ensures r == LoginMatch(db.users, email, password)
      ensures r.Some? ==> currentUser == r && session == r
      ensures r.None? ==> currentUser == old(currentUser) && session == old(session)
    {
      r := LoginMatch(db.users, email, password);
      if r.Some? {
        currentUser := r;
        session := r;
      }
    }

    /**
     * `register`: refused (and nothing written) when the e-mail is taken;
     * otherwise the user is stored under a fresh id and becomes current.
     */
    method Register(u: User, newId: Id) returns (r: Option<User>)
      requires FreshKey(db.users, UserKey, newId)
      modifies db`users, this`currentUser, this`session
      ensures UserByEmail(old(db.users), u.email).Some? ==>
        r == None && db.users == old(db.users)
        && currentUser == old(currentUser) && session == old(session)
      ensures UserByEmail(old(db.users), u.email).None? ==>
        r == Some(u.(id := newId)) && db.users == old(db.users) + [r.value]
        && currentUser == r && session == r
    {
      var existing := UserByEmail(db.users, u.email);
      if existing.Some? {
        return None;
      }
      var created := db.RegisterUser(u, newId);
      currentUser := Some(created);
      session := Some(created);
      r := Some(created);
    }

    /** `logout`: forgets the user in memory and clears the session slot. */
    method Logout()
      modifies this`currentUser, this`session
      ensures currentUser == None && session == None
    {
      currentUser := None;
      session := None;
    }

    /** `getCurrentUser`: restores from the session only when nothing is in memory. */
    method GetCurrentUser() returns (r: Option<User>)
      modifies this`currentUser
      ensures currentUser == Restored(old(currentUser), session)
      ensures r == currentUser
    {
      if currentUser.None? && session.Some? {
        currentUser := session;
      }
      r := currentUser;
    }

    /** `isAuthenticated`: some user is current once the session has been consulted. */
    method IsAuthenticated() returns (b: bool)
      modifies this`currentUser
      ensures currentUser == Restored(old(currentUser), session)
      ensures b <==> currentUser.Some?
    {
      var u := GetCurrentUser();
      b := u.Some?;
    }

    /** `getUserRole`: the current user's type, or null when nobody is signed in. */
    method GetUserRole() returns (role: Option<UserType>)
      modifies this`currentUser
      ensures currentUser == Restored(old(currentUser), session)
      ensures role.Some? <==> currentUser.Some?
      ensures role.Some? ==> role.value == currentUser.value.userType
    {
      var u := GetCurrentUser();
      role := if u.Some? then Some(u.value.userType) else None;
    }

    /** `getUserTransactions`: the patient's transactions from the store. */
    method GetUserTransactions(userId: Id) returns (ts: seq<Transaction>)
      ensures ts == TransactionsByPatient(db.transactions, userId)
    {
      ts := TransactionsByPatient(db.transactions, userId);
    }
  }

  /**
   * Register, then log in with the same credentials: since no earlier user
   * had the e-mail, the log-in finds exactly the user just registered.
   */
  lemma RegisterThenLogin(users: seq<User>, u: User, newId: Id)
    requires UserByEmail(users, u.email).None?
    ensures LoginMatch(users + [u.(id := newId)], u.email, u.password) == Some(u.(id := newId))
  {
    var all := users + [u.(id := newId)];
    assert all[|users|] == u.(id := newId);
    forall j | 0 <= j < |users| ensures all[j].email != u.email {
      assert all[j] == users[j];
    }
  }
}
