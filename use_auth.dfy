/**
 * `src/hooks/useAuth.tsx`: the component's `user` state over the auth
 * service, the ids and flags derived from it, and the wallet balance, which
 * folds the patient's transactions into credits minus debits.
 */
module UseAuth {
  import opened Wrappers
  import opened Seqs
  import opened Records
  import opened Database
  import opened Analytics
  import opened Auth

  /** `user?.type === 'patient' ? user.id : null`: the user's own id, not its `patientId` field. */
  function PatientIdOf(user: Option<User>): (r: Option<Id>)
    ensures r.Some? <==> user.Some? && user.value.userType == PatientUser
    ensures r.Some? ==> r.value == user.value.id
  {
    if user.Some? && user.value.userType == PatientUser then Some(user.value.id) else None
  }

  /** `user?.type === 'doctor' ? user.id : null`. */
  function DoctorIdOf(user: Option<User>): (r: Option<Id>)
    ensures r.Some? <==> user.Some? && user.value.userType == DoctorUser
    ensures r.Some? ==> r.value == user.value.id
  {
    if user.Some? && user.value.userType == DoctorUser then Some(user.value.id) else None
  }

  /** `user?.type === 'admin'`. */
  function IsAdmin(user: Option<User>): (b: bool)
    ensures b <==> user.Some? && user.value.userType == AdminUser
  {
    user.Some? && user.value.userType == AdminUser
  }

  /** At most one of the role-derived ids is present, and never for an admin. */
  lemma RolesExclusive(user: Option<User>)
    ensures !(PatientIdOf(user).Some? && DoctorIdOf(user).Some?)
    ensures IsAdmin(user) ==> PatientIdOf(user).None? && DoctorIdOf(user).None?
  {
  }

  /** One step of the `reduce`: credits add, every other type subtracts. */
  function Step(balance: real, t: Transaction): real
  {
    if t.txType == Credit then balance + t.amount else balance - t.amount
  }

  /** `transactions.reduce(step, balance)`, left to right. */
  function Fold(ts: seq<Transaction>, balance: real): real
  {
    if |ts| == 0 then balance else Fold(ts[1..], Step(balance, ts[0]))
  }

  /** What came in minus what went out. */
  function CreditsMinusDebits(ts: seq<Transaction>): real
  {
    SumOf(Filter(ts, IsCredit), Amount) - SumOf(Filter(ts, IsDebit), Amount)
  }

  /** The fold adds credits and subtracts debits, whatever the starting balance. */
  lemma {:induction false} FoldIsCreditsMinusDebits(ts: seq<Transaction>, balance: real)
    ensures Fold(ts, balance) == balance + CreditsMinusDebits(ts)
  {
    if |ts| > 0 {
      FoldIsCreditsMinusDebits(ts[1..], Step(balance, ts[0]));
      var c := if IsCredit(ts[0]) then [ts[0]] else [];
      var d := if IsDebit(ts[0]) then [ts[0]] else [];
      SumOfAppend(c, Filter(ts[1..], IsCredit), Amount);
      SumOfAppend(d, Filter(ts[1..], IsDebit), Amount);
    }
  }

  /** `getWalletBalance`: 0 unless a patient (with a non-empty id) is signed in. */
  function WalletBalance(patientId: Option<Id>, txs: seq<Transaction>): (b: real)
    ensures patientId.None? || patientId == Some("") ==> b == 0.0
    ensures patientId.Some? && patientId.value != "" ==>
      b == CreditsMinusDebits(TransactionsByPatient(txs, patientId.value))
  {
    if patientId.None? || patientId.value == "" then 0.0
    else
      var own := TransactionsByPatient(txs, patientId.value);
      FoldIsCreditsMinusDebits(own, 0.0);
      Fold(own, 0.0)
  }

  /** A new transaction of the patient's is the last of their transactions. */
  lemma PatientTransactionsAppend(txs: seq<Transaction>, t: Transaction, pid: Id)
    requires t.patientId == Some(pid)
    ensures TransactionsByPatient(txs + [t], pid) == TransactionsByPatient(txs, pid) + [t]
  {
    FilterAppend(txs, [t], (x: Transaction) => x.patientId == Some(pid));
  }

  /**
   * A new credit of `t.amount` raises the patient's balance by exactly that
   * much, and a new debit lowers it by exactly that much: nothing stops the
   * balance from going below zero.
   */
  lemma {:induction false} BalanceAfterAppend(pid: Id, txs: seq<Transaction>, t: Transaction)
    requires pid != "" && t.patientId == Some(pid)
    ensures t.txType == Credit ==> WalletBalance(Some(pid), txs + [t]) == WalletBalance(Some(pid), txs) + t.amount
    ensures t.txType == Debit ==> WalletBalance(Some(pid), txs + [t]) == WalletBalance(Some(pid), txs) - t.amount
  {
    var own := TransactionsByPatient(txs, pid);
    PatientTransactionsAppend(txs, t, pid);
    FilterAppend(own, [t], IsCredit);
    FilterAppend(own, [t], IsDebit);
    SumOfAppend(Filter(own, IsCredit), Filter([t], IsCredit), Amount);
    SumOfAppend(Filter(own, IsDebit), Filter([t], IsDebit), Amount);
  }

  /** The hook's state: the `user` React keeps for the component. */
  class AuthHook {
    const auth: AuthService
    var user: Option<User>

    /** The first render: `useState(null)`. */
    constructor (auth: AuthService)
      ensures this.auth == auth && user == None
    {
      this.auth := auth;
      user := None;
    }

    /** The mount effect: takes whatever `getCurrentUser` restores. */
    method Mount()
      modifies this`user, auth`currentUser
      ensures auth.currentUser == Restored(old(auth.currentUser), auth.session)
      ensures user == auth.currentUser
    {
      user := auth.GetCurrentUser();
    }

    /** `login`: the hook's user becomes the service's answer, null on failure. */
    method Login(email: string, password: string) returns (r: Option<User>)
      modifies this`user, auth`currentUser, auth`session
      ensures r == LoginMatch(auth.db.users, email, password)
      ensures user == r
      ensures r.Some? ==> auth.currentUser == r && auth.session == r
      ensures r.None? ==> auth.currentUser == old(auth.currentUser) && auth.session == old(auth.session)
    {
      r := auth.Login(email, password);
      user := r;
    }

    /** `register`: the hook's user becomes the new user, or null when the e-mail is taken. */
    method Register(u: User, newId: Id) returns (r: Option<User>)
      requires FreshKey(auth.db.users, UserKey, newId)
      modifies this`user, auth.db`users, auth`currentUser, auth`session
      ensures user == r
      ensures UserByEmail(old(auth.db.users), u.email).Some? ==>
        r == None && auth.db.users == old(auth.db.users)
        && auth.currentUser == old(auth.currentUser) && auth.session == old(auth.session)
      ensures UserByEmail(old(auth.db.users), u.email).None? ==>
        r == Some(u.(id := newId)) && auth.db.users == old(auth.db.users) + [r.value]
        && auth.currentUser == r && auth.session == r
    {
      r := auth.Register(u, newId);
      user := r;
    }

    /** `logout`: after it nobody is signed in, here or in the service. */
    method Logout()
      modifies this`user, auth`currentUser, auth`session
      ensures user == None && auth.currentUser == None && auth.session == None
      ensures !IsAuthenticated() && UserRole() == None
    {
      auth.Logout();
      user := None;
    }

    /** `!!user`: someone is signed in exactly when the hook has a role to report. */
    function IsAuthenticated(): (signedIn: bool)
      reads this
      ensures signedIn <==> user.Some?
      ensures signedIn <==> UserRole().Some?
    {
      user.Some?
    }

    /** `user?.type || null`. */
    function UserRole(): (r: Option<UserType>)
      reads this
      ensures r.Some? <==> user.Some?
      ensures r.Some? ==> r.value == user.value.userType
    {
      if user.Some? then Some(user.value.userType) else None
    }

    /** `getWalletBalance()` for the hook's user over the stored transactions. */
    function GetWalletBalance(): (balance: real)
      reads this, auth, auth.db
      ensures PatientIdOf(user).None? ==> balance == 0.0
      ensures user.Some? && user.value.userType == PatientUser && user.value.id != "" ==>
        balance == CreditsMinusDebits(TransactionsByPatient(auth.db.transactions, user.value.id))
    {
      WalletBalance(PatientIdOf(user), auth.db.transactions)
    }
  }
}
