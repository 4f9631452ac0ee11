/** The admin session controller of src/context/AuthContext.jsx.

    The provider holds three state cells (`admin`, `token`, `loading`) and
    keeps two keys of the browser's persistent key-value store in step with
    them: `adminToken` (the raw bearer token) and `adminData` (the admin
    profile, serialised). It offers `login`, `logout` and, once at mount,
    the boot routine `loadAdmin` that asks the backend "who am I" with the
    stored token and adopts or discards the session.

    The store is a `map<string, string>`; the backend's answer to the one
    boot request is an input (`WhoAmI`), so boot is one deterministic step;
    `JSON.stringify` of a profile is an uninterpreted function supplied when
    the provider is created.

    The pure functions `Initial`, `Reconciled`, `LoggedIn` and `LoggedOut`
    give the meaning of each step on a `Session` value; the class
    `AuthProvider` performs the same steps by assignment and is proved to
    agree with them. */
module Auth {
  import opened Js

  /** The two keys of the persistent store the provider owns. */
  const TokenKey := "adminToken"
  const DataKey := "adminData"

  /** The admin profile the backend returns: a user name and whatever other
      fields the backend chooses to send. */
  datatype Admin = Admin(username: string, fields: map<string, string>)

  /** What the boot request `GET /api/auth/me` came to: a 2xx response whose
      body's `admin` field may be missing, a response with any other
      status, or a thrown error (network failure, unreadable body). */
  datatype WhoAmI = Ok(admin: Option<Admin>) | NotOk | Failed

  /** Everything the provider's operations read or write: the persistent
      store and the three state cells. */
  datatype Session = Session(
    store: map<string, string>,
    token: Option<string>,
    admin: Option<Admin>,
    loading: bool)

  /** The state right after mount: `token` is whatever `adminToken` holds
      (or null), no admin, and loading. */
  function Initial(store: map<string, string>): Session
  {
    Session(store, Get(store, TokenKey), None, true)
  }

  /** `logout`: remove both keys, null both cells; `loading` is not touched. */
  function LoggedOut(s: Session): (r: Session)
    ensures TokenKey !in r.store && DataKey !in r.store
    ensures forall k :: k != TokenKey && k != DataKey ==> Get(r.store, k) == Get(s.store, k)
    ensures r.token == None && r.admin == None
    ensures r.loading == s.loading
  {
    s.(store := s.store - {TokenKey, DataKey}, token := None, admin := None)
  }

  /** `login(t, a)`: store the token and the serialised profile under the two
      keys, set both cells; `loading` is not touched. */
  function LoggedIn(s: Session, t: string, a: Admin, serialize: Admin -> string): (r: Session)
    ensures Get(r.store, TokenKey) == Some(t)
    ensures Get(r.store, DataKey) == Some(serialize(a))
    ensures forall k :: k != TokenKey && k != DataKey ==> Get(r.store, k) == Get(s.store, k)
    ensures r.token == Some(t) && r.admin == Some(a)
    ensures r.loading == s.loading
  {
    s.(store := s.store[TokenKey := t][DataKey := serialize(a)], token := Some(t), admin := Some(a))
  }

  /** The bearer token boot sends, if it sends a request at all: only a
      truthy (present and non-empty) stored `adminToken` triggers one. */
  function BootRequest(store: map<string, string>): (r: Option<string>)
    ensures r.Some? <==> Truthy(Get(store, TokenKey))
    ensures r.Some? ==> r == Get(store, TokenKey)
  {
    var stored := Get(store, TokenKey);
    if Truthy(stored) then stored else None
  }

  /** `loadAdmin`: with no stored token nothing changes but `loading`; with
      one, a 2xx answer adopts the answer's admin and the stored token, and
      any other answer or a thrown error does exactly what `logout` does.
      Either way `loading` ends false. */
  function Reconciled(s: Session, outcome: WhoAmI): (r: Session)
    ensures !r.loading
  {
    var request := BootRequest(s.store);
    var settled :=
      if request.None? then s
      else match outcome
        case Ok(a) => s.(admin := a, token := request)
        case NotOk => LoggedOut(s)
        case Failed => LoggedOut(s);
    settled.(loading := false)
  }

  /** The consistency a settled session keeps: boot is over, the `token`
      cell mirrors the stored `adminToken`, and an admin is present exactly
      when the token is truthy. */
  ghost predicate Settled(s: Session)
  {
    && !s.loading
    && s.token == Get(s.store, TokenKey)
    && (s.admin.Some? <==> Truthy(s.token))
  }

  /** Boot with no usable stored token makes no request, ignores any answer,
      and leaves the token cell as read at mount and the admin null. */
  lemma BootWithoutToken(store: map<string, string>, outcome: WhoAmI)
    requires !Truthy(Get(store, TokenKey))
    ensures BootRequest(store) == None
    ensures Reconciled(Initial(store), outcome) == Session(store, Get(store, TokenKey), None, false)
  {
  }

  /** Boot with a stored token and a 2xx answer: the admin comes from the
      answer, the token is the stored one, and the store is left alone. */
  lemma BootAccepted(store: map<string, string>, admin: Option<Admin>)
    requires Truthy(Get(store, TokenKey))
    ensures BootRequest(store) == Some(store[TokenKey])
    ensures Reconciled(Initial(store), Ok(admin)) == Session(store, Some(store[TokenKey]), admin, false)
  {
  }

  /** Fail closed: a stored token that the backend rejects, or a request
      that throws, ends in the `logout` state with both keys gone. */
  lemma BootFailClosed(s: Session, outcome: WhoAmI)
    requires Truthy(Get(s.store, TokenKey))
    requires !outcome.Ok?
    ensures Reconciled(s, outcome) == LoggedOut(s).(loading := false)
    ensures TokenKey !in Reconciled(s, outcome).store && DataKey !in Reconciled(s, outcome).store
    ensures Reconciled(s, outcome).token == None && Reconciled(s, outcome).admin == None
  {
  }

  /** The cached `adminData` plays no part in boot: whatever it holds, the
      resulting cells are the same. */
  lemma BootIgnoresCachedProfile(store: map<string, string>, cached: string, outcome: WhoAmI)
    ensures var r1 := Reconciled(Initial(store[DataKey := cached]), outcome);
            var r2 := Reconciled(Initial(store), outcome);
            r1.token == r2.token && r1.admin == r2.admin && r1.loading == r2.loading
  {
    assert Get(store[DataKey := cached], TokenKey) == Get(store, TokenKey);
  }

  /** While loading, a stored token sits beside a null admin: the
      consistency of `Settled` holds only once boot is over. */
  lemma LoadingWindow(store: map<string, string>)
    requires Truthy(Get(store, TokenKey))
    ensures Initial(store).loading
    ensures Truthy(Initial(store).token) && Initial(store).admin == None
  {
  }

  /** After boot the session is settled, provided a 2xx answer carries an
      admin. */
  lemma BootSettles(store: map<string, string>, outcome: WhoAmI)
    requires outcome.Ok? ==> outcome.admin.Some?
    ensures Settled(Reconciled(Initial(store), outcome))
  {
  }

  /** Logging out twice is the same as logging out once. */
  lemma LogoutIdempotent(s: Session)
    ensures LoggedOut(LoggedOut(s)) == LoggedOut(s)
  {
    assert LoggedOut(LoggedOut(s)).store == LoggedOut(s).store;
  }

  /** Logging out undoes a login completely: whatever `login(t, a)` wrote
      to the store and the cells, a following `logout` leaves the same
      session as logging out without it. */
  lemma LoginThenLogout(s: Session, t: string, a: Admin, serialize: Admin -> string)
    ensures LoggedOut(LoggedIn(s, t, a, serialize)) == LoggedOut(s)
  {
    assert LoggedOut(LoggedIn(s, t, a, serialize)).store == LoggedOut(s).store;
  }

  /** The operations a consumer may invoke once boot has settled. */
  datatype Op = Login(t: string, a: Admin) | Logout

  function Apply(s: Session, op: Op, serialize: Admin -> string): Session
  {
    match op
    case Login(t, a) => LoggedIn(s, t, a, serialize)
    case Logout => LoggedOut(s)
  }

  /** The session after running `ops` in order from `s`. */
  function Run(s: Session, ops: seq<Op>, serialize: Admin -> string): Session
    decreases |ops|
  {
    if ops == [] then s else Run(Apply(s, ops[0], serialize), ops[1..], serialize)
  }

  /** Every sequence of `login`/`logout` calls after boot keeps the session
      settled, provided each login hands over a non-empty token; `loading`
      never comes back. */
  lemma {:induction false} RunKeepsSettled(s: Session, ops: seq<Op>, serialize: Admin -> string)
    requires Settled(s)
    requires forall i :: 0 <= i < |ops| && ops[i].Login? ==> ops[i].t != ""
    ensures Settled(Run(s, ops, serialize))
    decreases |ops|
  {
    if ops != [] {
      var next := Apply(s, ops[0], serialize);
      assert Settled(next);
      RunKeepsSettled(next, ops[1..], serialize);
    }
  }

  /** From mount, through boot, through any consumer calls: the session is
      settled at the end, under the same provisos. */
  lemma ReachableSessionsAreSettled(store: map<string, string>, outcome: WhoAmI, ops: seq<Op>, serialize: Admin -> string)
    requires outcome.Ok? ==> outcome.admin.Some?
    requires forall i :: 0 <= i < |ops| && ops[i].Login? ==> ops[i].t != ""
    ensures Settled(Run(Reconciled(Initial(store), outcome), ops, serialize))
  {
    BootSettles(store, outcome);
    RunKeepsSettled(Reconciled(Initial(store), outcome), ops, serialize);
  }

  /** The provider: the three state cells and the persistent store, updated
      in place by its three operations. */
  class AuthProvider {
    const serialize: Admin -> string
    var store: map<string, string>
    var token: Option<string>
    var admin: Option<Admin>
    var loading: bool

    /** The provider's current state as a value. */
    function State(): Session
      reads this
    {
      Session(store, token, admin, loading)
    }

    /** Mounting: `admin` null, `token` read from the store, `loading` true. */
    constructor (store: map<string, string>, serialize: Admin -> string)
      ensures State() == Initial(store)
      ensures this.serialize == serialize
    {
      this.serialize := serialize;
      this.store := store;
      admin := None;
      token := Get(store, TokenKey);
      loading := true;
    }

    /** `loadAdmin`. Returns the bearer token of the request it sent, or
        `None` when it sent none (and then `outcome` is not consulted). */
    method LoadAdmin(outcome: WhoAmI) returns (request: Option<string>)
      modifies this
      ensures request == BootRequest(old(store))
      ensures State() == Reconciled(old(State()), outcome)
    {
      var storedToken := Get(store, TokenKey);
      request := None;
      if Truthy(storedToken) {
        request := storedToken;
        match outcome {
          case Ok(a) =>
            admin := a;
            token := storedToken;
          case NotOk =>
            Logout();
          case Failed =>
            Logout();
        }
      }
      loading := false;
    }

    /** `login(t, a)`. */
    method Login(t: string, a: Admin)
      modifies this
      ensures State() == LoggedIn(old(State()), t, a, serialize)
    {
      store := store[TokenKey := t];
      store := store[DataKey := serialize(a)];
      token := Some(t);
      admin := Some(a);
    }

    /** `logout`. */
    method Logout()
      modifies this
      ensures State() == LoggedOut(old(State()))
    {
      store := store - {TokenKey};
      store := store - {DataKey};
      token := None;
      admin := None;
    }
  }
}
