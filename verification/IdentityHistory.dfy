/** The identity service as a machine that answers one call after another, and what every run of it
    says about sessions and accounts.

    Runs start from any store whose accounts are older than verification and linking: none pending,
    no codes, sessions or links yet. Clock readings do not decrease from one call to the next. A
    sign-in acts on an account it has read before its transaction, at any earlier moment of the
    run, and a Google sign-in says which of its lookups missed a row that was there by the time it
    wrote. The service itself never disables an account; an operator may, and may undo it. */
module IdentityHistory {
  import opened ConnectorTypes
  import opened IdentityStore
  import opened IdentitySpec
  import opened IdentityProofs

  datatype Call =
    | RegisterCall(email: string, password: string, valid: bool, code: string)
    | LoginCall(seen: Option<(nat, User)>, password: string, code: string)
    | VerifyEmailCall(ticket: Secret, digits: string)
    | ResendCall(ticket: Secret, code: string)
    | RefreshCall(token: Secret)
    | LogoutCall(token: Secret)
    | GoogleCall(subject: string, email: string, missed: Missed)   // one attempt
    | OperatorCall(user: nat, enable: bool)                        // an operator edits the status

  datatype Event = Event(call: Call, now: Time)

  /** Nothing in the service disables accounts; an operator may, and may take it back. */
  function SetStatus(s: Store, u: nat, enable: bool): Store {
    if u !in s.users || s.users[u].status.Pending? then s
    else SetUser(s, u, s.users[u].(status := if enable then Active else Disabled))
  }

  ghost function Step(c: Config, s: Store, e: Event): Outcome {
    match e.call
    case RegisterCall(email, password, valid, code) => Register(s, email, password, valid, code, e.now)
    case LoginCall(seen, password, code) => Login(c, s, seen, password, code, e.now)
    case VerifyEmailCall(ticket, digits) => VerifyEmail(c, s, ticket, digits, e.now)
    case ResendCall(ticket, code) => ResendVerification(s, ticket, code, e.now)
    case RefreshCall(token) => RefreshSession(c, s, token, e.now)
    case LogoutCall(token) => Logout(s, token, e.now)
    case GoogleCall(subject, email, missed) => GoogleAttempt(c, s, subject, email, missed, e.now)
    case OperatorCall(u, enable) => Answer(SetStatus(s, u, enable), Edited)
  }

  /** What the call needs of the world: a clock that does not run backwards, and an account read
      that was true at some time. */
  ghost predicate Fair(s: Store, e: Event) {
    && (forall u :: u in s.verifications ==> s.verifications[u].createdAt <= e.now)
    && (e.call.LoginCall? ==> SeenBefore(s, e.call.seen))
  }

  lemma StatusKeeps(c: Config, s: Store, u: nat, enable: bool)
    requires Inv(c, s)
    ensures Inv(c, SetStatus(s, u, enable)) && Later(s, SetStatus(s, u, enable))
  {
    LaterRefl(s);
    hide Inv, Later;
    if u in s.users && !s.users[u].status.Pending? {
      UserWriteKeeps(c, s, u, s.users[u].(status := if enable then Active else Disabled));
    }
  }

  lemma StepKeeps(c: Config, s: Store, e: Event)
    requires Inv(c, s) && Fair(s, e)
    ensures Inv(c, Step(c, s, e).store) && Later(s, Step(c, s, e).store)
  {
    hide Inv, Later, Register, Login, VerifyEmail, ResendVerification, RefreshSession, Logout, GoogleAttempt, SetStatus;
    match e.call
    case RegisterCall(email, password, valid, code) => RegisterKeeps(c, s, email, password, valid, code, e.now);
    case LoginCall(seen, password, code) => LoginKeeps(c, s, seen, password, code, e.now);
    case VerifyEmailCall(ticket, digits) => VerifyKeeps(c, s, ticket, digits, e.now);
    case ResendCall(ticket, code) => ResendKeeps(c, s, ticket, code, e.now);
    case RefreshCall(token) => RefreshKeeps(c, s, token, e.now);
    case LogoutCall(token) => LogoutKeeps(c, s, token, e.now);
    case GoogleCall(subject, email, missed) => GoogleKeeps(c, s, subject, email, missed, e.now);
    case OperatorCall(u, enable) => StatusKeeps(c, s, u, enable);
  }

  // ---------------------------------------------------------------- runs

  /** A run: where it starts, what is called. */
  datatype Run = Run(start: Store, events: seq<Event>)

  ghost function StateAt(c: Config, r: Run, i: nat): Store
    requires i <= |r.events|
  {
    if i == 0 then r.start else Step(c, StateAt(c, r, i - 1), r.events[i - 1]).store
  }

  ghost function OutcomeAt(c: Config, r: Run, i: nat): Outcome
    requires i < |r.events|
  {
    Step(c, StateAt(c, r, i), r.events[i])
  }

  /** The account as some earlier moment of the run shows it. */
  ghost predicate ReadEarlier(c: Config, r: Run, i: nat, seen: Option<(nat, User)>)
    requires i <= |r.events|
  {
    seen.Some? ==> exists k :: 0 <= k <= i && seen.value.0 in StateAt(c, r, k).users && seen.value.1 == StateAt(c, r, k).users[seen.value.0]
  }

  /** Clocks do not run backwards, and sign-ins act on accounts they have read, however long ago. */
  ghost predicate Honest(c: Config, r: Run) {
    && Initial(r.start)
    && (forall i, j :: 0 <= i <= j < |r.events| ==> r.events[i].now <= r.events[j].now)
    && (forall i :: 0 <= i < |r.events| && r.events[i].call.LoginCall? ==> ReadEarlier(c, r, i, r.events[i].call.seen))
  }

  /** The invariant of a run: rows are sound and no code was mailed in the future. */
  ghost predicate Good(c: Config, r: Run, i: nat)
    requires i <= |r.events|
  {
    && Inv(c, StateAt(c, r, i))
    && (i < |r.events| ==>
         forall u :: u in StateAt(c, r, i).verifications ==> StateAt(c, r, i).verifications[u].createdAt <= r.events[i].now)
    && (i > 0 ==> forall u :: u in StateAt(c, r, i).verifications ==> StateAt(c, r, i).verifications[u].createdAt <= r.events[i - 1].now)
  }

  /** Every call leaves rows whose codes were mailed by now. */
  lemma CodesAreNotAhead(c: Config, s: Store, e: Event)
    requires forall u :: u in s.verifications ==> s.verifications[u].createdAt <= e.now
    ensures forall u :: u in Step(c, s, e).store.verifications ==> Step(c, s, e).store.verifications[u].createdAt <= e.now
  {
    hide RefreshSession, Logout, GoogleAttempt, VerifyEmail, ResendVerification, Register, Login;
    match e.call
    case RegisterCall(email, password, valid, code) => RegisterRows(s, email, password, valid, code, e.now);
    case LoginCall(seen, password, code) => LoginRows(c, s, seen, password, code, e.now);
    case VerifyEmailCall(ticket, digits) => VerifyRows(c, s, ticket, digits, e.now);
    case ResendCall(ticket, code) => ResendRows(s, ticket, code, e.now);
    case RefreshCall(token) => RefreshRows(c, s, token, e.now);
    case LogoutCall(token) => LogoutRows(s, token, e.now);
    case GoogleCall(subject, email, missed) => GoogleRows(c, s, subject, email, missed, e.now);
    case OperatorCall(u, enable) =>
  }

  // ---------------------------------------------------------------- what one call can do to a verification row

  predicate Same(s: Store, t: Store, u: nat) {
    (u in s.verifications <==> u in t.verifications) && (u in s.verifications ==> t.verifications[u] == s.verifications[u])
  }

  /** A wrong code was committed against this account's row. */
  predicate Guessed(s: Store, t: Store, e: Event, u: nat) {
    && e.call.VerifyEmailCall? && u in s.verifications && u in t.verifications
    && s.verifications[u].ticketHash == Sha256(e.call.ticket) && s.verifications[u].codeHash != Sha256(Code(e.call.digits))
    && e.now < s.verifications[u].expiresAt && s.verifications[u].attempts < MAX_ATTEMPTS
    && t.verifications[u] == s.verifications[u].(attempts := s.verifications[u].attempts + 1)
  }

  /** A new ticket for the code already mailed. */
  predicate Reticketed(s: Store, t: Store, e: Event, u: nat) {
    && u in s.verifications && u in t.verifications && e.now - s.verifications[u].createdAt < RESEND_INTERVAL
    && t.verifications[u].codeHash == s.verifications[u].codeHash && t.verifications[u].createdAt == s.verifications[u].createdAt
    && t.verifications[u].attempts == s.verifications[u].attempts
  }

  /** A new code was mailed: the account's first, or at least thirty seconds after the last. */
  predicate Mailed(s: Store, t: Store, e: Event, u: nat) {
    && u in t.verifications && t.verifications[u].attempts == 0 && t.verifications[u].createdAt == e.now
    && (u in s.verifications ==> e.now - s.verifications[u].createdAt >= RESEND_INTERVAL || s.verifications[u].expiresAt <= e.now)
  }

  predicate Dropped(t: Store, u: nat) { u !in t.verifications && u in t.users && !t.users[u].status.Pending? }

  predicate RowStep(s: Store, t: Store, e: Event, u: nat) {
    Same(s, t, u) || Guessed(s, t, e, u) || Reticketed(s, t, e, u) || Mailed(s, t, e, u) || Dropped(t, u)
  }

  lemma RegisterRows(s: Store, email: string, password: string, valid: bool, code: string, now: Time)
    ensures var t := Register(s, email, password, valid, code, now).store;
      forall u :: u in t.verifications ==> (u in s.verifications && t.verifications[u] == s.verifications[u]) || t.verifications[u].createdAt == now
  {
    hide UserByEmail;
  }

  lemma LoginRows(c: Config, s: Store, seen: Option<(nat, User)>, password: string, code: string, now: Time)
    requires forall u :: u in s.verifications ==> s.verifications[u].createdAt <= now
    ensures forall u :: u in Login(c, s, seen, password, code, now).store.verifications ==>
      Login(c, s, seen, password, code, now).store.verifications[u].createdAt <= now
  {
  }

  lemma VerifyRows(c: Config, s: Store, ticket: Secret, digits: string, now: Time)
    ensures var t := VerifyEmail(c, s, ticket, digits, now).store;
      forall u :: u in t.verifications ==> u in s.verifications && t.verifications[u].createdAt == s.verifications[u].createdAt
  {
    hide ByTicket;
  }

  lemma ResendRows(s: Store, ticket: Secret, code: string, now: Time)
    ensures var t := ResendVerification(s, ticket, code, now).store;
      forall u :: u in t.verifications ==> (u in s.verifications && t.verifications[u] == s.verifications[u]) || t.verifications[u].createdAt == now
  {
    hide ByTicket;
  }

  lemma RefreshRows(c: Config, s: Store, token: Secret, now: Time)
    ensures var t := RefreshSession(c, s, token, now).store; t.verifications == s.verifications && t.users == s.users && t.links == s.links
  {
  }

  lemma LogoutRows(s: Store, token: Secret, now: Time)
    ensures var t := Logout(s, token, now).store; t.verifications == s.verifications && t.users == s.users && t.links == s.links
  {
  }

  lemma GoogleRows(c: Config, s: Store, subject: string, email: string, missed: Missed, now: Time)
    ensures var t := GoogleAttempt(c, s, subject, email, missed, now).store;
      forall u :: u in t.verifications ==> u in s.verifications && t.verifications[u] == s.verifications[u]
    ensures var t := GoogleAttempt(c, s, subject, email, missed, now).store;
      forall u :: u in s.verifications && u !in t.verifications ==> Dropped(t, u)
  {
    hide UserByEmail, HasLink, GoogleLink, StartSession;
    StartRows(c);
    var found := UserByEmail(s.users, email);
    if found.Some? { LinkRows(c, s, found.value, subject, missed.ownLink, now); }
  }

  lemma StartRows(c: Config)
    ensures forall s, u, kind, now :: StartSession(c, s, u, kind, now).store.verifications == s.verifications
    ensures forall s, u, kind, now :: StartSession(c, s, u, kind, now).store.users == s.users
  {
  }

  lemma LinkRows(c: Config, s: Store, u: nat, subject: string, missedOwn: bool, now: Time)
    requires u in s.users
    ensures var t := GoogleLink(c, s, u, subject, missedOwn, now).store;
      forall v :: v in t.verifications ==> v in s.verifications && t.verifications[v] == s.verifications[v]
    ensures var t := GoogleLink(c, s, u, subject, missedOwn, now).store;
      forall v :: v in s.verifications && v !in t.verifications ==> Dropped(t, v)
  {
    hide HasLink, StartSession, ActivateFederated;
    StartRows(c);
    ActivationRows(s, u, now);
  }

  lemma ActivationRows(s: Store, u: nat, now: Time)
    requires u in s.users
    ensures var t := ActivateFederated(s, u, now);
      && (t.verifications == s.verifications || (t.verifications == s.verifications - {u} && Dropped(t, u)))
  {
  }

  // ---------------------------------------------------------------- states of an honest run

  lemma {:induction false} GoodAt(c: Config, r: Run, i: nat)
    requires Honest(c, r) && i <= |r.events|
    ensures Good(c, r, i)
    decreases i, 2
  {
    InitialIsOk(c, r.start);
    hide Inv, Step, Initial;
    if i > 0 {
      GoodAt(c, r, i - 1);
      FairAt(c, r, i - 1);
      StepKeeps(c, StateAt(c, r, i - 1), r.events[i - 1]);
      CodesAreNotAhead(c, StateAt(c, r, i - 1), r.events[i - 1]);
      if i < |r.events| { assert r.events[i - 1].now <= r.events[i].now; }
    } else {
      NoRows(r.start);
    }
  }

  lemma NoRows(s: Store)
    requires Initial(s)
    ensures s.verifications == map[]
  {
  }

  lemma {:induction false} FairAt(c: Config, r: Run, i: nat)
    requires Honest(c, r) && i < |r.events| && Good(c, r, i)
    ensures Fair(StateAt(c, r, i), r.events[i])
    decreases i, 1
  {
    hide Inv, Step, Initial;
    if r.events[i].call.LoginCall? && r.events[i].call.seen.Some? {
      var (u, user) := r.events[i].call.seen.value;
      var k :| 0 <= k <= i && u in StateAt(c, r, k).users && user == StateAt(c, r, k).users[u];
      hide StateAt;
      MovesForward(c, r, k, i);
    }
  }

  lemma {:induction false} MovesForward(c: Config, r: Run, i: nat, j: nat)
    requires Honest(c, r) && i <= j <= |r.events|
    ensures Later(StateAt(c, r, i), StateAt(c, r, j))
    decreases j, 0
  {
    hide Inv, Later, Step, Initial, Honest;
    LaterRefl(StateAt(c, r, i));
    if i < j {
      MovesForward(c, r, i, j - 1);
      GoodAt(c, r, j - 1);
      FairAt(c, r, j - 1);
      StepKeeps(c, StateAt(c, r, j - 1), r.events[j - 1]);
      LaterTrans(StateAt(c, r, i), StateAt(c, r, j - 1), StateAt(c, r, j));
    }
  }
}
