/** Sessions and refresh credentials over whole runs of the identity service. */
module SessionRuns {
  import opened ConnectorTypes
  import opened IdentityStore
  import opened IdentitySpec
  import opened IdentityHistory

  // ---------------------------------------------------------------- which calls touch sessions

  predicate EndsSession(s: Store, o: Outcome, sid: nat) {
    sid in s.sessions && s.sessions[sid].revokedAt.None? && sid in o.store.sessions && o.store.sessions[sid].revokedAt.Some?
  }

  predicate Tells(s: Store, o: Outcome, sid: nat) {
    sid in s.sessions && o.announced.Some? && o.announced.value.sessionID == sid && o.announced.value.userID == s.sessions[sid].userID
  }

  /** An outcome announces exactly the session it ended, if any. */
  ghost predicate AnnouncesExactly(s: Store, o: Outcome) {
    && (forall sid :: EndsSession(s, o, sid) <==> Tells(s, o, sid))
    && (o.announced.Some? ==> o.announced.value.sessionID in s.sessions)
  }

  lemma RefreshAnnounces(c: Config, s: Store, token: Secret, now: Time)
    ensures AnnouncesExactly(s, RefreshSession(c, s, token, now))
  {
  }

  lemma LogoutAnnounces(s: Store, token: Secret, now: Time)
    ensures AnnouncesExactly(s, Logout(s, token, now))
  {
  }

  /** All other calls leave existing sessions and refresh credentials as they are. */
  ghost predicate Untouched(s: Store, o: Outcome) {
    && o.announced.None?
    && (forall sid :: sid in s.sessions ==> sid in o.store.sessions && o.store.sessions[sid] == s.sessions[sid])
    && (forall h :: h in s.refreshes ==> h in o.store.refreshes && o.store.refreshes[h] == s.refreshes[h])
  }

  /** Starting a session after other writes leaves sessions alone as well. */
  lemma StartAfter(c: Config, s: Store, m: Store, u: nat, kind: string, now: Time)
    requires SessionsOk(c, s) && m.sessions == s.sessions && m.refreshes == s.refreshes && s.next <= m.next
    ensures Untouched(s, StartSession(c, m, u, kind, now))
  {
  }

  lemma ReturningTouchesNone(c: Config, s: Store, subject: string, now: Time)
    requires SessionsOk(c, s) && subject in s.links
    ensures Untouched(s, GoogleReturning(c, s, subject, now))
  {
    hide SessionsOk, StartSession;
    var touched := s.(links := s.links[subject := s.links[subject].(lastAuthenticatedAt := now)]);
    StartAfter(c, s, touched, s.links[subject].userID, "auth.google_signin_succeeded", now);
  }

  lemma NewTouchesNone(c: Config, s: Store, subject: string, email: string, now: Time)
    requires SessionsOk(c, s)
    ensures Untouched(s, GoogleNew(c, s, subject, email, now))
  {
    hide SessionsOk, StartSession, UserByEmail;
    var user := User(email, None, Active, Some(now), now);
    var created := SetUser(s, s.next, user).(links := s.links[subject := Link(s.next, now, now)], next := s.next + 1);
    StartAfter(c, s, created, s.next, "auth.google_account_created", now);
  }

  lemma LinkTouchesNone(c: Config, s: Store, u: nat, subject: string, missedOwn: bool, now: Time)
    requires SessionsOk(c, s) && u in s.users
    ensures Untouched(s, GoogleLink(c, s, u, subject, missedOwn, now))
  {
    hide SessionsOk, StartSession, HasLink, ActivateFederated;
    var t := ActivateFederated(s, u, now);
    ActivationTouchesNone(s, u, now);
    StartAfter(c, s, t.(links := t.links[subject := Link(u, now, now)]), u, "auth.google_identity_linked", now);
  }

  lemma ActivationTouchesNone(s: Store, u: nat, now: Time)
    requires u in s.users
    ensures var t := ActivateFederated(s, u, now); t.sessions == s.sessions && t.refreshes == s.refreshes && t.next == s.next
  {
  }

  lemma GoogleTouchesNone(c: Config, s: Store, subject: string, email: string, missed: Missed, now: Time)
    requires SessionsOk(c, s)
    ensures Untouched(s, GoogleAttempt(c, s, subject, email, missed, now))
  {
    hide Untouched, SessionsOk, GoogleReturning, GoogleNew, GoogleLink, UserByEmail;
    if subject in s.links { ReturningTouchesNone(c, s, subject, now); }
    NewTouchesNone(c, s, subject, email, now);
    var found := UserByEmail(s.users, email);
    if found.Some? { LinkTouchesNone(c, s, found.value, subject, missed.ownLink, now); }
  }

  lemma OthersTouchNone(c: Config, s: Store, e: Event)
    requires Inv(c, s) && !e.call.RefreshCall? && !e.call.LogoutCall?
    ensures Untouched(s, Step(c, s, e))
  {
    hide OneUnused, LinksOk, VerificationsOk, TicketsUnique, UsersOk, Register, Login, VerifyEmail, ResendVerification, GoogleAttempt;
    match e.call
    case RegisterCall(email, password, valid, code) => RegisterTouchesNone(s, email, password, valid, code, e.now);
    case LoginCall(seen, password, code) => LoginTouchesNone(c, s, seen, password, code, e.now);
    case VerifyEmailCall(ticket, digits) => VerifyTouchesNone(c, s, ticket, digits, e.now);
    case ResendCall(ticket, code) => ResendTouchesNone(s, ticket, code, e.now);
    case GoogleCall(subject, email, missed) => GoogleTouchesNone(c, s, subject, email, missed, e.now);
    case OperatorCall(_, _) =>
  }

  lemma RegisterTouchesNone(s: Store, email: string, password: string, valid: bool, code: string, now: Time)
    ensures Untouched(s, Register(s, email, password, valid, code, now))
  {
    hide UserByEmail;
  }

  lemma LoginTouchesNone(c: Config, s: Store, seen: Option<(nat, User)>, password: string, code: string, now: Time)
    requires SessionsOk(c, s)
    ensures Untouched(s, Login(c, s, seen, password, code, now))
  {
    hide Reissued;
  }

  lemma VerifyTouchesNone(c: Config, s: Store, ticket: Secret, digits: string, now: Time)
    requires SessionsOk(c, s)
    ensures Untouched(s, VerifyEmail(c, s, ticket, digits, now))
  {
    hide ByTicket;
  }

  lemma ResendTouchesNone(s: Store, ticket: Secret, code: string, now: Time)
    ensures Untouched(s, ResendVerification(s, ticket, code, now))
  {
    hide ByTicket;
  }

  lemma StepAnnounces(c: Config, s: Store, e: Event)
    requires Inv(c, s)
    ensures AnnouncesExactly(s, Step(c, s, e))
  {
    hide Inv, RefreshSession, Logout, AnnouncesExactly, Register, Login, VerifyEmail, ResendVerification, GoogleAttempt, SetStatus;
    match e.call
    case RefreshCall(token) => RefreshAnnounces(c, s, token, e.now);
    case LogoutCall(token) => LogoutAnnounces(s, token, e.now);
    case _ =>
      OthersTouchNone(c, s, e);
      UntouchedAnnounces(s, Step(c, s, e));
  }

  lemma UntouchedAnnounces(s: Store, o: Outcome)
    requires Untouched(s, o)
    ensures AnnouncesExactly(s, o)
  {
  }

  /** An announcement names a session that exists, and the account it belongs to. */
  lemma StepTells(c: Config, s: Store, e: Event)
    requires Inv(c, s) && Step(c, s, e).announced.Some?
    ensures Tells(s, Step(c, s, e), Step(c, s, e).announced.value.sessionID)
  {
    if !e.call.RefreshCall? && !e.call.LogoutCall? { OthersTouchNone(c, s, e); }
    hide Inv, Register, Login, VerifyEmail, ResendVerification, GoogleAttempt;
  }

  // ---------------------------------------------------------------- theorems

  lemma ToldOfItsAccount(c: Config, r: Run, i: nat)
    requires Honest(c, r) && i < |r.events| && OutcomeAt(c, r, i).announced.Some?
    ensures Tells(StateAt(c, r, i), OutcomeAt(c, r, i), OutcomeAt(c, r, i).announced.value.sessionID)
  {
    hide Honest, Inv, Step, Tells;
    GoodAt(c, r, i);
    StepTells(c, StateAt(c, r, i), r.events[i]);
  }

  lemma SessionForward(c: Config, r: Run, i: nat, j: nat, sid: nat)
    requires Honest(c, r) && i <= j <= |r.events| && sid in StateAt(c, r, i).sessions
    ensures sid in StateAt(c, r, j).sessions && SessionLater(StateAt(c, r, i).sessions[sid], StateAt(c, r, j).sessions[sid])
  {
    hide StateAt, Honest, SessionLater;
    MovesForward(c, r, i, j);
  }

  lemma RefreshForward(c: Config, r: Run, i: nat, j: nat, h: Digest)
    requires Honest(c, r) && i <= j <= |r.events| && h in StateAt(c, r, i).refreshes
    ensures h in StateAt(c, r, j).refreshes && RefreshLater(StateAt(c, r, i).refreshes[h], StateAt(c, r, j).refreshes[h])
  {
    hide StateAt, Honest, RefreshLater;
    MovesForward(c, r, i, j);
  }

  /** At every moment of every run each session, revoked or not, has exactly one refresh credential
      that has not been used; it runs out with the session, whose access token can outlast it by
      less than one access lifetime. */
  lemma OneUnusedPerSession(c: Config, r: Run, n: nat, sid: nat)
    requires Honest(c, r) && n <= |r.events| && sid in StateAt(c, r, n).sessions
    ensures exists h :: Unused(StateAt(c, r, n), h, sid) && forall g :: Unused(StateAt(c, r, n), g, sid) ==> g == h
    ensures forall h :: h in StateAt(c, r, n).refreshes && StateAt(c, r, n).refreshes[h].sessionID == sid ==>
      StateAt(c, r, n).refreshes[h].expiresAt == StateAt(c, r, n).sessions[sid].refreshExpiresAt
    ensures StateAt(c, r, n).sessions[sid].accessExpiresAt < StateAt(c, r, n).sessions[sid].refreshExpiresAt + c.accessLifetime
  {
    hide StateAt, Honest, UsersOk, VerificationsOk, TicketsUnique, LinksOk;
    GoodAt(c, r, n);
    assert HasUnused(StateAt(c, r, n), sid);
  }

  ghost predicate RefreshedWith(c: Config, r: Run, i: nat, token: Secret) {
    i < |r.events| && r.events[i].call == RefreshCall(token) && OutcomeAt(c, r, i).reply.SignedIn?
  }

  lemma RefreshTells(c: Config, s: Store, token: Secret, now: Time)
    requires RefreshSession(c, s, token, now).reply.SignedIn?
    ensures var o, h := RefreshSession(c, s, token, now), Sha256(token);
      && h in s.refreshes && s.refreshes[h].usedAt.None? && h in o.store.refreshes && s.refreshes[h].sessionID in s.sessions
      && (o.store.refreshes[h].usedAt.Some? || h == Sha256(o.reply.credentials.refresh))
      && o.reply.credentials.refresh == Issued(Orr, s.next)
      && s.sessions[s.refreshes[h].sessionID].revokedAt.None?
      && now < s.sessions[s.refreshes[h].sessionID].refreshExpiresAt
      && o.reply.credentials.refreshExpiresAt == s.sessions[s.refreshes[h].sessionID].refreshExpiresAt
      && o.reply.credentials.accessExpiresAt == now + c.accessLifetime
      && AccountActive(s, s.sessions[s.refreshes[h].sessionID].userID)
  {
  }

  lemma RefreshedAt(c: Config, r: Run, i: nat, token: Secret)
    requires Honest(c, r) && RefreshedWith(c, r, i, token)
    ensures var s, t, h := StateAt(c, r, i), StateAt(c, r, i + 1), Sha256(token);
      && h in s.refreshes && s.refreshes[h].usedAt.None? && s.refreshes[h].sessionID in s.sessions
      && s.sessions[s.refreshes[h].sessionID].revokedAt.None?
      && h in t.refreshes && t.refreshes[h].usedAt.Some?
      && OutcomeAt(c, r, i).reply.credentials.refreshExpiresAt == s.sessions[s.refreshes[h].sessionID].refreshExpiresAt
  {
    hide Honest, RefreshSession, Inv;
    GoodAt(c, r, i);
    RefreshTells(c, StateAt(c, r, i), token, r.events[i].now);
    KnownDraws(c, StateAt(c, r, i), Sha256(token));
  }

  lemma KnownDraws(c: Config, s: Store, h: Digest)
    requires Inv(c, s) && h in s.refreshes
    ensures h != Sha256(Issued(Orr, s.next))
  {
    hide OneUnused, LinksOk, VerificationsOk, UsersOk, TicketsUnique;
  }

  /** A refresh token succeeds at most once. */
  lemma RefreshSucceedsOnce(c: Config, r: Run, i: nat, j: nat, token: Secret)
    requires Honest(c, r) && RefreshedWith(c, r, i, token) && RefreshedWith(c, r, j, token)
    ensures i == j
  {
    hide Honest, StateAt, OutcomeAt;
    RefreshedAt(c, r, i, token);
    RefreshedAt(c, r, j, token);
    if i < j {
      RefreshForward(c, r, i + 1, j, Sha256(token));
    } else if j < i {
      RefreshForward(c, r, j + 1, i, Sha256(token));
    }
  }

  lemma PresentedAgain(c: Config, s: Store, token: Secret, now: Time)
    requires ValidToken(token, Orr) && Sha256(token) in s.refreshes && s.refreshes[Sha256(token)].usedAt.Some?
    requires s.refreshes[Sha256(token)].sessionID in s.sessions
    ensures var t, sid := RefreshSession(c, s, token, now).store, s.refreshes[Sha256(token)].sessionID;
      sid in t.sessions && t.sessions[sid].revokedAt.Some?
  {
  }

  /** Presenting a refresh token a second time leaves its session revoked for good, whoever
      presents it and whatever the family did in between. */
  lemma ReuseEndsTheFamily(c: Config, r: Run, i: nat, j: nat, k: nat, token: Secret)
    requires Honest(c, r) && RefreshedWith(c, r, i, token) && i < j < k <= |r.events| && r.events[j].call == RefreshCall(token)
    ensures Sha256(token) in StateAt(c, r, i).refreshes
    ensures var sid := StateAt(c, r, i).refreshes[Sha256(token)].sessionID;
      sid in StateAt(c, r, k).sessions && StateAt(c, r, k).sessions[sid].revokedAt.Some?
  {
    RefreshedAt(c, r, i, token);
    hide Honest, RefreshSession, Inv;
    var h := Sha256(token);
    RefreshForward(c, r, i + 1, j, h);
    RefreshForward(c, r, i, i + 1, h);
    TokenIsIssued(c, r, i, token);
    SessionForward(c, r, i, j, StateAt(c, r, i).refreshes[h].sessionID);
    PresentedAgain(c, StateAt(c, r, j), token, r.events[j].now);
    SessionForward(c, r, j + 1, k, StateAt(c, r, i).refreshes[h].sessionID);
  }

  lemma TokenIsIssued(c: Config, r: Run, i: nat, token: Secret)
    requires RefreshedWith(c, r, i, token)
    ensures ValidToken(token, Orr)
  {
    hide StateAt;
  }

  /** No refresh token of a revoked session, old or new, ever succeeds. */
  lemma RevokedFamilyIsDead(c: Config, r: Run, i: nat, j: nat, sid: nat, token: Secret)
    requires Honest(c, r) && i <= j < |r.events| && sid in StateAt(c, r, i).sessions && StateAt(c, r, i).sessions[sid].revokedAt.Some?
    requires RefreshedWith(c, r, j, token)
    ensures Sha256(token) in StateAt(c, r, j).refreshes && StateAt(c, r, j).refreshes[Sha256(token)].sessionID != sid
  {
    hide Honest, StateAt, OutcomeAt;
    RefreshedAt(c, r, j, token);
    SessionForward(c, r, i, j, sid);
  }

  /** The expiry of a family is fixed when it starts: every refresh hands out the session's own. */
  lemma FamilyExpiryIsFixed(c: Config, r: Run, i: nat, j: nat, token: Secret)
    requires Honest(c, r) && RefreshedWith(c, r, j, token) && i <= j
    requires Sha256(token) in StateAt(c, r, j).refreshes && StateAt(c, r, j).refreshes[Sha256(token)].sessionID in StateAt(c, r, i).sessions
    ensures OutcomeAt(c, r, j).reply.credentials.refreshExpiresAt
         == StateAt(c, r, i).sessions[StateAt(c, r, j).refreshes[Sha256(token)].sessionID].refreshExpiresAt
  {
    hide Honest, StateAt, OutcomeAt;
    RefreshedAt(c, r, j, token);
    SessionForward(c, r, i, j, StateAt(c, r, j).refreshes[Sha256(token)].sessionID);
  }

  /** Revocations and announcements are the same thing: a call announces a session exactly when the
      call ended it, so each revocation is announced once, by the call that committed it. */
  lemma AnnouncedExactlyWhenRevoked(c: Config, r: Run, i: nat, sid: nat)
    requires Honest(c, r) && i < |r.events|
    ensures Tells(StateAt(c, r, i), OutcomeAt(c, r, i), sid) <==>
      sid in StateAt(c, r, i).sessions && StateAt(c, r, i).sessions[sid].revokedAt.None?
      && sid in StateAt(c, r, i + 1).sessions && StateAt(c, r, i + 1).sessions[sid].revokedAt.Some?
  {
    hide Honest, Inv, Step;
    GoodAt(c, r, i);
    StepAnnounces(c, StateAt(c, r, i), r.events[i]);
  }

  lemma AnnouncedOnce(c: Config, r: Run, i: nat, j: nat, sid: nat)
    requires Honest(c, r) && i < |r.events| && j < |r.events|
    requires Tells(StateAt(c, r, i), OutcomeAt(c, r, i), sid) && Tells(StateAt(c, r, j), OutcomeAt(c, r, j), sid)
    ensures i == j
  {
    hide Honest, StateAt, OutcomeAt, Tells;
    if i < j {
      NeverAnnouncedAgain(c, r, i, j, sid);
    } else if j < i {
      NeverAnnouncedAgain(c, r, j, i, sid);
    }
  }

  lemma NeverAnnouncedAgain(c: Config, r: Run, i: nat, j: nat, sid: nat)
    requires Honest(c, r) && i < j < |r.events| && Tells(StateAt(c, r, i), OutcomeAt(c, r, i), sid)
    ensures !Tells(StateAt(c, r, j), OutcomeAt(c, r, j), sid)
  {
    hide Honest, StateAt, OutcomeAt, Tells;
    AnnouncedExactlyWhenRevoked(c, r, i, sid);
    AnnouncedExactlyWhenRevoked(c, r, j, sid);
    SessionForward(c, r, i + 1, j, sid);
  }

  /** After its announcement a session authorizes nothing: what the relay's check asks is denied. */
  lemma AnnouncedSessionIsDenied(c: Config, r: Run, i: nat, j: nat, sid: nat, userID: nat, now: Time)
    requires Honest(c, r) && i < j <= |r.events| && Tells(StateAt(c, r, i), OutcomeAt(c, r, i), sid)
    ensures !SessionActive(StateAt(c, r, j), userID, sid, now)
  {
    hide Honest, StateAt, OutcomeAt, Tells;
    AnnouncedExactlyWhenRevoked(c, r, i, sid);
    SessionForward(c, r, i + 1, j, sid);
  }

  // ---------------------------------------------------------------- disabled accounts

  predicate DisabledIn(s: Store, u: nat) { u in s.users && s.users[u].status.Disabled? }

  lemma RegisterKeepsDisabled(s: Store, email: string, password: string, valid: bool, code: string, now: Time, u: nat)
    requires UsersOk(s) && DisabledIn(s, u)
    ensures DisabledIn(Register(s, email, password, valid, code, now).store, u)
  {
    hide UserByEmail, EmailsUnique;
  }

  lemma VerifyKeepsDisabled(c: Config, s: Store, ticket: Secret, digits: string, now: Time, u: nat)
    requires DisabledIn(s, u)
    ensures DisabledIn(VerifyEmail(c, s, ticket, digits, now).store, u)
  {
    hide ByTicket;
  }

  lemma GoogleKeepsDisabled(c: Config, s: Store, subject: string, email: string, missed: Missed, now: Time, u: nat)
    requires UsersOk(s) && DisabledIn(s, u)
    ensures DisabledIn(GoogleAttempt(c, s, subject, email, missed, now).store, u)
  {
    assert u < s.next;
    StartRows(c);
    var found := UserByEmail(s.users, email);
    if found.Some? { LinkKeepsDisabled(c, s, found.value, subject, missed.ownLink, now, u); }
    hide UserByEmail, UsersOk, StartSession, GoogleLink;
  }

  lemma LinkKeepsDisabled(c: Config, s: Store, v: nat, subject: string, missedOwn: bool, now: Time, u: nat)
    requires v in s.users && DisabledIn(s, u)
    ensures DisabledIn(GoogleLink(c, s, v, subject, missedOwn, now).store, u)
  {
    hide HasLink, StartSession, ActivateFederated, DisabledIn;
    StartRows(c);
    ActivationKeepsDisabled(s, v, now, u);
    var t := ActivateFederated(s, v, now);
    SameUsersKeepDisabled(t, GoogleLink(c, s, v, subject, missedOwn, now).store, u);
    SameUsersKeepDisabled(s, GoogleLink(c, s, v, subject, missedOwn, now).store, u);
  }

  lemma SameUsersKeepDisabled(s: Store, t: Store, u: nat)
    ensures s.users == t.users && DisabledIn(s, u) ==> DisabledIn(t, u)
  {
  }

  lemma ActivationKeepsDisabled(s: Store, v: nat, now: Time, u: nat)
    requires v in s.users && DisabledIn(s, u)
    ensures DisabledIn(ActivateFederated(s, v, now), u)
  {
  }

  /** Only an operator takes a disabled account back into service. */
  lemma StepKeepsDisabled(c: Config, s: Store, e: Event, u: nat)
    requires UsersOk(s) && DisabledIn(s, u) && e.call != OperatorCall(u, true)
    ensures DisabledIn(Step(c, s, e).store, u)
  {
    hide UsersOk, Register, Login, VerifyEmail, ResendVerification, RefreshSession, Logout, GoogleAttempt;
    match e.call
    case RegisterCall(email, password, valid, code) => RegisterKeepsDisabled(s, email, password, valid, code, e.now, u);
    case LoginCall(seen, password, code) => LoginKeepsUsers(c, s, seen, password, code, e.now);
    case VerifyEmailCall(ticket, digits) => VerifyKeepsDisabled(c, s, ticket, digits, e.now, u);
    case ResendCall(ticket, code) => ResendKeepsUsers(s, ticket, code, e.now);
    case RefreshCall(token) => RefreshRows(c, s, token, e.now);
    case LogoutCall(token) => LogoutRows(s, token, e.now);
    case GoogleCall(subject, email, missed) => GoogleKeepsDisabled(c, s, subject, email, missed, e.now, u);
    case OperatorCall(_, _) =>
  }

  lemma LoginKeepsUsers(c: Config, s: Store, seen: Option<(nat, User)>, password: string, code: string, now: Time)
    ensures Login(c, s, seen, password, code, now).store.users == s.users
  {
  }

  lemma ResendKeepsUsers(s: Store, ticket: Secret, code: string, now: Time)
    ensures ResendVerification(s, ticket, code, now).store.users == s.users
  {
    hide ByTicket;
  }

  /** Nobody takes this account back into service from event `i` on. */
  ghost predicate NotReenabled(r: Run, i: nat, u: nat) {
    forall k :: i <= k < |r.events| ==> r.events[k].call != OperatorCall(u, true)
  }

  lemma {:induction false} DisabledStays(c: Config, r: Run, i: nat, j: nat, u: nat)
    requires Honest(c, r) && i <= j <= |r.events| && DisabledIn(StateAt(c, r, i), u) && NotReenabled(r, i, u)
    ensures DisabledIn(StateAt(c, r, j), u)
    decreases j
  {
    hide Honest, Step, DisabledIn;
    if i < j {
      DisabledStays(c, r, i, j - 1, u);
      GoodAt(c, r, j - 1);
      assert UsersOk(StateAt(c, r, j - 1)) by { hide UsersOk, VerificationsOk, TicketsUnique, SessionsOk, OneUnused, LinksOk; }
      StepKeepsDisabled(c, StateAt(c, r, j - 1), r.events[j - 1], u);
    }
  }

  lemma InactiveMeansDisabled(c: Config, s: Store, token: Secret, now: Time)
    requires Inv(c, s)
    ensures var o := RefreshSession(c, s, token, now);
      o.announced.Some? && o.announced.value.accountInactive ==>
        DisabledIn(s, o.announced.value.userID) && DisabledIn(o.store, o.announced.value.userID)
  {
    hide UsersOk, VerificationsOk, TicketsUnique, OneUnused, LinksOk, RefreshRowsOk;
  }

  /** After an announcement that names the account inactive the account authorizes nothing, until
      an operator takes it back. */
  lemma InactiveAccountIsDenied(c: Config, r: Run, i: nat, j: nat)
    requires Honest(c, r) && i < j <= |r.events| && OutcomeAt(c, r, i).announced.Some?
    requires OutcomeAt(c, r, i).announced.value.accountInactive && NotReenabled(r, i, OutcomeAt(c, r, i).announced.value.userID)
    ensures !AccountActive(StateAt(c, r, j), OutcomeAt(c, r, i).announced.value.userID)
  {
    var s, e := StateAt(c, r, i), r.events[i];
    GoodAt(c, r, i);
    if e.call.RefreshCall? {
      InactiveMeansDisabled(c, s, e.call.token, e.now);
      hide Step, Honest, Inv, RefreshSession;
      DisabledStays(c, r, i + 1, j, OutcomeAt(c, r, i).announced.value.userID);
    } else {
      NoOtherInactive(c, s, e);
    }
  }

  lemma NoOtherInactive(c: Config, s: Store, e: Event)
    requires Inv(c, s) && !e.call.RefreshCall?
    ensures Step(c, s, e).announced.Some? ==> !Step(c, s, e).announced.value.accountInactive
  {
    hide Inv, Register, Login, VerifyEmail, ResendVerification, GoogleAttempt;
    if !e.call.LogoutCall? { OthersTouchNone(c, s, e); }
  }
}
