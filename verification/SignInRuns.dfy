/** Who is let in, over whole runs of the identity service: exactly when each call hands out a
    session, a challenge or nothing, and how long what it hands out is good for. */
module SignInRuns {
  import opened ConnectorTypes
  import opened IdentityStore
  import opened IdentitySpec
  import opened IdentityHistory
  import opened SessionRuns
  import opened GoogleRuns
  import opened VerificationRuns

  // ---------------------------------------------------------------- what a sign-in makes

  /** One session of the account and one unused refresh credential are new; both expiries are full
      lifetimes from now, and the answer names them. */
  predicate Begins(c: Config, s: Store, o: Outcome, u: nat, now: Time) {
    && o.reply.SignedIn?
    && var cr, h := o.reply.credentials, Sha256(o.reply.credentials.refresh);
    && cr.userID == u && cr.refresh.Issued? && cr.refresh.prefix.Orr? && cr.access.Issued? && cr.access.prefix.Ora?
    && cr.accessExpiresAt == now + c.accessLifetime && cr.refreshExpiresAt == now + c.refreshLifetime
    && h !in s.refreshes && h in o.store.refreshes && o.store.refreshes[h].sessionID !in s.sessions
    && o.store.refreshes == s.refreshes[h := Refresh(o.store.refreshes[h].sessionID, cr.refreshExpiresAt, None)]
    && o.store.sessions == s.sessions[o.store.refreshes[h].sessionID :=
         Session(u, Sha256(cr.access), cr.accessExpiresAt, cr.refreshExpiresAt, now, None)]
  }

  lemma StartBegins(c: Config, s: Store, m: Store, u: nat, kind: string, now: Time)
    requires SessionsOk(c, s) && m.sessions == s.sessions && m.refreshes == s.refreshes && s.next <= m.next
    ensures Begins(c, s, StartSession(c, m, u, kind, now), u, now)
  {
  }

  lemma SoundSessions(c: Config, s: Store)
    requires Inv(c, s)
    ensures SessionsOk(c, s)
  {
    hide UsersOk, VerificationsOk, TicketsUnique, SessionsOk, OneUnused, LinksOk;
  }

  // ---------------------------------------------------------------- passwords

  /** The account was read, and this is its password. */
  predicate Knows(seen: Option<(nat, User)>, password: string) {
    seen.Some? && seen.value.1.passwordHash == Some(Argon2id(password))
  }

  /** The account's row carries a new ticket; a young code, if any, stays with its guesses. */
  predicate Rotates(s: Store, o: Outcome, u: nat, code: string, now: Time) {
    && o.reply == Challenged(u, Issued(Vft, s.next), now + 600 * SECOND)
    && o.store.verifications.Keys == s.verifications.Keys + {u}
    && (forall v :: v in s.verifications && v != u ==> o.store.verifications[v] == s.verifications[v])
    && var row := o.store.verifications[u];
    && row.ticketHash == Sha256(Issued(Vft, s.next)) && row.expiresAt == now + 600 * SECOND
    && if u in s.verifications && now < s.verifications[u].expiresAt && now - s.verifications[u].createdAt < 30 * SECOND
       then row.codeHash == s.verifications[u].codeHash && row.attempts == s.verifications[u].attempts
            && row.createdAt == s.verifications[u].createdAt
       else row.codeHash == Sha256(Code(code)) && row.attempts == 0 && row.createdAt == now
  }

  lemma LoginDecides(c: Config, s: Store, seen: Option<(nat, User)>, password: string, code: string, now: Time)
    requires Inv(c, s)
    ensures var o := Login(c, s, seen, password, code, now);
      if !Knows(seen, password) || seen.value.1.status.Disabled? then o.reply == Refused(InvalidCredentials) && o.store == s
      else if seen.value.1.status.Active? then Begins(c, s, o, seen.value.0, now)
      else Rotates(s, o, seen.value.0, code, now)
  {
    hide Inv, StartSession, Begins, SessionsOk, Rotates, Reissued;
    SoundSessions(c, s);
    if seen.Some? {
      StartBegins(c, s, s, seen.value.0, "auth.login_succeeded", now);
      ReissueRotates(s, seen.value.0, code, now);
    }
  }

  lemma ReissueRotates(s: Store, u: nat, code: string, now: Time)
    ensures Rotates(s, Answer(Audit(PutVerification(s, u, Reissued(s, u, code, now)), "auth.verification_reissued", Some(u), None, now),
                              Challenge(s, u, now)), u, code, now)
  {
  }

  /** A sign-in by password, in any run: a session exactly for the password of an account read as
      active, a challenge exactly for that of one read as pending, and for every other password or
      account one and the same refusal, which changes nothing. */
  lemma LoginAnswersIff(c: Config, r: Run, i: nat)
    requires Honest(c, r) && i < |r.events| && r.events[i].call.LoginCall?
    ensures var s, o, call, now := StateAt(c, r, i), OutcomeAt(c, r, i), r.events[i].call, r.events[i].now;
      && (o.reply.SignedIn? <==> Knows(call.seen, call.password) && call.seen.value.1.status.Active?)
      && (o.reply.Challenged? <==> Knows(call.seen, call.password) && call.seen.value.1.status.Pending?)
      && (o.reply.SignedIn? ==> Begins(c, s, o, call.seen.value.0, now))
      && (o.reply.Challenged? ==> Rotates(s, o, call.seen.value.0, call.code, now))
      && (!o.reply.SignedIn? && !o.reply.Challenged? ==> o.reply == Refused(InvalidCredentials) && o.store == s)
  {
    var s, call, now := StateAt(c, r, i), r.events[i].call, r.events[i].now;
    GoodAt(c, r, i);
    hide Honest, StateAt, Inv, Login;
    LoginDecides(c, s, call.seen, call.password, call.code, now);
  }

  // ---------------------------------------------------------------- registration and mailed codes

  lemma RegisterDecides(s: Store, email: string, password: string, valid: bool, code: string, now: Time)
    ensures var o, free := Register(s, email, password, valid, code, now), forall u :: u in s.users ==> s.users[u].email != email;
      && o.store.sessions == s.sessions && o.store.refreshes == s.refreshes && o.store.links == s.links
      && (!valid ==> o.reply == Refused(InvalidInput) && o.store == s)
      && (valid && !free ==> o.store.users == s.users && o.store.verifications == s.verifications)
      && (valid && free ==>
           && o.store.users == s.users[s.next := User(email, Some(Argon2id(password)), Pending, None, now)]
           && o.store.verifications == s.verifications[s.next :=
                Verification(Sha256(Issued(Vft, s.next)), Sha256(Code(code)), 0, now + 600 * SECOND, now)])
      && (valid ==> o.reply == Challenged(s.next, Issued(Vft, s.next), now + 600 * SECOND))
  {
    assert UserByEmail(s.users, email).None? <==> forall u :: u in s.users ==> s.users[u].email != email;
    hide UserByEmail;
  }

  /** The row a ticket stands for. */
  ghost predicate TicketOf(s: Store, u: nat, ticket: Secret) {
    u in s.verifications && s.verifications[u].ticketHash == Sha256(ticket)
  }

  ghost predicate Opens(s: Store, u: nat, ticket: Secret, digits: string, now: Time) {
    && TicketOf(s, u, ticket) && now < s.verifications[u].expiresAt && s.verifications[u].attempts < 8
    && s.verifications[u].codeHash == Sha256(Code(digits)) && u in s.users && s.users[u].status.Pending?
  }

  ghost predicate Misses(s: Store, u: nat, ticket: Secret, digits: string, now: Time) {
    && TicketOf(s, u, ticket) && now < s.verifications[u].expiresAt && s.verifications[u].attempts < 8
    && s.verifications[u].codeHash != Sha256(Code(digits))
  }

  ghost predicate TicketsIssued(s: Store) {
    forall u :: u in s.verifications ==>
      u in s.users && s.verifications[u].ticketHash.of.Issued? && s.verifications[u].ticketHash.of.prefix.Vft?
  }

  lemma VerifyDecides(c: Config, s: Store, ticket: Secret, digits: string, now: Time, u: nat)
    requires SessionsOk(c, s) && TicketsUnique(s.verifications) && TicketsIssued(s) && TicketOf(s, u, ticket)
    ensures var o, row := VerifyEmail(c, s, ticket, digits, now), s.verifications[u];
      if Opens(s, u, ticket, digits, now) then
        && Begins(c, s, o, u, now) && o.store.verifications == s.verifications - {u}
        && o.store.users == s.users[u := s.users[u].(status := Active, emailVerifiedAt := Some(now))]
      else
        && o.reply == Refused(InvalidVerificationCode) && o.store.users == s.users && o.store.sessions == s.sessions
        && o.store.verifications ==
             if now < row.expiresAt && row.attempts < 8 && row.codeHash != Sha256(Code(digits))
             then s.verifications[u := row.(attempts := row.attempts + 1)] else s.verifications
  {
    assert ByTicket(s.verifications, Sha256(ticket)) == Some(u);
    hide ByTicket, SessionsOk, TicketsUnique, StartSession, Begins;
    var m := WithoutVerification(SetUser(s, u, Activated(s.users[u], now)), u);
    StartBegins(c, s, m, u, "auth.email_verified", now);
    StartRows(c);
  }

  lemma {:induction false} TicketsIssuedAt(c: Config, r: Run, n: nat)
    requires Honest(c, r) && n <= |r.events|
    ensures TicketsIssued(StateAt(c, r, n))
  {
    GoodAt(c, r, n);
    hide Honest, Step, Inv, TicketsIssued, TicketsOldOrNew;
    if n > 0 {
      TicketsIssuedAt(c, r, n - 1);
      StepTickets(c, StateAt(c, r, n - 1), r.events[n - 1]);
      TicketsStayIssued(c, StateAt(c, r, n - 1), StateAt(c, r, n));
    } else {
      StartsBlank(c, r);
    }
  }

  lemma TicketsStayIssued(c: Config, s: Store, t: Store)
    requires TicketsIssued(s) && TicketsOldOrNew(s, t) && Inv(c, t)
    ensures TicketsIssued(t)
  {
    hide UsersOk, TicketsUnique, SessionsOk, OneUnused, LinksOk;
  }

  lemma StartsBlank(c: Config, r: Run)
    requires Honest(c, r)
    ensures TicketsIssued(StateAt(c, r, 0))
  {
  }

  lemma NoRowNoEntry(c: Config, s: Store, ticket: Secret, digits: string, now: Time)
    requires forall u :: u in s.verifications ==> s.verifications[u].ticketHash != Sha256(ticket)
    ensures var o := VerifyEmail(c, s, ticket, digits, now); o.reply == Refused(InvalidVerificationCode) && o.store == s
  {
  }

  lemma UniqueTickets(c: Config, s: Store)
    requires Inv(c, s)
    ensures TicketsUnique(s.verifications)
  {
    hide UsersOk, VerificationsOk, TicketsUnique, SessionsOk, OneUnused, LinksOk;
  }

  /** A mailed code, in any run: it signs in exactly the pending account whose current ticket comes
      with it, before that ticket's time and the eighth wrong guess; a wrong one on such a row costs
      a guess; nothing else happens to anyone. */
  lemma VerifyAnswersIff(c: Config, r: Run, i: nat)
    requires Honest(c, r) && i < |r.events| && r.events[i].call.VerifyEmailCall?
    ensures var s, o, call, now := StateAt(c, r, i), OutcomeAt(c, r, i), r.events[i].call, r.events[i].now;
      && (o.reply.SignedIn? <==> exists u :: Opens(s, u, call.ticket, call.digits, now))
      && (forall u :: Opens(s, u, call.ticket, call.digits, now) ==>
           Begins(c, s, o, u, now) && u !in o.store.verifications && o.store.users[u].status.Active?
           && o.store.users[u].emailVerifiedAt == Some(now))
      && (!o.reply.SignedIn? ==> o.reply == Refused(InvalidVerificationCode) && o.store.users == s.users)
      && (forall u :: Misses(s, u, call.ticket, call.digits, now) ==>
           o.store.verifications == s.verifications[u := s.verifications[u].(attempts := s.verifications[u].attempts + 1)])
  {
    var s, call, now := StateAt(c, r, i), r.events[i].call, r.events[i].now;
    GoodAt(c, r, i);
    TicketsIssuedAt(c, r, i);
    hide Honest, StateAt, Inv, VerifyEmail, Begins, TicketsUnique, TicketsIssued;
    SoundSessions(c, s);
    UniqueTickets(c, s);
    if u :| TicketOf(s, u, call.ticket) {
      VerifyDecides(c, s, call.ticket, call.digits, now, u);
      BeginsSignsIn(c, s, OutcomeAt(c, r, i), u, now);
      forall v | TicketOf(s, v, call.ticket) ensures v == u { OneRow(s, u, v, call.ticket); }
      hide TicketOf;
      OpensByTicket(s, call.ticket, call.digits, now);
    } else {
      forall u | u in s.verifications ensures s.verifications[u].ticketHash != Sha256(call.ticket) { assert !TicketOf(s, u, call.ticket); }
      NoRowNoEntry(c, s, call.ticket, call.digits, now);
    }
  }

  lemma OpensByTicket(s: Store, ticket: Secret, digits: string, now: Time)
    ensures forall u :: Opens(s, u, ticket, digits, now) || Misses(s, u, ticket, digits, now) ==> TicketOf(s, u, ticket)
  {
  }

  lemma BeginsSignsIn(c: Config, s: Store, o: Outcome, u: nat, now: Time)
    ensures Begins(c, s, o, u, now) ==> o.reply.SignedIn?
  {
  }

  lemma OneRow(s: Store, u: nat, v: nat, ticket: Secret)
    requires TicketsUnique(s.verifications) && TicketOf(s, u, ticket) && TicketOf(s, v, ticket)
    ensures u == v
  {
  }

  lemma ResendDecides(s: Store, ticket: Secret, code: string, now: Time, u: nat)
    requires TicketsUnique(s.verifications) && TicketsIssued(s) && TicketOf(s, u, ticket)
    ensures var o, row := ResendVerification(s, ticket, code, now), s.verifications[u];
      && o.store.users == s.users && o.store.sessions == s.sessions && o.store.refreshes == s.refreshes
      && if now - row.createdAt < 30 * SECOND then o.reply == Refused(VerificationThrottled) && o.store == s
         else if !s.users[u].status.Pending? then o.reply == Refused(InvalidVerificationCode) && o.store == s
         else
           && o.reply == Challenged(u, Issued(Vft, s.next), now + 600 * SECOND)
           && o.store.verifications == s.verifications[u :=
                Verification(Sha256(Issued(Vft, s.next)), Sha256(Code(code)), 0, now + 600 * SECOND, now)]
  {
    assert ByTicket(s.verifications, Sha256(ticket)) == Some(u);
    hide ByTicket, TicketsUnique;
  }

  /** Registration in any run: a free address gets a pending account with this password and this code,
      a taken one changes no account and no code; the answer has the same shape. */
  lemma RegisterAnswers(c: Config, r: Run, i: nat)
    requires i < |r.events| && r.events[i].call.RegisterCall? && r.events[i].call.valid
    ensures var s, t, call, now := StateAt(c, r, i), StateAt(c, r, i + 1), r.events[i].call, r.events[i].now;
      && OutcomeAt(c, r, i).reply == Challenged(s.next, Issued(Vft, s.next), now + 600 * SECOND)
      && if forall u :: u in s.users ==> s.users[u].email != call.email then
           && t.users == s.users[s.next := User(call.email, Some(Argon2id(call.password)), Pending, None, now)]
           && t.verifications == s.verifications[s.next :=
                Verification(Sha256(Issued(Vft, s.next)), Sha256(Code(call.code)), 0, now + 600 * SECOND, now)]
         else t.users == s.users && t.verifications == s.verifications
  {
    var call := r.events[i].call;
    hide Register;
    RegisterDecides(StateAt(c, r, i), call.email, call.password, call.valid, call.code, r.events[i].now);
  }

  /** A resend in any run: a known ticket of a pending account gets a new code and a new ticket, unless
      the last code is less than thirty seconds old; an unknown ticket gets nothing. */
  lemma ResendAnswersIff(c: Config, r: Run, i: nat)
    requires Honest(c, r) && i < |r.events| && r.events[i].call.ResendCall?
    ensures var s, o, call, now := StateAt(c, r, i), OutcomeAt(c, r, i), r.events[i].call, r.events[i].now;
      && (o.reply.Challenged? <==>
           exists u :: TicketOf(s, u, call.ticket) && u in s.users && s.users[u].status.Pending?
             && now - s.verifications[u].createdAt >= 30 * SECOND)
      && (o.reply == Refused(VerificationThrottled) <==>
           exists u :: TicketOf(s, u, call.ticket) && now - s.verifications[u].createdAt < 30 * SECOND)
      && (!o.reply.Challenged? ==> o.store == s)
      && (forall u :: TicketOf(s, u, call.ticket) && o.reply.Challenged? ==>
           && o.reply == Challenged(u, Issued(Vft, s.next), now + 600 * SECOND)
           && o.store.verifications == s.verifications[u :=
                Verification(Sha256(Issued(Vft, s.next)), Sha256(Code(call.code)), 0, now + 600 * SECOND, now)])
  {
    var s, call, now := StateAt(c, r, i), r.events[i].call, r.events[i].now;
    GoodAt(c, r, i);
    TicketsIssuedAt(c, r, i);
    UniqueTickets(c, s);
    hide Honest, StateAt, Inv, ResendVerification, TicketsUnique;
    if u :| TicketOf(s, u, call.ticket) {
      ResendDecides(s, call.ticket, call.code, now, u);
      forall v | TicketOf(s, v, call.ticket) ensures v == u { OneRow(s, u, v, call.ticket); }
    } else {
      NoRowNoResend(s, call.ticket, call.code, now);
    }
  }

  lemma NoRowNoResend(s: Store, ticket: Secret, code: string, now: Time)
    requires forall u :: !TicketOf(s, u, ticket)
    ensures ResendVerification(s, ticket, code, now) == Answer(s, Refused(InvalidVerificationCode))
  {
    forall u | u in s.verifications ensures s.verifications[u].ticketHash != Sha256(ticket) { assert !TicketOf(s, u, ticket); }
    assert ByTicket(s.verifications, Sha256(ticket)).None?;
    hide ByTicket;
  }

  // ---------------------------------------------------------------- Google

  /** What one attempt sees of the subject's own link. */
  predicate SeesLink(s: Store, subject: string, missed: Missed) { subject in s.links && !missed.link }

  ghost predicate GoogleAdmits(s: Store, subject: string, email: string, missed: Missed) {
    if SeesLink(s, subject, missed) then AccountActive(s, s.links[subject].userID)
    else match UserByEmail(s.users, email)
      case None => subject !in s.links
      case Some(u) => !missed.user && Linkable(s.users[u]) && !HasLink(s.links, u) && subject !in s.links
  }

  lemma GoogleDecides(c: Config, s: Store, subject: string, email: string, missed: Missed, now: Time)
    requires Inv(c, s)
    ensures var o := GoogleAttempt(c, s, subject, email, missed, now);
      && (o.reply.SignedIn? <==> GoogleAdmits(s, subject, email, missed))
      && (o.reply.SignedIn? ==>
           && subject in o.store.links && Begins(c, s, o, o.store.links[subject].userID, now)
           && var u := o.store.links[subject].userID;
           && u in o.store.users && o.store.users[u].status.Active?
           && (subject in s.links ==> u == s.links[subject].userID && o.store.users == s.users)
           && (subject !in s.links ==> o.store.users[u].email == email && o.store.users[u].emailVerifiedAt.Some?)
           && (subject !in s.links && u in s.users && s.users[u].status.Pending? ==> o.store.users[u].passwordHash.None? && u !in o.store.verifications)
           && (u !in s.users ==> o.store.users[u] == User(email, None, Active, Some(now), now)))
      && (forall x :: x in o.store.links && x != subject ==> x in s.links && o.store.links[x] == s.links[x])
  {
    SoundSessions(c, s);
    LinkedToUsers(c, s);
    hide Inv, SessionsOk, Begins, UserByEmail, HasLink, GoogleReturning, GoogleNew, GoogleLink;
    if SeesLink(s, subject, missed) {
      ReturningDecides(c, s, subject, now);
    } else {
      NewDecides(c, s, subject, email, now);
      var found := UserByEmail(s.users, email);
      if found.Some? { LinkDecides(c, s, found.value, subject, missed.ownLink, now); }
    }
  }

  lemma LinkedToUsers(c: Config, s: Store)
    requires Inv(c, s)
    ensures forall x :: x in s.links ==> s.links[x].userID in s.users
    ensures s.next !in s.users
  {
    hide VerificationsOk, TicketsUnique, SessionsOk, OneUnused, EmailsUnique;
  }

  lemma ReturningDecides(c: Config, s: Store, subject: string, now: Time)
    requires SessionsOk(c, s) && subject in s.links
    ensures var o, u := GoogleReturning(c, s, subject, now), s.links[subject].userID;
      && (o.reply.SignedIn? <==> AccountActive(s, u))
      && (o.reply.SignedIn? ==> Begins(c, s, o, u, now) && o.store.users == s.users)
      && (forall x :: x in o.store.links <==> x in s.links) && o.store.links[subject].userID == u
      && (forall x :: x in s.links && x != subject ==> o.store.links[x] == s.links[x])
  {
    hide SessionsOk, Begins;
    var touched := s.(links := s.links[subject := s.links[subject].(lastAuthenticatedAt := now)]);
    StartBegins(c, s, touched, s.links[subject].userID, "auth.google_signin_succeeded", now);
  }

  lemma NewDecides(c: Config, s: Store, subject: string, email: string, now: Time)
    requires SessionsOk(c, s)
    ensures var o := GoogleNew(c, s, subject, email, now);
      && (o.reply.SignedIn? <==> UserByEmail(s.users, email).None? && subject !in s.links)
      && (o.reply.SignedIn? ==>
           && Begins(c, s, o, s.next, now) && o.store.links == s.links[subject := Link(s.next, now, now)]
           && o.store.users == s.users[s.next := User(email, None, Active, Some(now), now)])
      && (!o.reply.SignedIn? ==> o.store.links == s.links)
  {
    hide SessionsOk, Begins, UserByEmail;
    var user := User(email, None, Active, Some(now), now);
    var created := SetUser(s, s.next, user).(links := s.links[subject := Link(s.next, now, now)], next := s.next + 1);
    StartBegins(c, s, created, s.next, "auth.google_account_created", now);
  }

  lemma LinkDecides(c: Config, s: Store, u: nat, subject: string, missedOwn: bool, now: Time)
    requires SessionsOk(c, s) && u in s.users
    ensures var o := GoogleLink(c, s, u, subject, missedOwn, now);
      && (o.reply.SignedIn? <==> Linkable(s.users[u]) && !HasLink(s.links, u) && subject !in s.links)
      && (o.reply.SignedIn? ==>
           && Begins(c, s, o, u, now) && o.store.links == s.links[subject := Link(u, now, now)]
           && u in o.store.users && o.store.users[u].status.Active? && o.store.users[u].email == s.users[u].email
           && o.store.users[u].emailVerifiedAt.Some?
           && (s.users[u].status.Pending? ==> o.store.users[u].passwordHash.None? && u !in o.store.verifications))
      && (!o.reply.SignedIn? ==> o.store.links == s.links)
  {
    var t := ActivateFederated(s, u, now);
    hide SessionsOk, Begins, HasLink, StartSession;
    StartBegins(c, s, t.(links := t.links[subject := Link(u, now, now)]), u, "auth.google_identity_linked", now);
    StartRows(c);
    StartLinks(c);
    StartsSignIn(c);
  }

  lemma StartLinks(c: Config)
    ensures forall s, u, kind, now :: StartSession(c, s, u, kind, now).store.links == s.links
  {
  }

  /** A Google sign-in, in any run: exactly when it is let in, into which account, and that no other
      subject's link is touched. */
  lemma GoogleAnswersIff(c: Config, r: Run, i: nat)
    requires Honest(c, r) && i < |r.events| && r.events[i].call.GoogleCall?
    ensures var s, o, call, now := StateAt(c, r, i), OutcomeAt(c, r, i), r.events[i].call, r.events[i].now;
      && (o.reply.SignedIn? <==> GoogleAdmits(s, call.subject, call.email, call.missed))
      && (o.reply.SignedIn? ==>
           && call.subject in o.store.links && Begins(c, s, o, o.store.links[call.subject].userID, now)
           && var u := o.store.links[call.subject].userID;
           && u in o.store.users && o.store.users[u].status.Active?
           && (call.subject in s.links ==> u == s.links[call.subject].userID)
           && (call.subject !in s.links ==> o.store.users[u].email == call.email && o.store.users[u].emailVerifiedAt.Some?))
      && (forall x :: x in o.store.links && x != call.subject ==> x in s.links && o.store.links[x] == s.links[x])
  {
    GoodAt(c, r, i);
    hide Honest, StateAt, Inv, GoogleAttempt, GoogleAdmits, Begins;
    GoogleDecides(c, StateAt(c, r, i), r.events[i].call.subject, r.events[i].call.email, r.events[i].call.missed, r.events[i].now);
  }

  // ---------------------------------------------------------------- sessions and their tokens

  /** Event `i` handed out a session's credentials. */
  ghost predicate HandedOut(c: Config, r: Run, i: nat) {
    i < |r.events| && OutcomeAt(c, r, i).reply.SignedIn?
  }

  ghost function TokenFrom(c: Config, r: Run, i: nat): Secret
    requires HandedOut(c, r, i)
  {
    OutcomeAt(c, r, i).reply.credentials.refresh
  }

  /** The refresh credential behind an answer is new and unused, in an unrevoked session of the account it
      names, and both expiries are the session's. */
  ghost predicate Fresh(o: Outcome, h: Digest) {
    && o.reply.SignedIn? && h == Sha256(o.reply.credentials.refresh) && ValidToken(o.reply.credentials.refresh, Orr)
    && h in o.store.refreshes && o.store.refreshes[h].usedAt.None? && o.store.refreshes[h].sessionID in o.store.sessions
    && var session := o.store.sessions[o.store.refreshes[h].sessionID];
    && session.revokedAt.None? && session.userID == o.reply.credentials.userID
    && session.refreshExpiresAt == o.reply.credentials.refreshExpiresAt && session.accessExpiresAt == o.reply.credentials.accessExpiresAt
    && session.accessHash == Sha256(o.reply.credentials.access)
  }

  lemma BegunIsFresh(c: Config, s: Store, o: Outcome, u: nat, now: Time)
    requires Begins(c, s, o, u, now)
    ensures Fresh(o, Sha256(o.reply.credentials.refresh))
  {
  }

  lemma RefreshedIsFresh(c: Config, s: Store, token: Secret, now: Time)
    requires RefreshSession(c, s, token, now).reply.SignedIn?
    ensures var o := RefreshSession(c, s, token, now); Fresh(o, Sha256(o.reply.credentials.refresh))
  {
  }

  lemma HandedOutFresh(c: Config, r: Run, i: nat)
    requires Honest(c, r) && HandedOut(c, r, i)
    ensures Fresh(OutcomeAt(c, r, i), Sha256(TokenFrom(c, r, i)))
  {
    var s, e, o := StateAt(c, r, i), r.events[i], OutcomeAt(c, r, i);
    hide Honest, Begins, Fresh, StateAt, GoogleAdmits, Knows, Rotates, Opens, Register, Login, VerifyEmail, ResendVerification,
      RefreshSession, Logout, GoogleAttempt;
    match e.call
    case LoginCall(_, _, _) =>
      LoginAnswersIff(c, r, i);
      BegunIsFresh(c, s, o, e.call.seen.value.0, e.now);
    case VerifyEmailCall(_, _) =>
      VerifyAnswersIff(c, r, i);
      var u :| Opens(s, u, e.call.ticket, e.call.digits, e.now);
      BegunIsFresh(c, s, o, u, e.now);
    case GoogleCall(subject, _, _) =>
      GoogleAnswersIff(c, r, i);
      BegunIsFresh(c, s, o, o.store.links[subject].userID, e.now);
    case RefreshCall(token) => RefreshedIsFresh(c, s, token, e.now);
    case _ => NoOthersSignIn(c, s, e);
  }

  lemma NoOthersSignIn(c: Config, s: Store, e: Event)
    requires e.call.RegisterCall? || e.call.ResendCall? || e.call.LogoutCall? || e.call.OperatorCall?
    ensures !Step(c, s, e).reply.SignedIn?
  {
    hide UserByEmail, ByTicket;
  }

  /** The session event `i` handed out. */
  ghost function SessionFrom(c: Config, r: Run, i: nat): nat
    requires Honest(c, r) && HandedOut(c, r, i)
  {
    HandedOutFresh(c, r, i);
    OutcomeAt(c, r, i).store.refreshes[Sha256(TokenFrom(c, r, i))].sessionID
  }

  lemma HandedOutFacts(c: Config, r: Run, i: nat)
    requires Honest(c, r) && HandedOut(c, r, i)
    ensures var t, h, sid, cr := StateAt(c, r, i + 1), Sha256(TokenFrom(c, r, i)), SessionFrom(c, r, i), OutcomeAt(c, r, i).reply.credentials;
      && TokenFrom(c, r, i) == cr.refresh && ValidToken(TokenFrom(c, r, i), Orr)
      && h in t.refreshes && t.refreshes[h].usedAt.None? && t.refreshes[h].sessionID == sid && sid in t.sessions
      && t.sessions[sid].revokedAt.None? && t.sessions[sid].userID == cr.userID && t.sessions[sid].refreshExpiresAt == cr.refreshExpiresAt
      && t.sessions[sid].accessExpiresAt == cr.accessExpiresAt
  {
    HandedOutFresh(c, r, i);
    hide Honest, Step;
  }

  /** Some call after event `i` and before `j` ended the session, and said so. */
  ghost predicate EndedBetween(c: Config, r: Run, i: nat, j: nat, sid: nat) {
    exists k :: i < k < j && k < |r.events| && OutcomeAt(c, r, k).announced.Some? && OutcomeAt(c, r, k).announced.value.sessionID == sid
  }

  ghost predicate RefreshedBetween(c: Config, r: Run, i: nat, j: nat, token: Secret) {
    exists k :: i < k < j && RefreshedWith(c, r, k, token)
  }

  lemma {:induction false} RevokedByEnd(c: Config, r: Run, i: nat, j: nat, sid: nat)
    requires Honest(c, r) && i < j <= |r.events| && sid in StateAt(c, r, i + 1).sessions && StateAt(c, r, i + 1).sessions[sid].revokedAt.None?
    ensures sid in StateAt(c, r, j).sessions
    ensures StateAt(c, r, j).sessions[sid].revokedAt.Some? <==> EndedBetween(c, r, i, j, sid)
    decreases j
  {
    hide Honest, StateAt, OutcomeAt, Tells;
    SessionForward(c, r, i + 1, j, sid);
    if i + 1 < j {
      RevokedByEnd(c, r, i, j - 1, sid);
      AnnouncedExactlyWhenRevoked(c, r, j - 1, sid);
      TellsIffNamed(c, r, j - 1, sid);
      SessionForward(c, r, j - 1, j, sid);
      EndedGrows(c, r, i, j - 1, sid);
    } else {
      assert !EndedBetween(c, r, i, j, sid);
    }
  }

  lemma EndedGrows(c: Config, r: Run, i: nat, j: nat, sid: nat)
    requires i < j < |r.events|
    ensures EndedBetween(c, r, i, j + 1, sid) <==>
      EndedBetween(c, r, i, j, sid) || (OutcomeAt(c, r, j).announced.Some? && OutcomeAt(c, r, j).announced.value.sessionID == sid)
  {
    hide OutcomeAt;
  }

  lemma TellsIffNamed(c: Config, r: Run, i: nat, sid: nat)
    requires Honest(c, r) && i < |r.events| && sid in StateAt(c, r, i).sessions
    ensures Tells(StateAt(c, r, i), OutcomeAt(c, r, i), sid) <==>
      OutcomeAt(c, r, i).announced.Some? && OutcomeAt(c, r, i).announced.value.sessionID == sid
  {
    hide Honest, StateAt, OutcomeAt;
    if OutcomeAt(c, r, i).announced.Some? { ToldOfItsAccount(c, r, i); }
  }

  /** What presenting a known refresh token comes to. */
  lemma RefreshDecides(c: Config, s: Store, token: Secret, now: Time)
    requires Inv(c, s) && ValidToken(token, Orr) && Sha256(token) in s.refreshes && s.refreshes[Sha256(token)].sessionID in s.sessions
    ensures var o, h := RefreshSession(c, s, token, now), Sha256(token);
      var sid := s.refreshes[h].sessionID;
      var session := s.sessions[sid];
      && (o.reply.SignedIn? <==>
           && s.refreshes[h].usedAt.None? && session.revokedAt.None? && now < session.refreshExpiresAt
           && AccountActive(s, session.userID))
      && (o.reply.SignedIn? ==>
           && o.store.refreshes == s.refreshes[h := s.refreshes[h].(usedAt := Some(now))]
                [Sha256(o.reply.credentials.refresh) := Refresh(sid, session.refreshExpiresAt, None)]
           && o.store.sessions == s.sessions[sid := session.(accessHash := Sha256(o.reply.credentials.access),
                                                              accessExpiresAt := now + c.accessLifetime)])
      && (!o.reply.SignedIn? ==>
           && o.reply == Refused(InvalidRefresh) && o.store.refreshes == s.refreshes
           && o.store.sessions == if session.revokedAt.None? then s.sessions[sid := session.(revokedAt := Some(now))] else s.sessions)
      && o.announced == if o.reply.SignedIn? || session.revokedAt.Some? then None
           else Some(Announcement(session.userID, sid, s.refreshes[h].usedAt.None? && now < session.refreshExpiresAt))
  {
    hide Inv, Refreshed;
    ExpireTogether(c, s, Sha256(token));
    RefreshedWrites(c, s, Sha256(token), now);
  }

  lemma RefreshedWrites(c: Config, s: Store, h: Digest, now: Time)
    requires h in s.refreshes && s.refreshes[h].sessionID in s.sessions
    ensures var o, sid := Refreshed(c, s, h, now), s.refreshes[h].sessionID;
      && o.reply.SignedIn?
      && o.store.refreshes == s.refreshes[h := s.refreshes[h].(usedAt := Some(now))]
           [Sha256(o.reply.credentials.refresh) := Refresh(sid, s.sessions[sid].refreshExpiresAt, None)]
      && o.store.sessions == s.sessions[sid := s.sessions[sid].(accessHash := Sha256(o.reply.credentials.access),
                                                                accessExpiresAt := now + c.accessLifetime)]
      && o.announced.None?
  {
  }

  lemma ExpireTogether(c: Config, s: Store, h: Digest)
    requires Inv(c, s) && h in s.refreshes && s.refreshes[h].sessionID in s.sessions
    ensures s.refreshes[h].expiresAt == s.sessions[s.refreshes[h].sessionID].refreshExpiresAt
    ensures s.sessions[s.refreshes[h].sessionID].userID in s.users
  {
    hide UsersOk, VerificationsOk, TicketsUnique, OneUnused, LinksOk;
  }

  lemma StepUses(c: Config, s: Store, e: Event, h: Digest)
    requires Inv(c, s) && h in s.refreshes && s.refreshes[h].usedAt.None?
    ensures var o := Step(c, s, e);
      h in o.store.refreshes && (o.store.refreshes[h].usedAt.Some? <==> e.call == RefreshCall(h.of) && o.reply.SignedIn?)
  {
    hide Inv, Register, Login, VerifyEmail, ResendVerification, GoogleAttempt, RefreshSession;
    if e.call.RefreshCall? {
      KnownDraws(c, s, h);
      RefreshUses(c, s, e.call.token, e.now, h);
    } else if !e.call.LogoutCall? {
      OthersTouchNone(c, s, e);
    }
  }

  lemma RefreshUses(c: Config, s: Store, token: Secret, now: Time, h: Digest)
    requires h in s.refreshes && s.refreshes[h].usedAt.None? && h != Sha256(Issued(Orr, s.next))
    ensures var o := RefreshSession(c, s, token, now);
      h in o.store.refreshes && (o.store.refreshes[h].usedAt.Some? <==> token == h.of && o.reply.SignedIn?)
  {
  }

  lemma {:induction false} UsedByRefresh(c: Config, r: Run, i: nat, j: nat, token: Secret)
    requires Honest(c, r) && i < j <= |r.events|
    requires Sha256(token) in StateAt(c, r, i + 1).refreshes && StateAt(c, r, i + 1).refreshes[Sha256(token)].usedAt.None?
    ensures Sha256(token) in StateAt(c, r, j).refreshes
    ensures StateAt(c, r, j).refreshes[Sha256(token)].usedAt.Some? <==> RefreshedBetween(c, r, i, j, token)
    decreases j
  {
    hide Honest, StateAt, RefreshedWith;
    RefreshForward(c, r, i + 1, j, Sha256(token));
    if i + 1 < j {
      UsedByRefresh(c, r, i, j - 1, token);
      RefreshForward(c, r, j - 1, j, Sha256(token));
      UsedAt(c, r, j - 1, token);
    } else {
      assert !RefreshedBetween(c, r, i, j, token);
    }
  }

  lemma UsedAt(c: Config, r: Run, k: nat, token: Secret)
    requires Honest(c, r) && k < |r.events| && Sha256(token) in StateAt(c, r, k).refreshes
    ensures Sha256(token) in StateAt(c, r, k + 1).refreshes
    ensures StateAt(c, r, k).refreshes[Sha256(token)].usedAt.None? ==>
      (StateAt(c, r, k + 1).refreshes[Sha256(token)].usedAt.Some? <==> RefreshedWith(c, r, k, token))
  {
    GoodAt(c, r, k);
    RefreshForward(c, r, k, k + 1, Sha256(token));
    hide Honest, Inv, Step;
    if StateAt(c, r, k).refreshes[Sha256(token)].usedAt.None? { StepUses(c, StateAt(c, r, k), r.events[k], Sha256(token)); }
  }

  /** A refresh token, in any run: from the answer that handed it out it is good for exactly one
      refresh, until the family's expiry, as long as no call has ended the session and the account
      is active when it is presented. */
  lemma RefreshSucceedsIff(c: Config, r: Run, i: nat, j: nat)
    requires Honest(c, r) && HandedOut(c, r, i) && i < j < |r.events| && r.events[j].call == RefreshCall(TokenFrom(c, r, i))
    ensures var cr := OutcomeAt(c, r, i).reply.credentials;
      OutcomeAt(c, r, j).reply.SignedIn? <==>
        && AccountActive(StateAt(c, r, j), cr.userID) && r.events[j].now < cr.refreshExpiresAt
        && !EndedBetween(c, r, i, j, SessionFrom(c, r, i)) && !RefreshedBetween(c, r, i, j, cr.refresh)
  {
    hide Honest, StateAt, OutcomeAt, Inv, RefreshSession, EndedBetween, RefreshedBetween, AccountActive, TokenFrom, SessionFrom;
    var token := TokenFrom(c, r, i);
    HandedOutFacts(c, r, i);
    UsedByRefresh(c, r, i, j, token);
    RefreshForward(c, r, i + 1, j, Sha256(token));
    RevokedByEnd(c, r, i, j, SessionFrom(c, r, i));
    SessionForward(c, r, i + 1, j, SessionFrom(c, r, i));
    RefreshedAtJ(c, r, j, token);
  }

  lemma RefreshedAtJ(c: Config, r: Run, j: nat, token: Secret)
    requires Honest(c, r) && j < |r.events| && r.events[j].call == RefreshCall(token)
    requires ValidToken(token, Orr) && Sha256(token) in StateAt(c, r, j).refreshes
    requires StateAt(c, r, j).refreshes[Sha256(token)].sessionID in StateAt(c, r, j).sessions
    ensures var s := StateAt(c, r, j); var refresh := s.refreshes[Sha256(token)]; var session := s.sessions[refresh.sessionID];
      OutcomeAt(c, r, j).reply.SignedIn? <==>
        refresh.usedAt.None? && session.revokedAt.None? && r.events[j].now < session.refreshExpiresAt && AccountActive(s, session.userID)
  {
    GoodAt(c, r, j);
    hide Honest, StateAt, Inv, RefreshSession, AccountActive;
    RefreshDecides(c, StateAt(c, r, j), token, r.events[j].now);
  }

  /** Signing out with any token a session was ever handed ends that session, used or not. */
  lemma LogoutEndsTheSession(c: Config, r: Run, i: nat, j: nat)
    requires Honest(c, r) && HandedOut(c, r, i) && i < j < |r.events| && r.events[j].call == LogoutCall(TokenFrom(c, r, i))
    ensures SessionFrom(c, r, i) in StateAt(c, r, j + 1).sessions
    ensures StateAt(c, r, j + 1).sessions[SessionFrom(c, r, i)].revokedAt.Some?
  {
    hide Honest, StateAt, OutcomeAt, TokenFrom, SessionFrom, Tells;
    var token := TokenFrom(c, r, i);
    HandedOutFacts(c, r, i);
    RefreshForward(c, r, i + 1, j, Sha256(token));
    SessionForward(c, r, i + 1, j, SessionFrom(c, r, i));
    LogoutAt(c, r, j, token);
  }

  lemma LogoutAt(c: Config, r: Run, j: nat, token: Secret)
    requires j < |r.events| && r.events[j].call == LogoutCall(token) && ValidToken(token, Orr) && Sha256(token) in StateAt(c, r, j).refreshes
    requires StateAt(c, r, j).refreshes[Sha256(token)].sessionID in StateAt(c, r, j).sessions
    ensures var sid := StateAt(c, r, j).refreshes[Sha256(token)].sessionID;
      sid in StateAt(c, r, j + 1).sessions && StateAt(c, r, j + 1).sessions[sid].revokedAt.Some?
  {
    hide Logout;
    LogoutRevokes(StateAt(c, r, j), token, r.events[j].now);
  }

  lemma LogoutRevokes(s: Store, token: Secret, now: Time)
    requires ValidToken(token, Orr) && Sha256(token) in s.refreshes && s.refreshes[Sha256(token)].sessionID in s.sessions
    ensures var o, sid := Logout(s, token, now), s.refreshes[Sha256(token)].sessionID;
      && o.reply == LoggedOut && sid in o.store.sessions && o.store.sessions[sid].revokedAt.Some? && o.store.refreshes == s.refreshes
      && o.store.sessions == s.sessions[sid := o.store.sessions[sid]]
      && o.announced == if s.sessions[sid].revokedAt.Some? then None else Some(Announcement(s.sessions[sid].userID, sid, false))
  {
  }

  /** The access the answer speaks of: until the next refresh of the session it authorizes the account
      while that is active, the session has not been ended and its time has not come. */
  lemma SessionAuthorizesIff(c: Config, r: Run, i: nat, now: Time)
    requires Honest(c, r) && HandedOut(c, r, i)
    ensures var cr := OutcomeAt(c, r, i).reply.credentials;
      SessionActive(StateAt(c, r, i + 1), cr.userID, SessionFrom(c, r, i), now) <==>
        AccountActive(StateAt(c, r, i + 1), cr.userID) && now < cr.accessExpiresAt
  {
    hide Honest, StateAt, OutcomeAt, TokenFrom, SessionFrom, AccountActive;
    HandedOutFacts(c, r, i);
  }
}
