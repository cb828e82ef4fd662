/** Mailed codes and guesses against them over whole runs of the identity service. */
module VerificationRuns {
  import opened ConnectorTypes
  import opened IdentityStore
  import opened IdentitySpec
  import opened IdentityHistory

  // ---------------------------------------------------------------- one call, one row

  lemma SameRow(s: Store, t: Store, e: Event, u: nat)
    requires t.verifications == s.verifications
    ensures RowStep(s, t, e, u)
  {
  }

  lemma RegisterStep(s: Store, e: Event, u: nat)
    requires e.call.RegisterCall? && (u in s.verifications ==> u < s.next)
    ensures RowStep(s, Register(s, e.call.email, e.call.password, e.call.valid, e.call.code, e.now).store, e, u)
  {
    hide UserByEmail;
  }

  lemma LoginStep(c: Config, s: Store, e: Event, u: nat)
    requires e.call.LoginCall?
    ensures RowStep(s, Login(c, s, e.call.seen, e.call.password, e.call.code, e.now).store, e, u)
  {
    hide Guessed, Dropped;
  }

  lemma VerifyStep(c: Config, s: Store, e: Event, u: nat)
    requires e.call.VerifyEmailCall? && TicketsUnique(s.verifications)
    ensures RowStep(s, VerifyEmail(c, s, e.call.ticket, e.call.digits, e.now).store, e, u)
  {
    hide TicketsUnique, Reticketed, Mailed;
  }

  lemma ResendStep(s: Store, e: Event, u: nat)
    requires e.call.ResendCall?
    ensures RowStep(s, ResendVerification(s, e.call.ticket, e.call.code, e.now).store, e, u)
  {
    hide Guessed, Dropped, Reticketed;
  }

  lemma GoogleStep(c: Config, s: Store, e: Event, u: nat)
    requires e.call.GoogleCall?
    ensures RowStep(s, GoogleAttempt(c, s, e.call.subject, e.call.email, e.call.missed, e.now).store, e, u)
  {
    hide GoogleAttempt, Guessed, Mailed, Reticketed;
    GoogleRows(c, s, e.call.subject, e.call.email, e.call.missed, e.now);
  }

  /** Everything one call can do to an account's verification row. */
  lemma StepRow(c: Config, s: Store, e: Event, u: nat)
    requires Inv(c, s)
    ensures RowStep(s, Step(c, s, e).store, e, u)
  {
    KnownUsers(c, s, u);
    hide Inv, RowStep, Register, Login, VerifyEmail, ResendVerification, RefreshSession, Logout, GoogleAttempt, TicketsUnique;
    match e.call
    case RegisterCall(_, _, _, _) => RegisterStep(s, e, u);
    case LoginCall(_, _, _) => LoginStep(c, s, e, u);
    case VerifyEmailCall(_, _) => VerifyStep(c, s, e, u);
    case ResendCall(_, _) => ResendStep(s, e, u);
    case RefreshCall(token) =>
      RefreshRows(c, s, token, e.now);
      SameRow(s, Step(c, s, e).store, e, u);
    case LogoutCall(token) =>
      LogoutRows(s, token, e.now);
      SameRow(s, Step(c, s, e).store, e, u);
    case GoogleCall(_, _, _) => GoogleStep(c, s, e, u);
    case OperatorCall(_, _) => SameRow(s, Step(c, s, e).store, e, u);
  }

  lemma KnownUsers(c: Config, s: Store, u: nat)
    requires Inv(c, s)
    ensures TicketsUnique(s.verifications) && (u in s.verifications ==> u < s.next)
  {
    hide TicketsUnique, SessionsOk, OneUnused, LinksOk;
  }

  // ---------------------------------------------------------------- counting along a run

  ghost predicate GuessAt(c: Config, r: Run, k: nat, u: nat)
    requires k < |r.events|
  {
    Guessed(StateAt(c, r, k), StateAt(c, r, k + 1), r.events[k], u)
  }

  ghost predicate MailAt(c: Config, r: Run, k: nat, u: nat)
    requires k < |r.events|
  {
    Mailed(StateAt(c, r, k), StateAt(c, r, k + 1), r.events[k], u)
  }

  /** Wrong guesses committed against an account by the events from i up to j. */
  ghost function Guesses(c: Config, r: Run, i: nat, j: nat, u: nat): nat
    requires i <= j <= |r.events|
  {
    if i == j then 0 else Guesses(c, r, i, j - 1, u) + if GuessAt(c, r, j - 1, u) then 1 else 0
  }

  /** Codes mailed to an account by those events. */
  ghost function Mailings(c: Config, r: Run, i: nat, j: nat, u: nat): nat
    requires i <= j <= |r.events|
  {
    if i == j then 0 else Mailings(c, r, i, j - 1, u) + if MailAt(c, r, j - 1, u) then 1 else 0
  }

  ghost function Attempts(c: Config, r: Run, i: nat, u: nat): nat
    requires i <= |r.events|
  {
    if u in StateAt(c, r, i).verifications then StateAt(c, r, i).verifications[u].attempts else 0
  }

  lemma RowAt(c: Config, r: Run, k: nat, u: nat)
    requires Honest(c, r) && k < |r.events|
    ensures RowStep(StateAt(c, r, k), StateAt(c, r, k + 1), r.events[k], u)
    ensures Attempts(c, r, k, u) <= MAX_ATTEMPTS && Attempts(c, r, k + 1, u) <= MAX_ATTEMPTS
    ensures u in StateAt(c, r, k).verifications ==>
      StateAt(c, r, k).verifications[u].createdAt + CODE_LIFETIME <= StateAt(c, r, k).verifications[u].expiresAt
  {
    hide Honest, Step, RowStep;
    GoodAt(c, r, k);
    GoodAt(c, r, k + 1);
    StepRow(c, StateAt(c, r, k), r.events[k], u);
    hide SessionsOk, OneUnused, LinksOk, UsersOk, TicketsUnique;
  }

  /** As long as no new code is mailed, at most eight wrong guesses commit, however often sign-ins
      rotate the ticket: the count stands in the row and moves with the code. */
  lemma {:induction false} EightGuessesPerCode(c: Config, r: Run, i: nat, j: nat, u: nat)
    requires Honest(c, r) && i <= j <= |r.events| && Mailings(c, r, i, j, u) == 0
    ensures Attempts(c, r, i, u) + Guesses(c, r, i, j, u) <= MAX_ATTEMPTS
    ensures u in StateAt(c, r, j).verifications ==> Attempts(c, r, i, u) + Guesses(c, r, i, j, u) == Attempts(c, r, j, u)
    decreases j
  {
    hide Honest, StateAt;
    if i < j {
      EightGuessesPerCode(c, r, i, j - 1, u);
      RowAt(c, r, j - 1, u);
    } else {
      AttemptsAt(c, r, i, u);
    }
  }

  lemma AttemptsAt(c: Config, r: Run, i: nat, u: nat)
    requires Honest(c, r) && i <= |r.events|
    ensures Attempts(c, r, i, u) <= MAX_ATTEMPTS
  {
    hide Honest, StateAt, SessionsOk, OneUnused, LinksOk, UsersOk, TicketsUnique;
    GoodAt(c, r, i);
  }

  // ---------------------------------------------------------------- pending accounts

  ghost predicate PendingAt(c: Config, r: Run, i: nat, u: nat)
    requires i <= |r.events|
  {
    u in StateAt(c, r, i).users && StateAt(c, r, i).users[u].status.Pending?
  }

  /** Nothing ever becomes pending again, so an account pending now lost no row before. */
  lemma NotDropped(c: Config, r: Run, k: nat, j: nat, u: nat)
    requires Honest(c, r) && k < j <= |r.events| && PendingAt(c, r, j, u)
    ensures !Dropped(StateAt(c, r, k + 1), u)
  {
    hide Honest, StateAt;
    MovesForward(c, r, k + 1, j);
  }

  /** A pending account's row exists once its first code has been mailed, and each further code
      comes at least thirty seconds after the one before. */
  lemma CodesAreApart(c: Config, r: Run, k: nat, u: nat)
    requires Honest(c, r) && k < |r.events| && MailAt(c, r, k, u) && u in StateAt(c, r, k).verifications
    ensures u in StateAt(c, r, k + 1).verifications
    ensures StateAt(c, r, k + 1).verifications[u].createdAt >= StateAt(c, r, k).verifications[u].createdAt + RESEND_INTERVAL
  {
    hide Honest, StateAt;
    RowAt(c, r, k, u);
  }

  lemma {:induction false} MailingsTakeTime(c: Config, r: Run, i: nat, j: nat, e: nat, u: nat)
    requires Honest(c, r) && i <= j <= e <= |r.events| && PendingAt(c, r, e, u) && i < |r.events|
    ensures var n := Mailings(c, r, i, j, u); n > 0 ==>
      && u in StateAt(c, r, j).verifications && j > 0
      && r.events[i].now + RESEND_INTERVAL * (n - 1) <= StateAt(c, r, j).verifications[u].createdAt <= r.events[j - 1].now
    decreases j
  {
    hide StateAt;
    if i < j {
      MailingsTakeTime(c, r, i, j - 1, e, u);
      assert r.events[i].now <= r.events[j - 1].now && (j > 1 ==> r.events[j - 2].now <= r.events[j - 1].now);
      hide Honest;
      RowAt(c, r, j - 1, u);
      NotDropped(c, r, j - 1, e, u);
      if MailAt(c, r, j - 1, u) && u in StateAt(c, r, j - 1).verifications { CodesAreApart(c, r, j - 1, u); }
    }
  }

  lemma {:induction false} GuessesPerMailing(c: Config, r: Run, i: nat, j: nat, e: nat, u: nat)
    requires Honest(c, r) && i <= j <= e <= |r.events| && PendingAt(c, r, e, u)
    ensures Guesses(c, r, i, j, u) + Attempts(c, r, i, u) <= Attempts(c, r, j, u) + MAX_ATTEMPTS * Mailings(c, r, i, j, u)
    decreases j
  {
    hide Honest, StateAt;
    if i < j {
      GuessesPerMailing(c, r, i, j - 1, e, u);
      RowAt(c, r, j - 1, u);
      NotDropped(c, r, j - 1, e, u);
    }
  }

  lemma Whole(n: nat, span: int)
    requires RESEND_INTERVAL * (n - 1) <= span && 0 <= span
    ensures n <= span / RESEND_INTERVAL + 1
  {
  }

  /** Against an account that is still pending, the wrong guesses of any stretch of a run are at
      most eight for each half minute it spans and sixteen more, whatever mix of sign-ins and
      resends hands out tickets. */
  lemma GuessingIsBounded(c: Config, r: Run, i: nat, j: nat, u: nat)
    requires Honest(c, r) && i < j <= |r.events| && PendingAt(c, r, j, u)
    ensures Guesses(c, r, i, j, u) <= 8 * ((r.events[j - 1].now - r.events[i].now) / RESEND_INTERVAL + 2)
  {
    hide StateAt, Guesses, Mailings;
    assert r.events[i].now <= r.events[j - 1].now;
    hide Honest;
    var n, span := Mailings(c, r, i, j, u), r.events[j - 1].now - r.events[i].now;
    MailingsTakeTime(c, r, i, j, j, u);
    GuessesPerMailing(c, r, i, j, j, u);
    AttemptsAt(c, r, j, u);
    if n > 0 { Whole(n, span); }
    assert n <= span / RESEND_INTERVAL + 1;
  }

  // ---------------------------------------------------------------- acceptance

  lemma VerifyTells(c: Config, s: Store, ticket: Secret, digits: string, now: Time)
    requires VerifyEmail(c, s, ticket, digits, now).reply.SignedIn?
    ensures var o := VerifyEmail(c, s, ticket, digits, now); var u := o.reply.credentials.userID;
      && u in s.verifications && s.verifications[u].ticketHash == Sha256(ticket) && s.verifications[u].codeHash == Sha256(Code(digits))
      && now < s.verifications[u].expiresAt && s.verifications[u].attempts < MAX_ATTEMPTS
      && u in s.users && s.users[u].status.Pending? && u in o.store.users && o.store.users[u] == Activated(s.users[u], now)
      && u !in o.store.verifications
  {
    hide ByTicket;
  }

  /** The mailing behind a row, and that its code has been the row's ever since. */
  lemma {:induction false} FindMailing(c: Config, r: Run, n: nat, u: nat) returns (k: nat)
    requires Honest(c, r) && n <= |r.events| && u in StateAt(c, r, n).verifications
    ensures k < n && MailAt(c, r, k, u) && r.events[k].now == StateAt(c, r, n).verifications[u].createdAt
    ensures u in StateAt(c, r, k + 1).verifications
    ensures StateAt(c, r, k + 1).verifications[u].codeHash == StateAt(c, r, n).verifications[u].codeHash
    decreases n
  {
    StartsEmpty(c, r);
    hide StateAt, Honest;
    k := n - 1;
    RowAt(c, r, n - 1, u);
    if !MailAt(c, r, n - 1, u) {
      k := FindMailing(c, r, n - 1, u);
    }
  }

  lemma StartsEmpty(c: Config, r: Run)
    requires Honest(c, r)
    ensures StateAt(c, r, 0).verifications == map[]
  {
  }

  /** A code is accepted only for a pending account, only within ten and a half minutes of being
      mailed, and with fewer than eight wrong guesses behind it; accepting it removes it. */
  lemma AcceptedInTime(c: Config, r: Run, i: nat) returns (k: nat)
    requires Honest(c, r) && i < |r.events| && r.events[i].call.VerifyEmailCall? && OutcomeAt(c, r, i).reply.SignedIn?
    ensures var u := OutcomeAt(c, r, i).reply.credentials.userID;
      && k < i && MailAt(c, r, k, u) && u in StateAt(c, r, k + 1).verifications
      && StateAt(c, r, k + 1).verifications[u].codeHash == Sha256(Code(r.events[i].call.digits))
      && r.events[i].now < r.events[k].now + CODE_LIFETIME + RESEND_INTERVAL
      && PendingAt(c, r, i, u) && !PendingAt(c, r, i + 1, u) && u !in StateAt(c, r, i + 1).verifications
      && Attempts(c, r, i, u) < MAX_ATTEMPTS
  {
    hide Honest, VerifyEmail, MailAt;
    VerifyTells(c, StateAt(c, r, i), r.events[i].call.ticket, r.events[i].call.digits, r.events[i].now);
    var u := OutcomeAt(c, r, i).reply.credentials.userID;
    k := FindMailing(c, r, i, u);
    GoodAt(c, r, i);
    hide SessionsOk, OneUnused, LinksOk, UsersOk, TicketsUnique;
  }

  // ---------------------------------------------------------------- the decoy

  /** Every ticket in the table was there before the call or is the one it drew. */
  predicate TicketsOldOrNew(s: Store, t: Store) {
    forall u :: u in t.verifications ==>
      || (u in s.verifications && t.verifications[u].ticketHash == s.verifications[u].ticketHash)
      || t.verifications[u].ticketHash == Sha256(Issued(Vft, s.next))
  }

  lemma RegisterTickets(s: Store, email: string, password: string, valid: bool, code: string, now: Time)
    ensures TicketsOldOrNew(s, Register(s, email, password, valid, code, now).store)
  {
    hide UserByEmail;
  }

  lemma LoginTickets(c: Config, s: Store, seen: Option<(nat, User)>, password: string, code: string, now: Time)
    ensures TicketsOldOrNew(s, Login(c, s, seen, password, code, now).store)
  {
  }

  lemma VerifyTickets(c: Config, s: Store, ticket: Secret, digits: string, now: Time)
    ensures TicketsOldOrNew(s, VerifyEmail(c, s, ticket, digits, now).store)
  {
    hide ByTicket;
  }

  lemma ResendTickets(s: Store, ticket: Secret, code: string, now: Time)
    ensures TicketsOldOrNew(s, ResendVerification(s, ticket, code, now).store)
  {
    hide ByTicket;
  }

  lemma StepTickets(c: Config, s: Store, e: Event)
    ensures TicketsOldOrNew(s, Step(c, s, e).store)
  {
    hide RefreshSession, Logout, GoogleAttempt, VerifyEmail, ResendVerification, Register, Login;
    match e.call
    case RegisterCall(email, password, valid, code) => RegisterTickets(s, email, password, valid, code, e.now);
    case LoginCall(seen, password, code) => LoginTickets(c, s, seen, password, code, e.now);
    case VerifyEmailCall(ticket, digits) => VerifyTickets(c, s, ticket, digits, e.now);
    case ResendCall(ticket, code) => ResendTickets(s, ticket, code, e.now);
    case RefreshCall(token) => RefreshRows(c, s, token, e.now);
    case LogoutCall(token) => LogoutRows(s, token, e.now);
    case GoogleCall(subject, email, missed) => GoogleRows(c, s, subject, email, missed, e.now);
    case OperatorCall(u, enable) =>
  }

  /** A ticket that has been drawn and stands in no row never will. */
  ghost predicate Stray(s: Store, draw: nat) {
    draw < s.next && forall u :: u in s.verifications ==> s.verifications[u].ticketHash != Sha256(Issued(Vft, draw))
  }

  lemma {:induction false} StrayStays(c: Config, r: Run, i: nat, j: nat, draw: nat)
    requires Honest(c, r) && i <= j <= |r.events| && Stray(StateAt(c, r, i), draw)
    ensures Stray(StateAt(c, r, j), draw)
    decreases j
  {
    hide Honest, Step;
    if i < j {
      StrayStays(c, r, i, j - 1, draw);
      StepTickets(c, StateAt(c, r, j - 1), r.events[j - 1]);
      MovesForward(c, r, j - 1, j);
    }
  }

  lemma VerifyAnswers(c: Config, s: Store, ticket: Secret, digits: string, now: Time)
    requires VerificationsOk(s)
    ensures var reply := VerifyEmail(c, s, ticket, digits, now).reply;
      && (reply.SignedIn? || reply == Refused(InvalidVerificationCode))
      && (ticket.Issued? && Stray(s, ticket.draw) ==> reply == Refused(InvalidVerificationCode))
  {
  }

  /** Whether an address is taken cannot be read off a registration, nor off guesses made with the
      ticket it handed out: the ticket and its expiry are the same either way, and a guess that does
      not sign in is answered alike, with a decoy ticket always. */
  lemma DecoyLooksReal(c: Config, r: Run, i: nat, j: nat)
    requires Honest(c, r) && i < j < |r.events|
    requires r.events[i].call.RegisterCall? && r.events[i].call.valid && r.events[j].call.VerifyEmailCall?
    requires r.events[j].call.ticket == Issued(Vft, StateAt(c, r, i).next)
    ensures OutcomeAt(c, r, i).reply
      == Challenged(StateAt(c, r, i).next, r.events[j].call.ticket, r.events[i].now + CODE_LIFETIME)
    ensures OutcomeAt(c, r, j).reply.SignedIn? || OutcomeAt(c, r, j).reply == Refused(InvalidVerificationCode)
    ensures UserByEmail(StateAt(c, r, i).users, r.events[i].call.email).Some? ==>
      OutcomeAt(c, r, j).reply == Refused(InvalidVerificationCode)
  {
    GoodAt(c, r, i);
    GoodAt(c, r, j);
    hide Honest, UserByEmail, VerifyEmail, UsersOk, TicketsUnique, SessionsOk, OneUnused, LinksOk;
    var s, e := StateAt(c, r, i), r.events[i];
    if UserByEmail(s.users, e.call.email).Some? {
      assert Stray(StateAt(c, r, i + 1), s.next);
      StrayStays(c, r, i + 1, j, s.next);
    }
    VerifyAnswers(c, StateAt(c, r, j), r.events[j].call.ticket, r.events[j].call.digits, r.events[j].now);
  }
}
