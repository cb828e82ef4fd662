/** The identity tables and what every operation keeps true of them
    (internal/identity/types.go, internal/identity/postgres/store.go, models.go). */
module IdentityStore {
  import opened ConnectorTypes

  const SECOND: Time := 1_000_000_000
  const CODE_LIFETIME: Time := 600 * SECOND
  const RESEND_INTERVAL: Time := 30 * SECOND
  const MAX_ATTEMPTS: nat := 8

  datatype Prefix = Vft | Ora | Orr

  /** Random values are numbered in the order they are drawn; SHA-256 is taken as injective. */
  datatype Secret = Issued(prefix: Prefix, draw: nat) | Code(digits: string) | Other(looksLike: Option<Prefix>, text: string)

  datatype Digest = Sha256(of: Secret)

  predicate ValidToken(secret: Secret, prefix: Prefix) {
    match secret
    case Issued(p, _) => p == prefix
    case Code(_) => false
    case Other(p, _) => p == Some(prefix)
  }

  /** A stored hash matches the one password it was made from. */
  datatype PasswordHash = Argon2id(password: string)

  datatype Status = Pending | Active | Disabled

  datatype User = User(email: string, passwordHash: Option<PasswordHash>, status: Status, emailVerifiedAt: Option<Time>, createdAt: Time)

  /** `createdAt` is when the code was mailed; a ticket rotation keeps it with the code. */
  datatype Verification = Verification(ticketHash: Digest, codeHash: Digest, attempts: nat, expiresAt: Time, createdAt: Time)

  datatype Session = Session(
    userID: nat,
    accessHash: Digest,
    accessExpiresAt: Time,
    refreshExpiresAt: Time,
    createdAt: Time,
    revokedAt: Option<Time>
  )

  datatype Refresh = Refresh(sessionID: nat, expiresAt: Time, usedAt: Option<Time>)

  datatype Link = Link(userID: nat, createdAt: Time, lastAuthenticatedAt: Time)

  datatype AuditEvent = AuditEvent(kind: string, userID: Option<nat>, sessionID: Option<nat>, at: Time)

  datatype Store = Store(
    users: map<nat, User>,
    verifications: map<nat, Verification>,   // by user
    sessions: map<nat, Session>,
    refreshes: map<Digest, Refresh>,
    links: map<string, Link>,                // by subject
    audit: seq<AuditEvent>,
    next: nat                                // the next random draw or row ID
  )

  type Lifetime = d: int | 0 < d witness 1

  datatype Config = Config(accessLifetime: Lifetime, refreshLifetime: Lifetime)

  // ---------------------------------------------------------------- lookups by a unique column

  ghost function UserByEmail(users: map<nat, User>, email: string): (r: Option<nat>)
    ensures r.Some? ==> r.value in users && users[r.value].email == email
    ensures r.None? ==> forall i :: i in users ==> users[i].email != email
  {
    if exists i :: i in users && users[i].email == email then
      var i :| i in users && users[i].email == email; Some(i)
    else None
  }

  ghost function ByTicket(verifications: map<nat, Verification>, h: Digest): (r: Option<nat>)
    ensures r.Some? ==> r.value in verifications && verifications[r.value].ticketHash == h
    ensures r.None? ==> forall u :: u in verifications ==> verifications[u].ticketHash != h
  {
    if exists u :: u in verifications && verifications[u].ticketHash == h then
      var u :| u in verifications && verifications[u].ticketHash == h; Some(u)
    else None
  }

  predicate HasLink(links: map<string, Link>, userID: nat) {
    exists subject :: subject in links && links[subject].userID == userID
  }

  // ---------------------------------------------------------------- invariants

  ghost predicate EmailsUnique(users: map<nat, User>) {
    forall i, j :: i in users && j in users && i != j ==> users[i].email != users[j].email
  }

  /** A pending account has its verification row; rows count at most eight wrong guesses, expire ten
      minutes after their ticket was issued, and keep a code for less than thirty seconds after that. */
  ghost predicate VerificationsOk(s: Store) {
    && (forall u :: u in s.users && s.users[u].status.Pending? ==> u in s.verifications)
    && (forall u :: u in s.verifications ==>
         && u in s.users && s.verifications[u].attempts <= MAX_ATTEMPTS
         && s.verifications[u].createdAt + CODE_LIFETIME <= s.verifications[u].expiresAt
         && s.verifications[u].expiresAt < s.verifications[u].createdAt + CODE_LIFETIME + RESEND_INTERVAL
         && s.verifications[u].ticketHash.of.Issued? && s.verifications[u].ticketHash.of.draw < s.next)
  }

  ghost predicate TicketsUnique(verifications: map<nat, Verification>) {
    forall u, v :: u in verifications && v in verifications && u != v ==> verifications[u].ticketHash != verifications[v].ticketHash
  }

  predicate Unused(s: Store, h: Digest, session: nat) {
    h in s.refreshes && s.refreshes[h].sessionID == session && s.refreshes[h].usedAt.None?
  }

  ghost predicate HasUnused(s: Store, session: nat) { exists h :: Unused(s, h, session) }

  /** Sessions belong to accounts that are not pending and hold exactly one unused refresh
      credential each. */
  ghost predicate SessionsOk(c: Config, s: Store) { SessionRowsOk(c, s) && RefreshRowsOk(s) }

  ghost predicate SessionRowsOk(c: Config, s: Store) {
    forall i :: i in s.sessions ==>
      && i < s.next && s.sessions[i].userID in s.users && !s.users[s.sessions[i].userID].status.Pending?
      && s.sessions[i].accessExpiresAt < s.sessions[i].refreshExpiresAt + c.accessLifetime
  }

  ghost predicate RefreshRowsOk(s: Store) {
    forall h :: h in s.refreshes ==>
      && h.of.Issued? && h.of.prefix.Orr? && h.of.draw < s.next && s.refreshes[h].sessionID in s.sessions
      && s.refreshes[h].expiresAt == s.sessions[s.refreshes[h].sessionID].refreshExpiresAt
  }

  ghost predicate OneUnused(s: Store) {
    && (forall i :: i in s.sessions ==> HasUnused(s, i))
    && (forall g, h, i :: Unused(s, g, i) && Unused(s, h, i) ==> g == h)
  }

  /** Linked accounts are verified and not pending, and no account has two links. */
  ghost predicate LinksOk(s: Store) {
    && (forall x :: x in s.links ==>
         && s.links[x].userID in s.users && !s.users[s.links[x].userID].status.Pending?
         && s.users[s.links[x].userID].emailVerifiedAt.Some?)
    && (forall x, y :: x in s.links && y in s.links && s.links[x].userID == s.links[y].userID ==> x == y)
  }

  ghost predicate UsersOk(s: Store) {
    EmailsUnique(s.users) && forall u :: u in s.users ==> u < s.next
  }

  ghost predicate Inv(c: Config, s: Store) {
    UsersOk(s) && VerificationsOk(s) && TicketsUnique(s.verifications) && SessionsOk(c, s) && OneUnused(s) && LinksOk(s)
  }

  /** Accounts that predate verification and linking may exist from the start, verified or not. */
  ghost predicate Initial(s: Store) {
    && UsersOk(s) && (forall u :: u in s.users ==> !s.users[u].status.Pending?)
    && s.verifications == map[] && s.sessions == map[] && s.refreshes == map[] && s.links == map[]
  }

  lemma InitialIsOk(c: Config, s: Store)
    requires Initial(s)
    ensures Inv(c, s)
  {
  }

  // ---------------------------------------------------------------- what later states keep

  predicate UserLater(a: User, b: User) {
    && b.email == a.email && b.createdAt == a.createdAt
    && (!a.status.Pending? ==> !b.status.Pending?)
    && (a.emailVerifiedAt.Some? ==> b.emailVerifiedAt.Some?)
    && (b.passwordHash == a.passwordHash || b.passwordHash == None)
  }

  predicate SessionLater(a: Session, b: Session) {
    && b.userID == a.userID && b.refreshExpiresAt == a.refreshExpiresAt && b.createdAt == a.createdAt
    && (a.revokedAt.Some? ==> b == a)
  }

  predicate RefreshLater(a: Refresh, b: Refresh) {
    b == a.(usedAt := b.usedAt) && (a.usedAt.Some? ==> b == a)
  }

  ghost predicate UsersLater(s: Store, t: Store) {
    forall u :: u in s.users ==> u in t.users && UserLater(s.users[u], t.users[u])
  }

  ghost predicate SessionsLater(s: Store, t: Store) {
    && (forall i :: i in s.sessions ==> i in t.sessions && SessionLater(s.sessions[i], t.sessions[i]))
    && (forall h :: h in s.refreshes ==> h in t.refreshes && RefreshLater(s.refreshes[h], t.refreshes[h]))
  }

  ghost predicate LinksLater(s: Store, t: Store) {
    forall x :: x in s.links ==> x in t.links && t.links[x].userID == s.links[x].userID
  }

  /** A session ends when, or before, its last unused credential does: none is unused again. */
  ghost predicate Later(s: Store, t: Store) {
    UsersLater(s, t) && SessionsLater(s, t) && LinksLater(s, t) && s.next <= t.next && s.audit <= t.audit
  }

  lemma LaterRefl(s: Store)
    ensures Later(s, s)
  {
  }

  lemma SessionsLaterTrans(s: Store, t: Store, u: Store)
    requires SessionsLater(s, t) && SessionsLater(t, u)
    ensures SessionsLater(s, u)
  {
    forall i | i in s.sessions ensures i in u.sessions && SessionLater(s.sessions[i], u.sessions[i]) {
      assert SessionLater(s.sessions[i], t.sessions[i]) && SessionLater(t.sessions[i], u.sessions[i]);
    }
    forall h | h in s.refreshes ensures h in u.refreshes && RefreshLater(s.refreshes[h], u.refreshes[h]) {
      assert RefreshLater(s.refreshes[h], t.refreshes[h]) && RefreshLater(t.refreshes[h], u.refreshes[h]);
    }
  }

  lemma UsersLaterTrans(s: Store, t: Store, u: Store)
    requires UsersLater(s, t) && UsersLater(t, u)
    ensures UsersLater(s, u)
  {
    forall i | i in s.users ensures i in u.users && UserLater(s.users[i], u.users[i]) {
      assert UserLater(s.users[i], t.users[i]) && UserLater(t.users[i], u.users[i]);
    }
  }

  lemma LaterTrans(s: Store, t: Store, u: Store)
    requires Later(s, t) && Later(t, u)
    ensures Later(s, u)
  {
    UsersLaterTrans(s, t, u);
    SessionsLaterTrans(s, t, u);
  }
}

/** What each identity call does to the tables, whole or not at all
    (internal/identity/service.go, internal/identity/google.go). */
module IdentitySpec {
  import opened ConnectorTypes
  import opened IdentityStore

  datatype Error =
    | InvalidInput
    | InvalidCredentials
    | InvalidVerificationCode
    | VerificationThrottled
    | InvalidRefresh
    | AccountLinkRequired
    | IdentityAlreadyLinked
    | Conflict
    | NotFound

  /** What a caller who signs in is given. */
  datatype Credentials = Credentials(userID: nat, access: Secret, accessExpiresAt: Time, refresh: Secret, refreshExpiresAt: Time)

  datatype Reply =
    | Refused(error: Error)
    | Challenged(userID: nat, ticket: Secret, ticketExpiresAt: Time)
    | SignedIn(credentials: Credentials)
    | LoggedOut
    | Edited               // an operator's change, which is no call of the service

  /** OnSessionRevoked's arguments; it is called after the transaction has committed. */
  datatype Announcement = Announcement(userID: nat, sessionID: nat, accountInactive: bool)

  datatype Outcome = Outcome(store: Store, reply: Reply, announced: Option<Announcement>)

  function Answer(s: Store, reply: Reply): Outcome { Outcome(s, reply, None) }

  // ---------------------------------------------------------------- writes

  function Audit(s: Store, kind: string, userID: Option<nat>, sessionID: Option<nat>, now: Time): Store {
    s.(audit := s.audit + [AuditEvent(kind, userID, sessionID, now)])
  }

  function SetUser(s: Store, u: nat, user: User): Store { s.(users := s.users[u := user]) }

  /** newSessionMaterial and persistSessionMaterial: one session, one unused refresh credential. */
  function StartSession(c: Config, s: Store, userID: nat, kind: string, now: Time): Outcome {
    var sid, access, refresh := s.next, Issued(Ora, s.next), Issued(Orr, s.next);
    var session := Session(userID, Sha256(access), now + c.accessLifetime, now + c.refreshLifetime, now, None);
    var t := s.(sessions := s.sessions[sid := session],
                refreshes := s.refreshes[Sha256(refresh) := Refresh(sid, now + c.refreshLifetime, None)], next := s.next + 1);
    Answer(Audit(t, kind, Some(userID), Some(sid), now),
           SignedIn(Credentials(userID, access, now + c.accessLifetime, refresh, now + c.refreshLifetime)))
  }

  /** newVerificationMaterial: a fresh ticket and a fresh code, no attempts yet. */
  function NewVerification(draw: nat, code: string, now: Time): Verification {
    Verification(Sha256(Issued(Vft, draw)), Sha256(Code(code)), 0, now + CODE_LIFETIME, now)
  }

  /** ReplaceEmailVerification with the ticket numbered `s.next`. */
  function PutVerification(s: Store, u: nat, row: Verification): Store {
    s.(verifications := s.verifications[u := row], next := s.next + 1)
  }

  function Challenge(s: Store, u: nat, now: Time): Reply { Challenged(u, Issued(Vft, s.next), now + CODE_LIFETIME) }

  // ---------------------------------------------------------------- password accounts

  /** `valid` stands for the checks on address, password, client name and disposable domains. */
  ghost function Register(s: Store, email: string, password: string, valid: bool, code: string, now: Time): Outcome {
    if !valid then Answer(s, Refused(InvalidInput))
    else if UserByEmail(s.users, email).Some? then
      // an address already taken is answered like a new one, backed by no row
      Answer(Audit(s, "auth.registration_conflict", None, None, now).(next := s.next + 1), Challenge(s, s.next, now))
    else
      var t := SetUser(s, s.next, User(email, Some(Argon2id(password)), Pending, None, now));
      Answer(Audit(PutVerification(t, s.next, NewVerification(s.next, code, now)), "auth.registration_succeeded", Some(s.next), None, now),
             Challenge(s, s.next, now))
  }

  /** A young, unexpired code is kept together with its attempt count; only the ticket is new. */
  function Reissued(s: Store, u: nat, code: string, now: Time): Verification {
    var row := NewVerification(s.next, code, now);
    if u in s.verifications && now < s.verifications[u].expiresAt && now - s.verifications[u].createdAt < RESEND_INTERVAL then
      row.(codeHash := s.verifications[u].codeHash, createdAt := s.verifications[u].createdAt, attempts := s.verifications[u].attempts)
    else row
  }

  /** `seen` is the account as it was read before the transaction, which may lie behind. */
  function Login(c: Config, s: Store, seen: Option<(nat, User)>, password: string, code: string, now: Time): Outcome {
    if seen.None? || seen.value.1.passwordHash != Some(Argon2id(password)) then Answer(s, Refused(InvalidCredentials))
    else
      var u := seen.value.0;
      match seen.value.1.status
      case Disabled => Answer(s, Refused(InvalidCredentials))
      case Active => StartSession(c, s, u, "auth.login_succeeded", now)
      case Pending =>
        Answer(Audit(PutVerification(s, u, Reissued(s, u, code, now)), "auth.verification_reissued", Some(u), None, now), Challenge(s, u, now))
  }

  function Activated(user: User, now: Time): User { user.(status := Active, emailVerifiedAt := Some(now)) }

  function WithoutVerification(s: Store, u: nat): Store { s.(verifications := s.verifications - {u}) }

  /** The code is compared only while the row is unexpired and has attempts left; a wrong one costs
      an attempt and that commits. */
  ghost function VerifyEmail(c: Config, s: Store, ticket: Secret, code: string, now: Time): Outcome {
    var refused := Answer(s, Refused(InvalidVerificationCode));
    if !ValidToken(ticket, Vft) then refused
    else match ByTicket(s.verifications, Sha256(ticket))
      case None => refused
      case Some(u) =>
        var row := s.verifications[u];
        if row.expiresAt <= now || row.attempts >= MAX_ATTEMPTS then refused
        else if row.codeHash != Sha256(Code(code)) then
          Answer(s.(verifications := s.verifications[u := row.(attempts := row.attempts + 1)]), Refused(InvalidVerificationCode))
        else if u !in s.users then Answer(s, Refused(NotFound))
        else if !s.users[u].status.Pending? then refused
        else StartSession(c, WithoutVerification(SetUser(s, u, Activated(s.users[u], now)), u), u, "auth.email_verified", now)
  }

  ghost function ResendVerification(s: Store, ticket: Secret, code: string, now: Time): Outcome {
    var refused := Answer(s, Refused(InvalidVerificationCode));
    if !ValidToken(ticket, Vft) then refused
    else match ByTicket(s.verifications, Sha256(ticket))
      case None => refused
      case Some(u) =>
        if now - s.verifications[u].createdAt < RESEND_INTERVAL then Answer(s, Refused(VerificationThrottled))
        else if u !in s.users then Answer(s, Refused(NotFound))
        else if !s.users[u].status.Pending? then refused
        else Answer(Audit(PutVerification(s, u, NewVerification(s.next, code, now)), "auth.verification_resent", Some(u), None, now),
                    Challenge(s, u, now))
  }

  // ---------------------------------------------------------------- sessions

  function RevokeSession(s: Store, sid: nat, now: Time): Store
    requires sid in s.sessions
  {
    s.(sessions := s.sessions[sid := s.sessions[sid].(revokedAt := Some(now))])
  }

  function Refreshed(c: Config, s: Store, h: Digest, now: Time): Outcome
    requires h in s.refreshes && s.refreshes[h].sessionID in s.sessions
  {
    var sid := s.refreshes[h].sessionID;
    var session, access, refresh := s.sessions[sid], Issued(Ora, s.next), Issued(Orr, s.next);
    var rotated := session.(accessHash := Sha256(access), accessExpiresAt := now + c.accessLifetime);
    var used := s.refreshes[h := s.refreshes[h].(usedAt := Some(now))];
    var t := s.(sessions := s.sessions[sid := rotated],
                refreshes := used[Sha256(refresh) := Refresh(sid, session.refreshExpiresAt, None)], next := s.next + 1);
    Answer(Audit(t, "auth.refresh_succeeded", Some(session.userID), Some(sid), now),
           SignedIn(Credentials(session.userID, access, now + c.accessLifetime, refresh, session.refreshExpiresAt)))
  }

  function RefreshSession(c: Config, s: Store, token: Secret, now: Time): Outcome {
    var h, refused := Sha256(token), Answer(s, Refused(InvalidRefresh));
    if !ValidToken(token, Orr) || h !in s.refreshes || s.refreshes[h].sessionID !in s.sessions then refused
    else
      var refresh, sid := s.refreshes[h], s.refreshes[h].sessionID;
      var session := s.sessions[sid];
      if session.revokedAt.Some? then refused
      else if refresh.usedAt.Some? then
        Outcome(Audit(RevokeSession(s, sid, now), "auth.refresh_reuse_detected", Some(session.userID), Some(sid), now),
                Refused(InvalidRefresh), Some(Announcement(session.userID, sid, false)))
      else if refresh.expiresAt <= now || session.refreshExpiresAt <= now then
        Outcome(RevokeSession(s, sid, now), Refused(InvalidRefresh), Some(Announcement(session.userID, sid, false)))
      else if session.userID !in s.users then Answer(s, Refused(NotFound))
      else if !s.users[session.userID].status.Active? then
        Outcome(RevokeSession(s, sid, now), Refused(InvalidRefresh), Some(Announcement(session.userID, sid, true)))
      else Refreshed(c, s, h, now)
  }

  function Logout(s: Store, token: Secret, now: Time): Outcome {
    var h := Sha256(token);
    if !ValidToken(token, Orr) || h !in s.refreshes || s.refreshes[h].sessionID !in s.sessions
       || s.sessions[s.refreshes[h].sessionID].revokedAt.Some? then Answer(s, LoggedOut)
    else
      var sid := s.refreshes[h].sessionID;
      var userID := s.sessions[sid].userID;
      Outcome(Audit(RevokeSession(s, sid, now), "auth.logout_succeeded", Some(userID), Some(sid), now), LoggedOut,
              Some(Announcement(userID, sid, false)))
  }

  /** What the connector service asks about the account and session behind a call. */
  predicate AccountActive(s: Store, userID: nat) { userID in s.users && s.users[userID].status.Active? }

  predicate SessionActive(s: Store, userID: nat, sid: nat, now: Time) {
    && AccountActive(s, userID) && sid in s.sessions && s.sessions[sid].userID == userID
    && s.sessions[sid].revokedAt.None? && now < s.sessions[sid].accessExpiresAt
  }

  // ---------------------------------------------------------------- Google

  /** A lookup that finds no row locks none, so the row may have been committed by someone else
      since: which of the three lookups of an attempt missed a row for that reason. */
  datatype Missed = Missed(link: bool, user: bool, ownLink: bool)

  const CURRENT := Missed(false, false, false)

  function GoogleReturning(c: Config, s: Store, subject: string, now: Time): Outcome
    requires subject in s.links
  {
    var u := s.links[subject].userID;
    if u !in s.users then Answer(s, Refused(NotFound))
    else if !s.users[u].status.Active? then Answer(s, Refused(InvalidCredentials))
    else StartSession(c, s.(links := s.links[subject := s.links[subject].(lastAuthenticatedAt := now)]), u,
                      "auth.google_signin_succeeded", now)
  }

  ghost function GoogleNew(c: Config, s: Store, subject: string, email: string, now: Time): Outcome {
    if UserByEmail(s.users, email).Some? || subject in s.links then Answer(s, Refused(Conflict))
    else
      var u := s.next;
      var t := SetUser(s, u, User(email, None, Active, Some(now), now)).(links := s.links[subject := Link(u, now, now)], next := u + 1);
      StartSession(c, t, u, "auth.google_account_created", now)
  }

  function ActivateFederated(s: Store, u: nat, now: Time): Store
    requires u in s.users
  {
    if s.users[u].status.Pending? then
      WithoutVerification(SetUser(s, u, Activated(s.users[u], now).(passwordHash := None)), u)
    else s
  }

  function GoogleRefusal(s: Store, kind: string, u: nat, error: Error, now: Time): Outcome {
    Answer(Audit(s, kind, Some(u), None, now), Refused(error))
  }

  function GoogleLink(c: Config, s: Store, u: nat, subject: string, missedOwn: bool, now: Time): Outcome
    requires u in s.users
  {
    if s.users[u].status.Disabled? then Answer(s, Refused(InvalidCredentials))
    else if s.users[u].status.Active? && s.users[u].emailVerifiedAt.None? then
      GoogleRefusal(s, "auth.google_link_required", u, AccountLinkRequired, now)
    else
      var t := ActivateFederated(s, u, now);
      if HasLink(s.links, u) && !missedOwn then GoogleRefusal(t, "auth.google_identity_conflict", u, IdentityAlreadyLinked, now)
      else if subject in s.links || HasLink(s.links, u) then Answer(s, Refused(Conflict))
      else StartSession(c, t.(links := t.links[subject := Link(u, now, now)]), u, "auth.google_identity_linked", now)
  }

  /** One pass of googleSignIn. */
  ghost function GoogleAttempt(c: Config, s: Store, subject: string, email: string, missed: Missed, now: Time): Outcome {
    if subject in s.links && !missed.link then GoogleReturning(c, s, subject, now)
    else match UserByEmail(s.users, email)
      case None => GoogleNew(c, s, subject, email, now)
      case Some(u) => if missed.user then GoogleNew(c, s, subject, email, now) else GoogleLink(c, s, u, subject, missed.ownLink, now)
  }
}

/** Every identity call keeps the invariant and moves every row forward. */
module IdentityProofs {
  import opened ConnectorTypes
  import opened IdentityStore
  import opened IdentitySpec

  // ---------------------------------------------------------------- parts of the invariant

  lemma UsersStay(s: Store, t: Store)
    requires UsersOk(s) && t.users == s.users && s.next <= t.next
    ensures UsersOk(t) && UsersLater(s, t)
  {
  }

  /** Rows stand as long as accounts stay and none becomes pending. */
  lemma VerificationsStay(s: Store, t: Store)
    requires VerificationsOk(s) && t.verifications == s.verifications && s.next <= t.next
    requires s.users.Keys <= t.users.Keys
    requires forall u :: u in t.users && t.users[u].status.Pending? ==> u in s.users && s.users[u].status.Pending?
    ensures VerificationsOk(t)
  {
  }

  lemma SessionsStay(c: Config, s: Store, t: Store)
    requires SessionsOk(c, s) && OneUnused(s) && t.sessions == s.sessions && t.refreshes == s.refreshes
    requires UsersLater(s, t) && s.next <= t.next
    ensures SessionsOk(c, t) && OneUnused(t) && SessionsLater(s, t)
  {
    OneUnusedStays(s, t);
    hide OneUnused;
    forall i | i in s.sessions ensures t.users[s.sessions[i].userID] == t.users[s.sessions[i].userID] && s.sessions[i].userID in t.users {
      assert UserLater(s.users[s.sessions[i].userID], t.users[s.sessions[i].userID]);
    }
  }

  lemma LinksStay(s: Store, t: Store)
    requires LinksOk(s) && t.links == s.links && UsersLater(s, t)
    ensures LinksOk(t) && LinksLater(s, t)
  {
    forall x | x in s.links ensures s.links[x].userID in t.users && UserLater(s.users[s.links[x].userID], t.users[s.links[x].userID]) {
    }
  }

  lemma OneUnusedStays(s: Store, t: Store)
    requires OneUnused(s) && t.refreshes == s.refreshes && t.sessions.Keys == s.sessions.Keys
    ensures OneUnused(t)
  {
    forall i | i in t.sessions ensures HasUnused(t, i) {
      assert HasUnused(s, i);
      var h :| Unused(s, h, i);
      assert Unused(t, h, i);
    }
    forall g, h, i | Unused(t, g, i) && Unused(t, h, i) ensures g == h {
      assert Unused(s, g, i) && Unused(s, h, i);
    }
  }

  lemma AuditKeeps(c: Config, s: Store, kind: string, userID: Option<nat>, sessionID: Option<nat>, now: Time)
    requires Inv(c, s)
    ensures Inv(c, Audit(s, kind, userID, sessionID, now)) && Later(s, Audit(s, kind, userID, sessionID, now))
  {
    hide UsersOk, VerificationsOk, TicketsUnique, SessionsOk, OneUnused, LinksOk, UsersLater, SessionsLater, LinksLater;
    var t := Audit(s, kind, userID, sessionID, now);
    UsersStay(s, t);
    VerificationsStay(s, t);
    SessionsStay(c, s, t);
    LinksStay(s, t);
  }

  // ---------------------------------------------------------------- sessions

  lemma NewSessionUnused(c: Config, s: Store, t: Store, session: Session)
    requires SessionsOk(c, s) && OneUnused(s)
    requires t.sessions == s.sessions[s.next := session]
    requires t.refreshes == s.refreshes[Sha256(Issued(Orr, s.next)) := Refresh(s.next, session.refreshExpiresAt, None)]
    ensures OneUnused(t)
  {
    var h0 := Sha256(Issued(Orr, s.next));
    assert h0 !in s.refreshes && s.next !in s.sessions;
    assert forall h :: h in s.refreshes ==> s.refreshes[h].sessionID in s.sessions;
    hide SessionsOk;
    forall i | i in t.sessions ensures HasUnused(t, i) {
      if i == s.next {
        assert Unused(t, h0, i);
      } else {
        assert HasUnused(s, i);
        var h :| Unused(s, h, i);
        assert Unused(t, h, i);
      }
    }
    forall g, h, i | Unused(t, g, i) && Unused(t, h, i) ensures g == h {
      assert i != s.next ==> Unused(s, g, i) && Unused(s, h, i);
    }
  }

  lemma NewSessionOk(c: Config, s: Store, t: Store, session: Session)
    requires SessionsOk(c, s) && t.next == s.next + 1 && t.users == s.users
    requires t.sessions == s.sessions[s.next := session]
    requires t.refreshes == s.refreshes[Sha256(Issued(Orr, s.next)) := Refresh(s.next, session.refreshExpiresAt, None)]
    requires session.userID in s.users && !s.users[session.userID].status.Pending?
    requires session.accessExpiresAt < session.refreshExpiresAt + c.accessLifetime
    ensures SessionsOk(c, t) && SessionsLater(s, t)
  {
  }

  lemma StartKeeps(c: Config, s: Store, u: nat, kind: string, now: Time)
    requires Inv(c, s) && u in s.users && !s.users[u].status.Pending?
    ensures var t := StartSession(c, s, u, kind, now).store; Inv(c, t) && Later(s, t)
  {
    hide UsersOk, VerificationsOk, TicketsUnique, SessionsOk, OneUnused, LinksOk, UsersLater, SessionsLater, LinksLater;
    var t := StartSession(c, s, u, kind, now).store;
    NewSessionUnused(c, s, t, t.sessions[s.next]);
    NewSessionOk(c, s, t, t.sessions[s.next]);
    UsersStay(s, t);
    VerificationsStay(s, t);
    LinksStay(s, t);
  }

  lemma RevokedOk(c: Config, s: Store, sid: nat, now: Time)
    requires SessionsOk(c, s) && sid in s.sessions && s.sessions[sid].revokedAt.None?
    ensures SessionsOk(c, RevokeSession(s, sid, now)) && SessionsLater(s, RevokeSession(s, sid, now))
  {
  }

  lemma RevokeKeeps(c: Config, s: Store, sid: nat, now: Time)
    requires Inv(c, s) && sid in s.sessions && s.sessions[sid].revokedAt.None?
    ensures Inv(c, RevokeSession(s, sid, now)) && Later(s, RevokeSession(s, sid, now))
  {
    hide UsersOk, VerificationsOk, TicketsUnique, SessionsOk, OneUnused, LinksOk, UsersLater, SessionsLater, LinksLater;
    var t := RevokeSession(s, sid, now);
    RevokedOk(c, s, sid, now);
    OneUnusedStays(s, t);
    UsersStay(s, t);
    VerificationsStay(s, t);
    LinksStay(s, t);
  }

  /** Using up a session's one unused credential and adding another leaves exactly one. */
  lemma RotatedUnused(c: Config, s: Store, h: Digest, now: Time)
    requires SessionsOk(c, s) && OneUnused(s) && h in s.refreshes && s.refreshes[h].usedAt.None? && s.refreshes[h].sessionID in s.sessions
    ensures OneUnused(Refreshed(c, s, h, now).store)
  {
    var t, sid, issued := Refreshed(c, s, h, now).store, s.refreshes[h].sessionID, Sha256(Issued(Orr, s.next));
    assert issued !in s.refreshes && Unused(s, h, sid);
    hide SessionsOk;
    assert Unused(t, issued, sid);
    forall i | i in t.sessions ensures HasUnused(t, i) {
      if i != sid {
        assert HasUnused(s, i);
        var g :| Unused(s, g, i);
        assert Unused(t, g, i);
      }
    }
    forall f, g, i | Unused(t, f, i) && Unused(t, g, i) ensures f == g {
      assert f != issued ==> Unused(s, f, i);
      assert g != issued ==> Unused(s, g, i);
    }
  }

  /** What a refresh writes, apart from the audit event: the session's access token, the mark on
      the old credential, and the new one. */
  lemma RotatedRows(c: Config, s: Store, h: Digest, now: Time)
    requires SessionsOk(c, s) && h in s.refreshes && s.refreshes[h].sessionID in s.sessions
    ensures var t, sid, issued := Refreshed(c, s, h, now).store, s.refreshes[h].sessionID, Sha256(Issued(Orr, s.next));
      && issued !in s.refreshes && t.users == s.users && t.next == s.next + 1
      && t.sessions == s.sessions[sid := t.sessions[sid]]
      && t.sessions[sid] == s.sessions[sid].(accessHash := t.sessions[sid].accessHash, accessExpiresAt := now + c.accessLifetime)
      && t.refreshes == s.refreshes[h := s.refreshes[h].(usedAt := Some(now))][issued := Refresh(sid, s.sessions[sid].refreshExpiresAt, None)]
  {
  }

  lemma RotatedOk(c: Config, s: Store, h: Digest, now: Time)
    requires SessionsOk(c, s) && h in s.refreshes && s.refreshes[h].usedAt.None? && s.refreshes[h].sessionID in s.sessions
    requires s.sessions[s.refreshes[h].sessionID].revokedAt.None? && now < s.sessions[s.refreshes[h].sessionID].refreshExpiresAt
    ensures var t := Refreshed(c, s, h, now).store; SessionsOk(c, t) && SessionsLater(s, t)
  {
    RotatedSessions(c, s, h, now);
    RotatedRefreshes(c, s, h, now);
    hide *;
  }

  lemma RotatedSessions(c: Config, s: Store, h: Digest, now: Time)
    requires SessionsOk(c, s) && h in s.refreshes && s.refreshes[h].sessionID in s.sessions
    requires s.sessions[s.refreshes[h].sessionID].revokedAt.None? && now < s.sessions[s.refreshes[h].sessionID].refreshExpiresAt
    ensures var t := Refreshed(c, s, h, now).store;
      SessionRowsOk(c, t) && forall i :: i in s.sessions ==> i in t.sessions && SessionLater(s.sessions[i], t.sessions[i])
  {
    RotatedRows(c, s, h, now);
    hide Refreshed, RefreshRowsOk;
  }

  lemma RotatedRefreshes(c: Config, s: Store, h: Digest, now: Time)
    requires SessionsOk(c, s) && h in s.refreshes && s.refreshes[h].usedAt.None? && s.refreshes[h].sessionID in s.sessions
    ensures var t := Refreshed(c, s, h, now).store;
      RefreshRowsOk(t) && forall g :: g in s.refreshes ==> g in t.refreshes && RefreshLater(s.refreshes[g], t.refreshes[g])
  {
    RotatedRows(c, s, h, now);
    hide Refreshed, SessionRowsOk;
  }

  lemma RefreshedKeeps(c: Config, s: Store, h: Digest, now: Time)
    requires Inv(c, s) && h in s.refreshes && s.refreshes[h].usedAt.None? && s.refreshes[h].sessionID in s.sessions
    requires s.sessions[s.refreshes[h].sessionID].revokedAt.None? && now < s.sessions[s.refreshes[h].sessionID].refreshExpiresAt
    ensures var t := Refreshed(c, s, h, now).store; Inv(c, t) && Later(s, t)
  {
    hide UsersOk, VerificationsOk, TicketsUnique, SessionsOk, OneUnused, LinksOk, UsersLater, SessionsLater, LinksLater;
    var t := Refreshed(c, s, h, now).store;
    RotatedUnused(c, s, h, now);
    RotatedOk(c, s, h, now);
    UsersStay(s, t);
    VerificationsStay(s, t);
    LinksStay(s, t);
  }

  lemma RefreshKeeps(c: Config, s: Store, token: Secret, now: Time)
    requires Inv(c, s)
    ensures var t := RefreshSession(c, s, token, now).store; Inv(c, t) && Later(s, t)
  {
    LaterRefl(s);
    hide Inv, Later, Refreshed;
    var h, t := Sha256(token), RefreshSession(c, s, token, now).store;
    if h in s.refreshes && s.refreshes[h].sessionID in s.sessions && s.sessions[s.refreshes[h].sessionID].revokedAt.None? {
      var sid := s.refreshes[h].sessionID;
      var revoked := RevokeSession(s, sid, now);
      RevokeKeeps(c, s, sid, now);
      AuditKeeps(c, revoked, "auth.refresh_reuse_detected", Some(s.sessions[sid].userID), Some(sid), now);
      LaterTrans(s, revoked, Audit(revoked, "auth.refresh_reuse_detected", Some(s.sessions[sid].userID), Some(sid), now));
      if s.refreshes[h].usedAt.None? && now < s.sessions[sid].refreshExpiresAt { RefreshedKeeps(c, s, h, now); }
    }
  }

  lemma LogoutKeeps(c: Config, s: Store, token: Secret, now: Time)
    requires Inv(c, s)
    ensures var t := Logout(s, token, now).store; Inv(c, t) && Later(s, t)
  {
    LaterRefl(s);
    hide Inv, Later;
    var h := Sha256(token);
    if h in s.refreshes && s.refreshes[h].sessionID in s.sessions && s.sessions[s.refreshes[h].sessionID].revokedAt.None? {
      var sid := s.refreshes[h].sessionID;
      var revoked := RevokeSession(s, sid, now);
      RevokeKeeps(c, s, sid, now);
      AuditKeeps(c, revoked, "auth.logout_succeeded", Some(s.sessions[sid].userID), Some(sid), now);
      LaterTrans(s, revoked, Audit(revoked, "auth.logout_succeeded", Some(s.sessions[sid].userID), Some(sid), now));
    }
  }

  // ---------------------------------------------------------------- accounts and verification rows

  /** What a verification row must be when it is written with the ticket numbered `draw`. */
  predicate RowOk(row: Verification, draw: nat) {
    && row.ticketHash == Sha256(Issued(Vft, draw)) && row.attempts <= MAX_ATTEMPTS
    && row.createdAt + CODE_LIFETIME <= row.expiresAt < row.createdAt + CODE_LIFETIME + RESEND_INTERVAL
  }

  lemma PutOk(s: Store, t: Store, u: nat, row: Verification)
    requires VerificationsOk(s) && TicketsUnique(s.verifications) && RowOk(row, s.next) && u in t.users
    requires t.verifications == s.verifications[u := row] && t.next == s.next + 1 && s.users.Keys <= t.users.Keys
    requires forall v :: v in t.users && t.users[v].status.Pending? && v != u ==> v in s.users && s.users[v].status.Pending?
    ensures VerificationsOk(t) && TicketsUnique(t.verifications)
  {
  }

  lemma PutKeeps(c: Config, s: Store, u: nat, row: Verification)
    requires Inv(c, s) && u in s.users && RowOk(row, s.next)
    ensures Inv(c, PutVerification(s, u, row)) && Later(s, PutVerification(s, u, row))
  {
    hide UsersOk, VerificationsOk, TicketsUnique, SessionsOk, OneUnused, LinksOk, UsersLater, SessionsLater, LinksLater;
    var t := PutVerification(s, u, row);
    PutOk(s, t, u, row);
    UsersStay(s, t);
    SessionsStay(c, s, t);
    LinksStay(s, t);
  }

  lemma NewUserOk(s: Store, t: Store, user: User)
    requires UsersOk(s) && UserByEmail(s.users, user.email).None? && t.users == s.users[s.next := user] && t.next == s.next + 1
    ensures UsersOk(t) && UsersLater(s, t) && s.next !in s.users
  {
  }

  lemma NewUserKeeps(c: Config, s: Store, user: User, row: Verification)
    requires Inv(c, s) && UserByEmail(s.users, user.email).None? && RowOk(row, s.next)
    ensures var t := PutVerification(SetUser(s, s.next, user), s.next, row); Inv(c, t) && Later(s, t)
  {
    hide UsersOk, VerificationsOk, TicketsUnique, SessionsOk, OneUnused, LinksOk, UsersLater, SessionsLater, LinksLater;
    var t := PutVerification(SetUser(s, s.next, user), s.next, row);
    NewUserOk(s, t, user);
    PutOk(s, t, s.next, row);
    SessionsStay(c, s, t);
    LinksStay(s, t);
  }

  lemma ReissuedOk(c: Config, s: Store, u: nat, code: string, now: Time)
    requires Inv(c, s) && forall v :: v in s.verifications ==> s.verifications[v].createdAt <= now
    ensures RowOk(Reissued(s, u, code, now), s.next)
  {
    hide OneUnused, SessionsOk, LinksOk, UsersOk, TicketsUnique;
  }

  lemma AttemptOk(s: Store, t: Store, u: nat)
    requires VerificationsOk(s) && TicketsUnique(s.verifications) && u in s.verifications && s.verifications[u].attempts < MAX_ATTEMPTS
    requires t == s.(verifications := s.verifications[u := s.verifications[u].(attempts := s.verifications[u].attempts + 1)])
    ensures VerificationsOk(t) && TicketsUnique(t.verifications)
  {
  }

  lemma AttemptKeeps(c: Config, s: Store, u: nat)
    requires Inv(c, s) && u in s.verifications && s.verifications[u].attempts < MAX_ATTEMPTS
    ensures var t := s.(verifications := s.verifications[u := s.verifications[u].(attempts := s.verifications[u].attempts + 1)]);
      Inv(c, t) && Later(s, t)
  {
    hide UsersOk, VerificationsOk, TicketsUnique, SessionsOk, OneUnused, LinksOk, UsersLater, SessionsLater, LinksLater;
    var t := s.(verifications := s.verifications[u := s.verifications[u].(attempts := s.verifications[u].attempts + 1)]);
    AttemptOk(s, t, u);
    UsersStay(s, t);
    SessionsStay(c, s, t);
    LinksStay(s, t);
  }

  lemma UserWriteOk(s: Store, t: Store, u: nat, user: User)
    requires UsersOk(s) && u in s.users && UserLater(s.users[u], user) && t == SetUser(s, u, user)
    ensures UsersOk(t) && UsersLater(s, t)
  {
  }

  lemma UserWriteKeeps(c: Config, s: Store, u: nat, user: User)
    requires Inv(c, s) && u in s.users && UserLater(s.users[u], user) && (user.status.Pending? ==> s.users[u].status.Pending?)
    ensures Inv(c, SetUser(s, u, user)) && Later(s, SetUser(s, u, user))
  {
    hide UsersOk, VerificationsOk, TicketsUnique, SessionsOk, OneUnused, LinksOk, UsersLater, SessionsLater, LinksLater;
    var t := SetUser(s, u, user);
    UserWriteOk(s, t, u, user);
    VerificationsStay(s, t);
    SessionsStay(c, s, t);
    LinksStay(s, t);
  }

  lemma DropOk(s: Store, u: nat)
    requires VerificationsOk(s) && TicketsUnique(s.verifications) && u in s.users && !s.users[u].status.Pending?
    ensures VerificationsOk(WithoutVerification(s, u)) && TicketsUnique(WithoutVerification(s, u).verifications)
  {
  }

  lemma DropKeeps(c: Config, s: Store, u: nat)
    requires Inv(c, s) && u in s.users && !s.users[u].status.Pending?
    ensures Inv(c, WithoutVerification(s, u)) && Later(s, WithoutVerification(s, u))
  {
    hide UsersOk, VerificationsOk, TicketsUnique, SessionsOk, OneUnused, LinksOk, UsersLater, SessionsLater, LinksLater;
    var t := WithoutVerification(s, u);
    DropOk(s, u);
    UsersStay(s, t);
    SessionsStay(c, s, t);
    LinksStay(s, t);
  }

  lemma DrawKeeps(c: Config, s: Store)
    requires Inv(c, s)
    ensures Inv(c, s.(next := s.next + 1)) && Later(s, s.(next := s.next + 1))
  {
    hide UsersOk, VerificationsOk, TicketsUnique, SessionsOk, OneUnused, LinksOk, UsersLater, SessionsLater, LinksLater;
    var t := s.(next := s.next + 1);
    UsersStay(s, t);
    VerificationsStay(s, t);
    SessionsStay(c, s, t);
    LinksStay(s, t);
  }

  lemma RegisterKeeps(c: Config, s: Store, email: string, password: string, valid: bool, code: string, now: Time)
    requires Inv(c, s)
    ensures var t := Register(s, email, password, valid, code, now).store; Inv(c, t) && Later(s, t)
  {
    LaterRefl(s);
    hide Inv, Later, UserByEmail;
    if UserByEmail(s.users, email).Some? {
      var told := Audit(s, "auth.registration_conflict", None, None, now);
      AuditKeeps(c, s, "auth.registration_conflict", None, None, now);
      DrawKeeps(c, told);
      LaterTrans(s, told, told.(next := told.next + 1));
    } else {
      var user, row := User(email, Some(Argon2id(password)), Pending, None, now), NewVerification(s.next, code, now);
      var t := PutVerification(SetUser(s, s.next, user), s.next, row);
      NewUserKeeps(c, s, user, row);
      AuditKeeps(c, t, "auth.registration_succeeded", Some(s.next), None, now);
      LaterTrans(s, t, Audit(t, "auth.registration_succeeded", Some(s.next), None, now));
    }
  }

  /** What is known of an account read before the transaction. */
  predicate SeenBefore(s: Store, seen: Option<(nat, User)>) {
    seen.Some? ==> seen.value.0 in s.users && UserLater(seen.value.1, s.users[seen.value.0])
  }

  lemma LoginKeeps(c: Config, s: Store, seen: Option<(nat, User)>, password: string, code: string, now: Time)
    requires Inv(c, s) && SeenBefore(s, seen) && forall v :: v in s.verifications ==> s.verifications[v].createdAt <= now
    ensures var t := Login(c, s, seen, password, code, now).store; Inv(c, t) && Later(s, t)
  {
    LaterRefl(s);
    hide Inv, Later, Reissued, StartSession;
    if seen.Some? {
      var u := seen.value.0;
      if seen.value.1.status.Active? { StartKeeps(c, s, u, "auth.login_succeeded", now); }
      var row := Reissued(s, u, code, now);
      var t := PutVerification(s, u, row);
      ReissuedOk(c, s, u, code, now);
      PutKeeps(c, s, u, row);
      AuditKeeps(c, t, "auth.verification_reissued", Some(u), None, now);
      LaterTrans(s, t, Audit(t, "auth.verification_reissued", Some(u), None, now));
    }
  }

  lemma ActivateKeeps(c: Config, s: Store, u: nat, user: User, kind: string, now: Time)
    requires Inv(c, s) && u in s.users && UserLater(s.users[u], user) && user.status.Active?
    ensures var m := WithoutVerification(SetUser(s, u, user), u); Inv(c, m) && Later(s, m)
    ensures var t := StartSession(c, WithoutVerification(SetUser(s, u, user), u), u, kind, now).store; Inv(c, t) && Later(s, t)
  {
    hide Inv, Later, StartSession;
    var active := SetUser(s, u, user);
    var m := WithoutVerification(active, u);
    UserWriteKeeps(c, s, u, user);
    DropKeeps(c, active, u);
    LaterTrans(s, active, m);
    StartKeeps(c, m, u, kind, now);
    LaterTrans(s, m, StartSession(c, m, u, kind, now).store);
  }

  lemma VerifyKeeps(c: Config, s: Store, ticket: Secret, code: string, now: Time)
    requires Inv(c, s)
    ensures var t := VerifyEmail(c, s, ticket, code, now).store; Inv(c, t) && Later(s, t)
  {
    LaterRefl(s);
    hide Inv, Later, StartSession;
    match ByTicket(s.verifications, Sha256(ticket))
    case None =>
    case Some(u) =>
      if s.verifications[u].attempts < MAX_ATTEMPTS { AttemptKeeps(c, s, u); }
      if u in s.users { ActivateKeeps(c, s, u, Activated(s.users[u], now), "auth.email_verified", now); }
  }

  lemma ResendKeeps(c: Config, s: Store, ticket: Secret, code: string, now: Time)
    requires Inv(c, s)
    ensures var t := ResendVerification(s, ticket, code, now).store; Inv(c, t) && Later(s, t)
  {
    LaterRefl(s);
    hide Inv, Later;
    match ByTicket(s.verifications, Sha256(ticket))
    case None =>
    case Some(u) =>
      if u in s.users {
        var t := PutVerification(s, u, NewVerification(s.next, code, now));
        PutKeeps(c, s, u, NewVerification(s.next, code, now));
        AuditKeeps(c, t, "auth.verification_resent", Some(u), None, now);
        LaterTrans(s, t, Audit(t, "auth.verification_resent", Some(u), None, now));
      }
  }

  // ---------------------------------------------------------------- Google

  lemma TouchOk(s: Store, t: Store, subject: string, now: Time)
    requires LinksOk(s) && subject in s.links
    requires t == s.(links := s.links[subject := s.links[subject].(lastAuthenticatedAt := now)])
    ensures LinksOk(t) && LinksLater(s, t)
  {
  }

  lemma TouchKeeps(c: Config, s: Store, subject: string, now: Time)
    requires Inv(c, s) && subject in s.links
    ensures var t := s.(links := s.links[subject := s.links[subject].(lastAuthenticatedAt := now)]); Inv(c, t) && Later(s, t)
  {
    hide UsersOk, VerificationsOk, TicketsUnique, SessionsOk, OneUnused, LinksOk, UsersLater, SessionsLater, LinksLater;
    var t := s.(links := s.links[subject := s.links[subject].(lastAuthenticatedAt := now)]);
    TouchOk(s, t, subject, now);
    UsersStay(s, t);
    VerificationsStay(s, t);
    SessionsStay(c, s, t);
  }

  lemma NewLinkOk(s: Store, t: Store, subject: string, link: Link)
    requires LinksOk(s) && subject !in s.links && !HasLink(s.links, link.userID) && t == s.(links := s.links[subject := link])
    requires link.userID in s.users && s.users[link.userID].status.Active? && s.users[link.userID].emailVerifiedAt.Some?
    ensures LinksOk(t) && LinksLater(s, t)
  {
  }

  lemma LinkKeeps(c: Config, s: Store, subject: string, link: Link)
    requires Inv(c, s) && subject !in s.links && !HasLink(s.links, link.userID)
    requires link.userID in s.users && s.users[link.userID].status.Active? && s.users[link.userID].emailVerifiedAt.Some?
    ensures var t := s.(links := s.links[subject := link]); Inv(c, t) && Later(s, t)
  {
    hide UsersOk, VerificationsOk, TicketsUnique, SessionsOk, OneUnused, LinksOk, UsersLater, SessionsLater, LinksLater;
    var t := s.(links := s.links[subject := link]);
    NewLinkOk(s, t, subject, link);
    UsersStay(s, t);
    VerificationsStay(s, t);
    SessionsStay(c, s, t);
  }

  lemma NewActiveKeeps(c: Config, s: Store, user: User)
    requires Inv(c, s) && UserByEmail(s.users, user.email).None? && !user.status.Pending?
    ensures var t := SetUser(s, s.next, user).(next := s.next + 1); Inv(c, t) && Later(s, t) && !HasLink(s.links, s.next)
  {
    hide UsersOk, VerificationsOk, TicketsUnique, SessionsOk, OneUnused, LinksOk, UsersLater, SessionsLater, LinksLater;
    var t := SetUser(s, s.next, user).(next := s.next + 1);
    NewUserOk(s, t, user);
    VerificationsStay(s, t);
    SessionsStay(c, s, t);
    LinksStay(s, t);
    NobodysLink(s);
  }

  lemma NobodysLink(s: Store)
    requires LinksOk(s) && s.next !in s.users
    ensures !HasLink(s.links, s.next)
  {
  }

  lemma GoogleReturningKeeps(c: Config, s: Store, subject: string, now: Time)
    requires Inv(c, s) && subject in s.links
    ensures var t := GoogleReturning(c, s, subject, now).store; Inv(c, t) && Later(s, t)
  {
    LaterRefl(s);
    hide Inv, Later, StartSession;
    var u, touched := s.links[subject].userID, s.(links := s.links[subject := s.links[subject].(lastAuthenticatedAt := now)]);
    TouchKeeps(c, s, subject, now);
    if u in s.users && s.users[u].status.Active? {
      StartKeeps(c, touched, u, "auth.google_signin_succeeded", now);
      LaterTrans(s, touched, StartSession(c, touched, u, "auth.google_signin_succeeded", now).store);
    }
  }

  lemma GoogleNewKeeps(c: Config, s: Store, subject: string, email: string, now: Time)
    requires Inv(c, s)
    ensures var t := GoogleNew(c, s, subject, email, now).store; Inv(c, t) && Later(s, t)
  {
    LaterRefl(s);
    hide Inv, Later, StartSession, UserByEmail, HasLink;
    if UserByEmail(s.users, email).None? && subject !in s.links {
      var u, user := s.next, User(email, None, Active, Some(now), now);
      var created := SetUser(s, u, user).(next := u + 1);
      NewActiveKeeps(c, s, user);
      var linked := created.(links := created.links[subject := Link(u, now, now)]);
      LinkKeeps(c, created, subject, Link(u, now, now));
      LaterTrans(s, created, linked);
      StartKeeps(c, linked, u, "auth.google_account_created", now);
      LaterTrans(s, linked, StartSession(c, linked, u, "auth.google_account_created", now).store);
    }
  }

  lemma ActivateFederatedKeeps(c: Config, s: Store, u: nat, now: Time)
    requires Inv(c, s) && u in s.users
    ensures var t := ActivateFederated(s, u, now); Inv(c, t) && Later(s, t) && u in t.users && t.links == s.links
  {
    LaterRefl(s);
    hide Inv, Later;
    if s.users[u].status.Pending? {
      ActivateKeeps(c, s, u, Activated(s.users[u], now).(passwordHash := None), "", now);
    }
  }

  lemma GoogleLinkKeeps(c: Config, s: Store, u: nat, subject: string, missedOwn: bool, now: Time)
    requires Inv(c, s) && u in s.users
    ensures var t := GoogleLink(c, s, u, subject, missedOwn, now).store; Inv(c, t) && Later(s, t)
  {
    LaterRefl(s);
    hide Inv, Later, StartSession, HasLink;
    AuditKeeps(c, s, "auth.google_link_required", Some(u), None, now);
    var t := ActivateFederated(s, u, now);
    ActivateFederatedKeeps(c, s, u, now);
    AuditKeeps(c, t, "auth.google_identity_conflict", Some(u), None, now);
    LaterTrans(s, t, Audit(t, "auth.google_identity_conflict", Some(u), None, now));
    if t.users[u].status.Active? && t.users[u].emailVerifiedAt.Some? && subject !in s.links && !HasLink(s.links, u) {
      var linked := t.(links := t.links[subject := Link(u, now, now)]);
      LinkKeeps(c, t, subject, Link(u, now, now));
      LaterTrans(s, t, linked);
      StartKeeps(c, linked, u, "auth.google_identity_linked", now);
      LaterTrans(s, linked, StartSession(c, linked, u, "auth.google_identity_linked", now).store);
    }
  }

  lemma GoogleKeeps(c: Config, s: Store, subject: string, email: string, missed: Missed, now: Time)
    requires Inv(c, s)
    ensures var t := GoogleAttempt(c, s, subject, email, missed, now).store; Inv(c, t) && Later(s, t)
  {
    hide Inv, Later, GoogleReturning, GoogleNew, GoogleLink;
    if subject in s.links && !missed.link {
      GoogleReturningKeeps(c, s, subject, now);
    } else {
      GoogleNewKeeps(c, s, subject, email, now);
      var found := UserByEmail(s.users, email);
      if found.Some? { GoogleLinkKeeps(c, s, found.value, subject, missed.ownLink, now); }
    }
  }

  /** What lost to a unique index is rolled back whole. */
  lemma ConflictChangesNothing(c: Config, s: Store, subject: string, email: string, missed: Missed, now: Time)
    ensures var o := GoogleAttempt(c, s, subject, email, missed, now); o.reply == Refused(Conflict) ==> o.store == s
  {
    hide UserByEmail, HasLink;
  }
}
