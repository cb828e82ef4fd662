/** The identity service over its store (internal/identity/service.go, google.go): what a
    transaction wrote becomes the store only if it gets to the end, and a revocation is announced
    after that. */
module IdentityService {
  import opened ConnectorTypes
  import opened IdentityStore
  import opened IdentitySpec
  import opened IdentityProofs

  lemma EmailFinds(users: map<nat, User>, email: string, u: nat)
    requires EmailsUnique(users) && u in users && users[u].email == email
    ensures UserByEmail(users, email) == Some(u)
  {
  }

  lemma TicketFinds(verifications: map<nat, Verification>, h: Digest, u: nat)
    requires TicketsUnique(verifications) && u in verifications && verifications[u].ticketHash == h
    ensures ByTicket(verifications, h) == Some(u)
  {
  }

  lemma Uniques(c: Config, s: Store)
    requires Inv(c, s)
    ensures EmailsUnique(s.users) && TicketsUnique(s.verifications)
  {
  }

  /** What a verified Google token asserts. */
  datatype Assertion = Assertion(subject: string, email: string, emailVerified: bool)

  datatype GoogleReply = Unavailable | InvalidToken | Answered(reply: Reply)

  class Service {
    const config: Config
    var store: Store
    var announced: seq<Announcement>      // calls of OnSessionRevoked, in order

    constructor (config: Config, store: Store)
      requires Initial(store)
      ensures this.config == config && this.store == store && announced == [] && Inv(config, store)
    {
      this.config, this.store, announced := config, store, [];
      InitialIsOk(config, store);
    }

    // -------------------------------------------------------------- queries of a transaction

    method UserByEmailForUpdate(tx: Store, email: string) returns (r: Option<nat>)
      requires EmailsUnique(tx.users)
      ensures r == UserByEmail(tx.users, email)
    {
      hide EmailsUnique;
      if u :| u in tx.users && tx.users[u].email == email {
        EmailFinds(tx.users, email, u);
        r := Some(u);
      } else {
        r := None;
      }
    }

    method VerificationForUpdate(tx: Store, h: Digest) returns (r: Option<nat>)
      requires TicketsUnique(tx.verifications)
      ensures r == ByTicket(tx.verifications, h)
    {
      hide TicketsUnique;
      if u :| u in tx.verifications && tx.verifications[u].ticketHash == h {
        TicketFinds(tx.verifications, h, u);
        r := Some(u);
      } else {
        r := None;
      }
    }

    // -------------------------------------------------------------- accounts

    method Register(email: string, password: string, valid: bool, code: string, now: Time) returns (reply: Reply)
      requires Inv(config, store)
      modifies this
      ensures Outcome(store, reply, None) == IdentitySpec.Register(old(store), email, password, valid, code, now)
      ensures announced == old(announced) && Inv(config, store)
    {
      hide Inv, Later, EmailsUnique, TicketsUnique, UserByEmail;
      Uniques(config, store);
      RegisterKeeps(config, store, email, password, valid, code, now);
      if !valid {
        return Refused(InvalidInput);
      }
      var userID, ticket := store.next, Issued(Vft, store.next);
      reply := Challenged(userID, ticket, now + CODE_LIFETIME);
      var taken := UserByEmailForUpdate(store, email);
      if taken.Some? {
        var event := AuditEvent("auth.registration_conflict", None, None, now);
        store := store.(audit := store.audit + [event], next := store.next + 1);
        return;
      }
      var user := User(email, Some(Argon2id(password)), Pending, None, now);
      var record := Verification(Sha256(ticket), Sha256(Code(code)), 0, now + CODE_LIFETIME, now);
      var tx := store;
      tx := tx.(users := tx.users[userID := user]);
      tx := tx.(verifications := tx.verifications[userID := record], next := tx.next + 1);
      tx := tx.(audit := tx.audit + [AuditEvent("auth.registration_succeeded", Some(userID), None, now)]);
      store := tx;
    }

    method Login(seen: Option<(nat, User)>, password: string, code: string, now: Time) returns (reply: Reply)
      requires Inv(config, store) && SeenBefore(store, seen)
      requires forall u :: u in store.verifications ==> store.verifications[u].createdAt <= now
      modifies this
      ensures Outcome(store, reply, None) == IdentitySpec.Login(config, old(store), seen, password, code, now)
      ensures announced == old(announced) && Inv(config, store)
    {
      hide Inv, Later;
      LoginKeeps(config, store, seen, password, code, now);
      if seen.None? {
        return Refused(InvalidCredentials);
      }
      var (userID, user) := seen.value;
      if user.passwordHash.None? || user.passwordHash.value != Argon2id(password) {
        return Refused(InvalidCredentials);
      }
      match user.status {
        case Disabled =>
          reply := Refused(InvalidCredentials);
        case Active =>
          reply := BeginSession(userID, "auth.login_succeeded", now, store);
        case Pending =>
          var tx, ticket := store, Issued(Vft, store.next);
          var record := Verification(Sha256(ticket), Sha256(Code(code)), 0, now + CODE_LIFETIME, now);
          if userID in tx.verifications {
            var existing := tx.verifications[userID];
            if now < existing.expiresAt && now - existing.createdAt < RESEND_INTERVAL {
              record := record.(codeHash := existing.codeHash, createdAt := existing.createdAt, attempts := existing.attempts);
            }
          }
          tx := tx.(verifications := tx.verifications[userID := record], next := tx.next + 1);
          tx := tx.(audit := tx.audit + [AuditEvent("auth.verification_reissued", Some(userID), None, now)]);
          store := tx;
          reply := Challenged(userID, ticket, now + CODE_LIFETIME);
      }
    }

    /** newSessionMaterial, persistSessionMaterial and the audit event that goes with them; the
        transaction so far is `tx`, and this commits it. */
    method BeginSession(userID: nat, kind: string, now: Time, tx: Store) returns (reply: Reply)
      modifies this
      ensures Outcome(store, reply, None) == StartSession(config, tx, userID, kind, now) && announced == old(announced)
    {
      var sid, access, refresh := tx.next, Issued(Ora, tx.next), Issued(Orr, tx.next);
      var accessExpiresAt, refreshExpiresAt := now + config.accessLifetime, now + config.refreshLifetime;
      var t := tx.(next := tx.next + 1);
      t := t.(sessions := t.sessions[sid := Session(userID, Sha256(access), accessExpiresAt, refreshExpiresAt, now, None)]);
      t := t.(refreshes := t.refreshes[Sha256(refresh) := Refresh(sid, refreshExpiresAt, None)]);
      t := t.(audit := t.audit + [AuditEvent(kind, Some(userID), Some(sid), now)]);
      store := t;
      reply := SignedIn(Credentials(userID, access, accessExpiresAt, refresh, refreshExpiresAt));
    }

    method VerifyEmail(ticket: Secret, digits: string, now: Time) returns (reply: Reply)
      requires Inv(config, store)
      modifies this
      ensures Outcome(store, reply, None) == IdentitySpec.VerifyEmail(config, old(store), ticket, digits, now)
      ensures announced == old(announced) && Inv(config, store)
    {
      hide Inv, Later, EmailsUnique, TicketsUnique, ByTicket, StartSession;
      Uniques(config, store);
      VerifyKeeps(config, store, ticket, digits, now);
      reply := Refused(InvalidVerificationCode);
      if !ValidToken(ticket, Vft) {
        return;
      }
      var tx := store;
      var found := VerificationForUpdate(tx, Sha256(ticket));
      if found.None? {
        return;
      }
      var u := found.value;
      var record := tx.verifications[u];
      if record.expiresAt <= now || record.attempts >= MAX_ATTEMPTS {
        return;
      }
      if record.codeHash != Sha256(Code(digits)) {
        store := tx.(verifications := tx.verifications[u := record.(attempts := record.attempts + 1)]);
        return;
      }
      if u !in tx.users {
        return Refused(NotFound);
      }
      var user := tx.users[u];
      if !user.status.Pending? {
        return;
      }
      user := user.(status := Active, emailVerifiedAt := Some(now));
      tx := tx.(users := tx.users[u := user]);
      tx := tx.(verifications := tx.verifications - {u});
      reply := BeginSession(u, "auth.email_verified", now, tx);
    }

    method ResendVerification(ticket: Secret, code: string, now: Time) returns (reply: Reply)
      requires Inv(config, store)
      modifies this
      ensures Outcome(store, reply, None) == IdentitySpec.ResendVerification(old(store), ticket, code, now)
      ensures announced == old(announced) && Inv(config, store)
    {
      hide Inv, Later, EmailsUnique, TicketsUnique, ByTicket;
      Uniques(config, store);
      ResendKeeps(config, store, ticket, code, now);
      reply := Refused(InvalidVerificationCode);
      if !ValidToken(ticket, Vft) {
        return;
      }
      var tx := store;
      var found := VerificationForUpdate(tx, Sha256(ticket));
      if found.None? {
        return;
      }
      var u := found.value;
      if now - tx.verifications[u].createdAt < RESEND_INTERVAL {
        return Refused(VerificationThrottled);
      }
      if u !in tx.users {
        return Refused(NotFound);
      }
      if !tx.users[u].status.Pending? {
        return;
      }
      var issued := Issued(Vft, tx.next);
      var record := Verification(Sha256(issued), Sha256(Code(code)), 0, now + CODE_LIFETIME, now);
      tx := tx.(verifications := tx.verifications[u := record], next := tx.next + 1);
      tx := tx.(audit := tx.audit + [AuditEvent("auth.verification_resent", Some(u), None, now)]);
      store := tx;
      reply := Challenged(u, issued, now + CODE_LIFETIME);
    }

    // -------------------------------------------------------------- sessions

    method RefreshTokens(token: Secret, now: Time) returns (reply: Reply)
      requires Inv(config, store)
      modifies this
      ensures var o := RefreshSession(config, old(store), token, now);
        && (store, reply) == (o.store, o.reply)
        && announced == old(announced) + if o.announced.Some? then [o.announced.value] else []
      ensures Inv(config, store)
    {
      hide Inv, Later;
      RefreshKeeps(config, store, token, now);
      reply := Refused(InvalidRefresh);
      var tx, h := store, Sha256(token);
      if !ValidToken(token, Orr) || h !in tx.refreshes || tx.refreshes[h].sessionID !in tx.sessions {
        return;
      }
      var refresh, sid := tx.refreshes[h], tx.refreshes[h].sessionID;
      var session := tx.sessions[sid];
      var revoked, accountInactive := false, false;
      if refresh.usedAt.Some? {
        if session.revokedAt.None? {
          tx := tx.(sessions := tx.sessions[sid := session.(revokedAt := Some(now))]);
          tx := tx.(audit := tx.audit + [AuditEvent("auth.refresh_reuse_detected", Some(session.userID), Some(sid), now)]);
          revoked := true;
        }
      } else if session.revokedAt.Some? || refresh.expiresAt <= now || session.refreshExpiresAt <= now {
        if session.revokedAt.None? {
          tx := tx.(sessions := tx.sessions[sid := session.(revokedAt := Some(now))]);
          revoked := true;
        }
      } else if session.userID !in tx.users {
        return Refused(NotFound);
      } else if !tx.users[session.userID].status.Active? {
        tx := tx.(sessions := tx.sessions[sid := session.(revokedAt := Some(now))]);
        revoked, accountInactive := true, true;
      } else {
        var access, next := Issued(Ora, tx.next), Issued(Orr, tx.next);
        var accessExpiresAt := now + config.accessLifetime;
        tx := tx.(next := tx.next + 1);
        tx := tx.(refreshes := tx.refreshes[h := refresh.(usedAt := Some(now))]);
        tx := tx.(sessions := tx.sessions[sid := session.(accessHash := Sha256(access), accessExpiresAt := accessExpiresAt)]);
        tx := tx.(refreshes := tx.refreshes[Sha256(next) := Refresh(sid, session.refreshExpiresAt, None)]);
        tx := tx.(audit := tx.audit + [AuditEvent("auth.refresh_succeeded", Some(session.userID), Some(sid), now)]);
        reply := SignedIn(Credentials(session.userID, access, accessExpiresAt, next, session.refreshExpiresAt));
      }
      store := tx;
      if revoked {
        announced := announced + [Announcement(session.userID, sid, accountInactive)];
      }
    }

    method Logout(token: Secret, now: Time) returns (reply: Reply)
      requires Inv(config, store)
      modifies this
      ensures var o := IdentitySpec.Logout(old(store), token, now);
        && (store, reply) == (o.store, o.reply)
        && announced == old(announced) + if o.announced.Some? then [o.announced.value] else []
      ensures Inv(config, store)
    {
      hide Inv, Later;
      LogoutKeeps(config, store, token, now);
      reply := LoggedOut;
      var tx, h := store, Sha256(token);
      if !ValidToken(token, Orr) || h !in tx.refreshes || tx.refreshes[h].sessionID !in tx.sessions {
        return;
      }
      var sid := tx.refreshes[h].sessionID;
      var session := tx.sessions[sid];
      if session.revokedAt.Some? {
        return;
      }
      tx := tx.(sessions := tx.sessions[sid := session.(revokedAt := Some(now))]);
      tx := tx.(audit := tx.audit + [AuditEvent("auth.logout_succeeded", Some(session.userID), Some(sid), now)]);
      store := tx;
      announced := announced + [Announcement(session.userID, sid, false)];
    }

    // -------------------------------------------------------------- Google

    method GoogleSignIn(subject: string, email: string, missed: Missed, now: Time) returns (reply: Reply)
      requires Inv(config, store)
      modifies this
      ensures Outcome(store, reply, None) == GoogleAttempt(config, old(store), subject, email, missed, now)
      ensures announced == old(announced) && Inv(config, store)
    {
      hide Inv, Later, EmailsUnique, TicketsUnique, UserByEmail, StartSession, HasLink, GoogleLink;
      Uniques(config, store);
      GoogleKeeps(config, store, subject, email, missed, now);
      var tx := store;
      if subject in tx.links && !missed.link {
        var u := tx.links[subject].userID;
        if u !in tx.users {
          return Refused(NotFound);
        }
        if !tx.users[u].status.Active? {
          return Refused(InvalidCredentials);
        }
        tx := tx.(links := tx.links[subject := tx.links[subject].(lastAuthenticatedAt := now)]);
        reply := BeginSession(u, "auth.google_signin_succeeded", now, tx);
        return;
      }
      var found := UserByEmailForUpdate(tx, email);
      if found.Some? && !missed.user {
        reply := LinkExisting(found.value, subject, missed.ownLink, now);
        return;
      }
      // a new account: either insert may run into a row the lookups did not see
      if found.Some? || subject in tx.links {
        return Refused(Conflict);
      }
      var u := tx.next;
      tx := tx.(users := tx.users[u := User(email, None, Active, Some(now), now)], next := u + 1);
      tx := tx.(links := tx.links[subject := Link(u, now, now)]);
      reply := BeginSession(u, "auth.google_account_created", now, tx);
    }

    method LinkExisting(u: nat, subject: string, missedOwn: bool, now: Time) returns (reply: Reply)
      requires u in store.users
      modifies this
      ensures Outcome(store, reply, None) == GoogleLink(config, old(store), u, subject, missedOwn, now) && announced == old(announced)
    {
      hide StartSession, HasLink;
      var tx, user := store, store.users[u];
      if user.status.Pending? {
        user := user.(status := Active, emailVerifiedAt := Some(now), passwordHash := None);
        tx := tx.(users := tx.users[u := user]);
        tx := tx.(verifications := tx.verifications - {u});
      } else if !user.status.Active? {
        return Refused(InvalidCredentials);
      } else if user.emailVerifiedAt.None? {
        store := tx.(audit := tx.audit + [AuditEvent("auth.google_link_required", Some(u), None, now)]);
        return Refused(AccountLinkRequired);
      }
      var linked := HasLink(tx.links, u);
      if linked && !missedOwn {
        store := tx.(audit := tx.audit + [AuditEvent("auth.google_identity_conflict", Some(u), None, now)]);
        return Refused(IdentityAlreadyLinked);
      }
      if subject in tx.links || linked {
        return Refused(Conflict);
      }
      tx := tx.(links := tx.links[subject := Link(u, now, now)]);
      reply := BeginSession(u, "auth.google_identity_linked", now, tx);
    }

    /** The retry loop: `missed` says what the lookups of each pass missed, `times` when each read its
        clock, `between` what other transactions have made of the store by the second. A conflict is
        retried once; anything else, or a second conflict, is the answer. */
    method AuthenticateWithGoogle(configured: bool, token: Option<Assertion>, missed: seq<Missed>, times: seq<Time>, between: Store)
        returns (reply: GoogleReply, attempts: nat)
      requires Inv(config, store) && |missed| == 2 && |times| == 2
      requires Inv(config, between) && Later(store, between)
      modifies this
      ensures attempts <= 2 && Inv(config, store) && announced == old(announced)
      ensures attempts < 2 ==> Later(old(store), store)
      ensures attempts == 2 ==> Later(between, store)
      ensures !configured ==> reply == Unavailable && attempts == 0 && store == old(store)
      ensures configured && (token.None? || !token.value.emailVerified) ==> reply == InvalidToken && attempts == 0 && store == old(store)
      ensures configured && token.Some? && token.value.emailVerified ==>
        var first := GoogleAttempt(config, old(store), token.value.subject, token.value.email, missed[0], times[0]);
        if first.reply != Refused(Conflict) then
          attempts == 1 && reply == Answered(first.reply) && store == first.store
        else
          var second := GoogleAttempt(config, between, token.value.subject, token.value.email, missed[1], times[1]);
          attempts == 2 && reply == Answered(second.reply) && store == second.store
    {
      LaterRefl(store);
      hide Inv, Later, GoogleAttempt;
      attempts := 0;
      if !configured {
        return Unavailable, attempts;
      }
      if token.None? || !token.value.emailVerified {
        return InvalidToken, attempts;
      }
      var subject, email := token.value.subject, token.value.email;
      var answer := Refused(Conflict);
      while answer == Refused(Conflict) && attempts < 2
        invariant attempts <= 2 && Inv(config, store) && announced == old(announced)
        invariant attempts == 0 ==> store == old(store) && answer == Refused(Conflict)
        invariant attempts == 1 ==>
          var o := GoogleAttempt(config, old(store), subject, email, missed[0], times[0]);
          (store, answer) == (o.store, o.reply) && Later(old(store), store)
        invariant attempts == 2 ==>
          && GoogleAttempt(config, old(store), subject, email, missed[0], times[0]).reply == Refused(Conflict)
          && var o := GoogleAttempt(config, between, subject, email, missed[1], times[1]);
             (store, answer) == (o.store, o.reply) && Later(between, store)
      {
        if attempts == 1 { store := between; }
        GoogleKeeps(config, store, subject, email, missed[attempts], times[attempts]);
        answer := GoogleSignIn(subject, email, missed[attempts], times[attempts]);
        attempts := attempts + 1;
      }
      reply := Answered(answer);
    }
  }
}
