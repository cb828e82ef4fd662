/** Google sign-in over whole runs of the identity service. */
module GoogleRuns {
  import opened ConnectorTypes
  import opened IdentityStore
  import opened IdentitySpec
  import opened IdentityHistory
  import opened IdentityProofs
  import opened VerificationRuns

  // ---------------------------------------------------------------- accounts and links

  /** A linked account has a verified address and is not waiting for a code. */
  lemma LinkedMeansVerified(c: Config, r: Run, n: nat, subject: string)
    requires Honest(c, r) && n <= |r.events| && subject in StateAt(c, r, n).links
    ensures var s := StateAt(c, r, n); var u := s.links[subject].userID;
      u in s.users && s.users[u].emailVerifiedAt.Some? && !s.users[u].status.Pending?
  {
    hide Honest, StateAt, UsersOk, VerificationsOk, TicketsUnique, SessionsOk, OneUnused;
    GoodAt(c, r, n);
  }

  /** Subjects and accounts are linked one to one, and a link never moves: what two moments of a
      run say about a subject or an account agrees. */
  lemma LinksAreOneToOne(c: Config, r: Run, i: nat, j: nat, x: string, y: string)
    requires Honest(c, r) && i <= j <= |r.events| && x in StateAt(c, r, i).links && y in StateAt(c, r, j).links
    ensures x == y <==> StateAt(c, r, i).links[x].userID == StateAt(c, r, j).links[y].userID
  {
    hide Honest, StateAt, UsersOk, VerificationsOk, TicketsUnique, SessionsOk, OneUnused;
    MovesForward(c, r, i, j);
    GoodAt(c, r, j);
  }

  lemma NoSessionWhilePending(c: Config, r: Run, n: nat, sid: nat)
    requires Honest(c, r) && n <= |r.events| && sid in StateAt(c, r, n).sessions
    ensures !PendingAt(c, r, n, StateAt(c, r, n).sessions[sid].userID)
  {
    hide Honest, StateAt, UsersOk, VerificationsOk, TicketsUnique, LinksOk, OneUnused;
    GoodAt(c, r, n);
  }

  lemma NeverPendingAgain(c: Config, r: Run, i: nat, j: nat, u: nat)
    requires Honest(c, r) && i <= j <= |r.events| && u in StateAt(c, r, i).users && !PendingAt(c, r, i, u)
    ensures u in StateAt(c, r, j).users && !PendingAt(c, r, j, u)
  {
    hide Honest, StateAt;
    MovesForward(c, r, i, j);
  }

  // ---------------------------------------------------------------- activation through Google

  lemma GoogleTells(c: Config, s: Store, subject: string, email: string, missed: Missed, now: Time)
    requires GoogleAttempt(c, s, subject, email, missed, now).reply.SignedIn?
    ensures var o := GoogleAttempt(c, s, subject, email, missed, now); var u := o.reply.credentials.userID;
      && u in o.store.users && o.store.users[u].status.Active?
      && (u in s.users && s.users[u].status.Pending? ==> o.store.users[u].passwordHash == None)
      && subject in o.store.links && o.store.links[subject].userID == u
  {
    hide UserByEmail, HasLink, GoogleLink;
    var found := UserByEmail(s.users, email);
    if found.Some? && GoogleLink(c, s, found.value, subject, missed.ownLink, now).reply.SignedIn? {
      LinkTells(c, s, found.value, subject, missed.ownLink, now);
    }
  }

  lemma LinkTells(c: Config, s: Store, u: nat, subject: string, missedOwn: bool, now: Time)
    requires u in s.users && GoogleLink(c, s, u, subject, missedOwn, now).reply.SignedIn?
    ensures var o := GoogleLink(c, s, u, subject, missedOwn, now);
      && o.reply.credentials.userID == u && u in o.store.users && o.store.users[u].status.Active?
      && (s.users[u].status.Pending? ==> o.store.users[u].passwordHash == None)
      && subject in o.store.links && o.store.links[subject].userID == u
  {
    hide HasLink;
  }

  lemma PasswordForward(c: Config, r: Run, i: nat, j: nat, u: nat)
    requires Honest(c, r) && i <= j <= |r.events| && u in StateAt(c, r, i).users
    ensures u in StateAt(c, r, j).users
    ensures StateAt(c, r, i).users[u].passwordHash == None ==> StateAt(c, r, j).users[u].passwordHash == None
  {
    hide Honest, StateAt;
    MovesForward(c, r, i, j);
  }

  /** An account whose pending registration Google completed has no password ever after, and no
      password signs in to it again, not even one checked against a read from before: whoever
      registered the address first is locked out. */
  lemma GoogleActivationDropsThePassword(c: Config, r: Run, i: nat, j: nat, u: nat)
    requires Honest(c, r) && i < j && i < |r.events| && r.events[i].call.GoogleCall? && OutcomeAt(c, r, i).reply.SignedIn?
    requires OutcomeAt(c, r, i).reply.credentials.userID == u && PendingAt(c, r, i, u)
    ensures j <= |r.events| ==> u in StateAt(c, r, j).users && StateAt(c, r, j).users[u].passwordHash == None
    ensures j < |r.events| && r.events[j].call.LoginCall? && OutcomeAt(c, r, j).reply.SignedIn? ==>
      OutcomeAt(c, r, j).reply.credentials.userID != u
  {
    Linked(c, r, i);
    hide StateAt, OutcomeAt;
    if j <= |r.events| { PasswordForward(c, r, i + 1, j, u); }
    if j < |r.events| && r.events[j].call.LoginCall? && r.events[j].call.seen.Some? && r.events[j].call.seen.value.0 == u {
      var k :| 0 <= k <= j && u in StateAt(c, r, k).users && r.events[j].call.seen.value.1 == StateAt(c, r, k).users[u];
      hide Honest;
      if k <= i {
        if !PendingAt(c, r, k, u) { NeverPendingAgain(c, r, k, i, u); }
      } else {
        PasswordForward(c, r, i + 1, k, u);
      }
    }
    LoginTells(c, r, j);
  }

  lemma Linked(c: Config, r: Run, i: nat)
    requires i < |r.events| && r.events[i].call.GoogleCall? && OutcomeAt(c, r, i).reply.SignedIn?
    ensures var u := OutcomeAt(c, r, i).reply.credentials.userID;
      && u in StateAt(c, r, i + 1).users && StateAt(c, r, i + 1).users[u].status.Active?
      && (PendingAt(c, r, i, u) ==> StateAt(c, r, i + 1).users[u].passwordHash == None)
  {
    hide GoogleAttempt;
    var e := r.events[i];
    GoogleTells(c, StateAt(c, r, i), e.call.subject, e.call.email, e.call.missed, e.now);
  }

  lemma LoginTells(c: Config, r: Run, j: nat)
    ensures j < |r.events| && r.events[j].call.LoginCall? && OutcomeAt(c, r, j).reply.SignedIn? ==>
      && r.events[j].call.seen.Some? && OutcomeAt(c, r, j).reply.credentials.userID == r.events[j].call.seen.value.0
      && r.events[j].call.seen.value.1.status.Active? && r.events[j].call.seen.value.1.passwordHash.Some?
  {
    hide StateAt, Reissued;
  }

  // ---------------------------------------------------------------- refusals and conflicts

  /** A refused sign-in changes nothing, except that a refusal naming an account records itself. */
  lemma RefusalsCommitOnlyAudit(c: Config, s: Store, subject: string, email: string, missed: Missed, now: Time)
    requires Inv(c, s) && GoogleAttempt(c, s, subject, email, missed, now).reply.Refused?
    ensures var o := GoogleAttempt(c, s, subject, email, missed, now);
      if o.reply.error.AccountLinkRequired? || o.reply.error.IdentityAlreadyLinked? then
        exists kind, u :: o.store == Audit(s, kind, Some(u), None, now)
      else o.store == s
  {
    LinkedNotPending(c, s);
    hide Inv, UserByEmail, HasLink, StartSession, GoogleLink;
    StartsSignIn(c);
    var found := UserByEmail(s.users, email);
    if found.Some? && GoogleLink(c, s, found.value, subject, missed.ownLink, now).reply.Refused? {
      LinkRefusals(c, s, found.value, subject, missed.ownLink, now);
    }
  }

  lemma StartsSignIn(c: Config)
    ensures forall s, u, kind, now :: StartSession(c, s, u, kind, now).reply.SignedIn?
  {
  }

  lemma LinkRefusals(c: Config, s: Store, u: nat, subject: string, missedOwn: bool, now: Time)
    requires u in s.users && (s.users[u].status.Pending? ==> !HasLink(s.links, u))
    requires GoogleLink(c, s, u, subject, missedOwn, now).reply.Refused?
    ensures var o := GoogleLink(c, s, u, subject, missedOwn, now);
      if o.reply.error.AccountLinkRequired? || o.reply.error.IdentityAlreadyLinked? then
        exists kind, v :: o.store == Audit(s, kind, Some(v), None, now)
      else o.store == s
  {
    hide StartSession, HasLink;
    StartsSignIn(c);
  }

  lemma LinkedNotPending(c: Config, s: Store)
    requires Inv(c, s)
    ensures forall u :: u in s.users && s.users[u].status.Pending? ==> !HasLink(s.links, u)
  {
    hide UsersOk, VerificationsOk, TicketsUnique, SessionsOk, OneUnused;
  }

  /** An attempt loses to a unique index only if one of its lookups missed a row that had been
      committed by the time it wrote. */
  lemma ConflictsAreRaces(c: Config, s: Store, subject: string, email: string, missed: Missed, now: Time)
    requires Inv(c, s) && GoogleAttempt(c, s, subject, email, missed, now).reply == Refused(Conflict)
    ensures (missed.link && subject in s.links)
      || (missed.user && UserByEmail(s.users, email).Some?)
      || (missed.ownLink && UserByEmail(s.users, email).Some? && HasLink(s.links, UserByEmail(s.users, email).value))
  {
    hide Inv, UserByEmail, HasLink;
  }

  /** With current reads there is no conflict, so the one retry suffices once the winner is seen. */
  lemma CurrentReadsNeverConflict(c: Config, s: Store, subject: string, email: string, now: Time)
    requires Inv(c, s)
    ensures GoogleAttempt(c, s, subject, email, CURRENT, now).reply != Refused(Conflict)
  {
    hide Inv, GoogleAttempt, UserByEmail, HasLink;
    if GoogleAttempt(c, s, subject, email, CURRENT, now).reply == Refused(Conflict) {
      ConflictsAreRaces(c, s, subject, email, CURRENT, now);
    }
  }

  // ---------------------------------------------------------------- the retry

  /** Events `i` and `j` are the two attempts of one sign-in; anything may have committed between. */
  ghost predicate TwoAttempts(r: Run, i: nat, j: nat) {
    && i < j < |r.events| && r.events[i].call.GoogleCall? && r.events[j].call.GoogleCall?
    && r.events[i].call.subject == r.events[j].call.subject && r.events[i].call.email == r.events[j].call.email
  }

  /** The second attempt misses no row that the first one lost to or that stood beside it. */
  ghost predicate SeesWinner(s: Store, subject: string, email: string, missed: Missed) {
    && (missed.link ==> subject !in s.links)
    && (missed.user ==> UserByEmail(s.users, email).None?)
    && (missed.ownLink && UserByEmail(s.users, email).Some? ==> !HasLink(s.links, UserByEmail(s.users, email).value))
  }

  /** An account a further identity may be linked to. */
  predicate Linkable(user: User) { user.status.Pending? || (user.status.Active? && user.emailVerifiedAt.Some?) }

  lemma EmailStays(c: Config, r: Run, i: nat, j: nat, email: string)
    requires Honest(c, r) && i <= j <= |r.events| && UserByEmail(StateAt(c, r, i).users, email).Some?
    ensures UserByEmail(StateAt(c, r, j).users, email) == UserByEmail(StateAt(c, r, i).users, email)
  {
    MovesForward(c, r, i, j);
    GoodAt(c, r, j);
    hide Honest, StateAt, VerificationsOk, TicketsUnique, SessionsOk, OneUnused, LinksOk;
  }

  lemma LinksStay(c: Config, r: Run, i: nat, j: nat, subject: string)
    requires Honest(c, r) && i <= j <= |r.events| && subject in StateAt(c, r, i).links
    ensures subject in StateAt(c, r, j).links && StateAt(c, r, j).links[subject].userID == StateAt(c, r, i).links[subject].userID
  {
    hide Honest, StateAt;
    MovesForward(c, r, i, j);
  }

  lemma ConflictIff(c: Config, s: Store, subject: string, email: string, missed: Missed, now: Time)
    ensures GoogleAttempt(c, s, subject, email, missed, now).reply == Refused(Conflict) <==>
      && (subject in s.links ==> missed.link)
      && match UserByEmail(s.users, email)
         case None => subject in s.links
         case Some(u) =>
           || missed.user
           || (Linkable(s.users[u]) && if HasLink(s.links, u) then missed.ownLink else subject in s.links)
  {
    hide UserByEmail, HasLink, StartSession;
    StartsSignIn(c);
  }

  /** Whether one retry is enough. When the second attempt sees what the first one lost to, it is
      refused again exactly if a third transaction linked the subject or the account in between and
      the attempt missed that link. */
  lemma RetryConflictsIff(c: Config, r: Run, i: nat, j: nat)
    requires Honest(c, r) && TwoAttempts(r, i, j) && OutcomeAt(c, r, i).reply == Refused(Conflict)
    requires SeesWinner(StateAt(c, r, i), r.events[j].call.subject, r.events[j].call.email, r.events[j].call.missed)
    ensures var s, t, subject, missed := StateAt(c, r, i), StateAt(c, r, j), r.events[j].call.subject, r.events[j].call.missed;
      OutcomeAt(c, r, j).reply == Refused(Conflict) <==>
        && subject !in s.links && (subject in t.links ==> missed.link)
        && UserByEmail(t.users, r.events[j].call.email).Some?
        && var u := UserByEmail(t.users, r.events[j].call.email).value;
           && Linkable(t.users[u])
           && if HasLink(t.links, u) then missed.ownLink && !HasLink(s.links, u) else subject in t.links
  {
    var s, t, e, f := StateAt(c, r, i), StateAt(c, r, j), r.events[i], r.events[j];
    ConflictIff(c, s, e.call.subject, e.call.email, e.call.missed, e.now);
    ConflictIff(c, t, f.call.subject, f.call.email, f.call.missed, f.now);
    hide Honest, StateAt, GoogleAttempt, HasLink, UserByEmail;
    if UserByEmail(s.users, e.call.email).Some? { EmailStays(c, r, i, j, e.call.email); }
    if e.call.subject in s.links { LinksStay(c, r, i, j, e.call.subject); }
  }

  /** The retry signs in when the link the first attempt lost to is its own and the account is in
      service. */
  lemma RetryFindsItsLink(c: Config, r: Run, i: nat, j: nat)
    requires Honest(c, r) && TwoAttempts(r, i, j) && r.events[i].call.subject in StateAt(c, r, i).links
    requires SeesWinner(StateAt(c, r, i), r.events[j].call.subject, r.events[j].call.email, r.events[j].call.missed)
    ensures var u := StateAt(c, r, i).links[r.events[i].call.subject].userID;
      OutcomeAt(c, r, j).reply.SignedIn? <==> AccountActive(StateAt(c, r, j), u)
  {
    var subject := r.events[i].call.subject;
    LinksStay(c, r, i, j, subject);
    LinkedMeansVerified(c, r, j, subject);
    hide Honest, StateAt, UserByEmail, GoogleNew, GoogleLink;
  }

  /** Three devices of one account defeat the retry: the first attempt loses the address to a
      registration, another sign-in links the subject, and the second attempt misses that link. */
  lemma RetryCanConflict(c: Config, start: Store, subject: string, email: string, password: string, code: string, now: Time)
      returns (r: Run)
    requires Initial(start) && UserByEmail(start.users, email).None?
    ensures Honest(c, r) && TwoAttempts(r, 1, 3) && |r.events| == 4
    ensures SeesWinner(StateAt(c, r, 1), subject, email, r.events[3].call.missed)
    ensures OutcomeAt(c, r, 1).reply == Refused(Conflict) && OutcomeAt(c, r, 3).reply == Refused(Conflict)
  {
    var first, second := GoogleCall(subject, email, Missed(false, true, false)), GoogleCall(subject, email, Missed(true, false, true));
    r := Run(start, [Event(RegisterCall(email, password, true, code), now), Event(first, now),
                     Event(GoogleCall(subject, email, CURRENT), now), Event(second, now)]);
    var s1 := Register(start, email, password, true, code, now).store;
    var s3 := GoogleAttempt(c, s1, subject, email, CURRENT, now).store;
    Registered(start, email, password, code, now);
    LinkedByOther(c, s1, start.next, subject, email, now);
    ConflictIff(c, s1, subject, email, first.missed, now);
    ConflictIff(c, s3, subject, email, second.missed, now);
    assert StateAt(c, r, 0) == start;
    hide Register, GoogleAttempt, UserByEmail, HasLink;
    assert StateAt(c, r, 1) == s1;
    assert StateAt(c, r, 2) == s1 by { ConflictChangesNothing(c, s1, subject, email, first.missed, now); }
    assert StateAt(c, r, 3) == s3;
  }

  lemma Registered(start: Store, email: string, password: string, code: string, now: Time)
    requires Initial(start) && UserByEmail(start.users, email).None?
    ensures var s := Register(start, email, password, true, code, now).store;
      && s.links == map[] && start.next in s.users && s.users[start.next].status.Pending?
      && UserByEmail(s.users, email) == Some(start.next) && !HasLink(s.links, start.next)
  {
    var s := Register(start, email, password, true, code, now).store;
    assert s.users[start.next].email == email;
  }

  lemma LinkedByOther(c: Config, s: Store, u: nat, subject: string, email: string, now: Time)
    requires s.links == map[] && u in s.users && s.users[u].status.Pending? && UserByEmail(s.users, email) == Some(u)
    requires forall v :: v in s.users && v != u ==> s.users[v].email != email
    ensures var t := GoogleAttempt(c, s, subject, email, CURRENT, now).store;
      && subject in t.links && HasLink(t.links, u) && UserByEmail(t.users, email) == Some(u) && Linkable(t.users[u])
  {
    var t := GoogleAttempt(c, s, subject, email, CURRENT, now).store;
    assert !HasLink(s.links, u);
    assert t.links[subject].userID == u;
    assert t.users[u].email == s.users[u].email;
  }

  /** A subject whose account is active signs in exactly when the attempt sees the link. */
  lemma LinkedSignsInIff(c: Config, s: Store, subject: string, email: string, missed: Missed, now: Time)
    requires Inv(c, s) && subject in s.links && AccountActive(s, s.links[subject].userID)
    ensures GoogleAttempt(c, s, subject, email, missed, now).reply.SignedIn? <==> !missed.link
  {
    hide Inv, UserByEmail, HasLink;
  }

  /** The retry does not cover every race: two first sign-ins of one subject, of which the loser
      missed the link but already finds the winner's account, end in a refusal that is not retried,
      though the account it names is linked to that very subject. */
  lemma LoserCanBeRefused(c: Config, s: Store, subject: string, email: string, now: Time)
    requires Inv(c, s) && subject in s.links && UserByEmail(s.users, email) == Some(s.links[subject].userID)
    requires AccountActive(s, s.links[subject].userID)
    ensures GoogleAttempt(c, s, subject, email, Missed(true, false, false), now).reply == Refused(IdentityAlreadyLinked)
  {
    Verified(c, s, subject);
    hide Inv, UserByEmail;
  }

  lemma Verified(c: Config, s: Store, subject: string)
    requires Inv(c, s) && subject in s.links
    ensures s.links[subject].userID in s.users && s.users[s.links[subject].userID].emailVerifiedAt.Some?
  {
    hide UsersOk, VerificationsOk, TicketsUnique, SessionsOk, OneUnused;
  }

  /** Such a state is reached: a first sign-in creates it. */
  lemma LoserIsReachable(c: Config, start: Store, subject: string, email: string, now: Time)
    requires Initial(start) && UserByEmail(start.users, email).None?
    ensures var first, second := Event(GoogleCall(subject, email, CURRENT), now), Event(GoogleCall(subject, email, Missed(true, false, false)), now);
      var r := Run(start, [first, second]);
      && Honest(c, r) && OutcomeAt(c, r, 0).reply.SignedIn? && OutcomeAt(c, r, 1).reply == Refused(IdentityAlreadyLinked)
  {
    var first, second := Event(GoogleCall(subject, email, CURRENT), now), Event(GoogleCall(subject, email, Missed(true, false, false)), now);
    var r := Run(start, [first, second]);
    assert Honest(c, r);
    FirstSignIn(c, start, subject, email, now);
    var s := GoogleAttempt(c, start, subject, email, CURRENT, now).store;
    assert StateAt(c, r, 0) == start && StateAt(c, r, 1) == s;
    hide Initial, GoogleAttempt, StateAt;
    GoodAt(c, r, 1);
    LoserCanBeRefused(c, s, subject, email, now);
  }

  lemma FirstSignIn(c: Config, start: Store, subject: string, email: string, now: Time)
    requires Initial(start) && UserByEmail(start.users, email).None?
    ensures var o := GoogleAttempt(c, start, subject, email, CURRENT, now);
      && o.reply.SignedIn? && subject in o.store.links && AccountActive(o.store, o.store.links[subject].userID)
      && UserByEmail(o.store.users, email) == Some(o.store.links[subject].userID)
  {
    var o := GoogleAttempt(c, start, subject, email, CURRENT, now);
    assert o.store.users == start.users[start.next := User(email, None, Active, Some(now), now)];
    assert o.store.users[start.next].email == email;
  }
}
