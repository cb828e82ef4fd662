/** When a relay ticket admits, followed from its issue through the run to its consumption, and when an
    admission is upheld. */
module TicketAnswers {
  import opened ConnectorTypes
  import opened ConnectorStore
  import opened ConnectorWrites
  import opened PairingSpec
  import opened CredentialSpec
  import opened ConnectorRuns
  import opened CredentialHistory
  import opened CredentialRuns
  import opened RevocationRuns
  import opened TicketRuns
  import opened CredentialAnswers

  // ---------------------------------------------------------------- every ticket is of one row

  /** Event `i` handed out a ticket for this row, which had a live credential. */
  ghost predicate IssuesTicket(c: Config, events: seq<Event>, i: nat, role: Role, k: nat, sessionID: Option<SessionId>, until: Time) {
    && i < |events| && Exists(c, events, i, role, k) && RowAt(c, events, i, role, k).slots.live.Some?
    && HandsTicket(c, StateAt(c, events, i), StateAt(c, events, i + 1), ReplyAt(c, events, i), role, k, sessionID, until, events[i].now)
  }

  lemma PairingIssuesNone(c: Config, s: Store, e: Event)
    requires PairingCall(e.call)
    ensures !PairingStep(c, s, e).1.TicketIssued?
  {
    hide BeginPairing, ClaimPairing, ConfirmPairing, PollPairing, ApprovePairing, CancelPairing;
    match e.call
    case BeginPairingCall(identity, proven, challenge, code) => BeginAnswers(c, s, identity, proven, challenge, code, e.now);
    case ClaimPairingCall(userID, userCode, identity, proven, challenge) =>
      ClaimAnswers(s, userID, userCode, identity, proven, challenge, e.now, e.account);
    case ConfirmPairingCall(userID, id, d) => ConfirmAnswers(c, s, userID, id, d, e.now, e.account);
    case PollPairingCall(secret) => PollAnswers(c, s, secret, e.now);
    case ApprovePairingCall(id, secret, keyID) => ApproveAnswers(s, id, secret, keyID, e.now);
    case CancelPairingCall(id, secret) => CancelAnswers(s, id, secret);
  }

  lemma TokensIssueNone(c: Config, s: Store, e: Event)
    requires !PairingCall(e.call) && !DeviceCall(e.call) && !ConnectorCall(e.call)
    ensures !TokenStep(c, s, e).1.TicketIssued?
  {
    hide TrustedIdentities, Earlier;
  }

  lemma OnlyTwoIssue(c: Config, s: Store, e: Event)
    requires !DeviceCall(e.call) && !ConnectorCall(e.call)
    ensures !Step(c, s, e).1.TicketIssued?
  {
    hide PairingStep, DeviceStep, ConnectorStep, TokenStep;
    if PairingCall(e.call) { PairingIssuesNone(c, s, e); } else { TokensIssueNone(c, s, e); }
  }

  lemma TicketIsOfRow(c: Config, events: seq<Event>, i: nat) returns (role: Role, k: nat, sessionID: Option<SessionId>, until: Time)
    requires i < |events| && ReplyAt(c, events, i).TicketIssued?
    ensures IssuesTicket(c, events, i, role, k, sessionID, until)
  {
    hide Step, HandsTicket;
    var s, e := StateAt(c, events, i), events[i];
    if DeviceCall(e.call) {
      DeviceAnswersIff(c, events, i);
      role, k, sessionID := Client, e.call.deviceID, Some(e.call.sessionID);
      until := EarlierEnd(s.devices[k].slots.expiresAt.value, e.call.accessExpiresAt);
    } else if ConnectorCall(e.call) {
      ConnectorAnswersIff(c, events, i);
      role, sessionID := Connector, None;
      k :| Shows(s, Connector, k, e.call.credential, e.now)
        && HandsTicket(c, s, StateAt(c, events, i + 1), ReplyAt(c, events, i), Connector, k, None, s.connectors[k].slots.expiresAt.value, e.now);
      until := s.connectors[k].slots.expiresAt.value;
    } else {
      OnlyTwoIssue(c, s, e);
    }
  }

  // ---------------------------------------------------------------- a ticket is spent only by admitting

  ghost predicate Spends(e: Event, reply: Reply, h: Digest) { e.call == ConsumeRelayTicketCall(h.of) && reply.Admitted? }

  ghost predicate TicketEdge(s: Store, t: Store, e: Event, reply: Reply, h: Digest)
    requires h in s.tickets
  {
    && h in t.tickets
    && t.tickets[h] == if Spends(e, reply, h) then s.tickets[h].(consumedAt := Some(e.now)) else s.tickets[h]
  }

  lemma ConsumeEdge(s: Store, secret: Secret, now: Time, account: Auth, session: Auth, h: Digest)
    requires h in s.tickets
    ensures var (t, reply) := ConsumeRelayTicket(s, secret, now, account, session);
      && h in t.tickets
      && t.tickets[h] == if secret == h.of && reply.Admitted? then s.tickets[h].(consumedAt := Some(now)) else s.tickets[h]
  {
    hide TrustedIdentities, Earlier, SubjectStands;
  }

  lemma NewTicketIsNew(c: Config, s: Store)
    requires Inv(c, s)
    ensures Sha256(Issued(Ort, s.next)) !in s.tickets
  {
    hide RowsOk, PairingsOk, CodesUnique, OneActivePerKey, TrustOk;
  }

  lemma DeviceKeepsTicket(c: Config, s: Store, e: Event, h: Digest)
    requires Inv(c, s) && DeviceCall(e.call) && h in s.tickets
    ensures var (t, reply) := DeviceStep(c, s, e); h in t.tickets && t.tickets[h] == s.tickets[h]
  {
    NewTicketIsNew(c, s);
    DeviceStepAnswers(c, s, e);
    hide Inv, DeviceStep;
  }

  lemma ConnectorKeepsTicket(c: Config, s: Store, e: Event, h: Digest)
    requires Inv(c, s) && ConnectorCall(e.call) && h in s.tickets
    ensures var (t, reply) := ConnectorStep(c, s, e); h in t.tickets && t.tickets[h] == s.tickets[h]
  {
    NewTicketIsNew(c, s);
    ConnectorStepAnswers(c, s, e);
    hide Inv, ConnectorStep;
  }

  lemma OtherTokensKeepTicket(c: Config, s: Store, e: Event)
    requires e.call.IssueChallengeCall? || e.call.ValidateAdmissionCall?
    ensures Step(c, s, e).0.tickets == s.tickets
  {
    hide ConsumeRelayTicket, ValidateAdmission;
  }

  lemma TicketStep(c: Config, s: Store, e: Event, h: Digest)
    requires Inv(c, s) && h in s.tickets
    ensures var (t, reply) := Step(c, s, e); TicketEdge(s, t, e, reply, h)
  {
    hide Inv, Step, PairingStep, DeviceStep, ConnectorStep, ConsumeRelayTicket;
    if PairingCall(e.call) {
      PairingCallKeepsTickets(c, s, e);
    } else if DeviceCall(e.call) {
      DeviceCalls(c, s, e);
      DeviceKeepsTicket(c, s, e, h);
    } else if ConnectorCall(e.call) {
      ConnectorCalls(c, s, e);
      ConnectorKeepsTicket(c, s, e, h);
    } else if e.call.ConsumeRelayTicketCall? {
      ConsumeCall(c, s, e);
      ConsumeEdge(s, e.call.ticket, e.now, e.account, e.session, h);
    } else {
      OtherTokensKeepTicket(c, s, e);
    }
  }

  lemma PairingCallKeepsTickets(c: Config, s: Store, e: Event)
    requires PairingCall(e.call)
    ensures Step(c, s, e).0.tickets == s.tickets
  {
    hide PairingStep, DeviceStep, ConnectorStep, TokenStep;
    PairingKeepsTickets(c, s, e);
  }

  ghost predicate SpentBetween(c: Config, events: seq<Event>, i: nat, j: nat, h: Digest)
    requires j <= |events|
  {
    exists m: nat :: i <= m < j && Spends(events[m], ReplyAt(c, events, m), h)
  }

  lemma {:induction false} SpentIff(c: Config, events: seq<Event>, i: nat, j: nat, h: Digest)
    requires i <= j <= |events| && h in StateAt(c, events, i).tickets && StateAt(c, events, i).tickets[h].consumedAt.None?
    ensures h in StateAt(c, events, j).tickets
    ensures var a, b := StateAt(c, events, i).tickets[h], StateAt(c, events, j).tickets[h];
      b == a.(consumedAt := b.consumedAt) && (b.consumedAt.Some? <==> SpentBetween(c, events, i, j, h))
    decreases j
  {
    hide Step, Spends;
    if i < j {
      SpentIff(c, events, i, j - 1, h);
      hide Inv;
      StateIsOk(c, events, j - 1);
      TicketStep(c, StateAt(c, events, j - 1), events[j - 1], h);
      assert SpentBetween(c, events, i, j, h) <==>
        SpentBetween(c, events, i, j - 1, h) || Spends(events[j - 1], ReplyAt(c, events, j - 1), h);
    }
  }

  // ---------------------------------------------------------------- consumption

  lemma ConsumeDecides(s: Store, secret: Secret, now: Time, account: Auth, session: Auth)
    requires ValidToken(secret, Ort) && Sha256(secret) in s.tickets
    ensures var reply, ticket := ConsumeRelayTicket(s, secret, now, account, session).1, s.tickets[Sha256(secret)];
      var rows := RowsOf(s, ticket.role);
      && (reply.Admitted? <==>
           && ticket.consumedAt.None? && now < ticket.expiresAt && now < ticket.authorizationExpiresAt
           && account.Granted? && (ticket.role.Client? ==> session.Granted?)
           && ticket.subjectID in rows && rows[ticket.subjectID].userID == ticket.userID
           && rows[ticket.subjectID].identity.keyID == ticket.subjectKeyID && rows[ticket.subjectID].revokedAt.None?
           && (ticket.role.Client? ==> rows[ticket.subjectID].activatedAt.Some?))
      && (reply.Admitted? ==>
           && reply.admission.userID == ticket.userID && reply.admission.role == ticket.role && reply.admission.subjectID == ticket.subjectID
           && reply.admission.sessionID == (if ticket.role.Client? then ticket.sessionID else None)
           && reply.admission.identity == rows[ticket.subjectID].identity
           && reply.admission.authorizationExpiresAt ==
                (if ticket.authorizationExpiresAt < now + AUTHORIZATION_LEASE then ticket.authorizationExpiresAt else now + AUTHORIZATION_LEASE))
  {
    hide TrustedIdentities;
  }

  /** A ticket admits exactly once, in time, while identity still grants its account and session and its
      row stands, and the admission is its row's with the earlier of the bound set at issue and five
      minutes. */
  lemma TicketAdmitsIff(c: Config, events: seq<Event>, i: nat, j: nat, role: Role, k: nat, sessionID: Option<SessionId>, until: Time)
    requires i < j < |events| && IssuesTicket(c, events, i, role, k, sessionID, until)
    requires events[j].call == ConsumeRelayTicketCall(ReplyAt(c, events, i).ticket)
    ensures Exists(c, events, j, role, k)
    ensures var now, row, reply := events[j].now, RowAt(c, events, j, role, k), ReplyAt(c, events, j);
      && (reply.Admitted? <==>
           && !SpentBetween(c, events, i + 1, j, Sha256(ReplyAt(c, events, i).ticket))
           && now < events[i].now + c.ticketLifetime && now < until
           && events[j].account.Granted? && (role.Client? ==> events[j].session.Granted?) && row.revokedAt.None?)
      && (reply.Admitted? ==>
           && reply.admission.userID == row.userID && reply.admission.role == role && reply.admission.subjectID == k
           && reply.admission.sessionID == (if role.Client? then sessionID else None) && reply.admission.identity == row.identity
           && reply.admission.authorizationExpiresAt ==
                (if until < now + AUTHORIZATION_LEASE then until else now + AUTHORIZATION_LEASE))
  {
    hide Step, StateAt, Inv, ConsumeRelayTicket, SpentBetween, SlotsLater;
    var h := Sha256(ReplyAt(c, events, i).ticket);
    IssuedRow(c, events, i, role, k, sessionID, until);
    SpentIff(c, events, i + 1, j, h);
    RowForward(c, events, i, j, role, k);
    ConsumeCall(c, StateAt(c, events, j), events[j]);
    ConsumeDecides(StateAt(c, events, j), h.of, events[j].now, events[j].account, events[j].session);
  }

  lemma IssuedRow(c: Config, events: seq<Event>, i: nat, role: Role, k: nat, sessionID: Option<SessionId>, until: Time)
    requires IssuesTicket(c, events, i, role, k, sessionID, until)
    ensures var s, t, reply := StateAt(c, events, i), StateAt(c, events, i + 1), ReplyAt(c, events, i);
      var row := RowAt(c, events, i, role, k);
      && reply.TicketIssued? && ValidToken(reply.ticket, Ort) && Sha256(reply.ticket) in t.tickets
      && t.tickets[Sha256(reply.ticket)] == Ticket(row.userID, role, k, row.identity.keyID, sessionID, until, events[i].now,
                                                   events[i].now + c.ticketLifetime, None)
      && (role.Client? ==> row.activatedAt.Some?)
  {
    hide Step, StateAt, Inv;
    StateIsOk(c, events, i);
    RowFacts(c, StateAt(c, events, i), role, k);
  }

  // ---------------------------------------------------------------- checks of a live admission

  /** An admission is upheld exactly while its row stands unchanged with an unexpired credential and
      identity grants its account and, for a device, its session. */
  lemma CheckAnswersIff(c: Config, events: seq<Event>, j: nat, a: Admission)
    requires j < |events| && events[j].call == ValidateAdmissionCall(a)
    ensures StateAt(c, events, j + 1) == StateAt(c, events, j)
    ensures var rows := RowsOf(StateAt(c, events, j), a.role);
      ReplyAt(c, events, j).Valid? <==>
        && a.userID != "" && (a.role.Client? ==> a.sessionID.Some? && a.sessionID.value != "")
        && a.subjectID in rows && rows[a.subjectID].userID == a.userID && rows[a.subjectID].identity == a.identity
        && rows[a.subjectID].revokedAt.None?
        && rows[a.subjectID].slots.expiresAt.Some? && events[j].now < rows[a.subjectID].slots.expiresAt.value
        && events[j].account.Granted? && (a.role.Client? ==> events[j].session.Granted?)
  {
    hide Step, Inv, ValidateAdmission;
    StateIsOk(c, events, j);
    if a.subjectID in RowsOf(StateAt(c, events, j), a.role) { RowFacts(c, StateAt(c, events, j), a.role, a.subjectID); }
    CheckCall(c, StateAt(c, events, j), events[j]);
    CheckDecides(StateAt(c, events, j), a, events[j].now, events[j].account, events[j].session);
  }

  lemma CheckCall(c: Config, s: Store, e: Event)
    requires e.call.ValidateAdmissionCall?
    ensures Step(c, s, e) == (s, ValidateAdmission(s, e.call.admission, e.now, e.account, e.session))
  {
    hide ValidateAdmission;
  }

  lemma CheckDecides(s: Store, a: Admission, now: Time, account: Auth, session: Auth)
    ensures ValidateAdmission(s, a, now, account, session).Valid? <==>
      && a.userID != "" && (a.role.Client? ==> a.sessionID.Some? && a.sessionID.value != "")
      && a.subjectID in RowsOf(s, a.role) && RowsOf(s, a.role)[a.subjectID].userID == a.userID
      && RowsOf(s, a.role)[a.subjectID].identity == a.identity && RowsOf(s, a.role)[a.subjectID].revokedAt.None?
      && RowsOf(s, a.role)[a.subjectID].slots.expiresAt.Some? && now < RowsOf(s, a.role)[a.subjectID].slots.expiresAt.value
      && (a.role.Client? ==> RowsOf(s, a.role)[a.subjectID].activatedAt.Some?)
      && account.Granted? && (a.role.Client? ==> session.Granted?)
  {
  }
}
