/** Relay tickets, leases and trust snapshots over whole runs. */
module TicketRuns {
  import opened ConnectorTypes
  import opened ConnectorStore
  import opened ConnectorWrites
  import opened PairingSpec
  import opened CredentialSpec
  import opened ConnectorRuns
  import opened CredentialHistory
  import opened RevocationRuns

  // ---------------------------------------------------------------- trust

  lemma SameKeySameRow(rows: Subjects, i: nat, j: nat)
    requires KeysUnique(rows) && i in rows && j in rows && rows[i].identity == rows[j].identity
    ensures i == j
  {
  }

  ghost predicate Trusting(s: Store, userID: UserId, d: nat, k: nat) {
    TrustKey(userID, d, k) in s.trust && s.trust[TrustKey(userID, d, k)].revokedAt.None?
  }

  lemma ClientTrustsIff(c: Config, s: Store, userID: UserId, d: nat, k: nat)
    requires Inv(c, s) && d in s.devices && k in s.connectors && s.connectors[k].userID == userID && s.connectors[k].revokedAt.None?
    ensures s.connectors[k].identity in TrustedIdentities(s, userID, Client, d) <==> Trusting(s, userID, d, k)
  {
    hide PairingsOk, CodesUnique, OneActivePerKey, TokensOk, HoldersUnique, SlotsOk;
    var x, snapshot := s.connectors[k].identity, TrustedIdentities(s, userID, Client, d);
    if x in snapshot {
      var key :| key in s.trust && key.userID == userID && key.deviceID == d && s.trust[key].revokedAt.None?
        && key.connectorID in s.connectors && s.connectors[key.connectorID].identity == x;
      SameKeySameRow(s.connectors, key.connectorID, k);
      assert key == TrustKey(userID, d, k);
    }
    if Trusting(s, userID, d, k) { assert TrustKey(userID, d, k) in s.trust; }
  }

  lemma ConnectorTrustsIff(c: Config, s: Store, userID: UserId, d: nat, k: nat)
    requires Inv(c, s) && d in s.devices && k in s.connectors && s.devices[d].userID == userID && s.devices[d].revokedAt.None?
    ensures s.devices[d].identity in TrustedIdentities(s, userID, Connector, k) <==> Trusting(s, userID, d, k)
  {
    hide PairingsOk, CodesUnique, OneActivePerKey, TokensOk, HoldersUnique, SlotsOk;
    var x, snapshot := s.devices[d].identity, TrustedIdentities(s, userID, Connector, k);
    if x in snapshot {
      var key :| key in s.trust && key.userID == userID && key.connectorID == k && s.trust[key].revokedAt.None?
        && key.deviceID in s.devices && s.devices[key.deviceID].identity == x;
      SameKeySameRow(s.devices, key.deviceID, d);
      assert key == TrustKey(userID, d, k);
    }
    if Trusting(s, userID, d, k) { assert TrustKey(userID, d, k) in s.trust; }
  }

  /** In every reachable state, of an unrevoked device and an unrevoked connector of one account
      either each appears in the other's snapshot or neither does. */
  lemma TrustIsSymmetric(c: Config, events: seq<Event>, n: nat, userID: UserId, d: nat, k: nat)
    requires n <= |events|
    requires var s := StateAt(c, events, n);
      && d in s.devices && s.devices[d].userID == userID && s.devices[d].revokedAt.None?
      && k in s.connectors && s.connectors[k].userID == userID && s.connectors[k].revokedAt.None?
    ensures var s := StateAt(c, events, n);
      s.connectors[k].identity in TrustedIdentities(s, userID, Client, d) <==> s.devices[d].identity in TrustedIdentities(s, userID, Connector, k)
  {
    hide StateAt, Inv, TrustedIdentities, Trusting;
    StateIsOk(c, events, n);
    ClientTrustsIff(c, StateAt(c, events, n), userID, d, k);
    ConnectorTrustsIff(c, StateAt(c, events, n), userID, d, k);
  }

  /** Every identity in a snapshot stands for an unrevoked row of the other side and an unrevoked
      trust row between the two, in this account. */
  ghost predicate Backed(s: Store, userID: UserId, role: Role, i: nat, x: PublicIdentity) {
    exists k :: k in s.trust && k.userID == userID && s.trust[k].revokedAt.None?
      && i == (if role.Client? then k.deviceID else k.connectorID)
      && k.deviceID in s.devices && k.connectorID in s.connectors
      && s.devices[k.deviceID].userID == userID && s.connectors[k.connectorID].userID == userID
      && (if role.Client? then s.connectors[k.connectorID].revokedAt.None? && s.connectors[k.connectorID].identity == x
          else s.devices[k.deviceID].revokedAt.None? && s.devices[k.deviceID].identity == x)
  }

  lemma SnapshotIsBacked(s: Store, userID: UserId, role: Role, i: nat, x: PublicIdentity)
    requires TrustOk(s) && x in TrustedIdentities(s, userID, role, i)
    ensures Backed(s, userID, role, i, x)
  {
  }

  // ---------------------------------------------------------------- issuing and consuming

  /** What the call that created a ticket had checked: the live, current credential of the
      subject's row, whose expiry and, for a device, the access token's bound the authorization. */
  ghost predicate IssuedTicket(c: Config, s: Store, e: Event, reply: Reply, h: Digest, ticket: Ticket) {
    && reply.TicketIssued? && Sha256(reply.ticket) == h && reply.expiresAt == ticket.expiresAt
    && ticket.expiresAt == e.now + c.ticketLifetime && ticket.consumedAt.None?
    && ticket.subjectID in RowsOf(s, ticket.role)
    && var row := RowsOf(s, ticket.role)[ticket.subjectID];
    && TicketsRow(e, reply, ticket.role, ticket.subjectID, row) && Current(row, e.now)
    && row.userID == ticket.userID && row.identity.keyID == ticket.subjectKeyID
    && ticket.authorizationExpiresAt <= row.slots.expiresAt.value
    && (ticket.role.Client? ==>
         && e.call.IssueBrowserTicketCall? && ticket.sessionID == Some(e.call.sessionID) && e.call.userID == ticket.userID
         && (e.call.accessExpiresAt.Some? ==> ticket.authorizationExpiresAt <= e.call.accessExpiresAt.value))
  }

  lemma DeviceTicketIssued(c: Config, s: Store, e: Event, h: Digest)
    requires DeviceCall(e.call) && h !in s.tickets && h in DeviceStep(c, s, e).0.tickets
    ensures var (t, reply) := DeviceStep(c, s, e); IssuedTicket(c, s, e, reply, h, t.tickets[h])
  {
    hide RotateDevice, ActivateDevice, RevokeAccountDevice, IssueBrowserTicket, IssuedTicket;
    if e.call.IssueBrowserTicketCall? { BrowserTicketRow(c, s, e, h); }
  }

  lemma BrowserTicketRow(c: Config, s: Store, e: Event, h: Digest)
    requires e.call.IssueBrowserTicketCall? && h !in s.tickets
    requires h in IssueBrowserTicket(c, s, e.call.userID, e.call.sessionID, e.call.deviceID, e.call.credential, e.call.accessExpiresAt,
                                     e.now, e.account, e.session).0.tickets
    ensures var (t, reply) := IssueBrowserTicket(c, s, e.call.userID, e.call.sessionID, e.call.deviceID, e.call.credential,
                                                 e.call.accessExpiresAt, e.now, e.account, e.session);
      IssuedTicket(c, s, e, reply, h, t.tickets[h])
  {
    hide WithoutPending;
  }

  lemma ConnectorTicketIssued(c: Config, s: Store, e: Event, h: Digest)
    requires ConnectorCall(e.call) && h !in s.tickets && h in ConnectorStep(c, s, e).0.tickets
    ensures var (t, reply) := ConnectorStep(c, s, e); IssuedTicket(c, s, e, reply, h, t.tickets[h])
  {
    hide RotateConnector, ActivateConnector, RevokeConnector, RevokeAccountConnector, IssueConnectorTicket, IssuedTicket;
    if e.call.IssueConnectorTicketCall? { ConnectorTicketRow(c, s, e, h); }
  }

  lemma ConnectorTicketRow(c: Config, s: Store, e: Event, h: Digest)
    requires e.call.IssueConnectorTicketCall?
    requires h !in s.tickets && h in IssueConnectorTicket(c, s, e.call.credential, e.now, e.account).0.tickets
    ensures var (t, reply) := IssueConnectorTicket(c, s, e.call.credential, e.now, e.account); IssuedTicket(c, s, e, reply, h, t.tickets[h])
  {
    hide WithoutPending;
  }

  lemma PairingKeepsTickets(c: Config, s: Store, e: Event)
    requires PairingCall(e.call)
    ensures PairingStep(c, s, e).0.tickets == s.tickets
  {
    hide BeginPairing, ClaimPairing, ConfirmPairing, PollPairing, ApprovePairing, CancelPairing;
  }

  lemma TokenStepTickets(c: Config, s: Store, e: Event)
    requires !PairingCall(e.call) && !DeviceCall(e.call) && !ConnectorCall(e.call)
    ensures TokenStep(c, s, e).0.tickets.Keys == s.tickets.Keys
  {
    hide TrustedIdentities, Earlier;
  }

  lemma NewTicketIssued(c: Config, s: Store, e: Event, h: Digest)
    requires h !in s.tickets && h in Step(c, s, e).0.tickets
    ensures var (t, reply) := Step(c, s, e); IssuedTicket(c, s, e, reply, h, t.tickets[h])
  {
    hide PairingStep, DeviceStep, ConnectorStep, TokenStep, IssuedTicket;
    if PairingCall(e.call) {
      PairingKeepsTickets(c, s, e);
    } else if DeviceCall(e.call) {
      DeviceTicketIssued(c, s, e, h);
    } else if ConnectorCall(e.call) {
      ConnectorTicketIssued(c, s, e, h);
    } else {
      TokenStepTickets(c, s, e);
    }
  }

  lemma {:induction false} FindIssue(c: Config, events: seq<Event>, n: nat, h: Digest) returns (i: nat)
    requires n <= |events| && h in StateAt(c, events, n).tickets
    ensures i < n && h in StateAt(c, events, i + 1).tickets
    ensures IssuedTicket(c, StateAt(c, events, i), events[i], ReplyAt(c, events, i), h, StateAt(c, events, i + 1).tickets[h])
    decreases n
  {
    hide Step, IssuedTicket;
    i := n - 1;
    if h in StateAt(c, events, n - 1).tickets {
      i := FindIssue(c, events, n - 1, h);
    } else {
      NewTicketIssued(c, StateAt(c, events, n - 1), events[n - 1], h);
    }
  }

  lemma TicketForward(c: Config, events: seq<Event>, i: nat, j: nat, h: Digest)
    requires i <= j <= |events| && h in StateAt(c, events, i).tickets
    ensures h in StateAt(c, events, j).tickets && TicketLater(StateAt(c, events, i).tickets[h], StateAt(c, events, j).tickets[h])
  {
    hide StateAt, TicketLater;
    StatesMoveForward(c, events, i, j);
  }

  /** What an admission says about the ticket it came from and the rows it was checked against. */
  ghost predicate FromTicket(s: Store, t: Store, e: Event, a: Admission) {
    && e.call.ConsumeRelayTicketCall?
    && var h := Sha256(e.call.ticket);
    && h in s.tickets && h in t.tickets && s.tickets[h].consumedAt.None? && t.tickets[h].consumedAt == Some(e.now)
    && var ticket := s.tickets[h];
    && a.userID == ticket.userID && a.role == ticket.role && a.subjectID == ticket.subjectID
    && e.now < ticket.expiresAt && e.now < ticket.authorizationExpiresAt
    && a.authorizationExpiresAt == Earlier(ticket.authorizationExpiresAt, e.now + AUTHORIZATION_LEASE)
    && SubjectStands(RowsOf(s, a.role), a.role, a.subjectID, a.userID, a.identity.keyID)
    && a.identity == RowsOf(s, a.role)[a.subjectID].identity
    && a.trustedIdentities == TrustedIdentities(s, a.userID, a.role, a.subjectID)
    && (a.role.Client? ==> a.sessionID == ticket.sessionID && e.session.Granted?) && e.account.Granted?
  }

  lemma ConsumeAdmits(c: Config, s: Store, e: Event)
    requires !PairingCall(e.call) && !DeviceCall(e.call) && !ConnectorCall(e.call)
    ensures var (t, reply) := TokenStep(c, s, e); reply.Admitted? ==> FromTicket(s, t, e, reply.admission)
  {
    hide TrustedIdentities, Earlier;
  }

  lemma OnlyTokensAdmit(c: Config, s: Store, e: Event)
    requires PairingCall(e.call) || DeviceCall(e.call) || ConnectorCall(e.call)
    ensures !Step(c, s, e).1.Admitted?
  {
    hide TokenStep, DeviceStep, ConnectorStep, BeginPairing, ClaimPairing, ConfirmPairing, PollPairing, ApprovePairing, CancelPairing;
    match e.call
    case BeginPairingCall(identity, proven, challenge, code) => BeginAnswers(c, s, identity, proven, challenge, code, e.now);
    case ClaimPairingCall(userID, userCode, identity, proven, challenge) =>
      ClaimAnswers(s, userID, userCode, identity, proven, challenge, e.now, e.account);
    case ConfirmPairingCall(userID, id, d) => ConfirmAnswers(c, s, userID, id, d, e.now, e.account);
    case PollPairingCall(secret) => PollAnswers(c, s, secret, e.now);
    case ApprovePairingCall(id, secret, keyID) => ApproveAnswers(s, id, secret, keyID, e.now);
    case CancelPairingCall(id, secret) => CancelAnswers(s, id, secret);
    case _ =>
      if DeviceCall(e.call) { DeviceAnswerKinds(c, s, e); }
      if ConnectorCall(e.call) { ConnectorAnswerKinds(c, s, e); }
  }

  lemma AdmittedFromTicket(c: Config, s: Store, e: Event)
    ensures var (t, reply) := Step(c, s, e); reply.Admitted? ==> FromTicket(s, t, e, reply.admission)
  {
    hide PairingStep, DeviceStep, ConnectorStep, TokenStep, FromTicket;
    if PairingCall(e.call) || DeviceCall(e.call) || ConnectorCall(e.call) {
      OnlyTokensAdmit(c, s, e);
    } else {
      ConsumeAdmits(c, s, e);
    }
  }

  ghost predicate AdmittedAt(c: Config, events: seq<Event>, j: nat, a: Admission) {
    j < |events| && ReplyAt(c, events, j) == Reply.Admitted(a)
  }

  lemma AdmissionAt(c: Config, events: seq<Event>, j: nat, a: Admission)
    requires AdmittedAt(c, events, j, a)
    ensures FromTicket(StateAt(c, events, j), StateAt(c, events, j + 1), events[j], a)
  {
    hide Step, FromTicket;
    AdmittedFromTicket(c, StateAt(c, events, j), events[j]);
  }

  /** A ticket admits at most once in any run. */
  lemma ConsumedOnce(c: Config, events: seq<Event>, i: nat, j: nat, a: Admission, b: Admission)
    requires AdmittedAt(c, events, i, a) && AdmittedAt(c, events, j, b) && i != j
    ensures events[i].call.ConsumeRelayTicketCall? && events[j].call.ConsumeRelayTicketCall?
    ensures events[i].call.ticket != events[j].call.ticket
  {
    hide StateAt, ReplyAt, TrustedIdentities, SubjectStands, Earlier;
    AdmissionAt(c, events, i, a);
    AdmissionAt(c, events, j, b);
    var first, later := if i < j then i else j, if i < j then j else i;
    TicketForward(c, events, first + 1, later, Sha256(events[first].call.ticket));
  }

  /** Every admission goes back to one ticket issue for the same subject, account and session: its
      lease ends after the consumption, and no later than five minutes on, than the credential
      shown at issue, and for a device than the access token of that session. */
  lemma LeaseIsBounded(c: Config, events: seq<Event>, j: nat, a: Admission) returns (i: nat)
    requires AdmittedAt(c, events, j, a)
    ensures i < j && ReplyAt(c, events, i).TicketIssued? && events[j].call.ConsumeRelayTicketCall?
    ensures ReplyAt(c, events, i).ticket == events[j].call.ticket && events[j].now < events[i].now + c.ticketLifetime
    ensures a.subjectID in RowsOf(StateAt(c, events, i), a.role)
    ensures var row := RowsOf(StateAt(c, events, i), a.role)[a.subjectID];
      && TicketsRow(events[i], ReplyAt(c, events, i), a.role, a.subjectID, row) && Current(row, events[i].now) && row.userID == a.userID
      && events[j].now < a.authorizationExpiresAt <= events[j].now + AUTHORIZATION_LEASE
      && a.authorizationExpiresAt <= row.slots.expiresAt.value
    ensures a.role.Client? ==>
      && events[i].call.IssueBrowserTicketCall? && a.sessionID == Some(events[i].call.sessionID)
      && (events[i].call.accessExpiresAt.Some? ==> a.authorizationExpiresAt <= events[i].call.accessExpiresAt.value)
  {
    hide StateAt, ReplyAt, TrustedIdentities, SubjectStands, TicketsRow, Current;
    AdmissionAt(c, events, j, a);
    var h := Sha256(events[j].call.ticket);
    i := FindIssue(c, events, j, h);
    TicketForward(c, events, i + 1, j, h);
  }

  /** What the relay may rely on: the subject's row was standing, its snapshot is backed by trust
      rows unrevoked at that moment, no key ID carries the colon that separates table keys, and
      the authorization has not run out. */
  lemma AdmissionsAreSound(c: Config, events: seq<Event>, j: nat, a: Admission)
    requires AdmittedAt(c, events, j, a)
    ensures ':' !in a.identity.keyID && events[j].now < a.authorizationExpiresAt
    ensures a.subjectID in RowsOf(StateAt(c, events, j), a.role) && RowsOf(StateAt(c, events, j), a.role)[a.subjectID].revokedAt.None?
    ensures RowsOf(StateAt(c, events, j), a.role)[a.subjectID].identity == a.identity
    ensures forall x :: x in a.trustedIdentities ==> Backed(StateAt(c, events, j), a.userID, a.role, a.subjectID, x)
  {
    hide StateAt, ReplyAt, TrustedIdentities, Backed, PairingsOk, CodesUnique, OneActivePerKey, TokensOk, KeysUnique, HoldersUnique,
      SlotsOk, TrustOk;
    AdmissionAt(c, events, j, a);
    StateIsOk(c, events, j);
    NoColon(a.identity.keyID);
    forall x | x in a.trustedIdentities ensures Backed(StateAt(c, events, j), a.userID, a.role, a.subjectID, x) {
      SnapshotIsBacked(StateAt(c, events, j), a.userID, a.role, a.subjectID, x);
    }
  }

  lemma NoColon(keyID: string)
    requires ValidKeyID(keyID)
    ensures ':' !in keyID
  {
    assert forall i :: 0 <= i < |keyID| ==> UrlSafe(keyID[i]);
  }
}
