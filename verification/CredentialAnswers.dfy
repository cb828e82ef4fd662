/** When each credential, revocation and ticket call of a run is answered and what it then writes, told
    by the rows before and after it. */
module CredentialAnswers {
  import opened ConnectorTypes
  import opened ConnectorStore
  import opened ConnectorWrites
  import opened PairingSpec
  import opened CredentialSpec
  import opened ConnectorRuns
  import opened CredentialHistory
  import opened TicketRuns

  // ---------------------------------------------------------------- what a caller shows

  function PrefixFor(role: Role): Prefix { if role.Client? then Ord else Orc }

  /** The row's live credential, unrevoked and in time. */
  predicate Shows(s: Store, role: Role, i: nat, secret: Secret, now: Time) {
    && i in RowsOf(s, role)
    && var row := RowsOf(s, role)[i];
       && row.slots.live == Some(Sha256(secret)) && row.revokedAt.None?
       && row.slots.expiresAt.Some? && now < row.slots.expiresAt.value
  }

  /** The row's pending rotation, unrevoked and in time. */
  predicate Offers(s: Store, role: Role, i: nat, secret: Secret, now: Time) {
    && i in RowsOf(s, role)
    && var row := RowsOf(s, role)[i];
       && row.slots.pending == Some(Sha256(secret)) && row.revokedAt.None?
       && row.slots.pendingUntil.Some? && now < row.slots.pendingUntil.value
  }

  /** A signed-in account speaks for its own device. */
  predicate SpeaksFor(s: Store, userID: UserId, sessionID: SessionId, d: nat, account: Auth, session: Auth) {
    && userID != "" && sessionID != "" && d in s.devices && s.devices[d].userID == userID
    && account.Granted? && session.Granted?
  }

  // ---------------------------------------------------------------- what a call writes

  predicate Refuses(s: Store, t: Store, reply: Reply) { t == s && reply.Refused? }

  function WithRow(s: Store, role: Role, i: nat, row: Subject): Store {
    if role.Client? then s.(devices := s.devices[i := row]) else s.(connectors := s.connectors[i := row])
  }

  predicate Rotates(c: Config, s: Store, t: Store, reply: Reply, role: Role, i: nat, now: Time) {
    && i in RowsOf(s, role)
    && var row, issued := RowsOf(s, role)[i], Issued(PrefixFor(role), s.next);
       && reply == Rotated(issued, now + c.activationWindow)
       && t == WithRow(s, role, i, row.(slots := row.slots.(pending := Some(Sha256(issued)),
                                                             pendingUntil := Some(now + c.activationWindow)))).(next := s.next + 1)
  }

  predicate Activates(c: Config, s: Store, t: Store, reply: Reply, role: Role, i: nat, secret: Secret, now: Time) {
    && i in RowsOf(s, role)
    && var row, until := RowsOf(s, role)[i], now + LifetimeOf(c, role);
       if Shows(s, role, i, secret, now) then t == s && reply == Activated(row.slots.expiresAt.value)
       else
         && reply == Activated(until)
         && t == WithRow(s, role, i, row.(slots := Slots(Some(Sha256(secret)), Some(until), None, None)))
  }

  predicate HandsTicket(c: Config, s: Store, t: Store, reply: Reply, role: Role, i: nat, sessionID: Option<SessionId>, until: Time,
                        now: Time) {
    && i in RowsOf(s, role)
    && var row, secret := RowsOf(s, role)[i], Issued(Ort, s.next);
       && reply == TicketIssued(secret, now + c.ticketLifetime)
       && t == WithRow(s, role, i, row.(slots := row.slots.(pending := None, pendingUntil := None))).(
                 tickets := s.tickets[Sha256(secret) := Ticket(row.userID, role, i, row.identity.keyID, sessionID, until, now,
                                                               now + c.ticketLifetime, None)],
                 next := s.next + 1)
  }

  /** A revoked device drops its rotation and all its trust; a connector's row is only stamped. */
  predicate EndsDevice(s: Store, t: Store, d: nat, now: Time) {
    && d in s.devices
    && var row := s.devices[d];
       if row.revokedAt.Some? then t == s
       else
         && t == s.(devices := s.devices[d := row.(revokedAt := Some(now), slots := row.slots.(pending := None, pendingUntil := None))],
                    trust := t.trust)
         && t.trust.Keys == s.trust.Keys
         && forall key :: key in s.trust ==>
              t.trust[key] == if key.deviceID == d && s.trust[key].revokedAt.None? then s.trust[key].(revokedAt := Some(now)) else s.trust[key]
  }

  predicate EndsConnector(s: Store, t: Store, k: nat, now: Time) {
    && k in s.connectors
    && t == if s.connectors[k].revokedAt.Some? then s
            else s.(connectors := s.connectors[k := s.connectors[k].(revokedAt := Some(now))])
  }

  // ---------------------------------------------------------------- the answer to each call

  predicate DeviceRotation(c: Config, s: Store, userID: UserId, sessionID: SessionId, d: nat, credential: Secret,
                           now: Time, account: Auth, session: Auth, t: Store, reply: Reply) {
    if SpeaksFor(s, userID, sessionID, d, account, session) && Shows(s, Client, d, credential, now)
    then Rotates(c, s, t, reply, Client, d, now) else Refuses(s, t, reply)
  }

  predicate DeviceActivation(c: Config, s: Store, userID: UserId, sessionID: SessionId, d: nat, credential: Secret,
                             now: Time, account: Auth, session: Auth, t: Store, reply: Reply) {
    if SpeaksFor(s, userID, sessionID, d, account, session) && Activable(s, Client, d, credential, now)
    then Activates(c, s, t, reply, Client, d, credential, now) else Refuses(s, t, reply)
  }

  predicate DeviceRevocation(s: Store, userID: UserId, d: nat, now: Time, account: Auth, t: Store, reply: Reply) {
    if userID != "" && account.Granted? && d in s.devices && s.devices[d].userID == userID
    then reply == RevocationAnnounced(Revocation(userID, None, Some(d), None)) && EndsDevice(s, t, d, now) else Refuses(s, t, reply)
  }

  predicate DeviceTicket(c: Config, s: Store, userID: UserId, sessionID: SessionId, d: nat, credential: Secret,
                         accessExpiresAt: Option<Time>, now: Time, account: Auth, session: Auth, t: Store, reply: Reply) {
    if SpeaksFor(s, userID, sessionID, d, account, session) && Shows(s, Client, d, credential, now)
    then HandsTicket(c, s, t, reply, Client, d, Some(sessionID), EarlierEnd(s.devices[d].slots.expiresAt.value, accessExpiresAt), now)
    else Refuses(s, t, reply)
  }

  predicate DeviceAnswer(c: Config, s: Store, e: Event, t: Store, reply: Reply)
    requires DeviceCall(e.call)
  {
    match e.call
    case RotateDeviceCall(userID, sessionID, d, credential) =>
      DeviceRotation(c, s, userID, sessionID, d, credential, e.now, e.account, e.session, t, reply)
    case ActivateDeviceCall(userID, sessionID, d, credential) =>
      DeviceActivation(c, s, userID, sessionID, d, credential, e.now, e.account, e.session, t, reply)
    case RevokeAccountDeviceCall(userID, d) => DeviceRevocation(s, userID, d, e.now, e.account, t, reply)
    case IssueBrowserTicketCall(userID, sessionID, d, credential, accessExpiresAt) =>
      DeviceTicket(c, s, userID, sessionID, d, credential, accessExpiresAt, e.now, e.account, e.session, t, reply)
  }

  /** The earlier of the credential's end and the access token's, when it has one. */
  function EarlierEnd(ends: Time, accessExpiresAt: Option<Time>): (r: Time)
    ensures r <= ends && (accessExpiresAt.Some? ==> r <= accessExpiresAt.value)
    ensures r == ends || Some(r) == accessExpiresAt
  {
    match accessExpiresAt
    case Some(x) => if x < ends then x else ends
    case None => ends
  }

  predicate Activable(s: Store, role: Role, i: nat, credential: Secret, now: Time) {
    Shows(s, role, i, credential, now) || Offers(s, role, i, credential, now)
  }

  /** The row's live credential, in time or revoked already. */
  predicate Revocable(s: Store, k: nat, credential: Secret, now: Time) {
    && k in s.connectors && s.connectors[k].slots.live == Some(Sha256(credential))
    && (s.connectors[k].revokedAt.Some? || Shows(s, Connector, k, credential, now))
  }

  /** A connector call names no row: it is answered for the one row its credential belongs to. */
  ghost predicate ConnectorRotation(c: Config, s: Store, credential: Secret, now: Time, account: Auth, t: Store, reply: Reply) {
    if account.Granted? && exists k :: Shows(s, Connector, k, credential, now)
    then exists k :: Shows(s, Connector, k, credential, now) && Rotates(c, s, t, reply, Connector, k, now)
    else Refuses(s, t, reply)
  }

  ghost predicate ConnectorActivation(c: Config, s: Store, credential: Secret, now: Time, account: Auth, t: Store, reply: Reply) {
    if account.Granted? && exists k :: Activable(s, Connector, k, credential, now)
    then exists k :: Activable(s, Connector, k, credential, now) && Activates(c, s, t, reply, Connector, k, credential, now)
    else Refuses(s, t, reply)
  }

  ghost predicate ConnectorRevocation(s: Store, credential: Secret, now: Time, t: Store, reply: Reply) {
    if exists k :: Revocable(s, k, credential, now)
    then exists k :: Revocable(s, k, credential, now) && EndsConnector(s, t, k, now)
           && reply == RevocationAnnounced(Revocation(s.connectors[k].userID, Some(k), None, None))
    else Refuses(s, t, reply)
  }

  predicate AccountRevocation(s: Store, userID: UserId, k: nat, now: Time, account: Auth, t: Store, reply: Reply) {
    if userID != "" && account.Granted? && k in s.connectors && s.connectors[k].userID == userID
    then reply == RevocationAnnounced(Revocation(userID, Some(k), None, None)) && EndsConnector(s, t, k, now)
    else Refuses(s, t, reply)
  }

  ghost predicate ConnectorTicket(c: Config, s: Store, credential: Secret, now: Time, account: Auth, t: Store, reply: Reply) {
    if account.Granted? && exists k :: Shows(s, Connector, k, credential, now)
    then exists k :: Shows(s, Connector, k, credential, now)
           && HandsTicket(c, s, t, reply, Connector, k, None, s.connectors[k].slots.expiresAt.value, now)
    else Refuses(s, t, reply)
  }

  ghost predicate ConnectorAnswer(c: Config, s: Store, e: Event, t: Store, reply: Reply)
    requires ConnectorCall(e.call)
  {
    match e.call
    case RotateConnectorCall(credential) => ConnectorRotation(c, s, credential, e.now, e.account, t, reply)
    case ActivateConnectorCall(credential) => ConnectorActivation(c, s, credential, e.now, e.account, t, reply)
    case RevokeConnectorCall(credential) => ConnectorRevocation(s, credential, e.now, t, reply)
    case RevokeAccountConnectorCall(userID, k) => AccountRevocation(s, userID, k, e.now, e.account, t, reply)
    case IssueConnectorTicketCall(credential) => ConnectorTicket(c, s, credential, e.now, e.account, t, reply)
  }

  // ---------------------------------------------------------------- finding the row

  lemma RowFacts(c: Config, s: Store, role: Role, i: nat)
    requires Inv(c, s) && i in RowsOf(s, role)
    ensures var row := RowsOf(s, role)[i];
      && (row.slots.live.Some? <==> row.slots.expiresAt.Some?) && (row.slots.pending.Some? <==> row.slots.pendingUntil.Some?)
      && (row.slots.live.Some? ==> PrefixOf(row.slots.live.value.of) == Some(PrefixFor(role)))
      && (row.slots.pending.Some? ==>
           PrefixOf(row.slots.pending.value.of) == Some(PrefixFor(role)) && row.slots.live.Some? && row.slots.pending != row.slots.live)
      && (row.slots.live.Some? && role.Client? ==> row.activatedAt.Some?)
  {
    hide PairingsOk, CodesUnique, OneActivePerKey, TrustOk, TokensOk, KeysUnique, HoldersUnique, ValidKeyID, Born;
  }

  /** A credential is found in the one row that holds it, which is of its kind. */
  lemma Holder(c: Config, s: Store, role: Role, secret: Secret, i: nat)
    requires Inv(c, s) && i in RowsOf(s, role)
    ensures var rows, h := RowsOf(s, role), Sha256(secret);
      && (rows[i].slots.live == Some(h) ==> ByCredential(rows, h) == Some(i))
      && (Holds(rows[i], h) ==> ByAnyCredential(rows, h) == Some(i) && ValidToken(secret, PrefixFor(role)))
  {
    var rows, h := RowsOf(s, role), Sha256(secret);
    SlotsApart(c, s, role);
    RowFacts(c, s, role, i);
    hide Inv, HoldersUnique;
    if Holds(rows[i], h) {
      if ByCredential(rows, h).Some? { OneHolder(rows, h, ByCredential(rows, h).value, i); }
      if ByAnyCredential(rows, h).Some? { OneHolder(rows, h, ByAnyCredential(rows, h).value, i); }
    }
  }

  lemma ShownRow(c: Config, s: Store, role: Role, secret: Secret)
    requires Inv(c, s)
    ensures var r := ByCredential(RowsOf(s, role), Sha256(secret));
      r.Some? ==> ValidToken(secret, PrefixFor(role)) && (role.Client? ==> RowsOf(s, role)[r.value].activatedAt.Some?)
    ensures forall i :: i in RowsOf(s, role) && RowsOf(s, role)[i].slots.live == Some(Sha256(secret)) ==>
      ByCredential(RowsOf(s, role), Sha256(secret)) == Some(i)
  {
    hide Inv, ByCredential, ByAnyCredential;
    forall i | i in RowsOf(s, role) && RowsOf(s, role)[i].slots.live == Some(Sha256(secret))
      ensures ByCredential(RowsOf(s, role), Sha256(secret)) == Some(i) { Holder(c, s, role, secret, i); }
    var r := ByCredential(RowsOf(s, role), Sha256(secret));
    if r.Some? { Holder(c, s, role, secret, r.value); RowFacts(c, s, role, r.value); }
  }

  lemma HeldRow(c: Config, s: Store, role: Role, secret: Secret)
    requires Inv(c, s)
    ensures var r := ByAnyCredential(RowsOf(s, role), Sha256(secret));
      r.Some? ==>
        && ValidToken(secret, PrefixFor(role)) && (role.Client? ==> RowsOf(s, role)[r.value].activatedAt.Some?)
        && RowsOf(s, role)[r.value].slots.pending != RowsOf(s, role)[r.value].slots.live
    ensures forall i :: i in RowsOf(s, role) && Holds(RowsOf(s, role)[i], Sha256(secret)) ==>
      ByAnyCredential(RowsOf(s, role), Sha256(secret)) == Some(i)
  {
    hide Inv, ByCredential, ByAnyCredential;
    forall i | i in RowsOf(s, role) && Holds(RowsOf(s, role)[i], Sha256(secret))
      ensures ByAnyCredential(RowsOf(s, role), Sha256(secret)) == Some(i) { Holder(c, s, role, secret, i); }
    var r := ByAnyCredential(RowsOf(s, role), Sha256(secret));
    if r.Some? { Holder(c, s, role, secret, r.value); RowFacts(c, s, role, r.value); }
  }

  // ---------------------------------------------------------------- devices

  lemma RotateDeviceDecides(c: Config, s: Store, userID: UserId, sessionID: SessionId, d: nat, credential: Secret,
                            now: Time, account: Auth, session: Auth)
    requires Inv(c, s)
    ensures var (t, reply) := RotateDevice(c, s, userID, sessionID, d, credential, now, account, session);
      DeviceRotation(c, s, userID, sessionID, d, credential, now, account, session, t, reply)
  {
    hide Inv, ByCredential;
    ShownRow(c, s, Client, credential);
  }

  lemma ActivateDeviceDecides(c: Config, s: Store, userID: UserId, sessionID: SessionId, d: nat, credential: Secret,
                              now: Time, account: Auth, session: Auth)
    requires Inv(c, s)
    ensures var (t, reply) := ActivateDevice(c, s, userID, sessionID, d, credential, now, account, session);
      DeviceActivation(c, s, userID, sessionID, d, credential, now, account, session, t, reply)
  {
    hide Inv, ByAnyCredential;
    HeldRow(c, s, Client, credential);
  }

  lemma RevokeDeviceDecides(s: Store, userID: UserId, d: nat, now: Time, account: Auth)
    requires TrustOk(s)
    ensures var (t, reply) := RevokeAccountDevice(s, userID, d, now, account); DeviceRevocation(s, userID, d, now, account, t, reply)
  {
  }

  lemma DeviceTicketDecides(c: Config, s: Store, userID: UserId, sessionID: SessionId, d: nat, credential: Secret,
                            accessExpiresAt: Option<Time>, now: Time, account: Auth, session: Auth)
    requires Inv(c, s)
    ensures var (t, reply) := IssueBrowserTicket(c, s, userID, sessionID, d, credential, accessExpiresAt, now, account, session);
      DeviceTicket(c, s, userID, sessionID, d, credential, accessExpiresAt, now, account, session, t, reply)
  {
    hide Inv, ByCredential;
    ShownRow(c, s, Client, credential);
    if d in s.devices { RowFacts(c, s, Client, d); }
  }

  /** A device call is answered exactly for the account, session and credential of its row in time, and
      writes exactly this: a rotation waits beside the live credential, an activation replaces it, a
      ticket drops the rotation and ends with the credential or the access token, a revocation ends the
      row and its trust. Every other call is refused and writes nothing. */
  lemma DeviceAnswersIff(c: Config, events: seq<Event>, i: nat)
    requires i < |events| && DeviceCall(events[i].call)
    ensures DeviceAnswer(c, StateAt(c, events, i), events[i], StateAt(c, events, i + 1), ReplyAt(c, events, i))
  {
    hide Step, DeviceStep, DeviceAnswer, Inv;
    StateIsOk(c, events, i);
    DeviceCalls(c, StateAt(c, events, i), events[i]);
    DeviceStepAnswers(c, StateAt(c, events, i), events[i]);
  }

  lemma DeviceStepAnswers(c: Config, s: Store, e: Event)
    requires Inv(c, s) && DeviceCall(e.call)
    ensures var (t, reply) := DeviceStep(c, s, e); DeviceAnswer(c, s, e, t, reply)
  {
    hide RotateDevice, ActivateDevice, RevokeAccountDevice, IssueBrowserTicket, Inv, TrustOk,
      DeviceRotation, DeviceActivation, DeviceRevocation, DeviceTicket;
    match e.call
    case RotateDeviceCall(userID, sessionID, d, credential) =>
      RotateDeviceDecides(c, s, userID, sessionID, d, credential, e.now, e.account, e.session);
    case ActivateDeviceCall(userID, sessionID, d, credential) =>
      ActivateDeviceDecides(c, s, userID, sessionID, d, credential, e.now, e.account, e.session);
    case RevokeAccountDeviceCall(userID, d) =>
      TrustHolds(c, s);
      RevokeDeviceDecides(s, userID, d, e.now, e.account);
    case IssueBrowserTicketCall(userID, sessionID, d, credential, accessExpiresAt) =>
      DeviceTicketDecides(c, s, userID, sessionID, d, credential, accessExpiresAt, e.now, e.account, e.session);
  }

  lemma TrustHolds(c: Config, s: Store)
    requires Inv(c, s)
    ensures TrustOk(s)
  {
    hide RowsOk, PairingsOk, CodesUnique, OneActivePerKey, TrustOk, TokensOk;
  }

  // ---------------------------------------------------------------- connectors

  lemma RotateConnectorDecides(c: Config, s: Store, credential: Secret, now: Time, account: Auth)
    requires Inv(c, s)
    ensures var (t, reply) := RotateConnector(c, s, credential, now, account);
      ConnectorRotation(c, s, credential, now, account, t, reply)
  {
    hide Inv, ByCredential;
    ShownRow(c, s, Connector, credential);
    var r := ByCredential(s.connectors, Sha256(credential));
    if r.Some? && Current(s.connectors[r.value], now) { assert Shows(s, Connector, r.value, credential, now); }
  }

  lemma ActivateConnectorDecides(c: Config, s: Store, credential: Secret, now: Time, account: Auth)
    requires Inv(c, s)
    ensures var (t, reply) := ActivateConnector(c, s, credential, now, account);
      ConnectorActivation(c, s, credential, now, account, t, reply)
  {
    hide Inv, ByAnyCredential;
    HeldRow(c, s, Connector, credential);
    var r := ByAnyCredential(s.connectors, Sha256(credential));
    if r.Some? && (Shows(s, Connector, r.value, credential, now) || Offers(s, Connector, r.value, credential, now)) {
      assert Activable(s, Connector, r.value, credential, now);
    }
  }

  lemma RevokeConnectorDecides(c: Config, s: Store, credential: Secret, now: Time)
    requires Inv(c, s)
    ensures var (t, reply) := RevokeConnector(s, credential, now); ConnectorRevocation(s, credential, now, t, reply)
  {
    hide Inv, ByCredential;
    ShownRow(c, s, Connector, credential);
    var r := ByCredential(s.connectors, Sha256(credential));
    if r.Some? && (s.connectors[r.value].revokedAt.Some? || Current(s.connectors[r.value], now)) {
      assert Revocable(s, r.value, credential, now);
    }
  }

  lemma ConnectorTicketDecides(c: Config, s: Store, credential: Secret, now: Time, account: Auth)
    requires Inv(c, s)
    ensures var (t, reply) := IssueConnectorTicket(c, s, credential, now, account);
      ConnectorTicket(c, s, credential, now, account, t, reply)
  {
    hide Inv, ByCredential;
    ShownRow(c, s, Connector, credential);
    var r := ByCredential(s.connectors, Sha256(credential));
    if r.Some? { RowFacts(c, s, Connector, r.value); }
    if r.Some? && Current(s.connectors[r.value], now) { assert Shows(s, Connector, r.value, credential, now); }
  }

  /** The same for the connector's calls, each answered for the one row its credential is live, pending
      or, for a revocation, was last live in. */
  lemma ConnectorAnswersIff(c: Config, events: seq<Event>, i: nat)
    requires i < |events| && ConnectorCall(events[i].call)
    ensures ConnectorAnswer(c, StateAt(c, events, i), events[i], StateAt(c, events, i + 1), ReplyAt(c, events, i))
  {
    hide Step, ConnectorStep, ConnectorAnswer, Inv;
    StateIsOk(c, events, i);
    ConnectorCalls(c, StateAt(c, events, i), events[i]);
    ConnectorStepAnswers(c, StateAt(c, events, i), events[i]);
  }

  lemma ConnectorStepAnswers(c: Config, s: Store, e: Event)
    requires Inv(c, s) && ConnectorCall(e.call)
    ensures var (t, reply) := ConnectorStep(c, s, e); ConnectorAnswer(c, s, e, t, reply)
  {
    hide RotateConnector, ActivateConnector, RevokeConnector, IssueConnectorTicket, Inv,
      ConnectorRotation, ConnectorActivation, ConnectorRevocation, ConnectorTicket;
    match e.call
    case RotateConnectorCall(credential) => RotateConnectorDecides(c, s, credential, e.now, e.account);
    case ActivateConnectorCall(credential) => ActivateConnectorDecides(c, s, credential, e.now, e.account);
    case RevokeConnectorCall(credential) => RevokeConnectorDecides(c, s, credential, e.now);
    case RevokeAccountConnectorCall(userID, k) =>
    case IssueConnectorTicketCall(credential) => ConnectorTicketDecides(c, s, credential, e.now, e.account);
  }

  // ---------------------------------------------------------------- whose connector it is

  lemma NewConnectorIsOwned(c: Config, s: Store, e: Event, k: nat)
    requires Inv(c, s) && k !in s.connectors && k in Step(c, s, e).0.connectors
    ensures Step(c, s, e).0.connectors[k].userID != ""
  {
    hide Inv, PairingStep, DeviceStep, ConnectorStep, TokenStep;
    if PairingCall(e.call) {
      PairingStepOwns(c, s, e, k);
    } else if DeviceCall(e.call) {
      DeviceCallsKeep(c, s, e);
    } else if ConnectorCall(e.call) {
      ConnectorStepCreatesNone(c, s, e);
    } else {
      TokenCallsKeep(c, s, e);
    }
  }

  lemma PairingStepOwns(c: Config, s: Store, e: Event, k: nat)
    requires Inv(c, s) && PairingCall(e.call) && k !in s.connectors && k in PairingStep(c, s, e).0.connectors
    ensures PairingStep(c, s, e).0.connectors[k].userID != ""
  {
    hide Inv, BeginPairing, ClaimPairing, ConfirmPairing, PollPairing, ApprovePairing, CancelPairing;
    match e.call
    case BeginPairingCall(_, _, _, _) =>
    case ClaimPairingCall(_, _, _, _, _) =>
    case ConfirmPairingCall(userID, id, d) => ConfirmOwns(c, s, userID, id, d, e.now, e.account, k);
    case PollPairingCall(secret) => PollKeepsRows(c, s, secret, e.now);
    case ApprovePairingCall(_, _, _) =>
    case CancelPairingCall(_, _) =>
  }

  lemma ConfirmOwns(c: Config, s: Store, userID: UserId, id: nat, d: nat, now: Time, account: Auth, k: nat)
    ensures var t := ConfirmPairing(c, s, userID, id, d, now, account).0;
      k !in s.connectors && k in t.connectors ==> t.connectors[k].userID == userID != ""
  {
    hide ConfirmAgain, ByKeyID;
  }

  /** Every connector belongs to an account. */
  lemma {:induction false} ConnectorsAreOwned(c: Config, events: seq<Event>, n: nat, k: nat)
    requires n <= |events| && k in StateAt(c, events, n).connectors
    ensures StateAt(c, events, n).connectors[k].userID != ""
  {
    hide Step, Inv;
    if n > 0 {
      StateIsOk(c, events, n - 1);
      if k in StateAt(c, events, n - 1).connectors {
        ConnectorsAreOwned(c, events, n - 1, k);
        OwnerStays(c, StateAt(c, events, n - 1), events[n - 1], k);
      } else {
        NewConnectorIsOwned(c, StateAt(c, events, n - 1), events[n - 1], k);
      }
    }
  }

  lemma OwnerStays(c: Config, s: Store, e: Event, k: nat)
    requires Inv(c, s) && k in s.connectors
    ensures k in Step(c, s, e).0.connectors && Step(c, s, e).0.connectors[k].userID == s.connectors[k].userID
  {
    hide Step, Inv, SlotsLater;
    StepKeeps(c, s, e);
  }
}
