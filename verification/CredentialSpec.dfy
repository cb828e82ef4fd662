/** Rotation, revocation and relay tickets, whole or not at all
    (internal/connectors/service.go:690-1304). */
module CredentialSpec {
  import opened ConnectorTypes
  import opened ConnectorStore
  import opened ConnectorWrites
  import opened PairingSpec

  const AUTHORIZATION_LEASE: Time := 5 * 60 * 1_000_000_000

  // ---------------------------------------------------------------- rows

  function WithPending(row: Subject, pending: Digest, until: Time): Subject {
    row.(slots := row.slots.(pending := Some(pending), pendingUntil := Some(until)))
  }

  function WithoutPending(row: Subject): Subject {
    if row.slots.pending.None? then row else row.(slots := row.slots.(pending := None, pendingUntil := None))
  }

  function Promoted(row: Subject, expiresAt: Time): Subject {
    row.(slots := Slots(row.slots.pending, Some(expiresAt), None, None))
  }

  /** What presenting `h` for activation does to a row: nothing when it is already live, promotion
      when it is the pending rotation and still in time. */
  datatype Activation = Retry(expiresAt: Time) | Promote | NotActivable

  function ActivationOf(row: Subject, h: Digest, now: Time): Activation {
    if row.slots.live == Some(h) then
      if row.slots.expiresAt.None? || row.slots.expiresAt.value <= now then NotActivable else Retry(row.slots.expiresAt.value)
    else if row.slots.pending != Some(h) || row.slots.pendingUntil.None? || row.slots.pendingUntil.value <= now then NotActivable
    else Promote
  }

  function SetDevice(s: Store, i: nat, row: Subject): Store { s.(devices := s.devices[i := row]) }

  function SetConnector(s: Store, i: nat, row: Subject): Store { s.(connectors := s.connectors[i := row]) }

  // ---------------------------------------------------------------- devices

  ghost function RotateDevice(c: Config, s: Store, userID: UserId, sessionID: SessionId, d: nat, credential: Secret,
                              now: Time, account: Auth, session: Auth): (r: Outcome)
    ensures r.0 == s.(devices := r.0.devices, next := r.0.next)
    ensures r.0.devices.Keys == s.devices.Keys
  {
    if userID == "" || sessionID == "" || !ValidToken(credential, Ord) then (s, Refused(Unauthorized))
    else match ByCredential(s.devices, Sha256(credential))
      case None => (s, Refused(Unauthorized))
      case Some(i) =>
        var row := s.devices[i];
        if i != d || row.userID != userID || row.activatedAt.None? || !Current(row, now) then (s, Refused(Unauthorized))
        else if !account.Granted? then (s, Refused(Refusal(account)))
        else if !session.Granted? then (s, Refused(Refusal(session)))
        else
          var issued, until := Issued(Ord, s.next), now + c.activationWindow;
          (SetDevice(s, i, WithPending(row, Sha256(issued), until)).(next := s.next + 1), Rotated(issued, until))
  }

  ghost function ActivateDevice(c: Config, s: Store, userID: UserId, sessionID: SessionId, d: nat, credential: Secret,
                                now: Time, account: Auth, session: Auth): (r: Outcome)
    ensures r.0 == s.(devices := r.0.devices)
    ensures r.0.devices.Keys == s.devices.Keys
  {
    if userID == "" || sessionID == "" || !ValidToken(credential, Ord) then (s, Refused(Unauthorized))
    else match ByAnyCredential(s.devices, Sha256(credential))
      case None => (s, Refused(Unauthorized))
      case Some(i) =>
        var row := s.devices[i];
        if i != d || row.userID != userID || row.activatedAt.None? || row.revokedAt.Some? then (s, Refused(Unauthorized))
        else if !account.Granted? then (s, Refused(Refusal(account)))
        else if !session.Granted? then (s, Refused(Refusal(session)))
        else match ActivationOf(row, Sha256(credential), now)
          case NotActivable => (s, Refused(Unauthorized))
          case Retry(expiresAt) => (s, Activated(expiresAt))
          case Promote => (SetDevice(s, i, Promoted(row, now + c.deviceLifetime)), Activated(now + c.deviceLifetime))
  }

  function RevokedRow(row: Subject, now: Time): Subject {
    row.(revokedAt := Some(now), slots := row.slots.(pending := None, pendingUntil := None))
  }

  ghost function RevokeAccountDevice(s: Store, userID: UserId, d: nat, now: Time, account: Auth): (r: Outcome)
    ensures r.0 == s.(devices := r.0.devices, trust := r.0.trust)
    ensures r.0.devices.Keys == s.devices.Keys
  {
    if userID == "" then (s, Refused(InvalidInput))
    else if !account.Granted? then (s, Refused(Unauthorized))
    else if d !in s.devices || s.devices[d].userID != userID then (s, Refused(NotFound))
    else
      var announced := RevocationAnnounced(Revocation(userID, None, Some(d), None));
      if s.devices[d].revokedAt.Some? then (s, announced)
      else (SetDevice(s, d, RevokedRow(s.devices[d], now)).(trust := RevokeDeviceTrust(s.trust, userID, d, now)), announced)
  }

  // ---------------------------------------------------------------- connectors

  ghost function RotateConnector(c: Config, s: Store, credential: Secret, now: Time, account: Auth): (r: Outcome)
    ensures r.0 == s.(connectors := r.0.connectors, next := r.0.next)
    ensures r.0.connectors.Keys == s.connectors.Keys
  {
    if !ValidToken(credential, Orc) then (s, Refused(Unauthorized))
    else match ByCredential(s.connectors, Sha256(credential))
      case None => (s, Refused(Unauthorized))
      case Some(i) =>
        var row := s.connectors[i];
        if !Current(row, now) then (s, Refused(Unauthorized))
        else if !account.Granted? then (s, Refused(Refusal(account)))
        else
          var issued, until := Issued(Orc, s.next), now + c.activationWindow;
          (SetConnector(s, i, WithPending(row, Sha256(issued), until)).(next := s.next + 1), Rotated(issued, until))
  }

  ghost function ActivateConnector(c: Config, s: Store, credential: Secret, now: Time, account: Auth): (r: Outcome)
    ensures r.0 == s.(connectors := r.0.connectors)
    ensures r.0.connectors.Keys == s.connectors.Keys
  {
    if !ValidToken(credential, Orc) then (s, Refused(Unauthorized))
    else match ByAnyCredential(s.connectors, Sha256(credential))
      case None => (s, Refused(Unauthorized))
      case Some(i) =>
        var row := s.connectors[i];
        if row.revokedAt.Some? then (s, Refused(Unauthorized))
        else if !account.Granted? then (s, Refused(Refusal(account)))
        else match ActivationOf(row, Sha256(credential), now)
          case NotActivable => (s, Refused(Unauthorized))
          case Retry(expiresAt) => (s, Activated(expiresAt))
          case Promote => (SetConnector(s, i, Promoted(row, now + c.connectorLifetime)), Activated(now + c.connectorLifetime))
  }

  ghost function RevokeConnector(s: Store, credential: Secret, now: Time): (r: Outcome)
    ensures r.0 == s.(connectors := r.0.connectors)
    ensures r.0.connectors.Keys == s.connectors.Keys
  {
    if !ValidToken(credential, Orc) then (s, Refused(Unauthorized))
    else match ByCredential(s.connectors, Sha256(credential))
      case None => (s, Refused(Unauthorized))
      case Some(i) =>
        var row := s.connectors[i];
        var announced := RevocationAnnounced(Revocation(row.userID, Some(i), None, None));
        if row.revokedAt.Some? then (s, announced)
        else if !Current(row, now) then (s, Refused(Unauthorized))
        else (SetConnector(s, i, row.(revokedAt := Some(now))), announced)
  }

  ghost function RevokeAccountConnector(s: Store, userID: UserId, k: nat, now: Time, account: Auth): (r: Outcome)
    ensures r.0 == s.(connectors := r.0.connectors)
    ensures r.0.connectors.Keys == s.connectors.Keys
  {
    if userID == "" then (s, Refused(InvalidInput))
    else if !account.Granted? then (s, Refused(Unauthorized))
    else if k !in s.connectors || s.connectors[k].userID != userID then (s, Refused(NotFound))
    else
      var announced := RevocationAnnounced(Revocation(userID, Some(k), None, None));
      if s.connectors[k].revokedAt.Some? then (s, announced)
      else (SetConnector(s, k, s.connectors[k].(revokedAt := Some(now))), announced)
  }

  // ---------------------------------------------------------------- tickets

  function Earlier(a: Time, b: Time): Time { if a < b then a else b }

  function NewTicket(c: Config, row: Subject, role: Role, i: nat, sessionID: Option<SessionId>, until: Time, now: Time): Ticket {
    Ticket(row.userID, role, i, row.identity.keyID, sessionID, until, now, now + c.ticketLifetime, None)
  }

  function AddTicket(s: Store, ticket: Ticket): Store {
    s.(tickets := s.tickets[Sha256(Issued(Ort, s.next)) := ticket], next := s.next + 1)
  }

  /** A device shows its live credential: a pending rotation is dropped, and the ticket's
      authorization ends with the credential or the access token, whichever is first. */
  ghost function IssueBrowserTicket(c: Config, s: Store, userID: UserId, sessionID: SessionId, d: nat, credential: Secret,
                                    accessExpiresAt: Option<Time>, now: Time, account: Auth, session: Auth): (r: Outcome)
    ensures r.0 == s.(devices := r.0.devices, tickets := r.0.tickets, next := r.0.next)
    ensures r.0.devices.Keys == s.devices.Keys
  {
    if userID == "" || sessionID == "" || !ValidToken(credential, Ord) then (s, Refused(Unauthorized))
    else match ByCredential(s.devices, Sha256(credential))
      case None => (s, Refused(Unauthorized))
      case Some(i) =>
        var row := s.devices[i];
        if i != d || row.userID != userID || row.activatedAt.None? || !Current(row, now) then (s, Refused(Unauthorized))
        else if !account.Granted? then (s, Refused(Refusal(account)))
        else if !session.Granted? then (s, Refused(Refusal(session)))
        else
          var ends := row.slots.expiresAt.value;
          var until := if accessExpiresAt.None? then ends else Earlier(ends, accessExpiresAt.value);
          (AddTicket(SetDevice(s, i, WithoutPending(row)), NewTicket(c, row, Client, i, Some(sessionID), until, now)),
           TicketIssued(Issued(Ort, s.next), now + c.ticketLifetime))
  }

  ghost function IssueConnectorTicket(c: Config, s: Store, credential: Secret, now: Time, account: Auth): (r: Outcome)
    ensures r.0 == s.(connectors := r.0.connectors, tickets := r.0.tickets, next := r.0.next)
    ensures r.0.connectors.Keys == s.connectors.Keys
  {
    if !ValidToken(credential, Orc) then (s, Refused(Unauthorized))
    else match ByCredential(s.connectors, Sha256(credential))
      case None => (s, Refused(Unauthorized))
      case Some(i) =>
        var row := s.connectors[i];
        if !Current(row, now) then (s, Refused(Unauthorized))
        else if !account.Granted? then (s, Refused(Refusal(account)))
        else
          (AddTicket(SetConnector(s, i, WithoutPending(row)), NewTicket(c, row, Connector, i, None, row.slots.expiresAt.value, now)),
           TicketIssued(Issued(Ort, s.next), now + c.ticketLifetime))
  }

  /** The row a ticket or an admission speaks for, as consumption requires it to be. */
  predicate SubjectStands(rows: Subjects, role: Role, i: nat, userID: UserId, keyID: string) {
    && i in rows && rows[i].userID == userID && rows[i].revokedAt.None? && rows[i].identity.keyID == keyID
    && (role.Client? ==> rows[i].activatedAt.Some?)
  }

  function RowsOf(s: Store, role: Role): Subjects { if role.Client? then s.devices else s.connectors }

  ghost function ConsumeRelayTicket(s: Store, secret: Secret, now: Time, account: Auth, session: Auth): (r: Outcome)
    ensures r.0 == s.(tickets := r.0.tickets)
  {
    var h := Sha256(secret);
    if !ValidToken(secret, Ort) || h !in s.tickets then (s, Refused(Unauthorized))
    else
      var t := s.tickets[h];
      if t.consumedAt.Some? || t.expiresAt <= now || t.authorizationExpiresAt <= now then (s, Refused(Unauthorized))
      else if !account.Granted? then (s, Refused(Refusal(account)))
      else if t.role.Client? && !session.Granted? then (s, Refused(Refusal(session)))
      else if !SubjectStands(RowsOf(s, t.role), t.role, t.subjectID, t.userID, t.subjectKeyID) then (s, Refused(Unauthorized))
      else
        (s.(tickets := s.tickets[h := t.(consumedAt := Some(now))]),
         Reply.Admitted(Admission(t.userID, t.role, t.subjectID, if t.role.Client? then t.sessionID else None,
                            RowsOf(s, t.role)[t.subjectID].identity, TrustedIdentities(s, t.userID, t.role, t.subjectID),
                            Earlier(t.authorizationExpiresAt, now + AUTHORIZATION_LEASE))))
  }

  ghost function ValidateAdmission(s: Store, a: Admission, now: Time, account: Auth, session: Auth): Reply {
    if a.userID == "" || (a.role.Client? && (a.sessionID.None? || a.sessionID.value == "")) then Refused(Unauthorized)
    else
      var rows := RowsOf(s, a.role);
      if a.subjectID !in rows || rows[a.subjectID].userID != a.userID || rows[a.subjectID].identity != a.identity
         || (a.role.Client? && rows[a.subjectID].activatedAt.None?) || !Current(rows[a.subjectID], now) then Refused(Unauthorized)
      else if !account.Granted? then Refused(Refusal(account))
      else if a.role.Client? && !session.Granted? then Refused(Refusal(session))
      else Valid
  }
}

/** Every credential and ticket call keeps the invariant and moves every row forward. */
module CredentialProofs {
  import opened ConnectorTypes
  import opened ConnectorStore
  import opened ConnectorWrites
  import opened PairingSpec
  import opened CredentialSpec

  // ---------------------------------------------------------------- row changes

  lemma PendingIsOk(s: Store, t: Store, row: Subject, prefix: Prefix, until: Time)
    requires SlotsOk(s, row, prefix) && row.slots.live.Some? && row.revokedAt.None? && t.next == s.next + 1 && BornLater(s, t)
    ensures var b := WithPending(row, Sha256(Issued(prefix, s.next)), until);
      RowLater(row, b) && Moves(s, row.slots, b.slots) && SlotsOk(t, b, prefix)
  {
  }

  lemma DroppedIsOk(s: Store, row: Subject, prefix: Prefix)
    requires SlotsOk(s, row, prefix) && row.revokedAt.None?
    ensures RowLater(row, WithoutPending(row)) && Moves(s, row.slots, WithoutPending(row).slots) && SlotsOk(s, WithoutPending(row), prefix)
  {
  }

  lemma PromotedIsOk(s: Store, row: Subject, prefix: Prefix, expiresAt: Time)
    requires SlotsOk(s, row, prefix) && row.revokedAt.None? && row.slots.pending.Some?
    ensures var b := Promoted(row, expiresAt);
      RowLater(row, b) && Moves(s, row.slots, b.slots) && SlotsOk(s, b, prefix) && SeedSafe(s, row.slots, b.slots)
  {
  }

  lemma RowIsOk(c: Config, s: Store, rows: Subjects, prefix: Prefix, i: nat)
    requires RowsOk(s, rows, prefix) && i in rows
    ensures SlotsOk(s, rows[i], prefix) && (prefix.Ord? && rows[i].slots.live.Some? ==> rows[i].activatedAt.Some?)
  {
  }

  // ---------------------------------------------------------------- devices

  lemma RotateDeviceKeeps(c: Config, s: Store, userID: UserId, sessionID: SessionId, d: nat, credential: Secret,
                          now: Time, account: Auth, session: Auth)
    requires Inv(c, s)
    ensures var t := RotateDevice(c, s, userID, sessionID, d, credential, now, account, session).0; Inv(c, t) && Later(s, t)
  {
    LaterRefl(s);
    var t := RotateDevice(c, s, userID, sessionID, d, credential, now, account, session).0;
    if t != s {
      var i := ByCredential(s.devices, Sha256(credential)).value;
      RowIsOk(c, s, s.devices, Ord, i);
      hide Inv, Later, SlotsOk, RowLater, Moves;
      SamePairings(s, t);
      PendingIsOk(s, t, s.devices[i], Ord, now + c.activationWindow);
      DeviceWrite(c, s, t, i, t.devices[i]);
    }
  }

  lemma ActivateDeviceKeeps(c: Config, s: Store, userID: UserId, sessionID: SessionId, d: nat, credential: Secret,
                            now: Time, account: Auth, session: Auth)
    requires Inv(c, s)
    ensures var t := ActivateDevice(c, s, userID, sessionID, d, credential, now, account, session).0; Inv(c, t) && Later(s, t)
  {
    LaterRefl(s);
    var t := ActivateDevice(c, s, userID, sessionID, d, credential, now, account, session).0;
    if t != s {
      var i := ByAnyCredential(s.devices, Sha256(credential)).value;
      RowIsOk(c, s, s.devices, Ord, i);
      PromotedIsOk(s, s.devices[i], Ord, now + c.deviceLifetime);
      PromotedStays(s, t, t.devices[i], Ord);
      hide Inv, Later, SlotsOk, RowLater, Moves, SeedSafe;
      DeviceWrite(c, s, t, i, t.devices[i]);
    }
  }

  lemma PromotedStays(s: Store, t: Store, row: Subject, prefix: Prefix)
    requires SlotsOk(s, row, prefix) && t.next == s.next && t.pairings == s.pairings
    ensures SlotsOk(t, row, prefix)
  {
  }

  lemma RevokedIsOk(s: Store, row: Subject, prefix: Prefix, now: Time)
    requires SlotsOk(s, row, prefix) && row.revokedAt.None?
    ensures var b := RevokedRow(row, now); RowLater(row, b) && Moves(s, row.slots, b.slots) && SlotsOk(s, b, prefix)
  {
  }

  lemma RevokeDeviceKeeps(c: Config, s: Store, userID: UserId, d: nat, now: Time, account: Auth)
    requires Inv(c, s)
    ensures var t := RevokeAccountDevice(s, userID, d, now, account).0; Inv(c, t) && Later(s, t)
  {
    LaterRefl(s);
    var t := RevokeAccountDevice(s, userID, d, now, account).0;
    if t != s {
      RowIsOk(c, s, s.devices, Ord, d);
      RevokedIsOk(s, s.devices[d], Ord, now);
      var untrusted := s.(trust := t.trust);
      PromotedStays(s, untrusted, t.devices[d], Ord);
      PromotedStays(s, t, t.devices[d], Ord);
      assert Moves(untrusted, s.devices[d].slots, t.devices[d].slots);
      hide Inv, Later, SlotsOk, RowLater, Moves, RevokeDeviceTrust;
      RevokeTrustWrite(c, s, untrusted, d, now);
      DeviceWrite(c, untrusted, t, d, t.devices[d]);
      LaterTrans(s, untrusted, t);
    }
  }

  // ---------------------------------------------------------------- connectors

  lemma RotateConnectorKeeps(c: Config, s: Store, credential: Secret, now: Time, account: Auth)
    requires Inv(c, s)
    ensures var t := RotateConnector(c, s, credential, now, account).0; Inv(c, t) && Later(s, t)
  {
    LaterRefl(s);
    var t := RotateConnector(c, s, credential, now, account).0;
    if t != s {
      var i := ByCredential(s.connectors, Sha256(credential)).value;
      RowIsOk(c, s, s.connectors, Orc, i);
      hide Inv, Later, SlotsOk, RowLater, Moves;
      SamePairings(s, t);
      PendingIsOk(s, t, s.connectors[i], Orc, now + c.activationWindow);
      ConnectorWrite(c, s, t, i, t.connectors[i]);
    }
  }

  lemma ActivateConnectorKeeps(c: Config, s: Store, credential: Secret, now: Time, account: Auth)
    requires Inv(c, s)
    ensures var t := ActivateConnector(c, s, credential, now, account).0; Inv(c, t) && Later(s, t)
  {
    LaterRefl(s);
    var t := ActivateConnector(c, s, credential, now, account).0;
    if t != s {
      var i := ByAnyCredential(s.connectors, Sha256(credential)).value;
      RowIsOk(c, s, s.connectors, Orc, i);
      PromotedIsOk(s, s.connectors[i], Orc, now + c.connectorLifetime);
      PromotedStays(s, t, t.connectors[i], Orc);
      hide Inv, Later, SlotsOk, RowLater, Moves;
      ConnectorWrite(c, s, t, i, t.connectors[i]);
    }
  }

  /** Both revocations of a connector only stamp its row. */
  lemma StampConnector(c: Config, s: Store, i: nat, now: Time)
    requires Inv(c, s) && i in s.connectors && s.connectors[i].revokedAt.None?
    ensures var t := SetConnector(s, i, s.connectors[i].(revokedAt := Some(now))); Inv(c, t) && Later(s, t)
  {
    var t := SetConnector(s, i, s.connectors[i].(revokedAt := Some(now)));
    RowIsOk(c, s, s.connectors, Orc, i);
    assert SlotsOk(t, t.connectors[i], Orc);
    hide Inv, Later, SlotsOk;
    ConnectorWrite(c, s, t, i, t.connectors[i]);
  }

  lemma RevokeConnectorKeeps(c: Config, s: Store, credential: Secret, now: Time)
    requires Inv(c, s)
    ensures var t := RevokeConnector(s, credential, now).0; Inv(c, t) && Later(s, t)
  {
    LaterRefl(s);
    hide Inv, Later;
    if RevokeConnector(s, credential, now).0 != s {
      StampConnector(c, s, ByCredential(s.connectors, Sha256(credential)).value, now);
    }
  }

  lemma RevokeAccountConnectorKeeps(c: Config, s: Store, userID: UserId, k: nat, now: Time, account: Auth)
    requires Inv(c, s)
    ensures var t := RevokeAccountConnector(s, userID, k, now, account).0; Inv(c, t) && Later(s, t)
  {
    LaterRefl(s);
    hide Inv, Later;
    if RevokeAccountConnector(s, userID, k, now, account).0 != s { StampConnector(c, s, k, now); }
  }

  // ---------------------------------------------------------------- tickets

  lemma AddTicketKeeps(c: Config, s: Store, ticket: Ticket)
    requires Inv(c, s)
    ensures Inv(c, AddTicket(s, ticket)) && Later(s, AddTicket(s, ticket))
  {
    var t := AddTicket(s, ticket);
    assert TokensOk(t) && TokensLater(s, t);
    hide Inv, Later, TokensOk, TokensLater;
    TokenWrite(c, s, t);
  }

  lemma DropDevicePending(c: Config, s: Store, i: nat)
    requires Inv(c, s) && i in s.devices && s.devices[i].revokedAt.None?
    ensures var t := SetDevice(s, i, WithoutPending(s.devices[i])); Inv(c, t) && Later(s, t)
  {
    var t := SetDevice(s, i, WithoutPending(s.devices[i]));
    RowIsOk(c, s, s.devices, Ord, i);
    DroppedIsOk(s, s.devices[i], Ord);
    PromotedStays(s, t, t.devices[i], Ord);
    hide Inv, Later, SlotsOk, RowLater, Moves;
    DeviceWrite(c, s, t, i, t.devices[i]);
  }

  lemma DropConnectorPending(c: Config, s: Store, i: nat)
    requires Inv(c, s) && i in s.connectors && s.connectors[i].revokedAt.None?
    ensures var t := SetConnector(s, i, WithoutPending(s.connectors[i])); Inv(c, t) && Later(s, t)
  {
    var t := SetConnector(s, i, WithoutPending(s.connectors[i]));
    RowIsOk(c, s, s.connectors, Orc, i);
    DroppedIsOk(s, s.connectors[i], Orc);
    PromotedStays(s, t, t.connectors[i], Orc);
    hide Inv, Later, SlotsOk, RowLater, Moves;
    ConnectorWrite(c, s, t, i, t.connectors[i]);
  }

  lemma BrowserTicketKeeps(c: Config, s: Store, userID: UserId, sessionID: SessionId, d: nat, credential: Secret,
                           accessExpiresAt: Option<Time>, now: Time, account: Auth, session: Auth)
    requires Inv(c, s)
    ensures var t := IssueBrowserTicket(c, s, userID, sessionID, d, credential, accessExpiresAt, now, account, session).0;
      Inv(c, t) && Later(s, t)
  {
    LaterRefl(s);
    hide Inv, Later, WithoutPending;
    var t := IssueBrowserTicket(c, s, userID, sessionID, d, credential, accessExpiresAt, now, account, session).0;
    if t != s {
      var row := s.devices[d];
      var dropped := SetDevice(s, d, WithoutPending(row));
      DropDevicePending(c, s, d);
      var ends := row.slots.expiresAt.value;
      var until := if accessExpiresAt.None? then ends else Earlier(ends, accessExpiresAt.value);
      AddTicketKeeps(c, dropped, NewTicket(c, row, Client, d, Some(sessionID), until, now));
      LaterTrans(s, dropped, t);
    }
  }

  lemma ConnectorTicketKeeps(c: Config, s: Store, credential: Secret, now: Time, account: Auth)
    requires Inv(c, s)
    ensures var t := IssueConnectorTicket(c, s, credential, now, account).0; Inv(c, t) && Later(s, t)
  {
    LaterRefl(s);
    hide Inv, Later, WithoutPending;
    var t := IssueConnectorTicket(c, s, credential, now, account).0;
    if t != s {
      var i := ByCredential(s.connectors, Sha256(credential)).value;
      var row := s.connectors[i];
      var dropped := SetConnector(s, i, WithoutPending(row));
      DropConnectorPending(c, s, i);
      AddTicketKeeps(c, dropped, NewTicket(c, row, Connector, i, None, row.slots.expiresAt.value, now));
      LaterTrans(s, dropped, t);
    }
  }

  lemma ConsumeKeeps(c: Config, s: Store, secret: Secret, now: Time, account: Auth, session: Auth)
    requires Inv(c, s)
    ensures var t := ConsumeRelayTicket(s, secret, now, account, session).0; Inv(c, t) && Later(s, t)
  {
    LaterRefl(s);
    var t := ConsumeRelayTicket(s, secret, now, account, session).0;
    assert TokensOk(t) && TokensLater(s, t);
    hide Inv, Later, TokensOk, TokensLater;
    if t != s { TokenWrite(c, s, t); }
  }
}
