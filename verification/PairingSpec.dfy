/** What each pairing call does to the tables, whole or not at all
    (internal/connectors/service.go:155-673). */
module PairingSpec {
  import opened ConnectorTypes
  import opened ConnectorStore
  import opened ConnectorWrites
  import ClaimLimits
  import UserCodes

  datatype Error =
    | InvalidInput
    | Unauthorized
    | Conflict
    | TooLate             // ErrExpired
    | NotFound
    | InvalidCode
    | AttemptsExceeded(retryAfter: Time)
    | Internal

  /** The answer of an identity callback. */
  datatype Auth = Granted | Denied | Failed

  function Refusal(auth: Auth): Error { if auth.Denied? then Unauthorized else Internal }

  datatype Transcript = Transcript(pairingID: nat, connectorIdentity: PublicIdentity, deviceIdentity: PublicIdentity)

  datatype Grant = Grant(connectorID: nat, credential: Secret, expiresAt: Time, linkedAt: Time)

  datatype Reply =
    | Refused(error: Error)
    | ChallengeIssued(challenge: Secret, expiresAt: Time)
    | Begun(pairingID: nat, secret: Secret, userCode: string, expiresAt: Time)
    | Claimed(transcript: Transcript, deviceID: nat, expiresAt: Time)
    | PairingConfirmed(deviceID: nat, connectorID: nat, credential: Secret, expiresAt: Time)
    | Polled(status: PairingState, pairingID: nat, expiresAt: Time, shown: Option<Transcript>, grant: Option<Grant>)
    | Approved
    | Cancelled
    | Rotated(credential: Secret, activateBy: Time)
    | Activated(expiresAt: Time)
    | RevocationAnnounced(revocation: Revocation)
    | TicketIssued(ticket: Secret, expiresAt: Time)
    | Admitted(admission: Admission)
    | Valid

  type Outcome = (Store, Reply)

  // ---------------------------------------------------------------- challenges

  ghost function IssueChallenge(c: Config, s: Store, purpose: string, userID: Option<UserId>, now: Time): (r: Outcome)
    ensures r.0 == s.(challenges := r.0.challenges, next := r.0.next)
  {
    if purpose != PURPOSE_CONNECTOR && purpose != PURPOSE_DEVICE then (s, Refused(InvalidInput))
    else if purpose == PURPOSE_DEVICE && (userID.None? || userID.value == "") then (s, Refused(Unauthorized))
    else
      var challenge, expiresAt := Issued(Bare, s.next), now + c.challengeLifetime;
      (s.(challenges := s.challenges[Sha256(challenge) := Challenge(purpose, userID, now, expiresAt, None)], next := s.next + 1),
       ChallengeIssued(challenge, expiresAt))
  }

  predicate ChallengeOpen(s: Store, challenge: Secret, purpose: string, userID: Option<UserId>, now: Time) {
    var h := Sha256(challenge);
    && h in s.challenges && s.challenges[h].purpose == purpose && s.challenges[h].userID == userID
    && s.challenges[h].usedAt.None? && now < s.challenges[h].expiresAt
  }

  function UseChallenge(s: Store, challenge: Secret, now: Time): Store
    requires Sha256(challenge) in s.challenges
  {
    var h := Sha256(challenge);
    s.(challenges := s.challenges[h := s.challenges[h].(usedAt := Some(now))])
  }

  // ---------------------------------------------------------------- beginning

  function NewPairing(c: Config, id: nat, identity: PublicIdentity, code: string, now: Time): Pairing {
    var secret := Issued(Orp, id);
    Pairing(Sha256(secret), UserCodes.Normalize(code), identity, Some(Sha256(ConnectorCredential(secret))), None, Pending,
            None, None, None, now, now + c.pairingLifetime, None, None, None)
  }

  /** `proven` says that the name is acceptable, the key ID is the digest of a P-256 key, and the
      signature over the challenge verifies. */
  ghost function BeginPairing(c: Config, s: Store, identity: PublicIdentity, proven: bool, challenge: Secret, code: string,
                              now: Time): (r: Outcome)
    ensures r.0 == s.(challenges := r.0.challenges, pairings := r.0.pairings, next := r.0.next)
  {
    if !proven || !ValidKeyID(identity.keyID) then (s, Refused(InvalidInput))
    else if !ChallengeOpen(s, challenge, PURPOSE_CONNECTOR, None, now) then (s, Refused(Unauthorized))
    else
      var used := UseChallenge(s, challenge, now);
      var swept := used.(pairings := ExpirePairingsForKey(s.pairings, identity.keyID, now));
      var p := NewPairing(c, s.next, identity, code, now);
      if Collides(swept.pairings, p) then (s, Refused(Conflict))
      else (swept.(pairings := swept.pairings[s.next := p], next := s.next + 1),
            Begun(s.next, Issued(Orp, s.next), code, now + c.pairingLifetime))
  }

  // ---------------------------------------------------------------- claiming

  function RecordClaimFailure(s: Store, userID: UserId, now: Time): Store {
    var kept := map i | i in s.failures && s.failures[i].at > now - ClaimLimits.HOUR :: s.failures[i];
    s.(failures := kept[s.next := ClaimLimits.Failure(userID, now)], next := s.next + 1)
  }

  predicate SameOwner(row: Subject, userID: UserId, identity: PublicIdentity) {
    row.userID == userID && row.revokedAt.None? && row.identity.publicKey == identity.publicKey
  }

  /** The claiming device: the one with this key, or a new row. None is a conflict. */
  ghost function DeviceFor(s: Store, userID: UserId, identity: PublicIdentity, now: Time): (r: Option<(Store, nat)>)
    ensures r.Some? ==> r.value.1 in r.value.0.devices && r.value.0 == s.(devices := r.value.0.devices, next := r.value.0.next)
  {
    match ByKeyID(s.devices, identity.keyID)
    case None =>
      Some((s.(devices := s.devices[s.next := Subject(userID, identity, NO_CREDENTIAL, now, None, None)], next := s.next + 1), s.next))
    case Some(d) => if SameOwner(s.devices[d], userID, identity) then Some((s, d)) else None
  }

  function TranscriptOf(id: nat, p: Pairing, device: Subject): Transcript {
    Transcript(id, p.connectorIdentity, device.identity)
  }

  ghost function ClaimWithCode(s: Store, used: Store, userID: UserId, identity: PublicIdentity, code: string, now: Time): (r: Outcome)
    ensures r.0 == s || r.0 == used.(pairings := r.0.pairings, devices := r.0.devices, failures := r.0.failures, next := r.0.next)
    ensures r.0.pairings.Keys == s.pairings.Keys || r.0.pairings.Keys == used.pairings.Keys
  {
    match PairingByCode(used, code)
    case None => (RecordClaimFailure(used, userID, now), Refused(InvalidCode))
    case Some(id) =>
      var p := used.pairings[id];
      if p.expiresAt <= now then (used.(pairings := used.pairings[id := p.(state := Expired)]), Refused(TooLate))
      else if !p.state.Pending? then (s, Refused(Conflict))
      else match DeviceFor(used, userID, identity, now)
        case None => (s, Refused(Conflict))
        case Some((t, d)) =>
          (t.(pairings := t.pairings[id := p.(state := Verification, userID := Some(userID), deviceID := Some(d))]),
           Claimed(TranscriptOf(id, p, t.devices[d]), d, p.expiresAt))
  }

  ghost function ClaimPairing(s: Store, userID: UserId, userCode: string, identity: PublicIdentity, proven: bool,
                              challenge: Secret, now: Time, account: Auth): (r: Outcome)
    ensures r.0 == s.(challenges := r.0.challenges, pairings := r.0.pairings, devices := r.0.devices, failures := r.0.failures, next := r.0.next)
  {
    var code := UserCodes.Normalize(userCode);
    if userID == "" || !proven || !ValidKeyID(identity.keyID) || |code| != 8 then (s, Refused(InvalidInput))
    else if !account.Granted? || !ChallengeOpen(s, challenge, PURPOSE_DEVICE, Some(userID), now) then (s, Refused(Unauthorized))
    else match ClaimLimits.CheckClaimFailures(s.failures, userID, now)
      case TooManyAttempts(retryAfter) => (s, Refused(AttemptsExceeded(retryAfter)))
      case Admitted => ClaimWithCode(s, UseChallenge(s, challenge, now), userID, identity, UserCodes.Normalize(code), now)
  }

  // ---------------------------------------------------------------- confirming

  /** The connector of the pairing's key: the one that exists, or a new row. None is a conflict. */
  ghost function ConnectorFor(s: Store, userID: UserId, identity: PublicIdentity, now: Time): (r: Option<(Store, nat)>)
    ensures r.Some? ==> r.value.1 in r.value.0.connectors && r.value.0 == s.(connectors := r.value.0.connectors, next := r.value.0.next)
  {
    match ByKeyID(s.connectors, identity.keyID)
    case None =>
      Some((s.(connectors := s.connectors[s.next := Subject(userID, identity, NO_CREDENTIAL, now, None, None)], next := s.next + 1), s.next))
    case Some(k) => if SameOwner(s.connectors[k], userID, identity) then Some((s, k)) else None
  }

  function WithLive(row: Subject, live: Option<Digest>, expiresAt: Time): Subject {
    row.(slots := row.slots.(live := live, expiresAt := Some(expiresAt)))
  }

  function ActivatedBy(row: Subject, now: Time): Subject {
    if row.activatedAt.None? then row.(activatedAt := Some(now)) else row
  }

  /** Both sides get their credential, the device from a new seed, the connector from the pairing
      secret, and trust each other. */
  function Complete(c: Config, s: Store, id: nat, userID: UserId, d: nat, k: nat, now: Time): Store
    requires id in s.pairings && d in s.devices && k in s.connectors
  {
    var p, seed := s.pairings[id], s.next;
    var device := ActivatedBy(WithLive(s.devices[d], Some(Sha256(DeviceCredential(seed))), now + c.deviceLifetime), now);
    s.(devices := s.devices[d := device],
       trust := s.trust[TrustKey(userID, d, k) := Trust(now, None)],
       connectors := s.connectors[k := WithLive(s.connectors[k], p.connectorCredentialHash, now + c.connectorLifetime)],
       pairings := s.pairings[id := p.(deviceCredentialSeed := Some(seed), state := Completed, connectorID := Some(k),
                                       confirmedAt := Some(now), completedAt := Some(now))],
       next := seed + 1)
  }

  /** A repeated confirmation answers from the rows, and only while both credentials are still
      the ones this pairing issued. */
  function ConfirmAgain(s: Store, p: Pairing, userID: UserId, d: nat): Reply
    requires d in s.devices && s.devices[d].slots.expiresAt.Some? && p.connectorID.Some?
  {
    if p.connectorCredentialHash.None? || p.deviceCredentialSeed.None? then Refused(Conflict)
    else
      var credential, k := DeviceCredential(p.deviceCredentialSeed.value), p.connectorID.value;
      if s.devices[d].slots.live != Some(Sha256(credential)) then Refused(Conflict)
      else if k !in s.connectors then Refused(Unauthorized)
      else if s.connectors[k].userID != userID || s.connectors[k].revokedAt.Some?
           || s.connectors[k].slots.live != p.connectorCredentialHash then Refused(Conflict)
      else PairingConfirmed(d, k, credential, s.devices[d].slots.expiresAt.value)
  }

  ghost function ConfirmPairing(c: Config, s: Store, userID: UserId, id: nat, d: nat, now: Time, account: Auth): (r: Outcome)
    ensures r.0 == s.(pairings := r.0.pairings, devices := r.0.devices, connectors := r.0.connectors, trust := r.0.trust, next := r.0.next)
  {
    if userID == "" then (s, Refused(InvalidInput))
    else if !account.Granted? then (s, Refused(Refusal(account)))
    else if id !in s.pairings then (s, Refused(Unauthorized))
    else
      var p := s.pairings[id];
      if p.expiresAt <= now then (s, Refused(TooLate))
      else if p.userID != Some(userID) || p.deviceID != Some(d) then (s, Refused(Conflict))
      else if d !in s.devices || s.devices[d].userID != userID || s.devices[d].revokedAt.Some? then (s, Refused(Unauthorized))
      else if p.state.Completed? && p.connectorID.Some? && s.devices[d].slots.expiresAt.Some? then
        (s, ConfirmAgain(s, p, userID, d))
      else if p.state.Expired? then (s, Refused(TooLate))
      else if !p.state.Verification? || p.connectorReviewedAt.None? || p.connectorCredentialHash.None? then (s, Refused(Conflict))
      else match ConnectorFor(s, userID, p.connectorIdentity, now)
        case None => (s, Refused(Conflict))
        case Some((t, k)) =>
          (Complete(c, t, id, userID, d, k, now),
           PairingConfirmed(d, k, DeviceCredential(t.next), now + c.deviceLifetime))
  }

  // ---------------------------------------------------------------- the connector's side

  function SetState(s: Store, id: nat, state: PairingState): Store
    requires id in s.pairings
  {
    s.(pairings := s.pairings[id := s.pairings[id].(state := state)])
  }

  function GrantOf(k: nat, row: Subject, secret: Secret, expiresAt: Time): Grant {
    Grant(k, ConnectorCredential(secret), expiresAt, row.createdAt)
  }

  /** What a poll finds once the pairing has not run out and its device, if any, has been read. */
  ghost function PollOpen(c: Config, s: Store, id: nat, secret: Secret, shown: Option<Transcript>, now: Time): (r: Outcome)
    requires id in s.pairings
    ensures r.0 == s.(pairings := r.0.pairings, connectors := r.0.connectors)
  {
    var p := s.pairings[id];
    var answer := Polled(p.state, id, p.expiresAt, shown, None);
    if p.state.Verification? then (s, answer)
    else if p.state.Completed? && p.connectorID.Some? then
      var k := p.connectorID.value;
      if k !in s.connectors || s.connectors[k].slots.expiresAt.None? || s.connectors[k].revokedAt.Some?
         || s.connectors[k].slots.live != Some(Sha256(ConnectorCredential(secret))) then (s, Refused(Unauthorized))
      else (s, answer.(grant := Some(GrantOf(k, s.connectors[k], secret, s.connectors[k].slots.expiresAt.value))))
    else if !p.state.Confirmed? then (s, answer)
    else if p.connectorID.None? then (s, Refused(Conflict))
    else
      var k := p.connectorID.value;
      if k !in s.connectors || s.connectors[k].revokedAt.Some? then (s, Refused(Unauthorized))
      else
        var expiresAt := now + c.connectorLifetime;
        (s.(connectors := s.connectors[k := WithLive(s.connectors[k], Some(Sha256(ConnectorCredential(secret))), expiresAt)],
            pairings := s.pairings[id := p.(state := Completed, completedAt := Some(now))]),
         Polled(Completed, id, p.expiresAt, shown, Some(GrantOf(k, s.connectors[k], secret, expiresAt))))
  }

  ghost function PollPairing(c: Config, s: Store, secret: Secret, now: Time): (r: Outcome)
    ensures r.0 == s.(pairings := r.0.pairings, connectors := r.0.connectors)
  {
    if !ValidToken(secret, Orp) then (s, Refused(Unauthorized))
    else match PairingBySecret(s, Sha256(secret))
      case None => (s, Refused(Unauthorized))
      case Some(id) =>
        var p := s.pairings[id];
        if p.expiresAt <= now then
          if p.state.Completed? then (s, Refused(TooLate))
          else (SetState(s, id, Expired), Polled(Expired, id, p.expiresAt, None, None))
        else if p.deviceID.None? then PollOpen(c, s, id, secret, None, now)
        else if p.deviceID.value !in s.devices then (s, Refused(Unauthorized))
        else PollOpen(c, s, id, secret, Some(TranscriptOf(id, p, s.devices[p.deviceID.value])), now)
  }

  ghost function ApprovePairing(s: Store, pairingID: nat, secret: Secret, deviceKeyID: string, now: Time): (r: Outcome)
    ensures r.0 == s.(pairings := r.0.pairings)
  {
    if !ValidToken(secret, Orp) then (s, Refused(Unauthorized))
    else if deviceKeyID == "" || |deviceKeyID| > 64 then (s, Refused(InvalidInput))
    else match PairingBySecret(s, Sha256(secret))
      case None => (s, Refused(Unauthorized))
      case Some(id) =>
        var p := s.pairings[id];
        if id != pairingID then (s, Refused(Unauthorized))
        else if p.state.Expired? then (s, Refused(TooLate))
        else if p.expiresAt <= now then
          if p.state.Completed? then (s, Refused(TooLate)) else (SetState(s, id, Expired), Refused(TooLate))
        else if !p.state.Verification? || p.deviceID.None? then (s, Refused(Conflict))
        else if p.deviceID.value !in s.devices then (s, Refused(Unauthorized))
        else if s.devices[p.deviceID.value].identity.keyID != deviceKeyID then (s, Refused(Conflict))
        else if p.connectorReviewedAt.Some? then (s, Approved)
        else (s.(pairings := s.pairings[id := p.(connectorReviewedAt := Some(now))]), Approved)
  }

  ghost function CancelPairing(s: Store, pairingID: nat, secret: Secret): (r: Outcome)
    ensures r.0 == s.(pairings := r.0.pairings)
  {
    if !ValidToken(secret, Orp) then (s, Refused(Unauthorized))
    else match PairingBySecret(s, Sha256(secret))
      case None => (s, Refused(Unauthorized))
      case Some(id) =>
        if id != pairingID then (s, Refused(Unauthorized))
        else if s.pairings[id].state.Expired? then (s, Cancelled)
        else if s.pairings[id].state.Completed? then (s, Refused(Conflict))
        else (SetState(s, id, Expired), Cancelled)
  }
}

/** Every pairing call keeps the invariant and moves every row forward. */
module PairingProofs {
  import opened ConnectorTypes
  import opened ConnectorStore
  import opened ConnectorWrites
  import opened PairingSpec
  import UserCodes

  lemma IssueKeeps(c: Config, s: Store, purpose: string, userID: Option<UserId>, now: Time)
    requires Inv(c, s)
    ensures var t := IssueChallenge(c, s, purpose, userID, now).0; Inv(c, t) && Later(s, t)
  {
    LaterRefl(s);
    var t := IssueChallenge(c, s, purpose, userID, now).0;
    if t != s {
      NewTokens(s, t, Challenge(purpose, userID, now, now + c.challengeLifetime, None));
      TokenWrite(c, s, t);
    }
  }

  lemma NewTokens(s: Store, t: Store, x: Challenge)
    requires TokensOk(s) && t.next == s.next + 1
    requires t.tickets == s.tickets
    requires t.challenges == s.challenges[Sha256(Issued(Bare, s.next)) := x]
    ensures TokensOk(t) && TokensLater(s, t)
  {
  }

  lemma UseKeeps(c: Config, s: Store, challenge: Secret, now: Time)
    requires Inv(c, s) && Sha256(challenge) in s.challenges && s.challenges[Sha256(challenge)].usedAt.None?
    ensures var t := UseChallenge(s, challenge, now); Inv(c, t) && Later(s, t)
  {
    var t := UseChallenge(s, challenge, now);
    UsedTokens(s, challenge, now);
    TokenWrite(c, s, t);
  }

  lemma UsedTokens(s: Store, challenge: Secret, now: Time)
    requires TokensOk(s) && Sha256(challenge) in s.challenges && s.challenges[Sha256(challenge)].usedAt.None?
    ensures TokensOk(UseChallenge(s, challenge, now)) && TokensLater(s, UseChallenge(s, challenge, now))
  {
  }

  lemma BeginKeeps(c: Config, s: Store, identity: PublicIdentity, proven: bool, challenge: Secret, code: string, now: Time)
    requires Inv(c, s)
    ensures var t := BeginPairing(c, s, identity, proven, challenge, code, now).0; Inv(c, t) && Later(s, t)
  {
    hide Inv, Later, Collides, PairingOk, ValidKeyID;
    LaterRefl(s);
    var t := BeginPairing(c, s, identity, proven, challenge, code, now).0;
    if t != s {
      var used := UseChallenge(s, challenge, now);
      UseKeeps(c, s, challenge, now);
      var swept := used.(pairings := ExpirePairingsForKey(s.pairings, identity.keyID, now));
      SweepWrite(c, used, swept, identity.keyID, now);
      NewPairingIsOk(c, t, s.next, identity, code, now);
      PairingCreate(c, swept, t, NewPairing(c, s.next, identity, code, now));
      LaterTrans(s, used, swept);
      LaterTrans(s, swept, t);
    }
  }

  lemma NewPairingIsOk(c: Config, t: Store, id: nat, identity: PublicIdentity, code: string, now: Time)
    requires ValidKeyID(identity.keyID) && id < t.next
    ensures PairingOk(t, id, NewPairing(c, id, identity, code, now))
  {
  }

  // ---------------------------------------------------------------- claiming

  lemma RecordKeeps(c: Config, s: Store, userID: UserId, now: Time)
    requires Inv(c, s)
    ensures var t := RecordClaimFailure(s, userID, now); Inv(c, t) && Later(s, t)
  {
    TokenWrite(c, s, RecordClaimFailure(s, userID, now));
  }

  lemma DeviceForKeeps(c: Config, s: Store, userID: UserId, identity: PublicIdentity, now: Time)
    requires Inv(c, s) && ValidKeyID(identity.keyID) && DeviceFor(s, userID, identity, now).Some?
    ensures var (t, d) := DeviceFor(s, userID, identity, now).value;
      && Inv(c, t) && Later(s, t) && d in t.devices && t.devices[d].userID == userID && t.devices[d].identity.keyID == identity.keyID
      && t.pairings == s.pairings
  {
    LaterRefl(s);
    hide Inv, Later, ValidKeyID;
    if ByKeyID(s.devices, identity.keyID).None? {
      DeviceCreate(c, s, DeviceFor(s, userID, identity, now).value.0, Subject(userID, identity, NO_CREDENTIAL, now, None, None));
    }
  }

  /** A pairing row can be expired at any time, and once claimed points at its device. */
  lemma ExpireKeeps(c: Config, s: Store, id: nat)
    requires Inv(c, s) && id in s.pairings
    ensures var t := SetState(s, id, Expired); Inv(c, t) && Later(s, t)
  {
    ExpiredRow(c, s, id);
    hide Inv, Later, PairingOk, SeedOk, PairingLater;
    PairingWrite(c, s, SetState(s, id, Expired), id, s.pairings[id].(state := Expired));
  }

  lemma ExpiredRow(c: Config, s: Store, id: nat)
    requires PairingsOk(c, s) && id in s.pairings
    ensures var p := s.pairings[id].(state := Expired);
      PairingLater(s.pairings[id], p) && PairingOk(s, id, p) && SeedOk(c, s.devices, p)
  {
    assert PairingOk(s, id, s.pairings[id]) && SeedOk(c, s.devices, s.pairings[id]);
  }

  lemma BindKeeps(c: Config, s: Store, id: nat, d: nat)
    requires Inv(c, s) && id in s.pairings && d in s.devices && s.pairings[id].state.Pending?
    ensures var p := s.pairings[id].(state := Verification, userID := Some(s.devices[d].userID), deviceID := Some(d));
      var t := s.(pairings := s.pairings[id := p]); Inv(c, t) && Later(s, t)
  {
    var p := s.pairings[id].(state := Verification, userID := Some(s.devices[d].userID), deviceID := Some(d));
    assert PairingOk(s, id, s.pairings[id]) && SeedOk(c, s.devices, s.pairings[id]);
    hide Inv, Later;
    PairingWrite(c, s, s.(pairings := s.pairings[id := p]), id, p);
  }

  lemma ClaimWithCodeKeeps(c: Config, s: Store, used: Store, userID: UserId, identity: PublicIdentity, code: string, now: Time)
    requires Inv(c, s) && Inv(c, used) && Later(s, used) && ValidKeyID(identity.keyID)
    ensures var t := ClaimWithCode(s, used, userID, identity, code, now).0; Inv(c, t) && Later(s, t)
  {
    LaterRefl(s);
    hide Inv, Later, ValidKeyID, DeviceFor, RecordClaimFailure;
    var t := ClaimWithCode(s, used, userID, identity, code, now).0;
    match PairingByCode(used, code)
    case None =>
      RecordKeeps(c, used, userID, now);
      LaterTrans(s, used, t);
    case Some(id) =>
      if used.pairings[id].expiresAt <= now {
        ExpireKeeps(c, used, id);
        LaterTrans(s, used, t);
      } else if used.pairings[id].state.Pending? && DeviceFor(used, userID, identity, now).Some? {
        var (m, d) := DeviceFor(used, userID, identity, now).value;
        DeviceForKeeps(c, used, userID, identity, now);
        BindKeeps(c, m, id, d);
        LaterTrans(s, used, m);
        LaterTrans(s, m, t);
      }
  }

  lemma ClaimKeeps(c: Config, s: Store, userID: UserId, userCode: string, identity: PublicIdentity, proven: bool,
                   challenge: Secret, now: Time, account: Auth)
    requires Inv(c, s)
    ensures var t := ClaimPairing(s, userID, userCode, identity, proven, challenge, now, account).0; Inv(c, t) && Later(s, t)
  {
    LaterRefl(s);
    hide Inv, Later, ClaimWithCode, ValidKeyID;
    if ValidKeyID(identity.keyID) && ChallengeOpen(s, challenge, PURPOSE_DEVICE, Some(userID), now) {
      UseKeeps(c, s, challenge, now);
      var code := UserCodes.Normalize(UserCodes.Normalize(userCode));
      ClaimWithCodeKeeps(c, s, UseChallenge(s, challenge, now), userID, identity, code, now);
    }
  }

  // ---------------------------------------------------------------- confirming

  lemma ConnectorForKeeps(c: Config, s: Store, userID: UserId, identity: PublicIdentity, now: Time)
    requires Inv(c, s) && ValidKeyID(identity.keyID) && ConnectorFor(s, userID, identity, now).Some?
    ensures var (t, k) := ConnectorFor(s, userID, identity, now).value;
      && Inv(c, t) && Later(s, t) && k in t.connectors && t.connectors[k].userID == userID && t.connectors[k].identity == identity
      && t.connectors[k].revokedAt.None? && t.pairings == s.pairings && t.devices == s.devices
  {
    LaterRefl(s);
    hide Inv, Later, ValidKeyID;
    if ByKeyID(s.connectors, identity.keyID).None? {
      ConnectorCreate(c, s, ConnectorFor(s, userID, identity, now).value.0, Subject(userID, identity, NO_CREDENTIAL, now, None, None));
    }
  }

  /** The device takes up the credential of a new seed. */
  function Seeded(c: Config, row: Subject, seed: nat, now: Time): Subject {
    ActivatedBy(WithLive(row, Some(Sha256(DeviceCredential(seed))), now + c.deviceLifetime), now)
  }

  lemma SeededIsOk(c: Config, s: Store, t: Store, d: nat, now: Time)
    requires Inv(c, s) && d in s.devices && s.devices[d].revokedAt.None? && t.next == s.next + 1 && BornLater(s, t)
    ensures var row := Seeded(c, s.devices[d], s.next, now);
      && RowLater(s.devices[d], row) && Moves(s, s.devices[d].slots, row.slots) && SlotsOk(t, row, Ord)
      && row.slots.live.Some? && row.activatedAt.Some? && row.revokedAt.None? && SeedSafe(s, s.devices[d].slots, row.slots)
  {
    assert SlotsOk(s, s.devices[d], Ord);
    hide Inv;
  }

  lemma SeedDevice(c: Config, s: Store, d: nat, now: Time)
    requires Inv(c, s) && d in s.devices && s.devices[d].revokedAt.None?
    ensures var t := s.(devices := s.devices[d := Seeded(c, s.devices[d], s.next, now)], next := s.next + 1);
      Inv(c, t) && Later(s, t)
  {
    hide Inv, Later, Seeded, RowLater, SlotsOk, Moves;
    var row := Seeded(c, s.devices[d], s.next, now);
    var t := s.(devices := s.devices[d := row], next := s.next + 1);
    SamePairings(s, t);
    SeededIsOk(c, s, t, d, now);
    DeviceWrite(c, s, t, d, row);
  }

  lemma AddTrust(c: Config, s: Store, k: TrustKey, now: Time)
    requires Inv(c, s) && k.deviceID in s.devices && k.connectorID in s.connectors
    requires s.devices[k.deviceID].userID == k.userID && s.connectors[k.connectorID].userID == k.userID
    requires s.devices[k.deviceID].revokedAt.None?
    ensures var t := s.(trust := s.trust[k := Trust(now, None)]); Inv(c, t) && Later(s, t)
  {
    TrustStays(s, k, now);
    hide Inv, Later, TrustOk;
    TrustWrite(c, s, s.(trust := s.trust[k := Trust(now, None)]));
  }

  lemma TrustStays(s: Store, k: TrustKey, now: Time)
    requires TrustOk(s) && k.deviceID in s.devices && k.connectorID in s.connectors
    requires s.devices[k.deviceID].userID == k.userID && s.connectors[k.connectorID].userID == k.userID
    requires s.devices[k.deviceID].revokedAt.None?
    ensures TrustOk(s.(trust := s.trust[k := Trust(now, None)]))
  {
  }

  /** The last two writes of a confirmation, once the device has its new seed. */
  lemma CompleteRow(c: Config, s: Store, id: nat, d: nat, k: nat, seed: nat, now: Time)
    requires Inv(c, s) && id in s.pairings && d in s.devices && k in s.connectors && s.connectors[k].revokedAt.None?
    requires s.pairings[id].state.Verification? && s.pairings[id].connectorReviewedAt.Some? && s.pairings[id].deviceID == Some(d)
    requires s.connectors[k].userID == s.devices[d].userID && s.connectors[k].identity == s.pairings[id].connectorIdentity
    requires seed < s.next && s.devices[d].slots.live == Some(Sha256(DeviceCredential(seed)))
    requires s.devices[d].slots.expiresAt == Some(now + c.deviceLifetime)
    ensures var p := s.pairings[id].(deviceCredentialSeed := Some(seed), state := Completed, connectorID := Some(k),
                                     confirmedAt := Some(now), completedAt := Some(now));
      && s.pairings[id].confirmedAt.None? && PairingLater(s.pairings[id], p) && PairingOk(s, id, p) && SeedOk(c, s.devices, p)
  {
    assert PairingOk(s, id, s.pairings[id]);
    OnlyHolder(s.devices, d, Sha256(DeviceCredential(seed)));
    hide Inv;
  }

  lemma OnlyHolder(rows: Subjects, i: nat, h: Digest)
    requires HoldersUnique(rows) && i in rows && Holds(rows[i], h)
    ensures forall j :: j in rows && Holds(rows[j], h) ==> j == i
  {
  }

  lemma CompleteKeeps(c: Config, s: Store, id: nat, userID: UserId, d: nat, k: nat, now: Time)
    requires Inv(c, s) && id in s.pairings && d in s.devices && k in s.connectors
    requires s.devices[d].userID == userID && s.connectors[k].userID == userID
    requires s.devices[d].revokedAt.None? && s.connectors[k].revokedAt.None?
    requires s.pairings[id].state.Verification? && s.pairings[id].connectorReviewedAt.Some? && s.pairings[id].deviceID == Some(d)
    requires s.connectors[k].identity == s.pairings[id].connectorIdentity
    ensures var t := Complete(c, s, id, userID, d, k, now); Inv(c, t) && Later(s, t)
  {
    hide Inv, Later, PairingOk, SeedOk, PairingLater;
    var t := Complete(c, s, id, userID, d, k, now);
    var seeded := s.(devices := t.devices, next := t.next);
    SeedDevice(c, s, d, now);
    var trusted := seeded.(trust := t.trust);
    AddTrust(c, seeded, TrustKey(userID, d, k), now);
    CompleteRow(c, trusted, id, d, k, s.next, now);
    CompletionWrite(c, trusted, t, id, t.pairings[id], k, t.connectors[k]);
    LaterTrans(s, seeded, trusted);
    LaterTrans(s, trusted, t);
  }

  lemma ConfirmKeeps(c: Config, s: Store, userID: UserId, id: nat, d: nat, now: Time, account: Auth)
    requires Inv(c, s)
    ensures var t := ConfirmPairing(c, s, userID, id, d, now, account).0; Inv(c, t) && Later(s, t)
  {
    LaterRefl(s);
    assert id in s.pairings ==> PairingOk(s, id, s.pairings[id]);
    hide Inv, Later, ConnectorFor, Complete, ConfirmAgain, ValidKeyID;
    var r := ConfirmPairing(c, s, userID, id, d, now, account);
    if r.0 != s {
      var p := s.pairings[id];
      var (m, k) := ConnectorFor(s, userID, p.connectorIdentity, now).value;
      ConnectorForKeeps(c, s, userID, p.connectorIdentity, now);
      CompleteKeeps(c, m, id, userID, d, k, now);
      LaterTrans(s, m, r.0);
    }
  }

  // ---------------------------------------------------------------- the connector's side

  lemma NeverConfirmed(c: Config, s: Store)
    requires Inv(c, s)
    ensures forall i :: i in s.pairings ==> !s.pairings[i].state.Confirmed?
  {
    assert forall i :: i in s.pairings ==> PairingOk(s, i, s.pairings[i]);
  }

  /** A poll writes only the expiry of a pairing that has run out without completing. */
  lemma PollOnlyExpires(c: Config, s: Store, secret: Secret, now: Time)
    requires Inv(c, s)
    ensures var t, r := PollPairing(c, s, secret, now).0, PairingBySecret(s, Sha256(secret));
      t == s || (r.Some? && t == SetState(s, r.value, Expired) && !s.pairings[r.value].state.Completed?)
  {
    NeverConfirmed(c, s);
    hide Inv, PollOpen;
    match PairingBySecret(s, Sha256(secret))
    case None =>
    case Some(i) =>
      var p := s.pairings[i];
      PollOpenKeeps(c, s, i, secret, None, now);
      if p.deviceID.Some? && p.deviceID.value in s.devices {
        PollOpenKeeps(c, s, i, secret, Some(TranscriptOf(i, p, s.devices[p.deviceID.value])), now);
      }
  }

  /** Without a confirmed pairing a poll that finds one open writes nothing. */
  lemma PollOpenKeeps(c: Config, s: Store, id: nat, secret: Secret, shown: Option<Transcript>, now: Time)
    requires id in s.pairings && !s.pairings[id].state.Confirmed?
    ensures PollOpen(c, s, id, secret, shown, now).0 == s
  {
  }

  lemma PollKeeps(c: Config, s: Store, secret: Secret, now: Time)
    requires Inv(c, s)
    ensures var t := PollPairing(c, s, secret, now).0; Inv(c, t) && Later(s, t)
  {
    LaterRefl(s);
    hide Inv, Later, PollPairing, PairingBySecret, SetState;
    PollOnlyExpires(c, s, secret, now);
    var r := PairingBySecret(s, Sha256(secret));
    if r.Some? { ExpireKeeps(c, s, r.value); }
  }

  lemma ReviewKeeps(c: Config, s: Store, id: nat, now: Time)
    requires Inv(c, s) && id in s.pairings && s.pairings[id].state.Verification? && s.pairings[id].connectorReviewedAt.None?
    ensures var t := s.(pairings := s.pairings[id := s.pairings[id].(connectorReviewedAt := Some(now))]); Inv(c, t) && Later(s, t)
  {
    var q := s.pairings[id].(connectorReviewedAt := Some(now));
    assert PairingOk(s, id, s.pairings[id]) && SeedOk(c, s.devices, s.pairings[id]);
    hide Inv, Later;
    PairingWrite(c, s, s.(pairings := s.pairings[id := q]), id, q);
  }

  lemma ApproveKeeps(c: Config, s: Store, pairingID: nat, secret: Secret, deviceKeyID: string, now: Time)
    requires Inv(c, s)
    ensures var t := ApprovePairing(s, pairingID, secret, deviceKeyID, now).0; Inv(c, t) && Later(s, t)
  {
    LaterRefl(s);
    hide Inv, Later;
    match PairingBySecret(s, Sha256(secret))
    case None =>
    case Some(id) =>
      ExpireKeeps(c, s, id);
      if s.pairings[id].state.Verification? && s.pairings[id].connectorReviewedAt.None? { ReviewKeeps(c, s, id, now); }
  }

  lemma CancelKeeps(c: Config, s: Store, pairingID: nat, secret: Secret)
    requires Inv(c, s)
    ensures var t := CancelPairing(s, pairingID, secret).0; Inv(c, t) && Later(s, t)
  {
    LaterRefl(s);
    hide Inv, Later;
    match PairingBySecret(s, Sha256(secret))
    case None =>
    case Some(id) => ExpireKeeps(c, s, id);
  }
}
