/** The connector service over its store (internal/connectors/service.go): each method reads and
    writes rows of a transaction, and what it wrote becomes the store only if it gets to the end. */
module ConnectorService {
  import opened ConnectorTypes
  import opened ConnectorStore
  import opened ConnectorWrites
  import opened PairingSpec
  import opened PairingProofs
  import opened CredentialSpec
  import opened CredentialProofs
  import ClaimLimits
  import UserCodes

  // ---------------------------------------------------------------- unique columns

  lemma SecretFinds(c: Config, s: Store, h: Digest, id: nat)
    requires Inv(c, s) && id in s.pairings && s.pairings[id].secretHash == h
    ensures PairingBySecret(s, h) == Some(id)
  {
    assert forall i :: i in s.pairings ==> PairingOk(s, i, s.pairings[i]);
    hide RowsOk, CodesUnique, OneActivePerKey, TrustOk, TokensOk, SeedOk;
  }

  lemma CodeFinds(c: Config, s: Store, code: string, id: nat)
    requires CodesUnique(s.pairings) && id in s.pairings && s.pairings[id].userCodeHash == code
    ensures PairingByCode(s, code) == Some(id)
  {
  }

  lemma KeyFinds(rows: Subjects, keyID: string, i: nat)
    requires KeysUnique(rows) && i in rows && rows[i].identity.keyID == keyID
    ensures ByKeyID(rows, keyID) == Some(i)
  {
  }

  lemma CredentialFinds(rows: Subjects, h: Digest, i: nat)
    requires HoldersUnique(rows) && i in rows && Holds(rows[i], h)
    ensures rows[i].slots.live == Some(h) ==> ByCredential(rows, h) == Some(i)
    ensures ByAnyCredential(rows, h) == Some(i)
  {
    hide KeysUnique;
    assert forall j :: j in rows && rows[j].slots.live == Some(h) ==> Holds(rows[j], h);
  }

  lemma Uniques(c: Config, s: Store)
    requires Inv(c, s)
    ensures CodesUnique(s.pairings) && KeysUnique(s.devices) && KeysUnique(s.connectors)
    ensures HoldersUnique(s.devices) && HoldersUnique(s.connectors)
  {
  }

  class Service {
    const config: Config
    var store: Store

    constructor (config: Config)
      ensures this.config == config && store == EMPTY_STORE && Inv(config, store)
    {
      this.config, store := config, EMPTY_STORE;
      EmptyIsOk(config);
    }

    // -------------------------------------------------------------- queries of a transaction

    method PairingBySecretForUpdate(tx: Store, h: Digest) returns (r: Option<nat>)
      requires Inv(config, tx)
      ensures r == PairingBySecret(tx, h)
    {
      hide Inv;
      if id :| id in tx.pairings && tx.pairings[id].secretHash == h {
        SecretFinds(config, tx, h, id);
        r := Some(id);
      } else {
        r := None;
      }
    }

    method PairingByCodeForUpdate(tx: Store, code: string) returns (r: Option<nat>)
      requires CodesUnique(tx.pairings)
      ensures r == PairingByCode(tx, code)
    {
      hide CodesUnique;
      if id :| id in tx.pairings && tx.pairings[id].userCodeHash == code {
        CodeFinds(config, tx, code, id);
        r := Some(id);
      } else {
        r := None;
      }
    }

    method ByKeyIDForUpdate(rows: Subjects, keyID: string) returns (r: Option<nat>)
      requires KeysUnique(rows)
      ensures r == ByKeyID(rows, keyID)
    {
      hide KeysUnique;
      if i :| i in rows && rows[i].identity.keyID == keyID {
        KeyFinds(rows, keyID, i);
        r := Some(i);
      } else {
        r := None;
      }
    }

    method ByCredentialForUpdate(rows: Subjects, h: Digest) returns (r: Option<nat>)
      requires HoldersUnique(rows)
      ensures r == ByCredential(rows, h)
    {
      hide HoldersUnique;
      if i :| i in rows && rows[i].slots.live == Some(h) {
        CredentialFinds(rows, h, i);
        r := Some(i);
      } else {
        r := None;
      }
    }

    method ByAnyCredentialForUpdate(rows: Subjects, h: Digest) returns (r: Option<nat>)
      requires HoldersUnique(rows)
      ensures r == ByAnyCredential(rows, h)
    {
      hide HoldersUnique;
      if i :| i in rows && (rows[i].slots.live == Some(h) || rows[i].slots.pending == Some(h)) {
        CredentialFinds(rows, h, i);
        r := Some(i);
      } else {
        r := None;
      }
    }

    // -------------------------------------------------------------- pairing

    method IssueChallenge(purpose: string, userID: Option<UserId>, now: Time) returns (reply: Reply)
      requires Inv(config, store)
      modifies this
      ensures (store, reply) == PairingSpec.IssueChallenge(config, old(store), purpose, userID, now) && Inv(config, store)
    {
      hide Inv, Later;
      IssueKeeps(config, store, purpose, userID, now);
      if purpose != PURPOSE_CONNECTOR && purpose != PURPOSE_DEVICE {
        return Refused(InvalidInput);
      }
      if purpose == PURPOSE_DEVICE && (userID.None? || userID.value == "") {
        return Refused(Unauthorized);
      }
      var challenge := Issued(Bare, store.next);
      var row := Challenge(purpose, userID, now, now + config.challengeLifetime, None);
      store := store.(challenges := store.challenges[Sha256(challenge) := row], next := store.next + 1);
      reply := ChallengeIssued(challenge, now + config.challengeLifetime);
    }

    method BeginPairing(identity: PublicIdentity, proven: bool, challenge: Secret, code: string, now: Time) returns (reply: Reply)
      requires Inv(config, store)
      modifies this
      ensures (store, reply) == PairingSpec.BeginPairing(config, old(store), identity, proven, challenge, code, now)
      ensures Inv(config, store)
    {
      hide Inv, Later, ValidKeyID;
      BeginKeeps(config, store, identity, proven, challenge, code, now);
      if !proven || !ValidKeyID(identity.keyID) {
        return Refused(InvalidInput);
      }
      var pairingID, pairingSecret := store.next, Issued(Orp, store.next);
      var pairing := NewPairing(config, pairingID, identity, code, now);
      var tx, h := store, Sha256(challenge);
      if h !in tx.challenges {
        return Refused(Unauthorized);
      }
      var row := tx.challenges[h];
      if row.purpose != PURPOSE_CONNECTOR || row.userID.Some? || row.usedAt.Some? || row.expiresAt <= now {
        return Refused(Unauthorized);
      }
      tx := tx.(challenges := tx.challenges[h := row.(usedAt := Some(now))]);
      tx := tx.(pairings := ExpirePairingsForKey(tx.pairings, identity.keyID, now));
      if i :| i in tx.pairings && (tx.pairings[i].userCodeHash == pairing.userCodeHash
                || (Active(tx.pairings[i]) && tx.pairings[i].connectorIdentity.keyID == identity.keyID)) {
        return Refused(Conflict);
      }
      store := tx.(pairings := tx.pairings[pairingID := pairing], next := tx.next + 1);
      reply := Begun(pairingID, pairingSecret, code, pairing.expiresAt);
    }

    method ClaimPairing(userID: UserId, userCode: string, identity: PublicIdentity, proven: bool, challenge: Secret,
                        now: Time, account: Auth) returns (reply: Reply)
      requires Inv(config, store)
      modifies this
      ensures (store, reply) == PairingSpec.ClaimPairing(old(store), userID, userCode, identity, proven, challenge, now, account)
      ensures Inv(config, store)
    {
      hide Inv, Later, ValidKeyID, HoldersUnique, KeysUnique, CodesUnique;
      Uniques(config, store);
      ClaimKeeps(config, store, userID, userCode, identity, proven, challenge, now, account);
      var code := UserCodes.Normalize(userCode);
      if userID == "" || !proven || !ValidKeyID(identity.keyID) || |code| != 8 {
        return Refused(InvalidInput);
      }
      var tx, h := store, Sha256(challenge);
      if !account.Granted? || h !in tx.challenges {
        return Refused(Unauthorized);
      }
      var row := tx.challenges[h];
      if row.purpose != PURPOSE_DEVICE || row.userID != Some(userID) || row.usedAt.Some? || row.expiresAt <= now {
        return Refused(Unauthorized);
      }
      var check := ClaimLimits.CheckFailures(tx.failures, userID, now);
      if check.TooManyAttempts? {
        return Refused(AttemptsExceeded(check.retryAfter));
      }
      // every guess spends its challenge, right or wrong
      tx := tx.(challenges := tx.challenges[h := row.(usedAt := Some(now))]);
      assert tx == UseChallenge(old(store), challenge, now);
      reply := ClaimByCode(tx, userID, UserCodes.Normalize(code), identity, now);
    }

    /** The rest of a claim, once its challenge is spent. A conflict rolls even that back. */
    method ClaimByCode(used: Store, userID: UserId, code: string, identity: PublicIdentity, now: Time) returns (reply: Reply)
      requires CodesUnique(used.pairings) && KeysUnique(used.devices)
      modifies this
      ensures (store, reply) == ClaimWithCode(old(store), used, userID, identity, code, now)
    {
      hide CodesUnique, KeysUnique;
      var tx := used;
      var found := PairingByCodeForUpdate(tx, code);
      if found.None? {
        store := RecordClaimFailure(tx, userID, now);
        return Refused(InvalidCode);
      }
      var id := found.value;
      var pairing := tx.pairings[id];
      if pairing.expiresAt <= now {
        store := tx.(pairings := tx.pairings[id := pairing.(state := Expired)]);
        return Refused(TooLate);
      }
      if !pairing.state.Pending? {
        return Refused(Conflict);
      }
      var known := ByKeyIDForUpdate(tx.devices, identity.keyID);
      var d := if known.Some? then known.value else tx.next;
      if known.None? {
        var device := Subject(userID, identity, NO_CREDENTIAL, now, None, None);
        tx := tx.(devices := tx.devices[d := device], next := tx.next + 1);
      } else if tx.devices[d].userID != userID || tx.devices[d].revokedAt.Some? || tx.devices[d].identity.publicKey != identity.publicKey {
        return Refused(Conflict);
      }
      pairing := pairing.(state := Verification, userID := Some(userID), deviceID := Some(d));
      store := tx.(pairings := tx.pairings[id := pairing]);
      reply := Claimed(TranscriptOf(id, pairing, tx.devices[d]), d, pairing.expiresAt);
    }

    method ConfirmPairing(userID: UserId, pairingID: nat, deviceID: nat, now: Time, account: Auth) returns (reply: Reply)
      requires Inv(config, store)
      modifies this
      ensures (store, reply) == PairingSpec.ConfirmPairing(config, old(store), userID, pairingID, deviceID, now, account)
      ensures Inv(config, store)
    {
      hide Inv, Later, HoldersUnique, KeysUnique, CodesUnique, ByKeyID;
      Uniques(config, store);
      ConfirmKeeps(config, store, userID, pairingID, deviceID, now, account);
      if userID == "" {
        return Refused(InvalidInput);
      }
      if !account.Granted? {
        return Refused(Refusal(account));
      }
      var tx := store;
      if pairingID !in tx.pairings {
        return Refused(Unauthorized);
      }
      var pairing := tx.pairings[pairingID];
      if pairing.expiresAt <= now {
        return Refused(TooLate);
      }
      if pairing.userID != Some(userID) || pairing.deviceID != Some(deviceID) {
        return Refused(Conflict);
      }
      if deviceID !in tx.devices {
        return Refused(Unauthorized);
      }
      var device := tx.devices[deviceID];
      if device.userID != userID || device.revokedAt.Some? {
        return Refused(Unauthorized);
      }
      if pairing.state.Completed? && pairing.connectorID.Some? && device.slots.expiresAt.Some? {
        reply := Reconfirm(tx, pairing, userID, deviceID);
        return;
      }
      if pairing.state.Expired? {
        return Refused(TooLate);
      }
      if !pairing.state.Verification? || pairing.connectorReviewedAt.None? || pairing.connectorCredentialHash.None? {
        return Refused(Conflict);
      }
      var known := ByKeyIDForUpdate(tx.connectors, pairing.connectorIdentity.keyID);
      var k := if known.Some? then known.value else tx.next;
      if known.None? {
        var created := Subject(userID, pairing.connectorIdentity, NO_CREDENTIAL, now, None, None);
        tx := tx.(connectors := tx.connectors[k := created], next := tx.next + 1);
      } else if tx.connectors[k].userID != userID || tx.connectors[k].revokedAt.Some?
             || tx.connectors[k].identity.publicKey != pairing.connectorIdentity.publicKey {
        return Refused(Conflict);
      }
      ghost var prepared := tx;
      var seed, credentialExpiresAt := tx.next, now + config.deviceLifetime;
      var credential := DeviceCredential(seed);
      tx := tx.(next := tx.next + 1);
      device := device.(slots := device.slots.(live := Some(Sha256(credential)), expiresAt := Some(credentialExpiresAt)));
      if device.activatedAt.None? {
        device := device.(activatedAt := Some(now));
      }
      tx := tx.(devices := tx.devices[deviceID := device]);
      tx := tx.(trust := tx.trust[TrustKey(userID, deviceID, k) := Trust(now, None)]);
      var connector := tx.connectors[k];
      connector := connector.(slots := connector.slots.(live := pairing.connectorCredentialHash, expiresAt := Some(now + config.connectorLifetime)));
      tx := tx.(connectors := tx.connectors[k := connector]);
      pairing := pairing.(deviceCredentialSeed := Some(seed), state := Completed, connectorID := Some(k),
                          confirmedAt := Some(now), completedAt := Some(now));
      tx := tx.(pairings := tx.pairings[pairingID := pairing]);
      assert tx == Complete(config, prepared, pairingID, userID, deviceID, k, now);
      store := tx;
      reply := PairingConfirmed(deviceID, k, credential, credentialExpiresAt);
    }

    /** A repeated confirmation re-derives what the first one gave out. */
    method Reconfirm(tx: Store, pairing: Pairing, userID: UserId, deviceID: nat) returns (reply: Reply)
      requires deviceID in tx.devices && tx.devices[deviceID].slots.expiresAt.Some? && pairing.connectorID.Some?
      ensures reply == ConfirmAgain(tx, pairing, userID, deviceID)
    {
      if pairing.connectorCredentialHash.None? || pairing.deviceCredentialSeed.None? {
        return Refused(Conflict);
      }
      var credential := DeviceCredential(pairing.deviceCredentialSeed.value);
      if tx.devices[deviceID].slots.live != Some(Sha256(credential)) {
        return Refused(Conflict);
      }
      var k := pairing.connectorID.value;
      if k !in tx.connectors {
        return Refused(Unauthorized);
      }
      var connector := tx.connectors[k];
      if connector.userID != userID || connector.revokedAt.Some? || connector.slots.live != pairing.connectorCredentialHash {
        return Refused(Conflict);
      }
      reply := PairingConfirmed(deviceID, k, credential, tx.devices[deviceID].slots.expiresAt.value);
    }

    method PollPairing(pairingSecret: Secret, now: Time) returns (reply: Reply)
      requires Inv(config, store)
      modifies this
      ensures (store, reply) == PairingSpec.PollPairing(config, old(store), pairingSecret, now) && Inv(config, store)
    {
      hide Inv, Later, PairingBySecret;
      PollKeeps(config, store, pairingSecret, now);
      if !ValidToken(pairingSecret, Orp) {
        return Refused(Unauthorized);
      }
      var tx := store;
      var found := PairingBySecretForUpdate(tx, Sha256(pairingSecret));
      if found.None? {
        return Refused(Unauthorized);
      }
      var id := found.value;
      var pairing := tx.pairings[id];
      if pairing.expiresAt <= now {
        if pairing.state.Completed? {
          return Refused(TooLate);
        }
        store := tx.(pairings := tx.pairings[id := pairing.(state := Expired)]);
        return Polled(Expired, id, pairing.expiresAt, None, None);
      }
      var shown: Option<Transcript> := None;
      if pairing.deviceID.Some? {
        if pairing.deviceID.value !in tx.devices {
          return Refused(Unauthorized);
        }
        shown := Some(TranscriptOf(id, pairing, tx.devices[pairing.deviceID.value]));
      }
      reply := PollStanding(tx, id, pairingSecret, shown, now);
    }

    method PollStanding(tx: Store, id: nat, pairingSecret: Secret, shown: Option<Transcript>, now: Time) returns (reply: Reply)
      requires id in tx.pairings && tx == store
      modifies this
      ensures (store, reply) == PollOpen(config, tx, id, pairingSecret, shown, now)
    {
      var pairing, credential := tx.pairings[id], ConnectorCredential(pairingSecret);
      reply := Polled(pairing.state, id, pairing.expiresAt, shown, None);
      if pairing.state.Verification? {
        return;
      }
      if pairing.state.Completed? && pairing.connectorID.Some? {
        var k := pairing.connectorID.value;
        if k !in tx.connectors || tx.connectors[k].slots.expiresAt.None? || tx.connectors[k].revokedAt.Some?
           || tx.connectors[k].slots.live != Some(Sha256(credential)) {
          return Refused(Unauthorized);
        }
        var connector := tx.connectors[k];
        reply := reply.(grant := Some(Grant(k, credential, connector.slots.expiresAt.value, connector.createdAt)));
        return;
      }
      if !pairing.state.Confirmed? {
        return;
      }
      if pairing.connectorID.None? {
        return Refused(Conflict);
      }
      var k := pairing.connectorID.value;
      if k !in tx.connectors || tx.connectors[k].revokedAt.Some? {
        return Refused(Unauthorized);
      }
      var connector, expiresAt := tx.connectors[k], now + config.connectorLifetime;
      connector := connector.(slots := connector.slots.(live := Some(Sha256(credential)), expiresAt := Some(expiresAt)));
      pairing := pairing.(state := Completed, completedAt := Some(now));
      store := tx.(connectors := tx.connectors[k := connector], pairings := tx.pairings[id := pairing]);
      reply := Polled(Completed, id, pairing.expiresAt, shown, Some(Grant(k, credential, expiresAt, connector.createdAt)));
    }

    method ApprovePairing(pairingID: nat, pairingSecret: Secret, deviceKeyID: string, now: Time) returns (reply: Reply)
      requires Inv(config, store)
      modifies this
      ensures (store, reply) == PairingSpec.ApprovePairing(old(store), pairingID, pairingSecret, deviceKeyID, now)
      ensures Inv(config, store)
    {
      hide Inv, Later, PairingBySecret;
      ApproveKeeps(config, store, pairingID, pairingSecret, deviceKeyID, now);
      if !ValidToken(pairingSecret, Orp) {
        return Refused(Unauthorized);
      }
      if deviceKeyID == "" || |deviceKeyID| > 64 {
        return Refused(InvalidInput);
      }
      var tx := store;
      var found := PairingBySecretForUpdate(tx, Sha256(pairingSecret));
      if found.None? || found.value != pairingID {
        return Refused(Unauthorized);
      }
      var pairing := tx.pairings[pairingID];
      if pairing.state.Expired? {
        return Refused(TooLate);
      }
      if pairing.expiresAt <= now {
        if !pairing.state.Completed? {
          store := tx.(pairings := tx.pairings[pairingID := pairing.(state := Expired)]);
        }
        return Refused(TooLate);
      }
      if !pairing.state.Verification? || pairing.deviceID.None? {
        return Refused(Conflict);
      }
      if pairing.deviceID.value !in tx.devices {
        return Refused(Unauthorized);
      }
      if tx.devices[pairing.deviceID.value].identity.keyID != deviceKeyID {
        return Refused(Conflict);
      }
      if pairing.connectorReviewedAt.None? {
        store := tx.(pairings := tx.pairings[pairingID := pairing.(connectorReviewedAt := Some(now))]);
      }
      reply := Approved;
    }

    method CancelPairing(pairingID: nat, pairingSecret: Secret) returns (reply: Reply)
      requires Inv(config, store)
      modifies this
      ensures (store, reply) == PairingSpec.CancelPairing(old(store), pairingID, pairingSecret) && Inv(config, store)
    {
      hide Inv, Later, PairingBySecret;
      CancelKeeps(config, store, pairingID, pairingSecret);
      if !ValidToken(pairingSecret, Orp) {
        return Refused(Unauthorized);
      }
      var tx := store;
      var found := PairingBySecretForUpdate(tx, Sha256(pairingSecret));
      if found.None? || found.value != pairingID {
        return Refused(Unauthorized);
      }
      var pairing := tx.pairings[pairingID];
      if pairing.state.Completed? {
        return Refused(Conflict);
      }
      if !pairing.state.Expired? {
        store := tx.(pairings := tx.pairings[pairingID := pairing.(state := Expired)]);
      }
      reply := Cancelled;
    }

    // -------------------------------------------------------------- rotation

    method RotateDeviceCredential(userID: UserId, sessionID: SessionId, deviceID: nat, credential: Secret, now: Time,
                                  account: Auth, session: Auth) returns (reply: Reply)
      requires Inv(config, store)
      modifies this
      ensures (store, reply) == RotateDevice(config, old(store), userID, sessionID, deviceID, credential, now, account, session)
      ensures Inv(config, store)
    {
      hide Inv, Later, HoldersUnique, KeysUnique, CodesUnique, ByCredential;
      Uniques(config, store);
      RotateDeviceKeeps(config, store, userID, sessionID, deviceID, credential, now, account, session);
      if userID == "" || sessionID == "" || !ValidToken(credential, Ord) {
        return Refused(Unauthorized);
      }
      var tx := store;
      var found := ByCredentialForUpdate(tx.devices, Sha256(credential));
      if found.None? || found.value != deviceID {
        return Refused(Unauthorized);
      }
      var device := tx.devices[deviceID];
      if device.userID != userID || device.activatedAt.None? || device.revokedAt.Some?
         || device.slots.expiresAt.None? || device.slots.expiresAt.value <= now {
        return Refused(Unauthorized);
      }
      if !account.Granted? {
        return Refused(Refusal(account));
      }
      if !session.Granted? {
        return Refused(Refusal(session));
      }
      var issued, deadline := Issued(Ord, tx.next), now + config.activationWindow;
      device := device.(slots := device.slots.(pending := Some(Sha256(issued)), pendingUntil := Some(deadline)));
      store := tx.(devices := tx.devices[deviceID := device], next := tx.next + 1);
      reply := Rotated(issued, deadline);
    }

    method ActivateDeviceCredential(userID: UserId, sessionID: SessionId, deviceID: nat, credential: Secret, now: Time,
                                    account: Auth, session: Auth) returns (reply: Reply)
      requires Inv(config, store)
      modifies this
      ensures (store, reply) == ActivateDevice(config, old(store), userID, sessionID, deviceID, credential, now, account, session)
      ensures Inv(config, store)
    {
      hide Inv, Later, HoldersUnique, KeysUnique, CodesUnique, ByAnyCredential;
      Uniques(config, store);
      ActivateDeviceKeeps(config, store, userID, sessionID, deviceID, credential, now, account, session);
      if userID == "" || sessionID == "" || !ValidToken(credential, Ord) {
        return Refused(Unauthorized);
      }
      var tx, h := store, Sha256(credential);
      var found := ByAnyCredentialForUpdate(tx.devices, h);
      if found.None? || found.value != deviceID {
        return Refused(Unauthorized);
      }
      var device := tx.devices[deviceID];
      if device.userID != userID || device.activatedAt.None? || device.revokedAt.Some? {
        return Refused(Unauthorized);
      }
      if !account.Granted? {
        return Refused(Refusal(account));
      }
      if !session.Granted? {
        return Refused(Refusal(session));
      }
      if device.slots.live == Some(h) {
        if device.slots.expiresAt.None? || device.slots.expiresAt.value <= now {
          return Refused(Unauthorized);
        }
        return Activated(device.slots.expiresAt.value);
      }
      if device.slots.pending != Some(h) || device.slots.pendingUntil.None? || device.slots.pendingUntil.value <= now {
        return Refused(Unauthorized);
      }
      var expiresAt := now + config.deviceLifetime;
      device := device.(slots := Slots(Some(h), Some(expiresAt), None, None));
      store := tx.(devices := tx.devices[deviceID := device]);
      reply := Activated(expiresAt);
    }

    method RotateConnectorCredential(credential: Secret, now: Time, account: Auth) returns (reply: Reply)
      requires Inv(config, store)
      modifies this
      ensures (store, reply) == RotateConnector(config, old(store), credential, now, account) && Inv(config, store)
    {
      hide Inv, Later, HoldersUnique, KeysUnique, CodesUnique, ByCredential;
      Uniques(config, store);
      RotateConnectorKeeps(config, store, credential, now, account);
      if !ValidToken(credential, Orc) {
        return Refused(Unauthorized);
      }
      var tx := store;
      var found := ByCredentialForUpdate(tx.connectors, Sha256(credential));
      if found.None? || !Current(tx.connectors[found.value], now) {
        return Refused(Unauthorized);
      }
      if !account.Granted? {
        return Refused(Refusal(account));
      }
      var connector := tx.connectors[found.value];
      var issued, deadline := Issued(Orc, tx.next), now + config.activationWindow;
      connector := connector.(slots := connector.slots.(pending := Some(Sha256(issued)), pendingUntil := Some(deadline)));
      store := tx.(connectors := tx.connectors[found.value := connector], next := tx.next + 1);
      reply := Rotated(issued, deadline);
    }

    method ActivateConnectorCredential(credential: Secret, now: Time, account: Auth) returns (reply: Reply)
      requires Inv(config, store)
      modifies this
      ensures (store, reply) == ActivateConnector(config, old(store), credential, now, account) && Inv(config, store)
    {
      hide Inv, Later, HoldersUnique, KeysUnique, CodesUnique, ByAnyCredential;
      Uniques(config, store);
      ActivateConnectorKeeps(config, store, credential, now, account);
      if !ValidToken(credential, Orc) {
        return Refused(Unauthorized);
      }
      var tx, h := store, Sha256(credential);
      var found := ByAnyCredentialForUpdate(tx.connectors, h);
      if found.None? || tx.connectors[found.value].revokedAt.Some? {
        return Refused(Unauthorized);
      }
      if !account.Granted? {
        return Refused(Refusal(account));
      }
      var connector := tx.connectors[found.value];
      if connector.slots.live == Some(h) {
        if connector.slots.expiresAt.None? || connector.slots.expiresAt.value <= now {
          return Refused(Unauthorized);
        }
        return Activated(connector.slots.expiresAt.value);
      }
      if connector.slots.pending != Some(h) || connector.slots.pendingUntil.None? || connector.slots.pendingUntil.value <= now {
        return Refused(Unauthorized);
      }
      var expiresAt := now + config.connectorLifetime;
      connector := connector.(slots := Slots(Some(h), Some(expiresAt), None, None));
      store := tx.(connectors := tx.connectors[found.value := connector]);
      reply := Activated(expiresAt);
    }

    // -------------------------------------------------------------- revocation

    method RevokeConnector(credential: Secret, now: Time) returns (reply: Reply)
      requires Inv(config, store)
      modifies this
      ensures (store, reply) == CredentialSpec.RevokeConnector(old(store), credential, now) && Inv(config, store)
    {
      hide Inv, Later, HoldersUnique, KeysUnique, CodesUnique, ByCredential;
      Uniques(config, store);
      RevokeConnectorKeeps(config, store, credential, now);
      if !ValidToken(credential, Orc) {
        return Refused(Unauthorized);
      }
      var tx := store;
      var found := ByCredentialForUpdate(tx.connectors, Sha256(credential));
      if found.None? {
        return Refused(Unauthorized);
      }
      var connector := tx.connectors[found.value];
      if connector.revokedAt.None? {
        if connector.slots.expiresAt.None? || connector.slots.expiresAt.value <= now {
          return Refused(Unauthorized);
        }
        store := tx.(connectors := tx.connectors[found.value := connector.(revokedAt := Some(now))]);
      }
      reply := RevocationAnnounced(Revocation(connector.userID, Some(found.value), None, None));
    }

    method RevokeAccountConnector(userID: UserId, connectorID: nat, now: Time, account: Auth) returns (reply: Reply)
      requires Inv(config, store)
      modifies this
      ensures (store, reply) == CredentialSpec.RevokeAccountConnector(old(store), userID, connectorID, now, account)
      ensures Inv(config, store)
    {
      hide Inv, Later;
      RevokeAccountConnectorKeeps(config, store, userID, connectorID, now, account);
      if userID == "" {
        return Refused(InvalidInput);
      }
      if !account.Granted? {
        return Refused(Unauthorized);
      }
      if connectorID !in store.connectors || store.connectors[connectorID].userID != userID {
        return Refused(NotFound);
      }
      var connector := store.connectors[connectorID];
      if connector.revokedAt.None? {
        store := store.(connectors := store.connectors[connectorID := connector.(revokedAt := Some(now))]);
      }
      reply := RevocationAnnounced(Revocation(userID, Some(connectorID), None, None));
    }

    method RevokeAccountDevice(userID: UserId, deviceID: nat, now: Time, account: Auth) returns (reply: Reply)
      requires Inv(config, store)
      modifies this
      ensures (store, reply) == CredentialSpec.RevokeAccountDevice(old(store), userID, deviceID, now, account)
      ensures Inv(config, store)
    {
      hide Inv, Later;
      RevokeDeviceKeeps(config, store, userID, deviceID, now, account);
      if userID == "" {
        return Refused(InvalidInput);
      }
      if !account.Granted? {
        return Refused(Unauthorized);
      }
      if deviceID !in store.devices || store.devices[deviceID].userID != userID {
        return Refused(NotFound);
      }
      var tx, device := store, store.devices[deviceID];
      if device.revokedAt.None? {
        device := device.(revokedAt := Some(now), slots := device.slots.(pending := None, pendingUntil := None));
        tx := tx.(devices := tx.devices[deviceID := device]);
        tx := tx.(trust := RevokeDeviceTrust(tx.trust, userID, deviceID, now));
        store := tx;
      }
      reply := RevocationAnnounced(Revocation(userID, None, Some(deviceID), None));
    }

    // -------------------------------------------------------------- tickets

    method IssueBrowserTicket(userID: UserId, sessionID: SessionId, deviceID: nat, credential: Secret,
                              accessExpiresAt: Option<Time>, now: Time, account: Auth, session: Auth) returns (reply: Reply)
      requires Inv(config, store)
      modifies this
      ensures (store, reply) == CredentialSpec.IssueBrowserTicket(config, old(store), userID, sessionID, deviceID, credential,
                                                                  accessExpiresAt, now, account, session)
      ensures Inv(config, store)
    {
      hide Inv, Later, HoldersUnique, KeysUnique, CodesUnique, ByCredential;
      Uniques(config, store);
      BrowserTicketKeeps(config, store, userID, sessionID, deviceID, credential, accessExpiresAt, now, account, session);
      if userID == "" || sessionID == "" || !ValidToken(credential, Ord) {
        return Refused(Unauthorized);
      }
      var ticket, tx := Issued(Ort, store.next), store;
      var found := ByCredentialForUpdate(tx.devices, Sha256(credential));
      if found.None? || found.value != deviceID {
        return Refused(Unauthorized);
      }
      var device := tx.devices[deviceID];
      if device.userID != userID || device.activatedAt.None? || device.revokedAt.Some?
         || device.slots.expiresAt.None? || device.slots.expiresAt.value <= now {
        return Refused(Unauthorized);
      }
      // connecting on the live credential proves a pending rotation was never taken up
      tx := tx.(devices := tx.devices[deviceID := WithoutPending(device)]);
      var until := device.slots.expiresAt.value;
      if accessExpiresAt.Some? && !(device.slots.expiresAt.value < accessExpiresAt.value) {
        until := accessExpiresAt.value;
      }
      if !account.Granted? {
        return Refused(Refusal(account));
      }
      if !session.Granted? {
        return Refused(Refusal(session));
      }
      var row := NewTicket(config, device, Client, deviceID, Some(sessionID), until, now);
      store := tx.(tickets := tx.tickets[Sha256(ticket) := row], next := tx.next + 1);
      reply := TicketIssued(ticket, row.expiresAt);
    }

    method IssueConnectorTicket(credential: Secret, now: Time, account: Auth) returns (reply: Reply)
      requires Inv(config, store)
      modifies this
      ensures (store, reply) == CredentialSpec.IssueConnectorTicket(config, old(store), credential, now, account)
      ensures Inv(config, store)
    {
      hide Inv, Later, HoldersUnique, KeysUnique, CodesUnique, ByCredential;
      Uniques(config, store);
      ConnectorTicketKeeps(config, store, credential, now, account);
      if !ValidToken(credential, Orc) {
        return Refused(Unauthorized);
      }
      var ticket, tx := Issued(Ort, store.next), store;
      var found := ByCredentialForUpdate(tx.connectors, Sha256(credential));
      if found.None? || !Current(tx.connectors[found.value], now) {
        return Refused(Unauthorized);
      }
      var connector := tx.connectors[found.value];
      tx := tx.(connectors := tx.connectors[found.value := WithoutPending(connector)]);
      if !account.Granted? {
        return Refused(Refusal(account));
      }
      var row := NewTicket(config, connector, Connector, found.value, None, connector.slots.expiresAt.value, now);
      store := tx.(tickets := tx.tickets[Sha256(ticket) := row], next := tx.next + 1);
      reply := TicketIssued(ticket, row.expiresAt);
    }

    method ConsumeRelayTicket(ticket: Secret, now: Time, account: Auth, session: Auth) returns (reply: Reply)
      requires Inv(config, store)
      modifies this
      ensures (store, reply) == CredentialSpec.ConsumeRelayTicket(old(store), ticket, now, account, session) && Inv(config, store)
    {
      hide Inv, Later;
      ConsumeKeeps(config, store, ticket, now, account, session);
      var tx, h := store, Sha256(ticket);
      if !ValidToken(ticket, Ort) || h !in tx.tickets {
        return Refused(Unauthorized);
      }
      var record := tx.tickets[h];
      if record.consumedAt.Some? || record.expiresAt <= now || record.authorizationExpiresAt <= now {
        return Refused(Unauthorized);
      }
      if !account.Granted? {
        return Refused(Refusal(account));
      }
      if record.role.Client? && !session.Granted? {
        return Refused(Refusal(session));
      }
      var rows := if record.role.Client? then tx.devices else tx.connectors;
      if !SubjectStands(rows, record.role, record.subjectID, record.userID, record.subjectKeyID) {
        return Refused(Unauthorized);
      }
      var trusted := TrustedIdentities(tx, record.userID, record.role, record.subjectID);
      store := tx.(tickets := tx.tickets[h := record.(consumedAt := Some(now))]);
      var leaseExpiresAt := now + AUTHORIZATION_LEASE;
      if record.authorizationExpiresAt < leaseExpiresAt {
        leaseExpiresAt := record.authorizationExpiresAt;
      }
      var sessionID := if record.role.Client? then record.sessionID else None;
      reply := Reply.Admitted(Admission(record.userID, record.role, record.subjectID, sessionID, rows[record.subjectID].identity,
                                        trusted, leaseExpiresAt));
    }

    /** Reads only: the check the relay repeats for the life of a socket. It passes exactly when
        the subject's row is still that of the admission, stands, and every identity answer the role needs is a grant. */
    method ValidateAdmission(admission: Admission, now: Time, account: Auth, session: Auth) returns (reply: Reply)
      ensures reply.Valid? <==>
        var rows := CredentialSpec.RowsOf(store, admission.role); var id := admission.subjectID;
        && id in rows && rows[id].userID == admission.userID != "" && rows[id].identity == admission.identity
        && rows[id].revokedAt.None? && rows[id].slots.expiresAt.Some? && now < rows[id].slots.expiresAt.value
        && account.Granted?
        && (admission.role.Client? ==>
              rows[id].activatedAt.Some? && admission.sessionID.Some? && admission.sessionID.value != "" && session.Granted?)
      ensures reply.Valid? || (reply.Refused? && (account.Granted? && session.Granted? ==> reply == Refused(Unauthorized)))
      ensures reply == CredentialSpec.ValidateAdmission(store, admission, now, account, session)
    {
      if admission.userID == "" {
        return Refused(Unauthorized);
      }
      if admission.role.Client? && (admission.sessionID.None? || admission.sessionID.value == "") {
        return Refused(Unauthorized);
      }
      var rows := if admission.role.Client? then store.devices else store.connectors;
      if admission.subjectID !in rows {
        return Refused(Unauthorized);
      }
      var row := rows[admission.subjectID];
      if row.userID != admission.userID || row.identity != admission.identity || (admission.role.Client? && row.activatedAt.None?)
         || !Current(row, now) {
        return Refused(Unauthorized);
      }
      if !account.Granted? {
        return Refused(Refusal(account));
      }
      if admission.role.Client? && !session.Granted? {
        return Refused(Refusal(session));
      }
      reply := Valid;
    }
  }
}
