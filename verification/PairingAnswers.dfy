/** When each pairing call of a run is answered and what it then writes, told by the rows before and
    after it: what a caller may count on, not only what it may not get. */
module PairingAnswers {
  import opened ConnectorTypes
  import opened ConnectorStore
  import opened ConnectorWrites
  import opened PairingSpec
  import opened PairingProofs
  import opened ConnectorRuns
  import opened PairingHistory
  import ClaimLimits
  import ClaimRuns
  import UserCodes

  // ---------------------------------------------------------------- the connector's calls

  /** The secret of a pairing is the one it was begun with. */
  lemma SecretNamesPairing(c: Config, s: Store, secret: Secret, id: nat)
    requires Inv(c, s)
    ensures PairingBySecret(s, Sha256(secret)) == Some(id) <==> id in s.pairings && secret == Issued(Orp, id)
  {
    hide RowsOk, CodesUnique, OneActivePerKey, TrustOk, TokensOk, SeedOk;
    if id in s.pairings { assert PairingOk(s, id, s.pairings[id]); }
    var found := PairingBySecret(s, Sha256(secret));
    if found.Some? { assert PairingOk(s, found.value, s.pairings[found.value]); }
    hide PairingBySecret;
  }

  lemma CancelDecides(c: Config, s: Store, pairingID: nat, secret: Secret)
    requires Inv(c, s)
    ensures var (t, reply) := CancelPairing(s, pairingID, secret);
      && (reply.Cancelled? <==> secret == Issued(Orp, pairingID) && pairingID in s.pairings && !s.pairings[pairingID].state.Completed?)
      && (reply.Cancelled? ==> t.pairings == s.pairings[pairingID := s.pairings[pairingID].(state := Expired)])
      && (!reply.Cancelled? ==> t == s)
  {
    hide Inv, PairingBySecret;
    forall id: nat ensures PairingBySecret(s, Sha256(secret)) == Some(id) <==> id in s.pairings && secret == Issued(Orp, id) {
      SecretNamesPairing(c, s, secret, id);
    }
    if pairingID in s.pairings {
      assert s.pairings[pairingID].state.Expired? ==>
        s.pairings == s.pairings[pairingID := s.pairings[pairingID].(state := Expired)];
    }
  }

  /** A pairing is cancelled for the holder of its secret, unless it has completed, and is then expired
      for good: no later call claims, approves or confirms it or hands anything out for it. */
  lemma CancelAnswersIff(c: Config, events: seq<Event>, i: nat)
    requires i < |events| && events[i].call.CancelPairingCall?
    ensures var s, t, call := StateAt(c, events, i), StateAt(c, events, i + 1), events[i].call;
      && (ReplyAt(c, events, i).Cancelled? <==>
           call.secret == Issued(Orp, call.pairingID) && call.pairingID in s.pairings && !s.pairings[call.pairingID].state.Completed?)
      && (ReplyAt(c, events, i).Cancelled? ==>
           t.pairings == s.pairings[call.pairingID := s.pairings[call.pairingID].(state := Expired)])
      && (!ReplyAt(c, events, i).Cancelled? ==> t == s)
  {
    hide Step, Inv, CancelPairing;
    StateIsOk(c, events, i);
    CancelCall(c, StateAt(c, events, i), events[i]);
    CancelDecides(c, StateAt(c, events, i), events[i].call.pairingID, events[i].call.secret);
  }

  lemma ApproveDecides(c: Config, s: Store, pairingID: nat, secret: Secret, deviceKeyID: string, now: Time)
    requires Inv(c, s)
    ensures var (t, reply) := ApprovePairing(s, pairingID, secret, deviceKeyID, now);
      && (reply.Approved? <==>
           && secret == Issued(Orp, pairingID) && pairingID in s.pairings && s.pairings[pairingID].state.Verification?
           && now < s.pairings[pairingID].expiresAt && s.pairings[pairingID].deviceID.Some?
           && s.pairings[pairingID].deviceID.value in s.devices
           && s.devices[s.pairings[pairingID].deviceID.value].identity.keyID == deviceKeyID)
      && (reply.Approved? ==>
           && pairingID in t.pairings
           && t.pairings[pairingID].connectorReviewedAt ==
                (if s.pairings[pairingID].connectorReviewedAt.Some? then s.pairings[pairingID].connectorReviewedAt else Some(now)))
  {
    hide Inv, PairingBySecret, ValidKeyID;
    forall id: nat ensures PairingBySecret(s, Sha256(secret)) == Some(id) <==> id in s.pairings && secret == Issued(Orp, id) {
      SecretNamesPairing(c, s, secret, id);
    }
    forall d | d in s.devices ensures |s.devices[d].identity.keyID| == 43 { KeyLength(c, s, d); }
  }

  lemma KeyLength(c: Config, s: Store, d: nat)
    requires Inv(c, s) && d in s.devices
    ensures |s.devices[d].identity.keyID| == 43
  {
    hide PairingsOk, CodesUnique, OneActivePerKey, TrustOk, TokensOk, KeysUnique, HoldersUnique, SlotsOk;
    assert ValidKeyID(s.devices[d].identity.keyID);
  }

  /** The connector's approval is taken exactly from the holder of the secret, for the key of the device
      that claimed, in time; the first one is kept. */
  lemma ApproveAnswersIff(c: Config, events: seq<Event>, i: nat)
    requires i < |events| && events[i].call.ApprovePairingCall?
    ensures var s, t, call, now := StateAt(c, events, i), StateAt(c, events, i + 1), events[i].call, events[i].now;
      && (ReplyAt(c, events, i).Approved? <==>
           && call.secret == Issued(Orp, call.pairingID) && call.pairingID in s.pairings
           && s.pairings[call.pairingID].state.Verification? && now < s.pairings[call.pairingID].expiresAt
           && s.pairings[call.pairingID].deviceID.Some? && s.pairings[call.pairingID].deviceID.value in s.devices
           && s.devices[s.pairings[call.pairingID].deviceID.value].identity.keyID == call.deviceKeyID)
      && (ReplyAt(c, events, i).Approved? ==>
           && call.pairingID in t.pairings
           && t.pairings[call.pairingID].connectorReviewedAt ==
                (if s.pairings[call.pairingID].connectorReviewedAt.Some? then s.pairings[call.pairingID].connectorReviewedAt else Some(now)))
  {
    hide Step, Inv, ApprovePairing;
    StateIsOk(c, events, i);
    ApproveCall(c, StateAt(c, events, i), events[i]);
    ApproveDecides(c, StateAt(c, events, i), events[i].call.pairingID, events[i].call.secret, events[i].call.deviceKeyID, events[i].now);
  }

  // ---------------------------------------------------------------- polling

  /** The connector still stands with the credential this pairing gave it. */
  predicate StillGiven(s: Store, id: nat) {
    && id in s.pairings && s.pairings[id].connectorID.Some? && s.pairings[id].connectorID.value in s.connectors
    && s.connectors[s.pairings[id].connectorID.value].revokedAt.None?
    && s.connectors[s.pairings[id].connectorID.value].slots.live == Some(Sha256(ConnectorCredential(Issued(Orp, id))))
    && s.connectors[s.pairings[id].connectorID.value].slots.expiresAt.Some?
  }

  function TranscriptFor(s: Store, id: nat): Option<Transcript>
    requires id in s.pairings
  {
    var p := s.pairings[id];
    if p.deviceID.Some? && p.deviceID.value in s.devices
    then Some(Transcript(id, p.connectorIdentity, s.devices[p.deviceID.value].identity)) else None
  }

  /** The answer to a poll for pairing `id` and the state it leaves it in. */
  predicate PollAnswer(s: Store, t: Store, reply: Reply, id: nat, now: Time)
    requires id in s.pairings
  {
    var p := s.pairings[id];
    if p.expiresAt <= now then
      if p.state.Completed? then reply == Refused(TooLate) && t == s
      else reply == Polled(Expired, id, p.expiresAt, None, None) && t.pairings == s.pairings[id := p.(state := Expired)]
    else
      && t == s
      && if !p.state.Completed? then reply == Polled(p.state, id, p.expiresAt, TranscriptFor(s, id), None)
         else if !StillGiven(s, id) then reply == Refused(Unauthorized)
         else
           var k := p.connectorID.value;
           reply == Polled(Completed, id, p.expiresAt, TranscriptFor(s, id),
                           Some(Grant(k, ConnectorCredential(Issued(Orp, id)), s.connectors[k].slots.expiresAt.value, s.connectors[k].createdAt)))
  }

  lemma PollDecides(c: Config, s: Store, secret: Secret, now: Time)
    requires Inv(c, s)
    ensures var (t, reply) := PollPairing(c, s, secret, now);
      if secret.Issued? && secret.prefix.Orp? && secret.draw in s.pairings then PollAnswer(s, t, reply, secret.draw, now)
      else reply == Refused(Unauthorized) && t == s
  {
    hide Inv, PairingBySecret;
    forall id: nat ensures PairingBySecret(s, Sha256(secret)) == Some(id) <==> id in s.pairings && secret == Issued(Orp, id) {
      SecretNamesPairing(c, s, secret, id);
    }
    if secret.Issued? && secret.prefix.Orp? && secret.draw in s.pairings { RowIsSound(c, s, secret.draw); }
  }

  lemma RowIsSound(c: Config, s: Store, id: nat)
    requires Inv(c, s) && id in s.pairings
    ensures var p := s.pairings[id];
      && !p.state.Confirmed? && (p.deviceID.Some? ==> p.deviceID.value in s.devices)
      && (p.state.Completed? ==> p.connectorID.Some? && p.connectorID.value in s.connectors && p.confirmedAt.Some?)
      && (p.state.Verification? ==> p.confirmedAt.None?) && p.connectorCredentialHash == Some(Sha256(ConnectorCredential(Issued(Orp, id))))
  {
    hide RowsOk, CodesUnique, OneActivePerKey, TrustOk, TokensOk, SeedOk;
    assert PairingOk(s, id, s.pairings[id]);
  }

  /** A poll, in any run, tells the holder of the secret exactly how the pairing stands, and hands out
      the connector's credential exactly from completion until the pairing's time is over, the connector
      is revoked or it has moved on to another credential. */
  lemma PollAnswersIff(c: Config, events: seq<Event>, i: nat)
    requires i < |events| && events[i].call.PollPairingCall?
    ensures var s, t, secret := StateAt(c, events, i), StateAt(c, events, i + 1), events[i].call.secret;
      if secret.Issued? && secret.prefix.Orp? && secret.draw in s.pairings
      then PollAnswer(s, t, ReplyAt(c, events, i), secret.draw, events[i].now)
      else ReplyAt(c, events, i) == Refused(Unauthorized) && t == s
  {
    hide Step, Inv, PollPairing, PollAnswer;
    StateIsOk(c, events, i);
    PollCall(c, StateAt(c, events, i), events[i]);
    PollDecides(c, StateAt(c, events, i), events[i].call.secret, events[i].now);
  }

  // ---------------------------------------------------------------- beginning

  /** Another pairing stands in the way: its code is this one, or it is open for this key and still in time. */
  ghost predicate InTheWay(s: Store, q: nat, keyID: string, code: string, now: Time) {
    && q in s.pairings
    && (s.pairings[q].userCodeHash == UserCodes.Normalize(code)
        || (s.pairings[q].connectorIdentity.keyID == keyID && !s.pairings[q].state.Completed? && !s.pairings[q].state.Expired?
            && now < s.pairings[q].expiresAt))
  }

  /** The row a new pairing starts with. */
  predicate Blank(p: Pairing, identity: PublicIdentity, code: string, now: Time, until: Time) {
    && p.connectorIdentity == identity && p.userCodeHash == UserCodes.Normalize(code) && p.state.Pending?
    && p.userID.None? && p.deviceID.None? && p.connectorID.None? && p.connectorReviewedAt.None? && p.confirmedAt.None?
    && p.createdAt == now && p.expiresAt == until
  }

  predicate OnlyOverdueExpire(s: Store, t: Store, q: nat, keyID: string, now: Time)
    requires q in s.pairings
  {
    && q in t.pairings
    && (t.pairings[q] == s.pairings[q]
        || (s.pairings[q].connectorIdentity.keyID == keyID && s.pairings[q].expiresAt <= now
            && t.pairings[q] == s.pairings[q].(state := Expired)))
  }

  lemma BeginDecides(c: Config, s: Store, identity: PublicIdentity, proven: bool, challenge: Secret, code: string, now: Time)
    requires Inv(c, s)
    ensures var (t, reply) := BeginPairing(c, s, identity, proven, challenge, code, now);
      && (reply.Begun? <==>
           && proven && ValidKeyID(identity.keyID) && ChallengeOpen(s, challenge, PURPOSE_CONNECTOR, None, now)
           && forall q :: !InTheWay(s, q, identity.keyID, code, now))
      && (!reply.Begun? ==> t == s)
      && (reply.Begun? ==>
           && reply == Begun(s.next, Issued(Orp, s.next), code, now + c.pairingLifetime)
           && s.next !in s.pairings && s.next in t.pairings && Blank(t.pairings[s.next], identity, code, now, now + c.pairingLifetime)
           && t.pairings[s.next].secretHash == Sha256(reply.secret)
           && forall q :: q in s.pairings ==> OnlyOverdueExpire(s, t, q, identity.keyID, now))
  {
    NewID(c, s);
    hide Inv, ValidKeyID, ChallengeOpen, Collides, UserCodes.Normalize;
    OpenIsKnown(s, challenge, PURPOSE_CONNECTOR, None, now);
    CollidesIff(s, identity, code, now, NewPairing(c, s.next, identity, code, now));
  }

  lemma OpenIsKnown(s: Store, challenge: Secret, purpose: string, owner: Option<UserId>, now: Time)
    ensures ChallengeOpen(s, challenge, purpose, owner, now) ==> Sha256(challenge) in s.challenges
  {
  }

  lemma CollidesIff(s: Store, identity: PublicIdentity, code: string, now: Time, p: Pairing)
    requires p.userCodeHash == UserCodes.Normalize(code) && p.connectorIdentity == identity
    ensures Collides(ExpirePairingsForKey(s.pairings, identity.keyID, now), p) <==>
      exists q :: InTheWay(s, q, identity.keyID, code, now)
  {
    hide UserCodes.Normalize;
    var swept := ExpirePairingsForKey(s.pairings, identity.keyID, now);
    if q: nat :| InTheWay(s, q, identity.keyID, code, now) { assert q in swept; }
    if Collides(swept, p) {
      var q :| q in swept && (swept[q].userCodeHash == p.userCodeHash
        || (Active(swept[q]) && swept[q].connectorIdentity.keyID == p.connectorIdentity.keyID));
      assert InTheWay(s, q, identity.keyID, code, now);
    }
  }

  /** A pairing is begun exactly with a proven key and an open challenge, when no pairing has its code
      and none of its key is open and in time. */
  lemma BeginAnswersIff(c: Config, events: seq<Event>, i: nat)
    requires i < |events| && events[i].call.BeginPairingCall?
    ensures var s, t, reply, call, now := StateAt(c, events, i), StateAt(c, events, i + 1), ReplyAt(c, events, i), events[i].call, events[i].now;
      && (reply.Begun? <==>
           && call.proven && ValidKeyID(call.identity.keyID) && ChallengeOpen(s, call.challenge, PURPOSE_CONNECTOR, None, now)
           && forall q :: !InTheWay(s, q, call.identity.keyID, call.code, now))
      && (!reply.Begun? ==> t == s)
      && (reply.Begun? ==>
           && reply.userCode == call.code && reply.expiresAt == now + c.pairingLifetime && reply.pairingID !in s.pairings
           && reply.pairingID in t.pairings && Blank(t.pairings[reply.pairingID], call.identity, call.code, now, now + c.pairingLifetime)
           && t.pairings[reply.pairingID].secretHash == Sha256(reply.secret))
  {
    hide Step, Inv, BeginPairing, InTheWay, Blank, ValidKeyID, ChallengeOpen;
    StateIsOk(c, events, i);
    BeginCall(c, StateAt(c, events, i), events[i]);
    BeginDecides(c, StateAt(c, events, i), events[i].call.identity, events[i].call.proven, events[i].call.challenge, events[i].call.code,
                 events[i].now);
  }

  // ---------------------------------------------------------------- claiming

  /** No row has this key, or the row that has it is this account's, unrevoked and of the same key. */
  ghost predicate MayStand(rows: Subjects, userID: UserId, identity: PublicIdentity) {
    forall d :: d in rows && rows[d].identity.keyID == identity.keyID ==>
      rows[d].userID == userID && rows[d].revokedAt.None? && rows[d].identity.publicKey == identity.publicKey
  }

  ghost predicate Claimable(s: Store, id: nat, code: string, now: Time) {
    id in s.pairings && s.pairings[id].userCodeHash == code && s.pairings[id].state.Pending? && now < s.pairings[id].expiresAt
  }

  /** What a claim that went through leaves: the pairing bound to the account's device with this key. */
  predicate Bound(s: Store, t: Store, reply: Reply, id: nat, userID: UserId, identity: PublicIdentity) {
    && reply.Claimed? && id in s.pairings && reply.deviceID in t.devices
    && t.devices[reply.deviceID].userID == userID && t.devices[reply.deviceID].identity.keyID == identity.keyID
    && t.devices[reply.deviceID].revokedAt.None?
    && (reply.deviceID !in s.devices ==> t.devices[reply.deviceID].identity == identity)
    && (forall d :: d in s.devices ==> d in t.devices && t.devices[d] == s.devices[d])
    && t.pairings == s.pairings[id := s.pairings[id].(state := Verification, userID := Some(userID), deviceID := Some(reply.deviceID))]
    && reply == Claimed(Transcript(id, s.pairings[id].connectorIdentity, t.devices[reply.deviceID].identity), reply.deviceID,
                        s.pairings[id].expiresAt)
  }

  lemma CodeDecides(c: Config, s: Store, used: Store, userID: UserId, identity: PublicIdentity, code: string, now: Time, id: nat)
    requires CodesUnique(s.pairings) && KeysUnique(s.devices) && s.next !in s.devices && used == s.(challenges := used.challenges)
    requires id in s.pairings && s.pairings[id].userCodeHash == code
    ensures var (t, reply) := ClaimWithCode(s, used, userID, identity, code, now);
      && reply != Refused(InvalidCode)
      && (reply.Claimed? <==> Claimable(s, id, code, now) && MayStand(s.devices, userID, identity))
      && (reply.Claimed? ==> Bound(s, t, reply, id, userID, identity))
      && (reply == Refused(TooLate) <==> s.pairings[id].expiresAt <= now)
  {
    CodeNames(used, code, id);
    StandsIff(used, userID, identity, now);
    hide PairingByCode, DeviceFor, MayStand, CodesUnique, KeysUnique;
  }

  lemma CodeNames(s: Store, code: string, id: nat)
    requires CodesUnique(s.pairings) && id in s.pairings && s.pairings[id].userCodeHash == code
    ensures PairingByCode(s, code) == Some(id)
  {
  }

  lemma StandsIff(s: Store, userID: UserId, identity: PublicIdentity, now: Time)
    requires KeysUnique(s.devices) && s.next !in s.devices
    ensures DeviceFor(s, userID, identity, now).Some? <==> MayStand(s.devices, userID, identity)
    ensures DeviceFor(s, userID, identity, now).Some? ==>
      var (t, d) := DeviceFor(s, userID, identity, now).value;
      && t.devices[d].userID == userID && t.devices[d].identity.keyID == identity.keyID && t.devices[d].revokedAt.None?
      && (d !in s.devices ==> t.devices[d].identity == identity)
      && (forall x :: x in s.devices ==> x in t.devices && t.devices[x] == s.devices[x])
  {
  }

  lemma NoSuchCode(s: Store, used: Store, userID: UserId, identity: PublicIdentity, code: string, now: Time)
    requires used.pairings == s.pairings && forall id :: id in s.pairings ==> s.pairings[id].userCodeHash != code
    ensures ClaimWithCode(s, used, userID, identity, code, now).1 == Refused(InvalidCode)
  {
    assert PairingByCode(used, code).None?;
    hide PairingByCode, DeviceFor;
  }

  /** The claim passes every check before its code is looked up. */
  ghost predicate PassesChecks(s: Store, e: Event) {
    ClaimRuns.ReachesCaps(s, e) && ClaimLimits.CheckClaimFailures(s.failures, e.call.userID, e.now).Admitted?
  }

  lemma ClaimPasses(s: Store, e: Event)
    requires e.call.ClaimPairingCall?
    ensures var code := UserCodes.Normalize(UserCodes.Normalize(e.call.userCode));
      var (t, reply) := ClaimPairing(s, e.call.userID, e.call.userCode, e.call.identity, e.call.proven, e.call.challenge, e.now, e.account);
      if PassesChecks(s, e) then
        && Sha256(e.call.challenge) in s.challenges
        && (t, reply) == ClaimWithCode(s, UseChallenge(s, e.call.challenge, e.now), e.call.userID, e.call.identity, code, e.now)
      else t == s && reply.Refused? && reply != Refused(InvalidCode)
  {
    hide ClaimWithCode, ValidKeyID, ClaimLimits.CheckClaimFailures, UserCodes.Normalize;
  }

  lemma ClaimInv(c: Config, s: Store)
    requires Inv(c, s)
    ensures CodesUnique(s.pairings) && KeysUnique(s.devices) && s.next !in s.devices
  {
    hide PairingsOk, OneActivePerKey, TrustOk, TokensOk, HoldersUnique, SlotsOk, ValidKeyID;
  }

  /** A claim that passes its checks binds the pending pairing its code names, in time, unless its key is
      someone else's or revoked; and is answered as a wrong code exactly when no pairing has that code. */
  lemma ClaimAnswersIff(c: Config, events: seq<Event>, i: nat)
    requires i < |events| && events[i].call.ClaimPairingCall?
    ensures var s, t, reply, call, now := StateAt(c, events, i), StateAt(c, events, i + 1), ReplyAt(c, events, i), events[i].call, events[i].now;
      var code := UserCodes.Normalize(UserCodes.Normalize(call.userCode));
      && (reply.Claimed? <==>
           PassesChecks(s, events[i]) && MayStand(s.devices, call.userID, call.identity) && exists id :: Claimable(s, id, code, now))
      && (forall id :: reply.Claimed? && Claimable(s, id, code, now) ==> Bound(s, t, reply, id, call.userID, call.identity))
      && (reply == Refused(InvalidCode) <==>
           PassesChecks(s, events[i]) && forall id :: id in s.pairings ==> s.pairings[id].userCodeHash != code)
  {
    var s, e := StateAt(c, events, i), events[i];
    StateIsOk(c, events, i);
    hide StateAt, Step, Inv, ClaimPairing, ClaimWithCode, PassesChecks, MayStand, Bound, CodesUnique, KeysUnique, UserCodes.Normalize;
    ClaimInv(c, s);
    ClaimCall(c, s, e);
    ClaimPasses(s, e);
    var code := UserCodes.Normalize(UserCodes.Normalize(e.call.userCode));
    if PassesChecks(s, e) {
      var used := UseChallenge(s, e.call.challenge, e.now);
      if id: nat :| id in s.pairings && s.pairings[id].userCodeHash == code {
        CodeDecides(c, s, used, e.call.userID, e.call.identity, code, e.now, id);
        forall q | q in s.pairings && s.pairings[q].userCodeHash == code ensures q == id { SameCode(s, id, q); }
      } else {
        NoSuchCode(s, used, e.call.userID, e.call.identity, code, e.now);
      }
    }
  }

  lemma SameCode(s: Store, i: nat, j: nat)
    requires CodesUnique(s.pairings) && i in s.pairings && j in s.pairings && s.pairings[i].userCodeHash == s.pairings[j].userCodeHash
    ensures i == j
  {
  }

  // ---------------------------------------------------------------- confirming

  /** Everything is in place for a first confirmation. */
  ghost predicate Confirmable(s: Store, userID: UserId, id: nat, d: nat, now: Time) {
    Agreed(s, userID, id, d, now) && MayStand(s.connectors, userID, s.pairings[id].connectorIdentity)
  }

  predicate Agreed(s: Store, userID: UserId, id: nat, d: nat, now: Time) {
    && userID != "" && id in s.pairings && now < s.pairings[id].expiresAt && s.pairings[id].state.Verification?
    && s.pairings[id].userID == Some(userID) && s.pairings[id].deviceID == Some(d) && s.pairings[id].connectorReviewedAt.Some?
    && d in s.devices && s.devices[d].revokedAt.None?
  }

  /** What a first confirmation leaves: both rows live with the credentials of this pairing, each for its
      lifetime, in this account, trusting each other. */
  predicate Joined(c: Config, s: Store, t: Store, reply: Reply, userID: UserId, id: nat, d: nat, now: Time) {
    && reply.PairingConfirmed? && id in s.pairings && id in t.pairings && reply.deviceID == d
    && reply.credential.DeviceCredential? && reply.expiresAt == now + c.deviceLifetime
    && t.pairings[id].state.Completed? && t.pairings[id].confirmedAt == Some(now) && t.pairings[id].connectorID == Some(reply.connectorID)
    && d in t.devices && t.devices[d].slots.live == Some(Sha256(reply.credential))
    && t.devices[d].slots.expiresAt == Some(now + c.deviceLifetime) && t.devices[d].activatedAt.Some? && t.devices[d].revokedAt.None?
    && reply.connectorID in t.connectors && t.connectors[reply.connectorID].userID == userID
    && t.connectors[reply.connectorID].identity.keyID == s.pairings[id].connectorIdentity.keyID
    && t.connectors[reply.connectorID].slots.live == Some(Sha256(ConnectorCredential(Issued(Orp, id))))
    && t.connectors[reply.connectorID].slots.expiresAt == Some(now + c.connectorLifetime) && t.connectors[reply.connectorID].revokedAt.None?
    && TrustKey(userID, d, reply.connectorID) in t.trust && t.trust[TrustKey(userID, d, reply.connectorID)] == Trust(now, None)
  }

  lemma ConnectorStandsIff(s: Store, userID: UserId, identity: PublicIdentity, now: Time)
    requires KeysUnique(s.connectors) && s.next !in s.connectors
    ensures ConnectorFor(s, userID, identity, now).Some? <==> MayStand(s.connectors, userID, identity)
    ensures ConnectorFor(s, userID, identity, now).Some? ==>
      var (t, k) := ConnectorFor(s, userID, identity, now).value;
      t.connectors[k].userID == userID && t.connectors[k].identity.keyID == identity.keyID && t.connectors[k].revokedAt.None?
  {
  }

  lemma ConnectorInv(c: Config, s: Store)
    requires Inv(c, s)
    ensures KeysUnique(s.connectors) && s.next !in s.connectors
  {
    hide PairingsOk, OneActivePerKey, TrustOk, TokensOk, HoldersUnique, SlotsOk, ValidKeyID;
  }

  lemma CompleteJoins(c: Config, s: Store, m: Store, id: nat, userID: UserId, d: nat, k: nat, now: Time)
    requires id in s.pairings && m == s.(connectors := m.connectors, next := m.next) && d in s.devices && k in m.connectors
    requires s.devices[d].revokedAt.None? && m.connectors[k].userID == userID && m.connectors[k].revokedAt.None?
    requires m.connectors[k].identity.keyID == s.pairings[id].connectorIdentity.keyID
    requires s.pairings[id].connectorCredentialHash == Some(Sha256(ConnectorCredential(Issued(Orp, id))))
    ensures Joined(c, s, Complete(c, m, id, userID, d, k, now), PairingConfirmed(d, k, DeviceCredential(m.next), now + c.deviceLifetime),
                   userID, id, d, now)
  {
  }

  lemma DeviceOfPairing(c: Config, s: Store, id: nat)
    requires Inv(c, s) && id in s.pairings && s.pairings[id].deviceID.Some?
    ensures s.pairings[id].deviceID.value in s.devices && Some(s.devices[s.pairings[id].deviceID.value].userID) == s.pairings[id].userID
  {
    hide RowsOk, CodesUnique, OneActivePerKey, TrustOk, TokensOk, SeedOk;
    assert PairingOk(s, id, s.pairings[id]);
  }

  lemma ConfirmShape(c: Config, s: Store, userID: UserId, id: nat, d: nat, now: Time, account: Auth)
    requires id in s.pairings && s.pairings[id].connectorCredentialHash.Some?
    requires d in s.devices && s.pairings[id].deviceID == Some(d) ==> Some(s.devices[d].userID) == s.pairings[id].userID
    ensures var (t, reply) := ConfirmPairing(c, s, userID, id, d, now, account);
      var connector := ConnectorFor(s, userID, s.pairings[id].connectorIdentity, now);
      if account.Granted? && Agreed(s, userID, id, d, now) && connector.Some? then
        var (m, k) := connector.value;
        (t, reply) == (Complete(c, m, id, userID, d, k, now), PairingConfirmed(d, k, DeviceCredential(m.next), now + c.deviceLifetime))
      else t == s && (reply.PairingConfirmed? ==> s.pairings[id].state.Completed?)
  {
    hide ConfirmAgain, ConnectorFor, Complete;
  }

  lemma UnknownPairing(c: Config, s: Store, userID: UserId, id: nat, d: nat, now: Time, account: Auth)
    requires id !in s.pairings
    ensures var (t, reply) := ConfirmPairing(c, s, userID, id, d, now, account); t == s && reply.Refused?
  {
  }

  lemma ConfirmDecides(c: Config, s: Store, userID: UserId, id: nat, d: nat, now: Time, account: Auth)
    requires Inv(c, s)
    ensures var (t, reply) := ConfirmPairing(c, s, userID, id, d, now, account);
      && (account.Granted? && Confirmable(s, userID, id, d, now) ==> Joined(c, s, t, reply, userID, id, d, now))
      && (reply.PairingConfirmed? && id in s.pairings && s.pairings[id].confirmedAt.None? ==>
           account.Granted? && Confirmable(s, userID, id, d, now))
      && (!(account.Granted? && Confirmable(s, userID, id, d, now)) ==> t == s)
  {
    hide Inv, ConfirmPairing, ConfirmAgain, ConnectorFor, Complete, MayStand, KeysUnique, Joined;
    if id in s.pairings {
      RowIsSound(c, s, id);
      if s.pairings[id].deviceID.Some? { DeviceOfPairing(c, s, id); }
      ConnectorInv(c, s);
      ConnectorStandsIff(s, userID, s.pairings[id].connectorIdentity, now);
      ConfirmShape(c, s, userID, id, d, now, account);
      if account.Granted? && Confirmable(s, userID, id, d, now) {
        var (m, k) := ConnectorFor(s, userID, s.pairings[id].connectorIdentity, now).value;
        CompleteJoins(c, s, m, id, userID, d, k, now);
      }
    } else {
      UnknownPairing(c, s, userID, id, d, now, account);
    }
  }

  /** A first confirmation goes through exactly when the account that claimed confirms in time what the
      connector approved, with neither row revoked or someone else's; it then joins the two. Nothing
      else a confirmation says changes anything. */
  lemma ConfirmAnswersIff(c: Config, events: seq<Event>, i: nat)
    requires i < |events| && events[i].call.ConfirmPairingCall?
    ensures var s, t, reply, call, now := StateAt(c, events, i), StateAt(c, events, i + 1), ReplyAt(c, events, i), events[i].call, events[i].now;
      var ready := events[i].account.Granted? && Confirmable(s, call.userID, call.pairingID, call.deviceID, now);
      && (reply.PairingConfirmed? && call.pairingID in s.pairings && s.pairings[call.pairingID].confirmedAt.None? ==> ready)
      && (ready ==> Joined(c, s, t, reply, call.userID, call.pairingID, call.deviceID, now))
      && (!ready ==> t == s)
  {
    hide Step, Inv, ConfirmPairing, Confirmable, Joined;
    StateIsOk(c, events, i);
    ConfirmCall(c, StateAt(c, events, i), events[i]);
    ConfirmDecides(c, StateAt(c, events, i), events[i].call.userID, events[i].call.pairingID, events[i].call.deviceID, events[i].now,
                   events[i].account);
  }

  /** Both rows still hold what this pairing gave them. */
  predicate BothHold(s: Store, id: nat, d: nat)
    requires id in s.pairings
  {
    && d in s.devices && s.devices[d].revokedAt.None? && s.pairings[id].deviceCredentialSeed.Some?
    && s.devices[d].slots.live == Some(Sha256(DeviceCredential(s.pairings[id].deviceCredentialSeed.value)))
    && StillGiven(s, id)
  }

  lemma CompletedRow(c: Config, s: Store, id: nat, d: nat)
    requires Inv(c, s) && id in s.pairings && s.pairings[id].state.Completed?
    ensures var p := s.pairings[id];
      && p.connectorID.Some? && p.deviceCredentialSeed.Some? && p.connectorID.value in s.connectors
      && Some(s.connectors[p.connectorID.value].userID) == p.userID
      && p.connectorCredentialHash == Some(Sha256(ConnectorCredential(Issued(Orp, id))))
      && (p.deviceID == Some(d) ==> d in s.devices && Some(s.devices[d].userID) == p.userID)
    ensures d in s.devices ==> (s.devices[d].slots.live.Some? <==> s.devices[d].slots.expiresAt.Some?)
    ensures var k := s.pairings[id].connectorID.value; s.connectors[k].slots.live.Some? <==> s.connectors[k].slots.expiresAt.Some?
  {
    hide CodesUnique, OneActivePerKey, TrustOk, TokensOk, SeedOk, KeysUnique, HoldersUnique, ValidKeyID, Born;
    assert PairingOk(s, id, s.pairings[id]);
  }

  lemma RepeatDecides(c: Config, s: Store, userID: UserId, id: nat, d: nat, now: Time, account: Auth)
    requires Inv(c, s) && id in s.pairings && s.pairings[id].state.Completed?
    ensures var (t, reply) := ConfirmPairing(c, s, userID, id, d, now, account);
      && t == s
      && (reply.PairingConfirmed? <==>
           && userID != "" && account.Granted? && now < s.pairings[id].expiresAt
           && s.pairings[id].userID == Some(userID) && s.pairings[id].deviceID == Some(d) && BothHold(s, id, d))
  {
    hide Inv, ConnectorFor, Complete;
    CompletedRow(c, s, id, d);
  }

  /** A repeated confirmation of a completed pairing is answered exactly while its time lasts and both
      rows still stand with what it gave them. */
  lemma RepeatAnswersIff(c: Config, events: seq<Event>, i: nat)
    requires i < |events| && events[i].call.ConfirmPairingCall? && events[i].call.pairingID in StateAt(c, events, i).pairings
    requires StateAt(c, events, i).pairings[events[i].call.pairingID].state.Completed?
    ensures var s, call := StateAt(c, events, i), events[i].call; var p := s.pairings[call.pairingID];
      && StateAt(c, events, i + 1) == s
      && (ReplyAt(c, events, i).PairingConfirmed? <==>
           && call.userID != "" && events[i].account.Granted? && events[i].now < p.expiresAt
           && p.userID == Some(call.userID) && p.deviceID == Some(call.deviceID) && BothHold(s, call.pairingID, call.deviceID))
  {
    hide Step, Inv, ConfirmPairing, BothHold;
    StateIsOk(c, events, i);
    ConfirmCall(c, StateAt(c, events, i), events[i]);
    RepeatDecides(c, StateAt(c, events, i), events[i].call.userID, events[i].call.pairingID, events[i].call.deviceID, events[i].now,
                  events[i].account);
  }
}
