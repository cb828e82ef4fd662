/** What every run of the connector service says about a pairing. */
module PairingHistory {
  import opened ConnectorTypes
  import opened ConnectorStore
  import opened ConnectorWrites
  import opened PairingSpec
  import opened PairingProofs
  import opened ConnectorRuns
  import UserCodes

  // ---------------------------------------------------------------- how pairings come and go

  lemma NewPairingsAreBlank(c: Config, s: Store, e: Event, id: nat)
    requires Inv(c, s) && id !in s.pairings && id in Step(c, s, e).0.pairings
    ensures Step(c, s, e).0.pairings[id].deviceID.None? && Step(c, s, e).0.pairings[id].confirmedAt.None?
    ensures Step(c, s, e).0.pairings[id].connectorReviewedAt.None?
  {
    hide Inv, PairingStep, DeviceStep, ConnectorStep, TokenStep;
    if PairingCall(e.call) {
      PairingStepBlank(c, s, e, id);
    } else {
      OtherCallsKeepPairings(c, s, e);
    }
  }

  lemma PairingStepBlank(c: Config, s: Store, e: Event, id: nat)
    requires Inv(c, s) && PairingCall(e.call) && id !in s.pairings && id in PairingStep(c, s, e).0.pairings
    ensures var p := PairingStep(c, s, e).0.pairings[id]; p.deviceID.None? && p.confirmedAt.None? && p.connectorReviewedAt.None?
  {
    hide Inv, BeginPairing, ClaimPairing, ConfirmPairing, PollPairing, ApprovePairing, CancelPairing;
    match e.call
    case BeginPairingCall(identity, proven, challenge, code) => BeginBlank(c, s, identity, proven, challenge, code, e.now, id);
    case ClaimPairingCall(userID, userCode, identity, proven, challenge) =>
      ClaimCreatesNone(s, userID, userCode, identity, proven, challenge, e.now, e.account);
    case ConfirmPairingCall(userID, i, d) => ConfirmCreatesNone(c, s, userID, i, d, e.now, e.account);
    case PollPairingCall(secret) => PollOnlyExpires(c, s, secret, e.now);
    case ApprovePairingCall(i, secret, keyID) => ApproveCreatesNone(s, i, secret, keyID, e.now);
    case CancelPairingCall(i, secret) => CancelCreatesNone(s, i, secret);
  }

  lemma BeginBlank(c: Config, s: Store, identity: PublicIdentity, proven: bool, challenge: Secret, code: string, now: Time, id: nat)
    requires id !in s.pairings && id in BeginPairing(c, s, identity, proven, challenge, code, now).0.pairings
    ensures var p := BeginPairing(c, s, identity, proven, challenge, code, now).0.pairings[id];
      p.deviceID.None? && p.confirmedAt.None? && p.connectorReviewedAt.None?
  {
    hide Collides, ValidKeyID;
  }

  lemma ClaimCreatesNone(s: Store, userID: UserId, userCode: string, identity: PublicIdentity, proven: bool, challenge: Secret,
                         now: Time, account: Auth)
    ensures ClaimPairing(s, userID, userCode, identity, proven, challenge, now, account).0.pairings.Keys == s.pairings.Keys
  {
    hide ClaimWithCode, ValidKeyID;
    if Sha256(challenge) in s.challenges {
      CodeCreatesNone(s, UseChallenge(s, challenge, now), userID, identity, UserCodes.Normalize(UserCodes.Normalize(userCode)), now);
    }
  }

  lemma CodeCreatesNone(s: Store, used: Store, userID: UserId, identity: PublicIdentity, code: string, now: Time)
    requires used.pairings == s.pairings
    ensures ClaimWithCode(s, used, userID, identity, code, now).0.pairings.Keys == s.pairings.Keys
  {
    hide ClaimWithCode;
  }

  lemma ConfirmCreatesNone(c: Config, s: Store, userID: UserId, id: nat, d: nat, now: Time, account: Auth)
    ensures ConfirmPairing(c, s, userID, id, d, now, account).0.pairings.Keys == s.pairings.Keys
  {
    hide ConfirmAgain, ConnectorFor;
  }

  lemma ApproveCreatesNone(s: Store, id: nat, secret: Secret, keyID: string, now: Time)
    ensures ApprovePairing(s, id, secret, keyID, now).0.pairings.Keys == s.pairings.Keys
  {
    hide PairingBySecret;
  }

  lemma CancelCreatesNone(s: Store, id: nat, secret: Secret)
    ensures CancelPairing(s, id, secret).0.pairings.Keys == s.pairings.Keys
  {
    hide PairingBySecret;
  }

  // ---------------------------------------------------------------- pairings along a run

  ghost function PairingAt(c: Config, events: seq<Event>, i: nat, id: nat): Pairing
    requires i <= |events| && id in StateAt(c, events, i).pairings
  {
    StateAt(c, events, i).pairings[id]
  }

  lemma PairingForward(c: Config, events: seq<Event>, i: nat, j: nat, id: nat)
    requires i <= j <= |events| && id in StateAt(c, events, i).pairings
    ensures id in StateAt(c, events, j).pairings
    ensures PairingLater(PairingAt(c, events, i, id), PairingAt(c, events, j, id))
  {
    hide StateAt;
    StatesMoveForward(c, events, i, j);
  }

  lemma EdgeAt(c: Config, events: seq<Event>, i: nat, id: nat)
    requires i < |events| && id in StateAt(c, events, i).pairings
    ensures id in StateAt(c, events, i + 1).pairings
    ensures PairingEdge(c, StateAt(c, events, i), StateAt(c, events, i + 1), events[i], ReplyAt(c, events, i), id)
  {
    hide Inv, PairingEdge, Step;
    StateIsOk(c, events, i);
    StepEdge(c, StateAt(c, events, i), events[i], id);
  }

  lemma PairingOkAt(c: Config, events: seq<Event>, i: nat, id: nat)
    requires i <= |events| && id in StateAt(c, events, i).pairings
    ensures PairingOk(StateAt(c, events, i), id, PairingAt(c, events, i, id))
  {
    hide StateAt, PairingOk;
    StateIsOk(c, events, i);
  }

  /** The call that bound the pairing to its account and device. */
  lemma {:induction false} FindClaim(c: Config, events: seq<Event>, n: nat, id: nat) returns (i: nat)
    requires n <= |events| && id in StateAt(c, events, n).pairings && PairingAt(c, events, n, id).deviceID.Some?
    ensures i < n && id in StateAt(c, events, i).pairings && PairingAt(c, events, i, id).deviceID.None?
    ensures id in StateAt(c, events, i + 1).pairings && PairingAt(c, events, i + 1, id).deviceID == PairingAt(c, events, n, id).deviceID
    decreases n
  {
    hide Inv, Step, PairingOk;
    StateIsOk(c, events, n - 1);
    i := n - 1;
    if id !in StateAt(c, events, n - 1).pairings {
      NewPairingsAreBlank(c, StateAt(c, events, n - 1), events[n - 1], id);
      assert false;
    } else if PairingAt(c, events, n - 1, id).deviceID.Some? {
      i := FindClaim(c, events, n - 1, id);
      PairingForward(c, events, n - 1, n, id);
    }
  }

  lemma {:induction false} FindApproval(c: Config, events: seq<Event>, n: nat, id: nat) returns (i: nat)
    requires n <= |events| && id in StateAt(c, events, n).pairings && PairingAt(c, events, n, id).connectorReviewedAt.Some?
    ensures i < n && id in StateAt(c, events, i).pairings && PairingAt(c, events, i, id).connectorReviewedAt.None?
    ensures id in StateAt(c, events, i + 1).pairings && PairingAt(c, events, i + 1, id).connectorReviewedAt.Some?
    decreases n
  {
    hide Inv, Step, PairingOk;
    StateIsOk(c, events, n - 1);
    i := n - 1;
    if id !in StateAt(c, events, n - 1).pairings {
      NewPairingsAreBlank(c, StateAt(c, events, n - 1), events[n - 1], id);
      assert false;
    } else if PairingAt(c, events, n - 1, id).connectorReviewedAt.Some? {
      i := FindApproval(c, events, n - 1, id);
    }
  }

  lemma {:induction false} FindConfirmation(c: Config, events: seq<Event>, n: nat, id: nat) returns (i: nat)
    requires n <= |events| && id in StateAt(c, events, n).pairings && PairingAt(c, events, n, id).confirmedAt.Some?
    ensures i < n && id in StateAt(c, events, i).pairings && PairingAt(c, events, i, id).confirmedAt.None?
    ensures id in StateAt(c, events, i + 1).pairings && PairingAt(c, events, i + 1, id).confirmedAt.Some?
    decreases n
  {
    hide Inv, Step, PairingOk;
    StateIsOk(c, events, n - 1);
    i := n - 1;
    if id !in StateAt(c, events, n - 1).pairings {
      NewPairingsAreBlank(c, StateAt(c, events, n - 1), events[n - 1], id);
      assert false;
    } else if PairingAt(c, events, n - 1, id).confirmedAt.Some? {
      i := FindConfirmation(c, events, n - 1, id);
    }
  }

  // ---------------------------------------------------------------- theorems

  predicate WasClaimed(e: Event, reply: Reply, id: nat, p: Pairing, device: Subject) {
    && e.call.ClaimPairingCall? && p.userID == Some(e.call.userID) && e.call.identity.keyID == device.identity.keyID
    && e.now < p.expiresAt && p.deviceID.Some?
    && reply == Claimed(TranscriptOf(id, p, device), p.deviceID.value, p.expiresAt)
  }

  predicate WasApproved(e: Event, reply: Reply, id: nat, p: Pairing, device: Subject) {
    && e.call.ApprovePairingCall? && e.call.pairingID == id && Sha256(e.call.secret) == p.secretHash
    && e.call.deviceKeyID == device.identity.keyID && e.now < p.expiresAt && reply.Approved?
  }

  predicate WasConfirmed(c: Config, e: Event, reply: Reply, id: nat, p: Pairing) {
    && e.call.ConfirmPairingCall? && e.call.pairingID == id && p.userID == Some(e.call.userID) && p.deviceID == Some(e.call.deviceID)
    && e.now < p.expiresAt && p.confirmedAt == Some(e.now) && p.connectorID.Some? && p.deviceCredentialSeed.Some?
    && reply == PairingConfirmed(e.call.deviceID, p.connectorID.value, DeviceCredential(p.deviceCredentialSeed.value),
                                 e.now + c.deviceLifetime)
  }

  lemma DeviceForward(c: Config, events: seq<Event>, i: nat, j: nat, d: nat)
    requires i <= j <= |events| && d in StateAt(c, events, i).devices
    ensures d in StateAt(c, events, j).devices
    ensures StateAt(c, events, j).devices[d].identity == StateAt(c, events, i).devices[d].identity
    ensures StateAt(c, events, j).devices[d].userID == StateAt(c, events, i).devices[d].userID
  {
    hide StateAt;
    StatesMoveForward(c, events, i, j);
  }

  lemma BoundDevice(c: Config, events: seq<Event>, i: nat, n: nat, id: nat)
    requires i <= n <= |events| && id in StateAt(c, events, i).pairings && PairingAt(c, events, i, id).deviceID.Some?
    ensures PairingAt(c, events, i, id).deviceID.value in StateAt(c, events, i).devices
    ensures id in StateAt(c, events, n).pairings && PairingAt(c, events, n, id).deviceID == PairingAt(c, events, i, id).deviceID
    ensures PairingAt(c, events, n, id).userID == PairingAt(c, events, i, id).userID
    ensures PairingAt(c, events, n, id).deviceID.value in StateAt(c, events, n).devices
    ensures StateAt(c, events, n).devices[PairingAt(c, events, n, id).deviceID.value].identity
         == StateAt(c, events, i).devices[PairingAt(c, events, i, id).deviceID.value].identity
  {
    hide StateAt;
    PairingOkAt(c, events, i, id);
    PairingForward(c, events, i, n, id);
    DeviceForward(c, events, i, n, PairingAt(c, events, i, id).deviceID.value);
  }

  lemma ClaimExplained(c: Config, events: seq<Event>, n: nat, id: nat) returns (claim: nat)
    requires n <= |events| && id in StateAt(c, events, n).pairings && PairingAt(c, events, n, id).deviceID.Some?
    ensures var p := PairingAt(c, events, n, id);
      && claim < n && p.deviceID.value in StateAt(c, events, n).devices
      && WasClaimed(events[claim], ReplyAt(c, events, claim), id, p, StateAt(c, events, n).devices[p.deviceID.value])
    ensures forall i :: claim < i <= n ==>
      id in StateAt(c, events, i).pairings && PairingAt(c, events, i, id).deviceID == PairingAt(c, events, n, id).deviceID
    ensures id in StateAt(c, events, claim).pairings && PairingAt(c, events, claim, id).deviceID.None?
  {
    hide StateAt, ReplyAt, Step, TranscriptOf;
    claim := FindClaim(c, events, n, id);
    EdgeAt(c, events, claim, id);
    BoundDevice(c, events, claim + 1, n, id);
    PairingForward(c, events, claim + 1, n, id);
    var d := PairingAt(c, events, n, id).deviceID.value;
    SameTranscript(id, PairingAt(c, events, claim, id), PairingAt(c, events, n, id), StateAt(c, events, claim + 1).devices[d],
                   StateAt(c, events, n).devices[d]);
    forall i | claim < i <= n
      ensures id in StateAt(c, events, i).pairings && PairingAt(c, events, i, id).deviceID == PairingAt(c, events, n, id).deviceID
    {
      BoundDevice(c, events, claim + 1, i, id);
    }
  }

  lemma SameTranscript(id: nat, p: Pairing, q: Pairing, a: Subject, b: Subject)
    requires p.connectorIdentity == q.connectorIdentity && a.identity == b.identity
    ensures TranscriptOf(id, p, a) == TranscriptOf(id, q, b)
  {
  }

  lemma ApprovalExplained(c: Config, events: seq<Event>, n: nat, id: nat) returns (approve: nat)
    requires n <= |events| && id in StateAt(c, events, n).pairings && PairingAt(c, events, n, id).connectorReviewedAt.Some?
    ensures var p := PairingAt(c, events, n, id);
      && approve < n && p.deviceID.Some? && p.deviceID.value in StateAt(c, events, n).devices
      && WasApproved(events[approve], ReplyAt(c, events, approve), id, p, StateAt(c, events, n).devices[p.deviceID.value])
    ensures id in StateAt(c, events, approve).pairings && PairingAt(c, events, approve, id).deviceID.Some?
    ensures PairingAt(c, events, approve, id).connectorReviewedAt.None?
  {
    hide StateAt, ReplyAt, Step;
    approve := FindApproval(c, events, n, id);
    EdgeAt(c, events, approve, id);
    BoundDevice(c, events, approve, n, id);
    PairingForward(c, events, approve, n, id);
  }

  lemma ConfirmationExplained(c: Config, events: seq<Event>, n: nat, id: nat) returns (confirm: nat)
    requires n <= |events| && id in StateAt(c, events, n).pairings && PairingAt(c, events, n, id).confirmedAt.Some?
    ensures confirm < n && WasConfirmed(c, events[confirm], ReplyAt(c, events, confirm), id, PairingAt(c, events, n, id))
    ensures id in StateAt(c, events, confirm).pairings && PairingAt(c, events, confirm, id).connectorReviewedAt.Some?
    ensures PairingAt(c, events, confirm, id).confirmedAt.None?
  {
    hide StateAt, ReplyAt, Step;
    confirm := FindConfirmation(c, events, n, id);
    EdgeAt(c, events, confirm, id);
    PairingForward(c, events, confirm + 1, n, id);
    PairingForward(c, events, confirm, n, id);
  }

  /** Every pairing that ever completed got there by consent on both sides: its account claimed it
      with one device; then someone holding the pairing secret approved exactly that device's key;
      then that account confirmed it; all before it ran out, and the device it is bound to was the
      same ever since the claim. */
  lemma CompletedMeansConsent(c: Config, events: seq<Event>, n: nat, id: nat)
      returns (claim: nat, approve: nat, confirm: nat)
    requires n <= |events| && id in StateAt(c, events, n).pairings
    requires PairingAt(c, events, n, id).confirmedAt.Some? || PairingAt(c, events, n, id).state.Completed?
    ensures claim < approve < confirm < n
    ensures var p := PairingAt(c, events, n, id);
      && p.deviceID.Some? && p.deviceID.value in StateAt(c, events, n).devices
      && var device := StateAt(c, events, n).devices[p.deviceID.value];
      && WasClaimed(events[claim], ReplyAt(c, events, claim), id, p, device)
      && WasApproved(events[approve], ReplyAt(c, events, approve), id, p, device)
      && WasConfirmed(c, events[confirm], ReplyAt(c, events, confirm), id, p)
    ensures forall i :: claim < i <= n ==>
      id in StateAt(c, events, i).pairings && PairingAt(c, events, i, id).deviceID == PairingAt(c, events, n, id).deviceID
  {
    hide StateAt, ReplyAt, WasClaimed, WasApproved, WasConfirmed;
    PairingOkAt(c, events, n, id);
    confirm := ConfirmationExplained(c, events, n, id);
    approve := ApprovalExplained(c, events, n, id);
    claim := ClaimExplained(c, events, n, id);
    if confirm <= approve { PairingForward(c, events, confirm, approve, id); }
    if approve <= claim { PairingForward(c, events, approve, claim, id); }
  }

  /** The state of a pairing only moves up the order pending, verification, completed, expired;
      nothing is ever merely confirmed; expired is final; and a completed pairing expires only by a
      call made once its time had run out. */
  lemma {:induction false} StatesMoveUp(c: Config, events: seq<Event>, i: nat, j: nat, id: nat)
    requires i <= j <= |events| && id in StateAt(c, events, i).pairings
    ensures id in StateAt(c, events, j).pairings
    ensures var p, q := PairingAt(c, events, i, id), PairingAt(c, events, j, id);
      && Rank(p.state) <= Rank(q.state) && !q.state.Confirmed? && (p.state.Expired? ==> q.state.Expired?)
      && (p.state.Completed? && q.state.Expired? ==> exists k :: i <= k < j && p.expiresAt <= events[k].now)
    decreases j
  {
    hide StateAt, ReplyAt, Step, ClaimsPairing, ApprovesPairing, ConfirmsPairing, PairingOk;
    PairingForward(c, events, i, j, id);
    NotConfirmedAt(c, events, j, id);
    if i < j {
      StatesMoveUp(c, events, i, j - 1, id);
      CompletedExpires(c, events, j - 1, id);
      PairingForward(c, events, i, j - 1, id);
    }
  }

  lemma NotConfirmedAt(c: Config, events: seq<Event>, i: nat, id: nat)
    requires i <= |events| && id in StateAt(c, events, i).pairings
    ensures !PairingAt(c, events, i, id).state.Confirmed?
  {
    hide StateAt;
    PairingOkAt(c, events, i, id);
  }

  lemma CompletedExpires(c: Config, events: seq<Event>, k: nat, id: nat)
    requires k < |events| && id in StateAt(c, events, k).pairings && id in StateAt(c, events, k + 1).pairings
    ensures PairingAt(c, events, k, id).state.Completed? && PairingAt(c, events, k + 1, id).state.Expired? ==>
      PairingAt(c, events, k, id).expiresAt <= events[k].now
    ensures PairingAt(c, events, k, id).state.Completed? ==>
      PairingAt(c, events, k + 1, id).state.Completed? || PairingAt(c, events, k + 1, id).state.Expired?
  {
    hide StateAt, ReplyAt, Step;
    EdgeAt(c, events, k, id);
  }

  /** At no moment do two pairings that are still open concern the same connector key. */
  lemma OneOpenPairingPerKey(c: Config, events: seq<Event>, n: nat, i: nat, j: nat)
    requires n <= |events| && i in StateAt(c, events, n).pairings && j in StateAt(c, events, n).pairings && i != j
    requires PairingAt(c, events, n, i).connectorIdentity.keyID == PairingAt(c, events, n, j).connectorIdentity.keyID
    ensures !Active(PairingAt(c, events, n, i)) || !Active(PairingAt(c, events, n, j))
  {
    hide StateAt, RowsOk, PairingsOk, CodesUnique, TrustOk, TokensOk;
    StateIsOk(c, events, n);
  }
}
