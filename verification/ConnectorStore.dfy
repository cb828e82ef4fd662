/** The connector tables and what every operation keeps true of them
    (internal/connectors/types.go, internal/connectors/postgres/store.go, models.go). */
module ConnectorStore {
  import opened ConnectorTypes
  import ClaimLimits

  // ---------------------------------------------------------------- secrets

  datatype Prefix = Bare | Orp | Orc | Ord | Ort

  /** Random values are numbered in the order they are drawn, so two draws never meet; the two
      HMAC derivations and SHA-256 are taken as injective. */
  datatype Secret =
    | Issued(prefix: Prefix, draw: nat)
    | ConnectorCredential(pairingSecret: Secret)     // "orc_" derived from a pairing secret
    | DeviceCredential(seed: nat)                    // "ord_" derived from a pairing's seed
    | Other(looksLike: Option<Prefix>, text: string) // whatever else a caller may present

  datatype Digest = Sha256(of: Secret)

  function PrefixOf(secret: Secret): Option<Prefix> {
    match secret
    case Issued(prefix, _) => Some(prefix)
    case ConnectorCredential(_) => Some(Orc)
    case DeviceCredential(_) => Some(Ord)
    case Other(looksLike, _) => looksLike
  }

  predicate ValidToken(secret: Secret, prefix: Prefix) { PrefixOf(secret) == Some(prefix) }

  // ---------------------------------------------------------------- rows

  const PURPOSE_CONNECTOR := "connector"
  const PURPOSE_DEVICE := "device"

  datatype Challenge = Challenge(purpose: string, userID: Option<UserId>, createdAt: Time, expiresAt: Time, usedAt: Option<Time>)

  datatype PairingState = Pending | Verification | Confirmed | Completed | Expired

  datatype Pairing = Pairing(
    secretHash: Digest,
    userCodeHash: string,           // the keyed hash of a normalized code, taken as injective
    connectorIdentity: PublicIdentity,
    connectorCredentialHash: Option<Digest>,
    deviceCredentialSeed: Option<nat>,
    state: PairingState,
    userID: Option<UserId>,
    deviceID: Option<nat>,
    connectorID: Option<nat>,
    createdAt: Time,
    expiresAt: Time,
    connectorReviewedAt: Option<Time>,
    confirmedAt: Option<Time>,
    completedAt: Option<Time>
  )

  /** The live credential of a row and a rotation waiting beside it. */
  datatype Slots = Slots(live: Option<Digest>, expiresAt: Option<Time>, pending: Option<Digest>, pendingUntil: Option<Time>)

  const NO_CREDENTIAL := Slots(None, None, None, None)

  /** A device or a connector; only devices are ever activated. */
  datatype Subject = Subject(
    userID: UserId,
    identity: PublicIdentity,
    slots: Slots,
    createdAt: Time,
    activatedAt: Option<Time>,
    revokedAt: Option<Time>
  )

  type Subjects = map<nat, Subject>

  datatype TrustKey = TrustKey(userID: UserId, deviceID: nat, connectorID: nat)

  datatype Trust = Trust(createdAt: Time, revokedAt: Option<Time>)

  datatype Ticket = Ticket(
    userID: UserId,
    role: Role,
    subjectID: nat,
    subjectKeyID: string,
    sessionID: Option<SessionId>,
    authorizationExpiresAt: Time,
    createdAt: Time,
    expiresAt: Time,
    consumedAt: Option<Time>
  )

  datatype Store = Store(
    challenges: map<Digest, Challenge>,
    pairings: map<nat, Pairing>,
    devices: Subjects,
    connectors: Subjects,
    trust: map<TrustKey, Trust>,
    failures: ClaimLimits.Rows,
    tickets: map<Digest, Ticket>,
    next: nat                     // the next random draw, row ID or seed
  )

  const EMPTY_STORE := Store(map[], map[], map[], map[], map[], map[], map[], 0)

  type Lifetime = d: int | 0 < d witness 1

  datatype Config = Config(
    challengeLifetime: Lifetime,
    pairingLifetime: Lifetime,
    deviceLifetime: Lifetime,
    connectorLifetime: Lifetime,
    activationWindow: Lifetime,
    ticketLifetime: Lifetime
  )

  predicate Active(p: Pairing) { !p.state.Completed? && !p.state.Expired? }

  /** The credential is there, unrevoked and not run out. */
  predicate Current(row: Subject, now: Time) {
    row.revokedAt.None? && row.slots.expiresAt.Some? && now < row.slots.expiresAt.value
  }

  // ---------------------------------------------------------------- lookups by a unique column

  ghost function PairingBySecret(s: Store, h: Digest): (r: Option<nat>)
    ensures r.Some? ==> r.value in s.pairings && s.pairings[r.value].secretHash == h
    ensures r.None? ==> forall i :: i in s.pairings ==> s.pairings[i].secretHash != h
  {
    if exists i :: i in s.pairings && s.pairings[i].secretHash == h then
      var i :| i in s.pairings && s.pairings[i].secretHash == h; Some(i)
    else None
  }

  ghost function PairingByCode(s: Store, code: string): (r: Option<nat>)
    ensures r.Some? ==> r.value in s.pairings && s.pairings[r.value].userCodeHash == code
    ensures r.None? ==> forall i :: i in s.pairings ==> s.pairings[i].userCodeHash != code
  {
    if exists i :: i in s.pairings && s.pairings[i].userCodeHash == code then
      var i :| i in s.pairings && s.pairings[i].userCodeHash == code; Some(i)
    else None
  }

  ghost function ByKeyID(rows: Subjects, keyID: string): (r: Option<nat>)
    ensures r.Some? ==> r.value in rows && rows[r.value].identity.keyID == keyID
    ensures r.None? ==> forall i :: i in rows ==> rows[i].identity.keyID != keyID
  {
    if exists i :: i in rows && rows[i].identity.keyID == keyID then
      var i :| i in rows && rows[i].identity.keyID == keyID; Some(i)
    else None
  }

  ghost function ByCredential(rows: Subjects, h: Digest): (r: Option<nat>)
    ensures r.Some? ==> r.value in rows && rows[r.value].slots.live == Some(h)
    ensures r.None? ==> forall i :: i in rows ==> rows[i].slots.live != Some(h)
  {
    if exists i :: i in rows && rows[i].slots.live == Some(h) then
      var i :| i in rows && rows[i].slots.live == Some(h); Some(i)
    else None
  }

  predicate Holds(row: Subject, h: Digest) { row.slots.live == Some(h) || row.slots.pending == Some(h) }

  ghost function ByAnyCredential(rows: Subjects, h: Digest): (r: Option<nat>)
    ensures r.Some? ==> r.value in rows && Holds(rows[r.value], h)
    ensures r.None? ==> NotHeld(rows, h)
  {
    if exists i :: i in rows && Holds(rows[i], h) then
      var i :| i in rows && Holds(rows[i], h); Some(i)
    else None
  }

  ghost predicate NotHeld(rows: Subjects, h: Digest) {
    forall i :: i in rows ==> !Holds(rows[i], h)
  }

  /** TrustedIdentities: unrevoked trust rows of the subject joined with the unrevoked rows of the
      other side in the same account. */
  function TrustedIdentities(s: Store, userID: UserId, role: Role, subjectID: nat): set<PublicIdentity> {
    if role.Client? then
      set k | k in s.trust && k.userID == userID && k.deviceID == subjectID && s.trust[k].revokedAt.None?
              && k.connectorID in s.connectors && s.connectors[k.connectorID].userID == userID
              && s.connectors[k.connectorID].revokedAt.None?
        :: s.connectors[k.connectorID].identity
    else
      set k | k in s.trust && k.userID == userID && k.connectorID == subjectID && s.trust[k].revokedAt.None?
              && k.deviceID in s.devices && s.devices[k.deviceID].userID == userID
              && s.devices[k.deviceID].revokedAt.None?
        :: s.devices[k.deviceID].identity
  }

  // ---------------------------------------------------------------- invariants

  /** The value behind a digest has been handed to someone as a credential. */
  predicate Born(s: Store, h: Digest) {
    match h.of
    case Issued(_, n) => n < s.next
    case DeviceCredential(n) => n < s.next
    case ConnectorCredential(secret) =>
      secret.Issued? && secret.prefix.Orp? && secret.draw in s.pairings && s.pairings[secret.draw].confirmedAt.Some?
    case Other(_, _) => false
  }

  predicate SlotsOk(s: Store, row: Subject, prefix: Prefix) {
    var x := row.slots;
    && (x.live.Some? <==> x.expiresAt.Some?) && (x.pending.Some? <==> x.pendingUntil.Some?)
    && (x.live.Some? ==> Born(s, x.live.value) && PrefixOf(x.live.value.of) == Some(prefix))
    && (x.pending.Some? ==>
         Born(s, x.pending.value) && x.pending.value.of.Issued? && x.pending.value.of.prefix == prefix
         && x.live.Some? && x.pending != x.live)
  }

  ghost predicate KeysUnique(rows: Subjects) {
    forall i, j :: i in rows && j in rows && i != j ==> rows[i].identity.keyID != rows[j].identity.keyID
  }

  ghost predicate HoldersUnique(rows: Subjects) {
    forall i, j, h :: i in rows && j in rows && Holds(rows[i], h) && Holds(rows[j], h) ==> i == j
  }

  ghost predicate RowsOk(s: Store, rows: Subjects, prefix: Prefix) {
    && KeysUnique(rows) && HoldersUnique(rows)
    && forall i :: i in rows ==>
         && i < s.next && ValidKeyID(rows[i].identity.keyID) && SlotsOk(s, rows[i], prefix)
         && (prefix.Ord? && rows[i].slots.live.Some? ==> rows[i].activatedAt.Some?)
  }

  predicate PairingOk(s: Store, id: nat, p: Pairing) {
    && id < s.next && p.secretHash == Sha256(Issued(Orp, id))
    && p.connectorCredentialHash == Some(Sha256(ConnectorCredential(Issued(Orp, id))))
    && ValidKeyID(p.connectorIdentity.keyID)
    && !p.state.Confirmed?
    && (p.userID.Some? <==> p.deviceID.Some?)
    && (p.deviceID.Some? ==> p.deviceID.value in s.devices && s.devices[p.deviceID.value].userID == p.userID.value)
    && (p.connectorReviewedAt.Some? ==> p.deviceID.Some?)
    && (p.confirmedAt.Some? <==> p.connectorID.Some?) && (p.confirmedAt.Some? <==> p.deviceCredentialSeed.Some?)
    && p.completedAt == p.confirmedAt
    && (p.confirmedAt.Some? ==>
         && p.connectorReviewedAt.Some? && p.deviceCredentialSeed.value < s.next
         && p.connectorID.value in s.connectors
         && s.connectors[p.connectorID.value].userID == p.userID.value
         && s.connectors[p.connectorID.value].identity == p.connectorIdentity)
    && (p.state.Pending? ==> p.deviceID.None?)
    && (p.state.Verification? ==> p.deviceID.Some? && p.confirmedAt.None?)
    && (p.state.Completed? ==> p.confirmedAt.Some?)
  }

  /** A credential derived from this pairing's seed is live only on its device, and runs for one
      lifetime from the confirmation. */
  ghost predicate SeedOk(c: Config, devices: Subjects, p: Pairing) {
    p.deviceCredentialSeed.Some? && p.confirmedAt.Some? ==>
      forall d :: d in devices && devices[d].slots.live == Some(Sha256(DeviceCredential(p.deviceCredentialSeed.value))) ==>
        p.deviceID == Some(d) && devices[d].slots.expiresAt == Some(p.confirmedAt.value + c.deviceLifetime)
  }

  ghost predicate PairingsOk(c: Config, s: Store) {
    forall id :: id in s.pairings ==> PairingOk(s, id, s.pairings[id]) && SeedOk(c, s.devices, s.pairings[id])
  }

  ghost predicate CodesUnique(pairings: map<nat, Pairing>) {
    forall i, j :: i in pairings && j in pairings && i != j ==> pairings[i].userCodeHash != pairings[j].userCodeHash
  }

  ghost predicate OneActivePerKey(pairings: map<nat, Pairing>) {
    forall i, j :: i in pairings && j in pairings && i != j && Active(pairings[i]) && Active(pairings[j]) ==>
      pairings[i].connectorIdentity.keyID != pairings[j].connectorIdentity.keyID
  }

  /** Trust joins two rows of its account, and none of it survives the device's revocation. */
  ghost predicate TrustOk(s: Store) {
    forall k :: k in s.trust ==>
      && k.deviceID in s.devices && k.connectorID in s.connectors
      && s.devices[k.deviceID].userID == k.userID && s.connectors[k.connectorID].userID == k.userID
      && (s.trust[k].revokedAt.None? ==> s.devices[k.deviceID].revokedAt.None?)
  }

  ghost predicate TokensOk(s: Store) {
    && (forall h :: h in s.tickets ==> h.of.Issued? && h.of.draw < s.next)
    && (forall h :: h in s.challenges ==> h.of.Issued? && h.of.draw < s.next)
  }

  ghost predicate Inv(c: Config, s: Store) {
    && RowsOk(s, s.devices, Ord) && RowsOk(s, s.connectors, Orc)
    && PairingsOk(c, s) && CodesUnique(s.pairings) && OneActivePerKey(s.pairings)
    && TrustOk(s) && TokensOk(s)
  }

  lemma EmptyIsOk(c: Config)
    ensures Inv(c, EMPTY_STORE)
  {
  }

  // ---------------------------------------------------------------- what later states keep

  function Rank(state: PairingState): nat {
    match state
    case Pending => 0
    case Verification => 1
    case Confirmed => 2
    case Completed => 3
    case Expired => 4
  }

  predicate PairingLater(p: Pairing, q: Pairing) {
    && q.secretHash == p.secretHash && q.userCodeHash == p.userCodeHash && q.connectorIdentity == p.connectorIdentity
    && q.connectorCredentialHash == p.connectorCredentialHash && q.createdAt == p.createdAt && q.expiresAt == p.expiresAt
    && Rank(p.state) <= Rank(q.state)
    && (p.deviceID.Some? ==> q.deviceID == p.deviceID && q.userID == p.userID)
    && (p.connectorReviewedAt.Some? ==> q.connectorReviewedAt == p.connectorReviewedAt)
    && (p.confirmedAt.Some? ==>
         q.confirmedAt == p.confirmedAt && q.connectorID == p.connectorID && q.deviceCredentialSeed == p.deviceCredentialSeed)
  }

  predicate RowLater(a: Subject, b: Subject) {
    && b.userID == a.userID && b.identity == a.identity && b.createdAt == a.createdAt
    && (a.activatedAt.Some? ==> b.activatedAt == a.activatedAt)
    && (a.revokedAt.Some? ==> b == a)
  }

  /** The value was a credential once and no row holds it any more. */
  ghost predicate Retired(s: Store, h: Digest) {
    Born(s, h) && NotHeld(s.devices, h) && NotHeld(s.connectors, h)
  }

  /** A live credential stays live or is retired; a pending one stays, becomes live or is retired. */
  ghost predicate SlotsLater(t: Store, a: Slots, b: Slots) {
    && (a.live.Some? ==> b.live == a.live || Retired(t, a.live.value))
    && (a.pending.Some? ==> b.pending == a.pending || b.live == a.pending || Retired(t, a.pending.value))
  }

  ghost predicate RowsLater(t: Store, rows: Subjects, later: Subjects) {
    forall i :: i in rows ==> i in later && RowLater(rows[i], later[i]) && SlotsLater(t, rows[i].slots, later[i].slots)
  }

  predicate TicketLater(a: Ticket, b: Ticket) {
    b == a.(consumedAt := b.consumedAt) && (a.consumedAt.Some? ==> b == a)
  }

  predicate ChallengeLater(a: Challenge, b: Challenge) {
    b == a.(usedAt := b.usedAt) && (a.usedAt.Some? ==> b == a)
  }

  ghost predicate PairingsLater(pairings: map<nat, Pairing>, later: map<nat, Pairing>) {
    forall id :: id in pairings ==> id in later && PairingLater(pairings[id], later[id])
  }

  ghost predicate TokensLater(s: Store, t: Store) {
    && (forall h :: h in s.tickets ==> h in t.tickets && TicketLater(s.tickets[h], t.tickets[h]))
    && (forall h :: h in s.challenges ==> h in t.challenges && ChallengeLater(s.challenges[h], t.challenges[h]))
  }

  ghost predicate RetiredLater(s: Store, t: Store) {
    forall h :: Retired(s, h) ==> Retired(t, h)
  }

  ghost predicate Later(s: Store, t: Store) {
    && s.next <= t.next && PairingsLater(s.pairings, t.pairings)
    && RowsLater(t, s.devices, t.devices) && RowsLater(t, s.connectors, t.connectors)
    && TokensLater(s, t) && RetiredLater(s, t)
  }

  lemma LaterRefl(s: Store)
    ensures Later(s, s)
  {
  }

  lemma RowsLaterTrans(s: Store, t: Store, u: Store, a: Subjects, b: Subjects, c: Subjects)
    requires RowsLater(t, a, b) && RowsLater(u, b, c) && RetiredLater(t, u)
    ensures RowsLater(u, a, c)
  {
    forall i | i in a ensures i in c && RowLater(a[i], c[i]) && SlotsLater(u, a[i].slots, c[i].slots) {
      assert RowLater(a[i], b[i]) && RowLater(b[i], c[i]);
      assert SlotsLater(t, a[i].slots, b[i].slots) && SlotsLater(u, b[i].slots, c[i].slots);
    }
  }

  lemma TokensLaterTrans(s: Store, t: Store, u: Store)
    requires TokensLater(s, t) && TokensLater(t, u)
    ensures TokensLater(s, u)
  {
    forall h | h in s.tickets ensures h in u.tickets && TicketLater(s.tickets[h], u.tickets[h]) {
      assert TicketLater(s.tickets[h], t.tickets[h]) && TicketLater(t.tickets[h], u.tickets[h]);
    }
    forall h | h in s.challenges ensures h in u.challenges && ChallengeLater(s.challenges[h], u.challenges[h]) {
      assert ChallengeLater(s.challenges[h], t.challenges[h]) && ChallengeLater(t.challenges[h], u.challenges[h]);
    }
  }

  lemma PairingsLaterTrans(a: map<nat, Pairing>, b: map<nat, Pairing>, c: map<nat, Pairing>)
    requires PairingsLater(a, b) && PairingsLater(b, c)
    ensures PairingsLater(a, c)
  {
    forall id | id in a ensures id in c && PairingLater(a[id], c[id]) {
      assert PairingLater(a[id], b[id]) && PairingLater(b[id], c[id]);
    }
  }

  lemma LaterTrans(s: Store, t: Store, u: Store)
    requires Later(s, t) && Later(t, u)
    ensures Later(s, u)
  {
    hide Retired, RowLater, PairingLater;
    RowsLaterTrans(s, t, u, s.devices, t.devices, u.devices);
    RowsLaterTrans(s, t, u, s.connectors, t.connectors, u.connectors);
    TokensLaterTrans(s, t, u);
    PairingsLaterTrans(s.pairings, t.pairings, u.pairings);
  }

  // ---------------------------------------------------------------- single writes

  /** Every credential the new row holds was held by the old one or is new. */
  predicate Moves(s: Store, a: Slots, b: Slots) {
    && (b.live.Some? ==> b.live == a.live || b.live == a.pending || !Born(s, b.live.value))
    && (b.pending.Some? ==> b.pending == a.pending || (!Born(s, b.pending.value) && b.pending != a.live))
  }

  ghost predicate BornLater(s: Store, t: Store) {
    forall h :: Born(s, h) ==> Born(t, h)
  }

  lemma BornStays(s: Store, t: Store)
    requires s.next <= t.next && PairingsLater(s.pairings, t.pairings)
    ensures BornLater(s, t)
  {
    forall h | Born(s, h) ensures Born(t, h) {
      if h.of.ConnectorCredential? {
        assert PairingLater(s.pairings[h.of.pairingSecret.draw], t.pairings[h.of.pairingSecret.draw]);
      }
    }
  }

  lemma HeldIsBorn(s: Store, rows: Subjects, prefix: Prefix, j: nat, h: Digest)
    requires RowsOk(s, rows, prefix) && j in rows && Holds(rows[j], h)
    ensures Born(s, h)
  {
  }

  lemma WriteKeepsHolders(s: Store, rows: Subjects, prefix: Prefix, i: nat, row: Subject)
    requires RowsOk(s, rows, prefix) && HoldersUnique(rows) && i in rows && Moves(s, rows[i].slots, row.slots)
    ensures HoldersUnique(rows[i := row])
  {
    hide RowsOk, Born;
    forall j, h | j in rows && j != i && Holds(rows[j], h) ensures !Holds(row, h) {
      HeldIsBorn(s, rows, prefix, j, h);
      assert !Holds(rows[i], h);
    }
  }

  lemma WriteKeepsRows(s: Store, t: Store, rows: Subjects, prefix: Prefix, i: nat, row: Subject)
    requires RowsOk(s, rows, prefix) && i in rows && s.next <= t.next && BornLater(s, t)
    requires RowLater(rows[i], row) && Moves(s, rows[i].slots, row.slots) && SlotsOk(t, row, prefix)
    requires prefix.Ord? && row.slots.live.Some? ==> row.activatedAt.Some?
    ensures RowsOk(t, rows[i := row], prefix)
  {
    WriteKeepsHolders(s, rows, prefix, i, row);
    forall j | j in rows && j != i ensures SlotsOk(t, rows[j], prefix) {
      assert SlotsOk(s, rows[j], prefix);
    }
  }

  lemma CreateKeepsRows(s: Store, t: Store, rows: Subjects, prefix: Prefix, row: Subject)
    requires RowsOk(s, rows, prefix) && s.next < t.next && BornLater(s, t)
    requires ByKeyID(rows, row.identity.keyID).None? && ValidKeyID(row.identity.keyID) && row.slots == NO_CREDENTIAL
    ensures RowsOk(t, rows[s.next := row], prefix)
  {
    forall j | j in rows ensures SlotsOk(t, rows[j], prefix) {
      assert SlotsOk(s, rows[j], prefix);
    }
  }

  lemma OtherRowsStay(s: Store, t: Store, rows: Subjects, prefix: Prefix)
    requires RowsOk(s, rows, prefix) && s.next <= t.next && BornLater(s, t)
    ensures RowsOk(t, rows, prefix)
  {
    forall j | j in rows ensures SlotsOk(t, rows[j], prefix) {
      assert SlotsOk(s, rows[j], prefix);
    }
  }

  /** Retirement is for good: a row only ever takes up new credentials or keeps its own. */
  lemma WriteKeepsRetired(s: Store, rows: Subjects, i: nat, row: Subject, h: Digest)
    requires i in rows && Moves(s, rows[i].slots, row.slots) && Born(s, h) && NotHeld(rows, h)
    ensures NotHeld(rows[i := row], h)
  {
    assert !Holds(rows[i], h);
  }

  /** A credential this row gives up is retired, for no other row can hold it. */
  lemma GivenUp(s: Store, rows: Subjects, prefix: Prefix, i: nat, row: Subject, h: Digest)
    requires RowsOk(s, rows, prefix) && i in rows && Holds(rows[i], h) && !Holds(row, h)
    ensures NotHeld(rows[i := row], h) && Born(s, h) && PrefixOf(h.of) == Some(prefix)
  {
  }

  lemma PendingIsApart(s: Store, rows: Subjects, prefix: Prefix, i: nat)
    requires RowsOk(s, rows, prefix) && i in rows && rows[i].slots.pending.Some?
    ensures rows[i].slots.pending != rows[i].slots.live
  {
  }

  lemma ForeignPrefix(s: Store, rows: Subjects, prefix: Prefix, h: Digest)
    requires RowsOk(s, rows, prefix) && PrefixOf(h.of) != Some(prefix)
    ensures NotHeld(rows, h)
  {
  }
}

/** Each statement a connector transaction runs, as a write to the store, and why it keeps the
    invariant and moves every row forward. */
module ConnectorWrites {
  import opened ConnectorTypes
  import opened ConnectorStore

  lemma SamePairings(s: Store, t: Store)
    requires t.pairings == s.pairings && s.next <= t.next
    ensures PairingsLater(s.pairings, t.pairings) && BornLater(s, t)
  {
    BornStays(s, t);
  }

  // ---------------------------------------------------------------- writes that leave rows alone

  /** Nothing but draws, tokens and failure records changes. */
  lemma TokenWrite(c: Config, s: Store, t: Store)
    requires Inv(c, s) && s.next <= t.next
    requires t == s.(next := t.next, tickets := t.tickets, challenges := t.challenges, failures := t.failures)
    requires TokensOk(t) && TokensLater(s, t)
    ensures Inv(c, t) && Later(s, t)
  {
    hide RowsOk, PairingOk, SeedOk, CodesUnique, OneActivePerKey, Born, NotHeld, RowLater, SlotsLater, PairingLater;
    SamePairings(s, t);
    OtherRowsStay(s, t, s.devices, Ord);
    OtherRowsStay(s, t, s.connectors, Orc);
    PairingsStay(c, s, t);
    RowsStay(t, s.devices);
    RowsStay(t, s.connectors);
    assert RetiredLater(s, t);
  }

  /** Pairing rows are not disturbed by draws or by writes to endpoint rows that keep account and
      identity. */
  lemma PairingsStay(c: Config, s: Store, t: Store)
    requires PairingsOk(c, s) && t.pairings == s.pairings && s.next <= t.next
    requires forall i :: i in s.devices ==> i in t.devices && t.devices[i].userID == s.devices[i].userID
    requires forall i :: i in s.connectors ==>
      i in t.connectors && t.connectors[i].userID == s.connectors[i].userID && t.connectors[i].identity == s.connectors[i].identity
    requires forall id :: id in s.pairings ==> SeedOk(c, t.devices, s.pairings[id])
    ensures PairingsOk(c, t)
  {
    forall id | id in t.pairings ensures PairingOk(t, id, t.pairings[id]) {
      assert PairingOk(s, id, s.pairings[id]);
    }
  }

  // ---------------------------------------------------------------- device rows

  /** A device's live credential either is untouched or changes to one no pairing seeded yet. */
  predicate SeedSafe(s: Store, a: Slots, b: Slots) {
    (b.live == a.live && b.expiresAt == a.expiresAt) || (b.live.Some? && (b.live.value.of.Issued? || !Born(s, b.live.value)))
  }

  lemma DeviceSeeds(c: Config, s: Store, i: nat, row: Subject, p: Pairing)
    requires i in s.devices && SeedSafe(s, s.devices[i].slots, row.slots)
    requires SeedOk(c, s.devices, p) && (p.deviceCredentialSeed.Some? ==> p.deviceCredentialSeed.value < s.next)
    ensures SeedOk(c, s.devices[i := row], p)
  {
  }

  lemma SeedsStay(c: Config, s: Store, i: nat, row: Subject)
    requires PairingsOk(c, s) && i in s.devices && SeedSafe(s, s.devices[i].slots, row.slots)
    ensures forall id :: id in s.pairings ==> SeedOk(c, s.devices[i := row], s.pairings[id])
  {
    forall id | id in s.pairings ensures SeedOk(c, s.devices[i := row], s.pairings[id]) {
      assert PairingOk(s, id, s.pairings[id]);
      DeviceSeeds(c, s, i, row, s.pairings[id]);
    }
  }

  lemma DeviceWriteIsOk(c: Config, s: Store, t: Store, i: nat, row: Subject)
    requires Inv(c, s) && i in s.devices && s.next <= t.next && t == s.(devices := s.devices[i := row], next := t.next)
    requires RowLater(s.devices[i], row) && Moves(s, s.devices[i].slots, row.slots) && SlotsOk(t, row, Ord)
    requires row.slots.live.Some? ==> row.activatedAt.Some?
    requires SeedSafe(s, s.devices[i].slots, row.slots)
    requires row.revokedAt.Some? ==> forall k :: k in s.trust && k.deviceID == i ==> s.trust[k].revokedAt.Some?
    ensures Inv(c, t)
  {
    hide RowsOk, SlotsOk, PairingOk, SeedOk, SeedSafe, Moves, CodesUnique, OneActivePerKey;
    SamePairings(s, t);
    WriteKeepsRows(s, t, s.devices, Ord, i, row);
    OtherRowsStay(s, t, s.connectors, Orc);
    SeedsStay(c, s, i, row);
    PairingsStay(c, s, t);
  }

  /** What one row write does to the credentials of every row. */
  lemma SlotsMove(s: Store, t: Store, rows: Subjects, prefix: Prefix, i: nat, row: Subject)
    requires RowsOk(s, rows, prefix) && i in rows && RowLater(rows[i], row) && Moves(s, rows[i].slots, row.slots)
    requires BornLater(s, t)
    requires forall h :: Born(s, h) && PrefixOf(h.of) == Some(prefix) && NotHeld(rows[i := row], h) ==> Retired(t, h)
    ensures RowsLater(t, rows, rows[i := row])
  {
    hide RowsOk, Born, PrefixOf, NotHeld, RowLater, Retired;
    var a := rows[i].slots;
    assert RowLater(rows[i], row);
    RowsStay(t, rows);
    if a.live.Some? && row.slots.live != a.live {
      if a.pending.Some? { PendingIsApart(s, rows, prefix, i); }
      GivenUp(s, rows, prefix, i, row, a.live.value);
    }
    if a.pending.Some? && row.slots.pending != a.pending && row.slots.live != a.pending {
      GivenUp(s, rows, prefix, i, row, a.pending.value);
    }
  }

  lemma RetiredDevices(s: Store, t: Store, i: nat, row: Subject)
    requires RowsOk(s, s.connectors, Orc) && BornLater(s, t) && i in s.devices && Moves(s, s.devices[i].slots, row.slots)
    requires t.connectors == s.connectors && t.devices == s.devices[i := row]
    ensures forall h :: Born(s, h) && PrefixOf(h.of) == Some(Ord) && NotHeld(t.devices, h) ==> Retired(t, h)
    ensures RetiredLater(s, t)
  {
    hide RowsOk, Born, Moves;
    forall h | Born(s, h) && PrefixOf(h.of) == Some(Ord) && NotHeld(t.devices, h) ensures Retired(t, h) {
      ForeignPrefix(s, s.connectors, Orc, h);
    }
    forall h | Retired(s, h) ensures Retired(t, h) {
      WriteKeepsRetired(s, s.devices, i, row, h);
    }
  }

  lemma DeviceWriteIsLater(c: Config, s: Store, t: Store, i: nat, row: Subject)
    requires Inv(c, s) && i in s.devices && s.next <= t.next && t == s.(devices := s.devices[i := row], next := t.next)
    requires RowLater(s.devices[i], row) && Moves(s, s.devices[i].slots, row.slots)
    ensures Later(s, t)
  {
    hide RowsOk, PairingsOk, RowLater, Born, Moves, CodesUnique, OneActivePerKey, TrustOk, TokensOk;
    SamePairings(s, t);
    RetiredDevices(s, t, i, row);
    SlotsMove(s, t, s.devices, Ord, i, row);
    RowsStay(t, s.connectors);
  }

  lemma RowsStay(t: Store, rows: Subjects)
    ensures RowsLater(t, rows, rows)
  {
  }

  lemma DeviceWrite(c: Config, s: Store, t: Store, i: nat, row: Subject)
    requires Inv(c, s) && i in s.devices && s.next <= t.next && t == s.(devices := s.devices[i := row], next := t.next)
    requires RowLater(s.devices[i], row) && Moves(s, s.devices[i].slots, row.slots) && SlotsOk(t, row, Ord)
    requires row.slots.live.Some? ==> row.activatedAt.Some?
    requires SeedSafe(s, s.devices[i].slots, row.slots)
    requires row.revokedAt.Some? ==> forall k :: k in s.trust && k.deviceID == i ==> s.trust[k].revokedAt.Some?
    ensures Inv(c, t) && Later(s, t)
  {
    DeviceWriteIsOk(c, s, t, i, row);
    DeviceWriteIsLater(c, s, t, i, row);
  }

  lemma NewRow(s: Store, t: Store, rows: Subjects, prefix: Prefix, row: Subject)
    requires RowsOk(s, rows, prefix) && row.slots == NO_CREDENTIAL
    ensures s.next !in rows && RowsLater(t, rows, rows[s.next := row])
    ensures forall h :: NotHeld(rows, h) ==> NotHeld(rows[s.next := row], h)
  {
  }

  lemma NewDeviceSeeds(c: Config, s: Store, row: Subject)
    requires PairingsOk(c, s) && row.slots == NO_CREDENTIAL
    ensures forall id :: id in s.pairings ==> SeedOk(c, s.devices[s.next := row], s.pairings[id])
  {
    hide PairingOk;
    forall id | id in s.pairings ensures SeedOk(c, s.devices[s.next := row], s.pairings[id]) {
      assert SeedOk(c, s.devices, s.pairings[id]);
    }
  }

  lemma DeviceCreate(c: Config, s: Store, t: Store, row: Subject)
    requires Inv(c, s) && t == s.(devices := s.devices[s.next := row], next := s.next + 1)
    requires ByKeyID(s.devices, row.identity.keyID).None? && ValidKeyID(row.identity.keyID) && row.slots == NO_CREDENTIAL
    ensures Inv(c, t) && Later(s, t)
  {
    hide RowsOk, PairingOk, SeedOk, Born, CodesUnique, OneActivePerKey, ByKeyID, ValidKeyID, RowLater, SlotsLater, NotHeld;
    SamePairings(s, t);
    NewRow(s, t, s.devices, Ord, row);
    CreateKeepsRows(s, t, s.devices, Ord, row);
    OtherRowsStay(s, t, s.connectors, Orc);
    NewDeviceSeeds(c, s, row);
    PairingsStay(c, s, t);
    RowsStay(t, s.connectors);
    assert RetiredLater(s, t);
  }

  // ---------------------------------------------------------------- connector rows

  lemma RetiredConnectors(s: Store, t: Store, i: nat, row: Subject)
    requires RowsOk(s, s.devices, Ord) && BornLater(s, t) && i in s.connectors && Moves(s, s.connectors[i].slots, row.slots)
    requires t.devices == s.devices && t.connectors == s.connectors[i := row]
    ensures forall h :: Born(s, h) && PrefixOf(h.of) == Some(Orc) && NotHeld(t.connectors, h) ==> Retired(t, h)
    ensures RetiredLater(s, t)
  {
    hide RowsOk, Born, Moves;
    forall h | Born(s, h) && PrefixOf(h.of) == Some(Orc) && NotHeld(t.connectors, h) ensures Retired(t, h) {
      ForeignPrefix(s, s.devices, Ord, h);
    }
    forall h | Retired(s, h) ensures Retired(t, h) {
      WriteKeepsRetired(s, s.connectors, i, row, h);
    }
  }

  lemma ConnectorWrite(c: Config, s: Store, t: Store, i: nat, row: Subject)
    requires Inv(c, s) && i in s.connectors && s.next <= t.next && t == s.(connectors := s.connectors[i := row], next := t.next)
    requires RowLater(s.connectors[i], row) && Moves(s, s.connectors[i].slots, row.slots) && SlotsOk(t, row, Orc)
    ensures Inv(c, t) && Later(s, t)
  {
    hide RowsOk, SlotsOk, PairingOk, SeedOk, Born, Moves, CodesUnique, OneActivePerKey, SlotsLater, NotHeld;
    SamePairings(s, t);
    WriteKeepsRows(s, t, s.connectors, Orc, i, row);
    OtherRowsStay(s, t, s.devices, Ord);
    PairingsStay(c, s, t);
    RetiredConnectors(s, t, i, row);
    SlotsMove(s, t, s.connectors, Orc, i, row);
    RowsStay(t, s.devices);
  }

  lemma ConnectorCreate(c: Config, s: Store, t: Store, row: Subject)
    requires Inv(c, s) && t == s.(connectors := s.connectors[s.next := row], next := s.next + 1)
    requires ByKeyID(s.connectors, row.identity.keyID).None? && ValidKeyID(row.identity.keyID) && row.slots == NO_CREDENTIAL
    ensures Inv(c, t) && Later(s, t)
  {
    hide RowsOk, PairingOk, SeedOk, Born, CodesUnique, OneActivePerKey, ByKeyID, ValidKeyID, RowLater, SlotsLater, NotHeld;
    SamePairings(s, t);
    NewRow(s, t, s.connectors, Orc, row);
    CreateKeepsRows(s, t, s.connectors, Orc, row);
    OtherRowsStay(s, t, s.devices, Ord);
    PairingsStay(c, s, t);
    RowsStay(t, s.devices);
    assert RetiredLater(s, t);
  }

  // ---------------------------------------------------------------- pairing rows

  lemma PairingOkStays(s: Store, t: Store, id: nat, p: Pairing)
    requires PairingOk(s, id, p) && s.next <= t.next && t.devices == s.devices && t.connectors == s.connectors
    ensures PairingOk(t, id, p)
  {
  }

  lemma PairingsWrite(c: Config, s: Store, t: Store, id: nat, p: Pairing)
    requires Inv(c, s) && id in s.pairings && t == s.(pairings := s.pairings[id := p])
    requires PairingLater(s.pairings[id], p) && PairingOk(s, id, p) && SeedOk(c, s.devices, p)
    requires Active(p) ==> Active(s.pairings[id])
    ensures PairingsOk(c, t) && CodesUnique(t.pairings) && OneActivePerKey(t.pairings) && PairingsLater(s.pairings, t.pairings)
  {
    hide PairingOk, SeedOk, RowsOk, TrustOk, TokensOk;
    forall i | i in t.pairings ensures PairingOk(t, i, t.pairings[i]) && SeedOk(c, t.devices, t.pairings[i]) {
      PairingOkStays(s, t, i, t.pairings[i]);
    }
  }

  /** Endpoint rows and the rest do not notice a change of pairing rows. */
  lemma OnlyPairings(c: Config, s: Store, t: Store)
    requires Inv(c, s) && t == s.(pairings := t.pairings, next := t.next) && s.next <= t.next && BornLater(s, t)
    requires PairingsOk(c, t) && CodesUnique(t.pairings) && OneActivePerKey(t.pairings) && PairingsLater(s.pairings, t.pairings)
    ensures Inv(c, t) && Later(s, t)
  {
    hide PairingsOk, RowsOk, PairingLater, CodesUnique, OneActivePerKey, Born, NotHeld, RowLater, SlotsLater;
    OtherRowsStay(s, t, s.devices, Ord);
    OtherRowsStay(s, t, s.connectors, Orc);
    RowsStay(t, s.devices);
    RowsStay(t, s.connectors);
    assert RetiredLater(s, t);
  }

  lemma PairingWrite(c: Config, s: Store, t: Store, id: nat, p: Pairing)
    requires Inv(c, s) && id in s.pairings && t == s.(pairings := s.pairings[id := p])
    requires PairingLater(s.pairings[id], p) && PairingOk(s, id, p) && SeedOk(c, s.devices, p)
    requires Active(p) ==> Active(s.pairings[id])
    ensures Inv(c, t) && Later(s, t)
  {
    hide PairingOk, SeedOk, RowsOk, PairingLater, CodesUnique, OneActivePerKey, Born, NotHeld, RowLater, SlotsLater;
    PairingsWrite(c, s, t, id, p);
    BornStays(s, t);
    OnlyPairings(c, s, t);
  }

  predicate Overdue(p: Pairing, keyID: string, now: Time) {
    p.connectorIdentity.keyID == keyID && (p.state.Pending? || p.state.Verification? || p.state.Confirmed?) && p.expiresAt <= now
  }

  function ExpirePairingsForKey(pairings: map<nat, Pairing>, keyID: string, now: Time): map<nat, Pairing> {
    map i | i in pairings :: if Overdue(pairings[i], keyID, now) then pairings[i].(state := Expired) else pairings[i]
  }

  lemma SweptRows(c: Config, s: Store, t: Store, keyID: string, now: Time)
    requires Inv(c, s) && t == s.(pairings := ExpirePairingsForKey(s.pairings, keyID, now))
    ensures PairingsOk(c, t) && PairingsLater(s.pairings, t.pairings)
  {
    hide CodesUnique, OneActivePerKey, RowsOk, TrustOk, TokensOk;
    forall i | i in t.pairings
      ensures PairingOk(t, i, t.pairings[i]) && SeedOk(c, t.devices, t.pairings[i]) && PairingLater(s.pairings[i], t.pairings[i])
    {
      assert PairingOk(s, i, s.pairings[i]) && SeedOk(c, s.devices, s.pairings[i]);
    }
  }

  lemma SweepWrite(c: Config, s: Store, t: Store, keyID: string, now: Time)
    requires Inv(c, s) && t == s.(pairings := ExpirePairingsForKey(s.pairings, keyID, now))
    ensures Inv(c, t) && Later(s, t)
  {
    hide PairingsOk, RowsOk, PairingLater, Born, NotHeld, RowLater, SlotsLater;
    SweptRows(c, s, t, keyID, now);
    BornStays(s, t);
    OnlyPairings(c, s, t);
  }

  /** What CreatePairing's unique indexes refuse: a code in use, or an active pairing for the key. */
  ghost predicate Collides(pairings: map<nat, Pairing>, p: Pairing) {
    exists i :: i in pairings &&
      (pairings[i].userCodeHash == p.userCodeHash || (Active(pairings[i]) && pairings[i].connectorIdentity.keyID == p.connectorIdentity.keyID))
  }

  lemma CreatedRows(c: Config, s: Store, t: Store, p: Pairing)
    requires PairingsOk(c, s) && CodesUnique(s.pairings) && OneActivePerKey(s.pairings)
    requires t == s.(pairings := s.pairings[s.next := p], next := s.next + 1)
    requires !Collides(s.pairings, p) && PairingOk(t, s.next, p) && SeedOk(c, t.devices, p)
    ensures PairingsOk(c, t) && CodesUnique(t.pairings) && OneActivePerKey(t.pairings) && PairingsLater(s.pairings, t.pairings)
  {
    hide PairingOk, SeedOk;
    assert s.next !in s.pairings by { NewID(c, s); }
    forall i | i in t.pairings ensures PairingOk(t, i, t.pairings[i]) && SeedOk(c, t.devices, t.pairings[i]) {
      if i != s.next { PairingOkStays(s, t, i, s.pairings[i]); }
    }
  }

  lemma NewID(c: Config, s: Store)
    requires PairingsOk(c, s)
    ensures s.next !in s.pairings
  {
    assert s.next in s.pairings ==> PairingOk(s, s.next, s.pairings[s.next]);
  }

  lemma PairingCreate(c: Config, s: Store, t: Store, p: Pairing)
    requires Inv(c, s) && t == s.(pairings := s.pairings[s.next := p], next := s.next + 1)
    requires !Collides(s.pairings, p) && PairingOk(t, s.next, p) && p.confirmedAt.None?
    ensures Inv(c, t) && Later(s, t)
  {
    hide PairingOk, Collides, RowsOk, CodesUnique, OneActivePerKey, PairingLater, Born, NotHeld, RowLater, SlotsLater;
    CreatedRows(c, s, t, p);
    BornStays(s, t);
    OnlyPairings(c, s, t);
  }

  // ---------------------------------------------------------------- trust rows

  lemma TrustWrite(c: Config, s: Store, t: Store)
    requires Inv(c, s) && t == s.(trust := t.trust) && TrustOk(t)
    ensures Inv(c, t) && Later(s, t)
  {
    hide RowsOk, PairingOk, SeedOk, CodesUnique, OneActivePerKey, TrustOk, Born, NotHeld, RowLater, SlotsLater, PairingLater;
    SamePairings(s, t);
    OtherRowsStay(s, t, s.devices, Ord);
    OtherRowsStay(s, t, s.connectors, Orc);
    PairingsStay(c, s, t);
    RowsStay(t, s.devices);
    RowsStay(t, s.connectors);
    TokensStay(s, t);
    assert RetiredLater(s, t);
  }

  lemma TokensStay(s: Store, t: Store)
    requires t.tickets == s.tickets && t.challenges == s.challenges
    ensures TokensLater(s, t)
  {
  }

  function RevokeDeviceTrust(trust: map<TrustKey, Trust>, userID: UserId, deviceID: nat, now: Time): map<TrustKey, Trust> {
    map k | k in trust ::
      if k.userID == userID && k.deviceID == deviceID && trust[k].revokedAt.None? then trust[k].(revokedAt := Some(now)) else trust[k]
  }

  lemma RevokeTrustWrite(c: Config, s: Store, t: Store, i: nat, now: Time)
    requires Inv(c, s) && i in s.devices && t == s.(trust := RevokeDeviceTrust(s.trust, s.devices[i].userID, i, now))
    ensures Inv(c, t) && Later(s, t) && forall k :: k in t.trust && k.deviceID == i ==> t.trust[k].revokedAt.Some?
  {
    TrustWrite(c, s, t);
  }

  // ---------------------------------------------------------------- completing a pairing

  /** The pairing completes and its connector takes up the credential derived from its secret, in
      one step: nobody held that credential before, because no other pairing has it. */
  lemma CompletionWrite(c: Config, s: Store, t: Store, id: nat, p: Pairing, k: nat, row: Subject)
    requires Inv(c, s) && id in s.pairings && k in s.connectors
    requires t == s.(pairings := s.pairings[id := p], connectors := s.connectors[k := row])
    requires PairingLater(s.pairings[id], p) && PairingOk(s, id, p) && SeedOk(c, s.devices, p) && !Active(p)
    requires s.pairings[id].confirmedAt.None? && p.confirmedAt.Some?
    requires RowLater(s.connectors[k], row) && row.slots.live == p.connectorCredentialHash
    requires row.slots.expiresAt.Some? && row.slots.pending == s.connectors[k].slots.pending
    requires row.slots.pendingUntil == s.connectors[k].slots.pendingUntil
    ensures Inv(c, t) && Later(s, t)
  {
    hide RowsOk, PairingOk, SeedOk, CodesUnique, OneActivePerKey, Born, NotHeld, SlotsLater, PairingLater, Moves;
    PairingsWrite(c, s, s.(pairings := t.pairings), id, p);
    PairingsStay(c, s.(pairings := t.pairings), t);
    BornStays(s, t);
    CompletionKeepsConnectors(c, s, t, id, p, k, row);
    OtherRowsStay(s, t, s.devices, Ord);
    CompletionIsLater(c, s, t, k, row);
  }

  lemma CompletionKeepsConnectors(c: Config, s: Store, t: Store, id: nat, p: Pairing, k: nat, row: Subject)
    requires Inv(c, s) && id in s.pairings && k in s.connectors && BornLater(s, t)
    requires t == s.(pairings := s.pairings[id := p], connectors := s.connectors[k := row])
    requires PairingOk(s, id, p) && s.pairings[id].confirmedAt.None? && p.confirmedAt.Some?
    requires RowLater(s.connectors[k], row) && row.slots.live == p.connectorCredentialHash
    requires row.slots.expiresAt.Some? && row.slots.pending == s.connectors[k].slots.pending
    requires row.slots.pendingUntil == s.connectors[k].slots.pendingUntil
    ensures Moves(s, s.connectors[k].slots, row.slots)
    ensures RowsOk(t, t.connectors, Orc)
  {
    hide PairingsOk, CodesUnique, OneActivePerKey, TrustOk, TokensOk;
    assert SlotsOk(s, s.connectors[k], Orc);
    NewLive(s, t, s.connectors[k], row);
    hide RowsOk, SlotsOk, Moves, Born;
    WriteKeepsRows(s, t, s.connectors, Orc, k, row);
  }

  /** A row may take up a credential nobody was given before, whatever rotation it has pending. */
  lemma NewLive(s: Store, t: Store, a: Subject, b: Subject)
    requires SlotsOk(s, a, Orc) && BornLater(s, t)
    requires b.slots.live.Some? && b.slots.expiresAt.Some? && PrefixOf(b.slots.live.value.of) == Some(Orc)
    requires !Born(s, b.slots.live.value) && Born(t, b.slots.live.value)
    requires b.slots.pending == a.slots.pending && b.slots.pendingUntil == a.slots.pendingUntil
    ensures Moves(s, a.slots, b.slots) && SlotsOk(t, b, Orc)
  {
  }

  lemma CompletionIsLater(c: Config, s: Store, t: Store, k: nat, row: Subject)
    requires Inv(c, s) && k in s.connectors && s.next == t.next && PairingsLater(s.pairings, t.pairings)
    requires t.connectors == s.connectors[k := row] && t.devices == s.devices && t.tickets == s.tickets && t.challenges == s.challenges
    requires RowLater(s.connectors[k], row) && Moves(s, s.connectors[k].slots, row.slots)
    ensures Later(s, t)
  {
    hide RowsOk, PairingsOk, CodesUnique, OneActivePerKey, TrustOk, TokensOk, Born, NotHeld, SlotsLater, PairingLater, RowLater, Moves;
    BornStays(s, t);
    RetiredConnectors(s, t, k, row);
    SlotsMove(s, t, s.connectors, Orc, k, row);
    RowsStay(t, s.devices);
    TokensStay(s, t);
  }
}
