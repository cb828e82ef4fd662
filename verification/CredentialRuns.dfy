/** Credentials, rotation and revocation over whole runs of the connector service. */
module CredentialRuns {
  import opened ConnectorTypes
  import opened ConnectorStore
  import opened PairingSpec
  import opened CredentialSpec
  import opened ConnectorRuns
  import opened PairingHistory
  import opened CredentialHistory

  ghost predicate Exists(c: Config, events: seq<Event>, i: nat, role: Role, row: nat)
    requires i <= |events|
  {
    row in RowsOf(StateAt(c, events, i), role)
  }

  ghost function RowAt(c: Config, events: seq<Event>, i: nat, role: Role, row: nat): Subject
    requires i <= |events| && Exists(c, events, i, role, row)
  {
    RowsOf(StateAt(c, events, i), role)[row]
  }

  lemma RowForward(c: Config, events: seq<Event>, i: nat, j: nat, role: Role, row: nat)
    requires i <= j <= |events| && Exists(c, events, i, role, row)
    ensures Exists(c, events, j, role, row) && RowLater(RowAt(c, events, i, role, row), RowAt(c, events, j, role, row))
    ensures SlotsLater(StateAt(c, events, j), RowAt(c, events, i, role, row).slots, RowAt(c, events, j, role, row).slots)
  {
    hide StateAt, RowLater, SlotsLater;
    StatesMoveForward(c, events, i, j);
  }

  lemma RetiredForward(c: Config, events: seq<Event>, i: nat, j: nat, h: Digest)
    requires i <= j <= |events| && Retired(StateAt(c, events, i), h)
    ensures Retired(StateAt(c, events, j), h)
  {
    hide StateAt, Retired;
    StatesMoveForward(c, events, i, j);
  }

  lemma RowEdgeAt(c: Config, events: seq<Event>, i: nat, role: Role, row: nat)
    requires i < |events| && Exists(c, events, i, role, row)
    ensures Exists(c, events, i + 1, role, row)
    ensures RowEdge(c, StateAt(c, events, i), StateAt(c, events, i + 1), events[i], ReplyAt(c, events, i), role, row)
  {
    hide Inv, RowEdge, Step;
    StateIsOk(c, events, i);
    StepRowEdge(c, StateAt(c, events, i), events[i], role, row);
  }

  lemma SlotsOkAt(c: Config, events: seq<Event>, i: nat, role: Role, row: nat)
    requires i <= |events| && Exists(c, events, i, role, row)
    ensures SlotsOk(StateAt(c, events, i), RowAt(c, events, i, role, row), if role.Client? then Ord else Orc)
  {
    hide StateAt, SlotsOk, KeysUnique, HoldersUnique, PairingsOk, CodesUnique, OneActivePerKey, TrustOk, TokensOk;
    StateIsOk(c, events, i);
  }

  // ---------------------------------------------------------------- displaced credentials

  /** Once a live credential is live no more, no device and no connector ever holds it again. */
  lemma DisplacedIsGone(c: Config, events: seq<Event>, i: nat, j: nat, k: nat, role: Role, row: nat, h: Digest)
    requires i <= j <= k <= |events| && Exists(c, events, i, role, row) && Exists(c, events, j, role, row)
    requires RowAt(c, events, i, role, row).slots.live == Some(h) && RowAt(c, events, j, role, row).slots.live != Some(h)
    ensures NotHeld(StateAt(c, events, k).devices, h) && NotHeld(StateAt(c, events, k).connectors, h)
  {
    hide StateAt;
    RowForward(c, events, i, j, role, row);
    RetiredForward(c, events, j, k, h);
  }

  /** A rotation that was replaced, cancelled or cleared can never be activated afterwards. */
  lemma DroppedRotationIsGone(c: Config, events: seq<Event>, i: nat, j: nat, k: nat, role: Role, row: nat, h: Digest)
    requires i <= j <= k <= |events| && Exists(c, events, i, role, row) && Exists(c, events, j, role, row)
    requires RowAt(c, events, i, role, row).slots.pending == Some(h) && !Holds(RowAt(c, events, j, role, row), h)
    ensures NotHeld(StateAt(c, events, k).devices, h) && NotHeld(StateAt(c, events, k).connectors, h)
  {
    hide StateAt;
    RowForward(c, events, i, j, role, row);
    RetiredForward(c, events, j, k, h);
  }

  /** The live credential of a row and its expiry change in two ways only: a rotation that is
      pending and in time is activated, or a pairing is confirmed for the first time. */
  lemma LiveChangesOnlyBy(c: Config, events: seq<Event>, i: nat, role: Role, row: nat)
    requires i < |events| && Exists(c, events, i, role, row) && Exists(c, events, i + 1, role, row)
    ensures var a, b := RowAt(c, events, i, role, row), RowAt(c, events, i + 1, role, row);
      var e, reply := events[i], ReplyAt(c, events, i);
      (b.slots.live == a.slots.live && b.slots.expiresAt == a.slots.expiresAt)
      || (PromotesRow(e, reply, role, row, a) && a.slots.pendingUntil.Some? && e.now < a.slots.pendingUntil.value
          && b.slots.live == a.slots.pending && b.slots.expiresAt == Some(e.now + LifetimeOf(c, role)))
      || (ConfirmsRow(e, reply, role, row) && e.call.pairingID in StateAt(c, events, i).pairings
          && StateAt(c, events, i).pairings[e.call.pairingID].state.Verification?
          && b.slots.expiresAt == Some(e.now + LifetimeOf(c, role)) && b.slots.pending == a.slots.pending)
  {
    hide StateAt, ReplyAt, Step, PromotesRow, ConfirmsRow, RotatesRow, TicketsRow, RevokesRow;
    RowEdgeAt(c, events, i, role, row);
  }

  // ---------------------------------------------------------------- the newest rotation

  /** Event r is the rotation of this row that issued the credential behind `h`. */
  ghost predicate IssuedBy(c: Config, events: seq<Event>, r: nat, role: Role, row: nat, h: Digest) {
    && r < |events| && Exists(c, events, r, role, row) && Exists(c, events, r + 1, role, row)
    && Rotation(c, events[r], ReplyAt(c, events, r), role, row, RowAt(c, events, r, role, row), RowAt(c, events, r + 1, role, row))
    && Sha256(ReplyAt(c, events, r).credential) == h
  }

  ghost predicate PendingAt(c: Config, events: seq<Event>, i: nat, role: Role, row: nat, h: Digest, until: Option<Time>) {
    && i <= |events| && Exists(c, events, i, role, row)
    && RowAt(c, events, i, role, row).slots.pending == Some(h) && RowAt(c, events, i, role, row).slots.pendingUntil == until
  }

  /** The rotation that put this credential in the pending slot, and the slot since then. */
  lemma {:induction false} FindRotation(c: Config, events: seq<Event>, n: nat, role: Role, row: nat, h: Digest, until: Option<Time>)
      returns (r: nat)
    requires PendingAt(c, events, n, role, row, h, until)
    ensures r < n && IssuedBy(c, events, r, role, row, h)
    ensures forall i :: r < i <= n ==> PendingAt(c, events, i, role, row, h, until)
    decreases n
  {
    NothingAtStart(c, events, role, row);
    LastStep(c, events, n - 1, role, row, h, until);
    hide IssuedBy, PendingAt;
    r := n - 1;
    if !IssuedBy(c, events, n - 1, role, row, h) {
      r := FindRotation(c, events, n - 1, role, row, h, until);
    }
  }

  lemma NothingAtStart(c: Config, events: seq<Event>, role: Role, row: nat)
    ensures !Exists(c, events, 0, role, row)
  {
  }

  lemma LastStep(c: Config, events: seq<Event>, m: nat, role: Role, row: nat, h: Digest, until: Option<Time>)
    requires m < |events| && PendingAt(c, events, m + 1, role, row, h, until)
    ensures IssuedBy(c, events, m, role, row, h) || PendingAt(c, events, m, role, row, h, until)
  {
    hide Inv, StateAt, ReplyAt, RowEdge, Rotation;
    NewRowsHoldNothing(c, events, m, role, row);
    RowEdgeAt(c, events, m, role, row);
    PendingEdge(c, StateAt(c, events, m), StateAt(c, events, m + 1), events[m], ReplyAt(c, events, m), role, row, h);
  }

  /** A credential in the pending slot was put there by this call or stood there before. */
  lemma PendingEdge(c: Config, s: Store, t: Store, e: Event, reply: Reply, role: Role, i: nat, h: Digest)
    requires i in RowsOf(s, role) && i in RowsOf(t, role) && RowEdge(c, s, t, e, reply, role, i)
    requires RowsOf(t, role)[i].slots.pending == Some(h)
    ensures var a, b := RowsOf(s, role)[i], RowsOf(t, role)[i];
      (Rotation(c, e, reply, role, i, a, b) && Sha256(reply.credential) == h)
      || (a.slots.pending == Some(h) && b.slots.pendingUntil == a.slots.pendingUntil)
  {
    hide RotatesRow, PromotesRow, TicketsRow, ConfirmsRow, RevokesRow;
  }

  lemma NewRowsHoldNothing(c: Config, events: seq<Event>, i: nat, role: Role, row: nat)
    requires i < |events| && Exists(c, events, i + 1, role, row)
    ensures Exists(c, events, i, role, row) || RowAt(c, events, i + 1, role, row).slots.pending.None?
  {
    hide Inv, Step;
    StateIsOk(c, events, i);
    if !Exists(c, events, i, role, row) { NewRowsAreBare(c, StateAt(c, events, i), events[i], role, row); }
  }

  /** A rotation, an activation or a ticket in between would have changed the pending slot. */
  lemma SlotsTold(c: Config, events: seq<Event>, m: nat, role: Role, row: nat, h: Digest)
    requires m < |events| && Exists(c, events, m, role, row) && Exists(c, events, m + 1, role, row)
    requires RowAt(c, events, m, role, row).slots.pending == Some(h) && RowAt(c, events, m + 1, role, row).slots.pending == Some(h)
    ensures var e, reply, a := events[m], ReplyAt(c, events, m), RowAt(c, events, m, role, row);
      !RotatesRow(e, reply, role, row, a) && !TicketsRow(e, reply, role, row, a) && !PromotesRow(e, reply, role, row, a)
  {
    hide Inv;
    StateIsOk(c, events, m);
    hide StateAt;
    SlotsOkAt(c, events, m, role, row);
    AnswersShow(c, StateAt(c, events, m), events[m], role, row);
  }

  lemma InTime(c: Config, events: seq<Event>, k: nat, role: Role, row: nat)
    requires k < |events| && Exists(c, events, k, role, row)
    requires PromotesRow(events[k], ReplyAt(c, events, k), role, row, RowAt(c, events, k, role, row))
    ensures RowAt(c, events, k, role, row).slots.pendingUntil.Some?
    ensures events[k].now < RowAt(c, events, k, role, row).slots.pendingUntil.value
  {
    hide Inv;
    StateIsOk(c, events, k);
    hide StateAt;
    AnswersShow(c, StateAt(c, events, k), events[k], role, row);
  }

  /** An activation commits only the newest rotation: the value was issued by the last rotation of
      this row, no ticket was issued on the row since, and the activation came in time. */
  lemma ActivationIsNewestRotation(c: Config, events: seq<Event>, k: nat, role: Role, row: nat) returns (r: nat)
    requires k < |events| && Exists(c, events, k, role, row)
    requires PromotesRow(events[k], ReplyAt(c, events, k), role, row, RowAt(c, events, k, role, row))
    ensures r < k && Exists(c, events, r, role, row)
    ensures RotatesRow(events[r], ReplyAt(c, events, r), role, row, RowAt(c, events, r, role, row))
    ensures Some(Sha256(ReplyAt(c, events, r).credential)) == RowAt(c, events, k, role, row).slots.pending
    ensures events[k].now < events[r].now + c.activationWindow
    ensures forall m :: r < m < k ==>
      && Exists(c, events, m, role, row)
      && !RotatesRow(events[m], ReplyAt(c, events, m), role, row, RowAt(c, events, m, role, row))
      && !TicketsRow(events[m], ReplyAt(c, events, m), role, row, RowAt(c, events, m, role, row))
      && !PromotesRow(events[m], ReplyAt(c, events, m), role, row, RowAt(c, events, m, role, row))
  {
    hide StateAt, ReplyAt, Step;
    InTime(c, events, k, role, row);
    var h, until := RowAt(c, events, k, role, row).slots.pending.value, RowAt(c, events, k, role, row).slots.pendingUntil;
    r := FindRotation(c, events, k, role, row, h, until);
    assert PendingAt(c, events, r + 1, role, row, h, until);
    hide PromotesRow, RotatesRow, TicketsRow;
    forall m | r < m < k
      ensures Exists(c, events, m, role, row)
        && !RotatesRow(events[m], ReplyAt(c, events, m), role, row, RowAt(c, events, m, role, row))
        && !TicketsRow(events[m], ReplyAt(c, events, m), role, row, RowAt(c, events, m, role, row))
        && !PromotesRow(events[m], ReplyAt(c, events, m), role, row, RowAt(c, events, m, role, row))
    {
      assert PendingAt(c, events, m, role, row, h, until) && PendingAt(c, events, m + 1, role, row, h, until);
      SlotsTold(c, events, m, role, row, h);
    }
  }
}
