/** Live peers and the table that finds them (internal/relay/production.go). */
module RelayPeers {
  import opened ConnectorTypes

  const QUEUE_CAPACITY: nat := 64

  type PeerId = nat

  /** What can stand in a peer's outbound queue; `from` is the peer it speaks of. */
  datatype Item =
    | Ready
    | Hello(from: PeerId)
    | Offline(from: PeerId)
    | Frame(from: PeerId, message: seq<int>)

  function PeerKey(userID: UserId, keyID: string): string { userID + ":" + keyID }

  lemma LastColon(u: UserId, k: string)
    requires ':' !in k
    ensures PeerKey(u, k)[|u|] == ':'
    ensures forall i :: |u| < i < |PeerKey(u, k)| ==> PeerKey(u, k)[i] != ':'
  {
    forall i | |u| < i < |PeerKey(u, k)| ensures PeerKey(u, k)[i] != ':' {
      assert PeerKey(u, k)[i] == k[i - |u| - 1];
    }
  }

  /** Key IDs are base64url text, which has no colon, so two peers share a table key only when
      they share account and identity. */
  lemma PeerKeyIsInjective(u: UserId, k: string, v: UserId, m: string)
    requires ':' !in k && ':' !in m && PeerKey(u, k) == PeerKey(v, m)
    ensures u == v && k == m
  {
    LastColon(u, k);
    LastColon(v, m);
    var s := PeerKey(u, k);
    assert u == s[..|u|] && v == s[..|v|];
    assert k == s[|u| + 1..] && m == s[|v| + 1..];
  }

  predicate Trusts(a: Admission, keyID: string) {
    exists x :: x in a.trustedIdentities && x.keyID == keyID
  }

  function KeyOf(a: Admission): string { PeerKey(a.userID, a.identity.keyID) }

  function Opposite(r: Role): Role { if r.Client? then Connector else Client }

  /** Two peers of one account, in opposite roles, each in the other's trust snapshot. */
  predicate Partners(a: Admission, b: Admission) {
    a.userID == b.userID && a.role != b.role && Trusts(a, b.identity.keyID) && Trusts(b, a.identity.keyID)
  }

  /** Who is told that a peer went away: the receiver's trust is enough. */
  predicate HearsOffline(receiver: Admission, gone: Admission) {
    receiver.userID == gone.userID && receiver.role == Opposite(gone.role) && Trusts(receiver, gone.identity.keyID)
  }

  // ---------------------------------------------------------------- effect of the locked sections

  type Table = map<string, PeerId>

  type Info = map<PeerId, Admission>

  function RegisterTable(table: Table, info: Info, p: PeerId): Table
    requires p in info
  {
    table[KeyOf(info[p]) := p]
  }

  /** The table's peers among `of` that satisfy a condition on their admission. */
  ghost function Selected(table: Table, info: Info, keep: Admission -> bool): set<PeerId> {
    set q | q in table.Values && q in info && keep(info[q])
  }

  function UnregisterTable(table: Table, info: Info, p: PeerId): Table
    requires p in info
  {
    if KeyOf(info[p]) in table && table[KeyOf(info[p])] == p then
      map k | k in table && k != KeyOf(info[p]) :: table[k]
    else table
  }

  datatype Routing = Rejected | NobodyThere | To(recipient: PeerId)

  function Route(table: Table, info: Info, p: PeerId, keyID: string): Routing
    requires p in info && forall k :: k in table ==> table[k] in info
  {
    var key := PeerKey(info[p].userID, keyID);
    if !Trusts(info[p], keyID) then Rejected
    else if key !in table then NobodyThere
    else
      var r := info[table[key]];
      if r.role == info[p].role || !Trusts(r, info[p].identity.keyID) then Rejected else To(table[key])
  }

  /** `xs` lists the elements of `of`, each once, in whatever order a map is walked. */
  ghost predicate Lists(xs: seq<PeerId>, of: set<PeerId>) {
    && (forall x :: x in xs <==> x in of)
    && (forall i, j :: 0 <= i < j < |xs| ==> xs[i] != xs[j])
  }

  // ---------------------------------------------------------------- the hub as the server runs it

  class SecurePeer {
    const id: PeerId
    const admission: Admission
    var send: seq<Item>     // the outbound channel
    var stopped: bool       // the done channel is closed

    constructor (id: PeerId, admission: Admission)
      ensures this.id == id && this.admission == admission && send == [] && !stopped
    {
      this.id, this.admission, send, stopped := id, admission, [], false;
    }

    method Stop()
      modifies this
      ensures stopped && send == old(send)
    {
      stopped := true;
    }

    /** `pickDone` is the choice select makes when both the closed done channel and a free slot
        are ready. A full queue of a live peer stops the peer. Nothing queued is ever lost or
        reordered, and a refused item leaves a peer that is stopped, whoever stopped it. */
    method Enqueue(item: Item, pickDone: bool) returns (ok: bool)
      requires |send| <= QUEUE_CAPACITY
      modifies this
      ensures |send| <= QUEUE_CAPACITY && old(send) <= send
      ensures ok <==> send == old(send) + [item]
      ensures ok <==> send != old(send)
      ensures !ok ==> stopped
      ensures stopped <==> old(stopped) || (!ok && |old(send)| == QUEUE_CAPACITY)
      ensures (send, stopped, ok) == EnqueueSpec(old(send), old(stopped), item, pickDone)
    {
      if stopped && (pickDone || |send| >= QUEUE_CAPACITY) {
        return false;
      }
      if |send| < QUEUE_CAPACITY {
        send := send + [item];
        return true;
      }
      Stop();
      return false;
    }
  }

  function EnqueueSpec(send: seq<Item>, stopped: bool, item: Item, pickDone: bool): (seq<Item>, bool, bool) {
    if stopped && (pickDone || |send| >= QUEUE_CAPACITY) then (send, stopped, false)
    else if |send| < QUEUE_CAPACITY then (send + [item], stopped, true)
    else (send, true, false)
  }

  ghost function Ids(ps: seq<SecurePeer>): (ids: seq<PeerId>)
    ensures |ids| == |ps|
    ensures forall i :: 0 <= i < |ps| ==> ids[i] == ps[i].id
  {
    seq(|ps|, i requires 0 <= i < |ps| => ps[i].id)
  }

  /** The sections the hub runs under its mutex; what follows each of them runs unlocked. */
  class SecureHub {
    var peers: map<string, SecurePeer>

    constructor ()
      ensures peers == map[]
    {
      peers := map[];
    }

    /** `info` numbers every peer ever made; each entry stands under its own peer's key. */
    ghost predicate Valid(info: Info)
      reads this
    {
      forall k :: k in peers ==>
        peers[k].id in info && info[peers[k].id] == peers[k].admission && KeyOf(peers[k].admission) == k
    }

    ghost function Table(): Table
      reads this
    {
      map k | k in peers :: peers[k].id
    }

    /** Walks the table and collects the peers to act on once the lock is released. */
    method Collect(keep: Admission -> bool, ghost info: Info) returns (found: seq<SecurePeer>)
      requires Valid(info)
      ensures Lists(Ids(found), Selected(Table(), info, keep))
    {
      found := [];
      var rest := peers.Keys;
      while rest != {}
        invariant rest <= peers.Keys
        invariant forall p :: p in found ==> exists k :: k in peers && k !in rest && peers[k] == p
        invariant forall k :: k in peers && k !in rest && keep(peers[k].admission) ==> peers[k] in found
        invariant forall p :: p in found ==> keep(p.admission)
        invariant forall i, j :: 0 <= i < j < |found| ==> found[i].id != found[j].id
        decreases rest
      {
        var k :| k in rest;
        rest := rest - {k};
        if keep(peers[k].admission) {
          forall i | 0 <= i < |found| ensures found[i].id != peers[k].id {
            assert found[i] in found;
            var m :| m in peers && m !in rest + {k} && peers[m] == found[i];
          }
          found := found + [peers[k]];
        }
      }
      FoundIsSelected(found, keep, info);
    }

    lemma FoundIsSelected(found: seq<SecurePeer>, keep: Admission -> bool, info: Info)
      requires Valid(info)
      requires forall p :: p in found ==> keep(p.admission) && exists k :: k in peers && peers[k] == p
      requires forall k :: k in peers && keep(peers[k].admission) ==> peers[k] in found
      ensures forall x :: x in Ids(found) <==> x in Selected(Table(), info, keep)
    {
      forall x | x in Ids(found) ensures x in Selected(Table(), info, keep) {
        var i :| 0 <= i < |found| && Ids(found)[i] == x;
        assert found[i] in found;
        var k :| k in peers && peers[k] == found[i];
        assert Table()[k] == x;
      }
      forall x | x in Selected(Table(), info, keep) ensures x in Ids(found) {
        var k :| k in Table() && Table()[k] == x;
        var i :| 0 <= i < |found| && found[i] == peers[k];
        assert Ids(found)[i] == x;
      }
    }

    method RegisterLocked(connected: SecurePeer, ghost info: Info) returns (existing: SecurePeer?, partners: seq<SecurePeer>)
      requires Valid(info) && connected.id in info && info[connected.id] == connected.admission
      modifies this
      ensures Valid(info) && Table() == RegisterTable(old(Table()), info, connected.id)
      ensures var key := KeyOf(connected.admission);
        if key in old(Table()) then existing != null && existing.id == old(Table())[key] else existing == null
      ensures Lists(Ids(partners), Selected(Table(), info, (a: Admission) => Partners(a, connected.admission)))
      ensures peers == old(peers)[KeyOf(connected.admission) := connected]
      ensures forall q :: q in Ids(partners) <==>
        && q in Table().Values && q in info && info[q].userID == connected.admission.userID && info[q].role != connected.admission.role
        && (exists x :: x in info[q].trustedIdentities && x.keyID == connected.admission.identity.keyID)
        && (exists x :: x in connected.admission.trustedIdentities && x.keyID == info[q].identity.keyID)
    {
      var key := PeerKey(connected.admission.userID, connected.admission.identity.keyID);
      existing := if key in peers then peers[key] else null;
      peers := peers[key := connected];
      partners := Collect((a: Admission) => Partners(a, connected.admission), info);
    }

    method UnregisterLocked(connected: SecurePeer, ghost info: Info) returns (recipients: seq<SecurePeer>)
      requires Valid(info) && connected.id in info && info[connected.id] == connected.admission
      requires forall k :: k in peers && peers[k].id == connected.id ==> peers[k] == connected
      modifies this
      ensures Valid(info) && Table() == UnregisterTable(old(Table()), info, connected.id)
      ensures if Table() == old(Table()) then recipients == []
        else Lists(Ids(recipients), Selected(Table(), info, (a: Admission) => HearsOffline(a, connected.admission)))
      ensures forall k :: k in peers <==> k in old(peers) && old(peers)[k] != connected
      ensures forall k :: k in peers ==> peers[k] == old(peers)[k]
      ensures forall q :: q in Ids(recipients) <==>
        && peers != old(peers) && q in Table().Values && q in info
        && info[q].userID == connected.admission.userID && info[q].role != connected.admission.role
        && exists x :: x in info[q].trustedIdentities && x.keyID == connected.admission.identity.keyID
    {
      var key := PeerKey(connected.admission.userID, connected.admission.identity.keyID);
      if key !in peers || peers[key] != connected { return []; }
      peers := map k | k in peers && k != key :: peers[k];
      recipients := Collect((a: Admission) => HearsOffline(a, connected.admission), info);
      assert key in old(Table()) && key !in Table();
    }

    method RouteLocked(sender: SecurePeer, recipientKeyID: string, ghost info: Info) returns (accepted: bool, recipient: SecurePeer?)
      requires Valid(info) && sender.id in info && info[sender.id] == sender.admission
      ensures accepted <==> Route(Table(), info, sender.id, recipientKeyID) != Rejected
      ensures if Route(Table(), info, sender.id, recipientKeyID).To?
        then recipient != null && To(recipient.id) == Route(Table(), info, sender.id, recipientKeyID)
        else recipient == null
      ensures var key := sender.admission.userID + ":" + recipientKeyID;
        && (accepted <==>
             && (exists x :: x in sender.admission.trustedIdentities && x.keyID == recipientKeyID)
             && (key in peers ==>
                  && peers[key].admission.role != sender.admission.role
                  && exists x :: x in peers[key].admission.trustedIdentities && x.keyID == sender.admission.identity.keyID))
        && recipient == (if accepted && key in peers then peers[key] else null)
    {
      if !Trusts(sender.admission, recipientKeyID) { return false, null; }
      var key := PeerKey(sender.admission.userID, recipientKeyID);
      if key !in peers { return true, null; }
      var found := peers[key];
      assert Table()[key] == found.id;
      if found.admission.role == sender.admission.role || !Trusts(found.admission, sender.admission.identity.keyID) {
        return false, null;
      }
      return true, found;
    }

    method DisconnectLocked(r: Revocation, ghost info: Info) returns (matched: seq<SecurePeer>)
      requires Valid(info)
      ensures Lists(Ids(matched), Selected(Table(), info, (a: Admission) => r.Covers(a)))
      ensures forall q :: q in Ids(matched) <==>
        && q in Table().Values && q in info && info[q].userID == r.userID && r.userID != ""
        && (r.connectorID.Some? ==> info[q].role.Connector? && info[q].subjectID == r.connectorID.value)
        && (r.connectorID.None? && r.deviceID.Some? ==> info[q].role.Client? && info[q].subjectID == r.deviceID.value)
        && (r.connectorID.None? && r.deviceID.None? && r.sessionID.Some? ==> info[q].role.Client? && info[q].sessionID == r.sessionID)
    {
      matched := Collect((a: Admission) => r.Covers(a), info);
    }

    method CloseLocked(ghost info: Info) returns (all: seq<SecurePeer>)
      requires Valid(info)
      modifies this
      ensures Table() == map[]
      ensures Lists(Ids(all), old(Selected(Table(), info, (a: Admission) => true)))
    {
      all := Collect((a: Admission) => true, info);
      peers := map[];
    }
  }
}
