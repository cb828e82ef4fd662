/** What the relay delivers: live partners meet, an accepted frame arrives, a departure is told, unless
    the receiver is stopped first. */
module RelayDelivery {
  import opened ConnectorTypes
  import opened RelayPeers
  import opened RelayRace

  /** A thread still has to put this item in the peer's queue. */
  ghost predicate Owes(s: Hub, q: PeerId, item: Item) {
    exists t :: t in s.threads && Enqueue(q, item) in s.threads[t].todo
  }

  /** Put in the queue or on its way there, unless the peer is stopped. */
  ghost predicate Arrives(s: Hub, q: PeerId, item: Item) {
    (q in s.log && item in s.log[q]) || Owes(s, q, item) || q in s.stopped
  }

  // ---------------------------------------------------------------- no item is lost

  lemma LogAfter(s: Hub, a: Action)
    requires Enabled(s, a) && !a.Do? && !a.Admit?
    ensures Apply(s, a).log == s.log
  {
    hide Lists, Selected, Route, RegisterTable, UnregisterTable, Hellos, Offlines, Stops, KeyOf;
  }

  lemma LogGrows(s: Hub, a: Action, q: PeerId, item: Item)
    requires SetsOk(s) && Enabled(s, a) && q in s.log && item in s.log[q]
    ensures q in Apply(s, a).log && item in Apply(s, a).log[q]
  {
    if a.Do? {
      assert Apply(s, a).log == Done(s, s.threads[a.t].todo[0], a.pickDone).log;
    } else if !a.Admit? {
      LogAfter(s, a);
    }
  }

  lemma OwedItemStays(s: Hub, a: Action, q: PeerId, item: Item)
    requires Shape(s) && Enabled(s, a) && Owes(s, q, item)
    ensures Arrives(Apply(s, a), q, item)
  {
    hide SetsOk, TableOk, OneServer, LogsOk, Lists, Selected, Route, RegisterTable, UnregisterTable, Hellos, Offlines, Stops, KeyOf;
    var t :| t in s.threads && Enqueue(q, item) in s.threads[t].todo;
    if a.Do? && a.t == t {
      var todo := s.threads[t].todo;
      assert todo == [todo[0]] + todo[1..];
      assert Apply(s, a).threads[t].todo == todo[1..];
    } else if a.Unregister? && a.t == t {
      assert false;
    } else if !a.Do? && !a.Unregister? {
      TodoStays(s, a, t);
    } else {
      assert Apply(s, a).threads[t] == s.threads[t];
    }
  }

  lemma ArrivalStays(s: Hub, a: Action, q: PeerId, item: Item)
    requires Shape(s) && Enabled(s, a) && Arrives(s, q, item)
    ensures Arrives(Apply(s, a), q, item)
  {
    assert SetsOk(s);
    hide Shape, Enabled, Apply, Owes, SetsOk;
    StoppedStays(s, a);
    if Owes(s, q, item) {
      OwedItemStays(s, a, q, item);
    } else if q in s.log && item in s.log[q] {
      LogGrows(s, a, q, item);
    }
  }

  lemma {:induction false} ItArrives(s: Hub, actions: seq<Action>, end: Hub, q: PeerId, item: Item)
    requires Inv(s) && Run(s, actions, end) && Arrives(s, q, item)
    ensures Arrives(end, q, item)
    decreases |actions|
  {
    hide Shape, Accounted, SweepsAreTotal, Guarded, Served, QueuesInOrder, Enabled, Apply, Arrives;
    if actions != [] {
      ArrivalStays(s, actions[0], q, item);
      StepKeepsInv(s, actions[0]);
      ItArrives(Apply(s, actions[0]), actions[1..], end, q, item);
    }
  }

  lemma StepKeepsInv(s: Hub, a: Action)
    requires Inv(s) && Enabled(s, a)
    ensures Inv(Apply(s, a))
  {
    hide Inv, Enabled, Apply;
    assert Run(Apply(s, a), [], Apply(s, a));
    assert [a][1..] == [];
    RunKeepsInv(s, [a], Apply(s, a));
  }

  // ---------------------------------------------------------------- frames

  /** One peer's snapshot holds the other's key. */
  ghost predicate Knows(a: Admission, b: Admission) { exists x :: x in a.trustedIdentities && x.keyID == b.identity.keyID }

  /** A frame for a peer of the account in the opposite role, each knowing the other, arrives. */
  lemma FrameArrives(s: Hub, t: nat, q: PeerId, message: seq<int>, actions: seq<Action>, end: Hub)
    requires Inv(s) && InTable(s, q) && Enabled(s, Forward(t, s.info[q].identity.keyID, message))
    requires var p := s.threads[t].job.p;
      && s.info[p].userID == s.info[q].userID && s.info[p].role != s.info[q].role
      && Knows(s.info[p], s.info[q]) && Knows(s.info[q], s.info[p])
    requires Run(Apply(s, Forward(t, s.info[q].identity.keyID, message)), actions, end)
    ensures var frame := Frame(s.threads[t].job.p, message);
      (q in end.log && frame in end.log[q]) || Owes(end, q, frame) || q in end.stopped
  {
    var a, frame := Forward(t, s.info[q].identity.keyID, message), Frame(s.threads[t].job.p, message);
    Handed(s, t, q, message);
    hide Inv, Enabled, Apply, Run, Owes;
    StepKeepsInv(s, a);
    ItArrives(Apply(s, a), actions, end, q, frame);
  }

  lemma Handed(s: Hub, t: nat, q: PeerId, message: seq<int>)
    requires InTable(s, q) && Enabled(s, Forward(t, s.info[q].identity.keyID, message))
    requires var p := s.threads[t].job.p;
      && s.info[p].userID == s.info[q].userID && s.info[p].role != s.info[q].role
      && Knows(s.info[p], s.info[q]) && Knows(s.info[q], s.info[p])
    ensures Owes(Apply(s, Forward(t, s.info[q].identity.keyID, message)), q, Frame(s.threads[t].job.p, message))
  {
    var s' := Apply(s, Forward(t, s.info[q].identity.keyID, message));
    assert s'.threads[t].todo == [Enqueue(q, Frame(s.threads[t].job.p, message))];
  }

  /** A frame for a key the sender does not know ends the sender instead. */
  lemma StrangersEndTheSender(s: Hub, t: nat, keyID: string, message: seq<int>)
    requires Enabled(s, Forward(t, keyID, message))
    requires forall x :: x in s.info[s.threads[t].job.p].trustedIdentities ==> x.keyID != keyID
    ensures StopOwed(Apply(s, Forward(t, keyID, message)), s.threads[t].job.p)
  {
    var s' := Apply(s, Forward(t, keyID, message));
    assert s'.threads[t].todo == [StopPeer(s.threads[t].job.p)];
  }

  // ---------------------------------------------------------------- departures

  /** When the peer that holds its key unregisters, every peer of the account in the opposite role that
      knows it is told. */
  lemma DepartureIsTold(s: Hub, t: nat, recipients: seq<PeerId>, q: PeerId, actions: seq<Action>, end: Hub)
    requires Inv(s) && Enabled(s, Unregister(t, recipients)) && InTable(s, s.threads[t].job.p) && InTable(s, q)
    requires var p := s.threads[t].job.p;
      s.info[q].userID == s.info[p].userID && s.info[q].role != s.info[p].role && Knows(s.info[q], s.info[p])
    requires Run(Apply(s, Unregister(t, recipients)), actions, end)
    ensures var told := Offline(s.threads[t].job.p);
      (q in end.log && told in end.log[q]) || Owes(end, q, told) || q in end.stopped
  {
    var a, told := Unregister(t, recipients), Offline(s.threads[t].job.p);
    Told(s, t, recipients, q);
    hide Inv, Enabled, Apply, Run, Owes;
    StepKeepsInv(s, a);
    ItArrives(Apply(s, a), actions, end, q, told);
  }

  lemma Told(s: Hub, t: nat, recipients: seq<PeerId>, q: PeerId)
    requires Enabled(s, Unregister(t, recipients)) && InTable(s, s.threads[t].job.p) && InTable(s, q)
    requires var p := s.threads[t].job.p;
      s.info[q].userID == s.info[p].userID && s.info[q].role != s.info[p].role && Knows(s.info[q], s.info[p])
    ensures Owes(Apply(s, Unregister(t, recipients)), q, Offline(s.threads[t].job.p))
  {
    var p := s.threads[t].job.p;
    var after := UnregisterTable(s.table, s.info, p);
    assert KeyOf(s.info[p]) !in after;
    assert KeyOf(s.info[q]) in after && after[KeyOf(s.info[q])] == q;
    assert q in Selected(after, s.info, (b: Admission) => HearsOffline(b, s.info[p]));
    var i :| 0 <= i < |recipients| && recipients[i] == q;
    var s' := Apply(s, Unregister(t, recipients));
    assert Offlines(recipients, p)[i] == Enqueue(q, Offline(p));
    assert s'.threads[t].todo[i] == Enqueue(q, Offline(p));
  }

  // ---------------------------------------------------------------- meetings

  ghost predicate Live(s: Hub, p: PeerId) { p in s.registered && p in s.info && !StoppedOrOwed(s, p) }

  ghost predicate Meant(a: Admission, b: Admission) { a.userID == b.userID && a.role != b.role && Knows(a, b) && Knows(b, a) }

  ghost predicate Met(s: Hub) {
    forall p, q :: Live(s, p) && Live(s, q) && Meant(s.info[p], s.info[q]) ==> Arrives(s, p, Hello(q))
  }

  lemma {:induction false} Greeted(partners: seq<PeerId>, p: PeerId, q: PeerId)
    requires q in partners
    ensures Enqueue(q, Hello(p)) in Hellos(partners, p) && Enqueue(p, Hello(q)) in Hellos(partners, p)
  {
    if partners[0] != q { Greeted(partners[1..], p, q); }
  }

  /** A newcomer and everyone in the table it should meet are told of each other. */
  lemma NewcomerMeets(s: Hub, t: nat, partners: seq<PeerId>, q: PeerId)
    requires Enabled(s, Register(t, partners)) && InTable(s, q)
    requires var p := s.threads[t].job.p; Meant(s.info[p], s.info[q]) && KeyOf(s.info[p]) != KeyOf(s.info[q])
    ensures var s', p := Apply(s, Register(t, partners)), s.threads[t].job.p; Owes(s', q, Hello(p)) && Owes(s', p, Hello(q))
  {
    var p, s' := s.threads[t].job.p, Apply(s, Register(t, partners));
    assert KeyOf(s.info[q]) in s'.table && s'.table[KeyOf(s.info[q])] == q;
    assert q in Selected(s'.table, s.info, (b: Admission) => Partners(b, s.info[p]));
    Greeted(partners, p, q);
    assert Enqueue(q, Hello(p)) in s'.threads[t].todo && Enqueue(p, Hello(q)) in s'.threads[t].todo;
  }

  lemma ReplacedIsOwed(s: Hub, t: nat, partners: seq<PeerId>, q: PeerId)
    requires Enabled(s, Register(t, partners)) && InTable(s, q) && KeyOf(s.info[s.threads[t].job.p]) == KeyOf(s.info[q])
    ensures StopOwed(Apply(s, Register(t, partners)), q)
  {
    var s' := Apply(s, Register(t, partners));
    assert s'.threads[t].todo[0] == StopPeer(q);
  }

  lemma RegisterMeets(s: Hub, t: nat, partners: seq<PeerId>, q: PeerId)
    requires Inv(s) && Enabled(s, Register(t, partners)) && Live(s, q) && Meant(s.info[s.threads[t].job.p], s.info[q])
    ensures var s', p := Apply(s, Register(t, partners)), s.threads[t].job.p;
      !Live(s', q) || (Arrives(s', q, Hello(p)) && Arrives(s', p, Hello(q)))
  {
    assert InTable(s, q);
    hide Inv, Enabled, Apply, InTable;
    if KeyOf(s.info[s.threads[t].job.p]) == KeyOf(s.info[q]) {
      ReplacedIsOwed(s, t, partners, q);
    } else {
      NewcomerMeets(s, t, partners, q);
    }
  }

  /** Live after a step is live before it, or just registered. */
  lemma LiveBefore(s: Hub, a: Action, p: PeerId)
    requires Inv(s) && Enabled(s, a) && Live(Apply(s, a), p)
    ensures Live(s, p) || (a.Register? && p == s.threads[a.t].job.p)
    ensures p in s.info && Apply(s, a).info[p] == s.info[p]
  {
    RegisteredStays(s, a);
    assert p in s.info;
    InfoStays(s, a, p);
    hide Enabled, Apply, Accounted, SweepsAreTotal, Guarded, Served, QueuesInOrder;
    if StoppedOrOwed(s, p) { SettledStays(s, a, p); }
  }

  lemma Symmetric(a: Admission, b: Admission)
    requires Meant(a, b)
    ensures Meant(b, a) && a != b
  {
  }

  lemma StepKeepsMet(s: Hub, a: Action)
    requires Inv(s) && Met(s) && Enabled(s, a)
    ensures Met(Apply(s, a))
  {
    var s' := Apply(s, a);
    assert Shape(s);
    hide Inv, Enabled, Apply, Live, Meant, Arrives, Shape;
    forall p, q | Live(s', p) && Live(s', q) && Meant(s'.info[p], s'.info[q]) ensures Arrives(s', p, Hello(q)) {
      LiveBefore(s, a, p);
      LiveBefore(s, a, q);
      Symmetric(s.info[p], s.info[q]);
      if Live(s, p) && Live(s, q) {
        ArrivalStays(s, a, p, Hello(q));
      } else if Live(s, q) {
        RegisterMeets(s, a.t, a.partners, q);
      } else {
        RegisterMeets(s, a.t, a.partners, p);
      }
    }
  }

  lemma {:induction false} RunKeepsMet(s: Hub, actions: seq<Action>, end: Hub)
    requires Inv(s) && Met(s) && Run(s, actions, end)
    ensures Met(end)
    decreases |actions|
  {
    hide Inv, Met, Enabled, Apply;
    if actions != [] {
      StepKeepsMet(s, actions[0]);
      StepKeepsInv(s, actions[0]);
      RunKeepsMet(Apply(s, actions[0]), actions[1..], end);
    }
  }

  /** In every reachable state, two live peers of one account in opposite roles that know each other
      have each other's greeting in their log, or a thread is still to put it there. */
  lemma PartnersMeet(actions: seq<Action>, s: Hub, p: PeerId, q: PeerId)
    requires Run(EMPTY, actions, s)
    requires p in s.registered && q in s.registered && p in s.info && q in s.info
    requires !StoppedOrOwed(s, p) && !StoppedOrOwed(s, q)
    requires s.info[p].userID == s.info[q].userID && s.info[p].role != s.info[q].role
    requires Knows(s.info[p], s.info[q]) && Knows(s.info[q], s.info[p])
    ensures (p in s.log && Hello(q) in s.log[p]) || Owes(s, p, Hello(q))
    ensures (q in s.log && Hello(p) in s.log[q]) || Owes(s, q, Hello(p))
  {
    assert Inv(EMPTY) && Met(EMPTY);
    RunKeepsMet(EMPTY, actions, s);
    hide Run, Inv, Owes, Knows;
    assert Meant(s.info[p], s.info[q]) && Meant(s.info[q], s.info[p]);
  }
}
