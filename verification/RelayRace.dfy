/** Every goroutine of the relay as it interleaves with the others: sockets being served, their
    authorization checks and lease timers, revocations that commit and then sweep the table, and
    shutdown. A section under the hub's mutex is one step; each stop and each enqueue that follows
    it is a step of its own. */
module RelayRace {
  import opened ConnectorTypes
  import opened RelayPeers

  datatype Task = StopPeer(p: PeerId) | Enqueue(p: PeerId, item: Item)

  /** Where ServeHTTP stands: before register; after it, working off its stops and hellos; reading
      frames; on its way out, before unregister; after it. */
  datatype Phase = Dialing | Registered | Reading | Leaving | Unregistered

  datatype Job =
    | Serve(p: PeerId, phase: Phase)
    | Watch(p: PeerId)                        // monitorAuthorization
    | Lease(p: PeerId, fired: bool)           // the authorization timer
    | Sweep(r: Revocation, scanned: bool)     // Hub.Disconnect after a commit
    | Shutdown

  datatype Thread = Thread(job: Job, todo: seq<Task>)

  datatype Hub = Hub(
    info: Info,                     // every peer ever made
    table: Table,
    registered: set<PeerId>,        // peers that ever stood in the table
    stopped: set<PeerId>,
    queue: map<PeerId, seq<Item>>,
    log: map<PeerId, seq<Item>>,    // everything ever put in a queue
    checked: set<PeerId>,           // peers whose first check has come to a verdict
    committed: set<Revocation>,
    threads: map<nat, Thread>,
    now: Time
  )

  const EMPTY: Hub := Hub(map[], map[], {}, {}, map[], map[], {}, {}, map[], 0)

  datatype Verdict = Granted | Denied | Transient

  datatype Action =
    | Admit(t: nat, p: PeerId, a: Admission)
    | Do(t: nat, pickDone: bool)
    | Register(t: nat, partners: seq<PeerId>)
    | StartServing(t: nat, watch: nat, lease: nat)
    | Forward(t: nat, keyID: string, message: seq<int>)
    | Leave(t: nat)
    | Unregister(t: nat, recipients: seq<PeerId>)
    | Check(t: nat, verdict: Verdict)
    | LeaseFires(t: nat)
    | Commit(t: nat, r: Revocation)
    | Scan(t: nat, matched: seq<PeerId>)
    | Close(t: nat, all: seq<PeerId>)
    | Write(p: PeerId)
    | Tick(later: Time)

  function Stops(ps: seq<PeerId>): seq<Task> {
    seq(|ps|, i requires 0 <= i < |ps| => StopPeer(ps[i]))
  }

  /** Each partner is told of the newcomer, then the newcomer of the partner. */
  function Hellos(partners: seq<PeerId>, p: PeerId): seq<Task> {
    if partners == [] then []
    else [Enqueue(partners[0], Hello(p)), Enqueue(p, Hello(partners[0]))] + Hellos(partners[1..], p)
  }

  function Offlines(recipients: seq<PeerId>, p: PeerId): seq<Task> {
    seq(|recipients|, i requires 0 <= i < |recipients| => Enqueue(recipients[i], Offline(p)))
  }

  ghost predicate Is(s: Hub, t: nat, job: Job) {
    t in s.threads && s.threads[t].job == job
  }

  ghost predicate Serving(s: Hub, t: nat, phase: Phase) {
    t in s.threads && s.threads[t].job.Serve? && s.threads[t].job.phase == phase && s.threads[t].job.p in s.info
  }

  ghost predicate TableKnown(s: Hub) {
    forall k :: k in s.table ==> s.table[k] in s.info
  }

  ghost predicate Enabled(s: Hub, a: Action) {
    match a
    case Admit(t, p, a) =>
      t !in s.threads && p !in s.info && ':' !in a.identity.keyID && s.now < a.authorizationExpiresAt
    case Do(t, _) =>
      && t in s.threads && s.threads[t].todo != []
      && !(s.threads[t].job.Serve? && s.threads[t].job.phase.Leaving?)
      && s.threads[t].todo[0].p in s.info && s.threads[t].todo[0].p in s.queue && s.threads[t].todo[0].p in s.log
    case Register(t, partners) =>
      && Serving(s, t, Dialing) && s.threads[t].todo == []
      && var p := s.threads[t].job.p;
         Lists(partners, Selected(RegisterTable(s.table, s.info, p), s.info, (b: Admission) => Partners(b, s.info[p])))
    case StartServing(t, watch, lease) =>
      && Serving(s, t, Registered) && s.threads[t].todo == []
      && watch !in s.threads && lease !in s.threads && watch != lease
    case Forward(t, keyID, _) =>
      Serving(s, t, Reading) && s.threads[t].todo == [] && ':' !in keyID && TableKnown(s)
    case Leave(t) => Serving(s, t, Reading) && s.threads[t].todo == []
    case Unregister(t, recipients) =>
      && Serving(s, t, Leaving)
      && var p := s.threads[t].job.p; var after := UnregisterTable(s.table, s.info, p);
         if after == s.table then recipients == []
         else Lists(recipients, Selected(after, s.info, (b: Admission) => HearsOffline(b, s.info[p])))
    case Check(t, verdict) =>
      && t in s.threads && s.threads[t].job.Watch? && s.threads[t].todo == [] && s.threads[t].job.p in s.info
      && (verdict.Granted? ==> forall r :: r in s.committed ==> !r.Covers(s.info[s.threads[t].job.p]))
    case LeaseFires(t) =>
      && t in s.threads && s.threads[t].job.Lease? && !s.threads[t].job.fired && s.threads[t].todo == []
      && s.threads[t].job.p in s.info && s.info[s.threads[t].job.p].authorizationExpiresAt <= s.now
    case Commit(t, _) => t !in s.threads
    case Scan(t, matched) =>
      && t in s.threads && s.threads[t].job.Sweep? && !s.threads[t].job.scanned && s.threads[t].todo == []
      && Lists(matched, Selected(s.table, s.info, (b: Admission) => s.threads[t].job.r.Covers(b)))
    case Close(t, all) =>
      t !in s.threads && Lists(all, Selected(s.table, s.info, (b: Admission) => true))
    case Write(p) => p in s.queue && s.queue[p] != []
    case Tick(later) => s.now <= later
  }

  ghost function With(s: Hub, t: nat, job: Job, todo: seq<Task>): Hub {
    s.(threads := s.threads[t := Thread(job, todo)])
  }

  /** One stop or one enqueue. */
  ghost function Done(s: Hub, task: Task, pickDone: bool): Hub
    requires task.p in s.queue && task.p in s.log
  {
    match task
    case StopPeer(p) => s.(stopped := s.stopped + {p})
    case Enqueue(p, item) =>
      var (send, stopped, ok) := EnqueueSpec(s.queue[p], p in s.stopped, item, pickDone);
      s.(queue := s.queue[p := send],
         stopped := if stopped then s.stopped + {p} else s.stopped,
         log := if ok then s.log[p := s.log[p] + [item]] else s.log)
  }

  ghost function Apply(s: Hub, a: Action): Hub
    requires Enabled(s, a)
  {
    match a
    case Admit(t, p, a) =>
      With(s.(info := s.info[p := a], queue := s.queue[p := []], log := s.log[p := []]),
           t, Serve(p, Dialing), [Enqueue(p, Ready)])
    case Do(t, pickDone) =>
      var th := s.threads[t];
      With(Done(s, th.todo[0], pickDone), t, th.job, th.todo[1..])
    case Register(t, partners) =>
      var p := s.threads[t].job.p;
      var key := KeyOf(s.info[p]);
      var evicted := if key in s.table then [StopPeer(s.table[key])] else [];
      With(s.(table := RegisterTable(s.table, s.info, p), registered := s.registered + {p}),
           t, Serve(p, Registered), evicted + Hellos(partners, p))
    case StartServing(t, watch, lease) =>
      var p := s.threads[t].job.p;
      With(With(With(s, t, Serve(p, Reading), []), watch, Watch(p), []), lease, Lease(p, false), [])
    case Forward(t, keyID, message) =>
      var p := s.threads[t].job.p;
      (match Route(s.table, s.info, p, keyID)
       case Rejected => With(s, t, Serve(p, Leaving), [StopPeer(p)])
       case NobodyThere => s
       case To(q) => With(s, t, Serve(p, Reading), [Enqueue(q, Frame(p, message))]))
    case Leave(t) => With(s, t, Serve(s.threads[t].job.p, Leaving), [StopPeer(s.threads[t].job.p)])
    case Unregister(t, recipients) =>
      var p := s.threads[t].job.p;
      With(s.(table := UnregisterTable(s.table, s.info, p)), t, Serve(p, Unregistered), Offlines(recipients, p) + [StopPeer(p)])
    case Check(t, verdict) =>
      var p := s.threads[t].job.p;
      (match verdict
       case Granted => s.(checked := s.checked + {p})
       case Denied => With(s.(checked := s.checked + {p}), t, Watch(p), [StopPeer(p)])
       case Transient => s)
    case LeaseFires(t) => With(s, t, Lease(s.threads[t].job.p, true), [StopPeer(s.threads[t].job.p)])
    case Commit(t, r) => With(s.(committed := s.committed + {r}), t, Sweep(r, false), [])
    case Scan(t, matched) => With(s, t, Sweep(s.threads[t].job.r, true), Stops(matched))
    case Close(t, all) => With(s.(table := map[]), t, Shutdown, Stops(all))
    case Write(p) => s.(queue := s.queue[p := s.queue[p][1..]])
    case Tick(later) => s.(now := later)
  }

  ghost predicate Run(s: Hub, actions: seq<Action>, end: Hub)
    decreases |actions|
  {
    if actions == [] then s == end
    else Enabled(s, actions[0]) && Run(Apply(s, actions[0]), actions[1..], end)
  }

  // ---------------------------------------------------------------- what every step keeps

  /** A thread still has to stop this peer. */
  ghost predicate StopOwed(s: Hub, p: PeerId) {
    exists t :: t in s.threads && StopPeer(p) in s.threads[t].todo
  }

  ghost predicate StoppedOrOwed(s: Hub, p: PeerId) {
    p in s.stopped || StopOwed(s, p)
  }

  ghost predicate InTable(s: Hub, p: PeerId) {
    p in s.info && KeyOf(s.info[p]) in s.table && s.table[KeyOf(s.info[p])] == p
  }

  /** What a queued item says about its receiver and the peer it speaks of. */
  ghost predicate ItemAllowed(info: Info, p: PeerId, item: Item) {
    p in info &&
    match item
    case Ready => true
    case Hello(q) => q in info && Partners(info[p], info[q])
    case Offline(q) => q in info && HearsOffline(info[p], info[q])
    case Frame(q, _) => q in info && Partners(info[q], info[p])
  }

  ghost predicate TaskAllowed(info: Info, task: Task) {
    task.p in info && (task.Enqueue? ==> ItemAllowed(info, task.p, task.item))
  }

  ghost predicate ThreadAllowed(s: Hub, th: Thread) {
    && (forall task :: task in th.todo ==> TaskAllowed(s.info, task))
    && match th.job
       case Serve(p, phase) =>
         && p in s.info && (phase.Dialing? <==> p !in s.registered)
         && (phase.Leaving? ==> th.todo == [StopPeer(p)])
         && (phase.Unregistered? ==> p in s.stopped || StopPeer(p) in th.todo)
       case Watch(p) => p in s.registered
       case Lease(p, fired) =>
         p in s.registered && (fired ==> p in s.stopped || StopPeer(p) in th.todo) && (!fired ==> th.todo == [])
       case Sweep(r, scanned) => r in s.committed && (!scanned ==> th.todo == [])
       case Shutdown => true
  }

  ghost predicate SetsOk(s: Hub) {
    && s.registered <= s.info.Keys && s.checked <= s.registered
    && s.queue.Keys == s.info.Keys && s.log.Keys == s.info.Keys
    && (forall p :: p in s.info ==> ':' !in s.info[p].identity.keyID)
  }

  ghost predicate TableOk(s: Hub) {
    forall k :: k in s.table ==> s.table[k] in s.registered && s.table[k] in s.info && KeyOf(s.info[s.table[k]]) == k
  }

  ghost predicate ThreadsOk(s: Hub) {
    forall t :: t in s.threads ==> ThreadAllowed(s, s.threads[t])
  }

  ghost predicate OneServer(s: Hub) {
    forall t, u :: t in s.threads && u in s.threads && t != u && s.threads[t].job.Serve? && s.threads[u].job.Serve? ==>
      s.threads[t].job.p != s.threads[u].job.p
  }

  ghost predicate LogsOk(s: Hub) {
    forall p, item :: p in s.log && item in s.log[p] ==> ItemAllowed(s.info, p, item)
  }

  ghost predicate Shape(s: Hub) {
    SetsOk(s) && TableOk(s) && ThreadsOk(s) && OneServer(s) && LogsOk(s)
  }

  /** Nothing slips out of the table unnoticed: every peer that ever registered is in the table,
      stopped, or owed a stop by its replacer, its own teardown, a sweep, its check, its lease or
      a shutdown. */
  ghost predicate Accounted(s: Hub) {
    forall p :: p in s.registered ==> InTable(s, p) || StoppedOrOwed(s, p)
  }

  predicate Scanned(job: Job, admission: Admission) {
    job.Sweep? && job.scanned && job.r.Covers(admission)
  }

  /** A sweep that has scanned leaves no covered peer behind that a check has let through. */
  ghost predicate SweepsAreTotal(s: Hub) {
    forall t, p :: t in s.threads && p in s.registered && p in s.info && Scanned(s.threads[t].job, s.info[p]) ==>
      StoppedOrOwed(s, p) || p !in s.checked
  }

  ghost predicate HasGuards(s: Hub, p: PeerId) {
    && (exists u :: u in s.threads && s.threads[u].job == Watch(p))
    && (exists u :: u in s.threads && s.threads[u].job.Lease? && s.threads[u].job.p == p)
  }

  /** A peer that is being served has its check and its lease running. */
  ghost predicate Guarded(s: Hub) {
    forall t :: t in s.threads && s.threads[t].job.Serve? && s.threads[t].job.phase.Reading? ==>
      HasGuards(s, s.threads[t].job.p)
  }

  ghost predicate HasServer(s: Hub, p: PeerId) {
    exists t :: t in s.threads && s.threads[t].job.Serve? && s.threads[t].job.p == p
  }

  /** A registered peer's ServeHTTP call is somewhere between register and its return. */
  ghost predicate Served(s: Hub) {
    forall p :: p in s.registered ==> HasServer(s, p)
  }

  /** What waits in a queue is the tail of what was put there: nothing is lost, repeated or
      reordered before the write pump takes it. */
  predicate Tail(queue: seq<Item>, log: seq<Item>) {
    |queue| <= QUEUE_CAPACITY && |queue| <= |log| && queue == log[|log| - |queue|..]
  }

  ghost predicate QueuesInOrder(s: Hub) {
    forall p :: p in s.queue && p in s.log ==> Tail(s.queue[p], s.log[p])
  }

  ghost predicate Inv(s: Hub) {
    Shape(s) && Accounted(s) && SweepsAreTotal(s) && Guarded(s) && Served(s) && QueuesInOrder(s)
  }

  lemma StoppedStays(s: Hub, a: Action)
    requires Enabled(s, a)
    ensures s.stopped <= Apply(s, a).stopped
  {
    hide Lists, Selected, Route, RegisterTable, UnregisterTable, Hellos, Offlines, Stops, KeyOf, EnqueueSpec;
  }

  /** Work once taken on is given up only by doing it or by unregistering. */
  lemma TodoStays(s: Hub, a: Action, t: nat)
    requires Enabled(s, a) && t in s.threads && s.threads[t].todo != [] && !a.Do? && !a.Unregister?
    ensures t in Apply(s, a).threads && Apply(s, a).threads[t].todo == s.threads[t].todo
  {
    hide Lists, Selected, Route, RegisterTable, UnregisterTable, Hellos, Offlines, Stops, KeyOf, EnqueueSpec;
  }

  lemma UnregisterStops(s: Hub, t: nat, recipients: seq<PeerId>)
    requires Enabled(s, Unregister(t, recipients))
    ensures StopPeer(s.threads[t].job.p) in Apply(s, Unregister(t, recipients)).threads[t].todo
  {
    var todo := Apply(s, Unregister(t, recipients)).threads[t].todo;
    assert todo[|todo| - 1] == StopPeer(s.threads[t].job.p);
  }

  lemma OwedStays(s: Hub, a: Action, p: PeerId)
    requires Shape(s) && Enabled(s, a) && StopOwed(s, p)
    ensures StoppedOrOwed(Apply(s, a), p)
  {
    var t :| t in s.threads && StopPeer(p) in s.threads[t].todo;
    if a.Do? && a.t == t {
      var todo := s.threads[t].todo;
      assert todo == [todo[0]] + todo[1..];
      assert Apply(s, a).threads[t].todo == todo[1..];
    } else if a.Unregister? && a.t == t {
      assert ThreadAllowed(s, s.threads[t]);
      UnregisterStops(s, t, a.recipients);
    } else if !a.Do? && !a.Unregister? {
      TodoStays(s, a, t);
    } else {
      assert Apply(s, a).threads[t] == s.threads[t];
    }
  }

  lemma SettledStays(s: Hub, a: Action, p: PeerId)
    requires Shape(s) && Enabled(s, a) && StoppedOrOwed(s, p)
    ensures StoppedOrOwed(Apply(s, a), p)
  {
    StoppedStays(s, a);
    if StopOwed(s, p) { OwedStays(s, a, p); }
  }

  // ---------------------------------------------------------------- Shape, step by step

  lemma ItemStays(info: Info, more: Info, p: PeerId, item: Item)
    requires ItemAllowed(info, p, item) && forall q :: q in info ==> q in more && more[q] == info[q]
    ensures ItemAllowed(more, p, item)
  {
  }

  lemma {:induction false} HellosAllowed(info: Info, partners: seq<PeerId>, p: PeerId)
    requires p in info && forall q :: q in partners ==> q in info && Partners(info[q], info[p])
    ensures forall task :: task in Hellos(partners, p) ==> TaskAllowed(info, task)
  {
    if partners != [] {
      assert partners[0] in partners;
      HellosAllowed(info, partners[1..], p);
    }
  }

  lemma LogsStay(s: Hub, s': Hub)
    requires LogsOk(s) && s'.info == s.info && s'.log == s.log
    ensures LogsOk(s')
  {
  }

  lemma TableRowsStay(s: Hub, s': Hub)
    requires TableOk(s) && s'.info == s.info && s'.table == s.table && s.registered <= s'.registered
    ensures TableOk(s')
  {
  }

  lemma RegisterKeepsShape(s: Hub, t: nat, partners: seq<PeerId>)
    requires Shape(s) && Enabled(s, Register(t, partners))
    ensures Shape(Apply(s, Register(t, partners)))
  {
    hide LogsOk;
    LogsStay(s, Apply(s, Register(t, partners)));
    var p := s.threads[t].job.p;
    HellosAllowed(s.info, partners, p);
  }

  lemma ForwardKeepsShape(s: Hub, t: nat, keyID: string, message: seq<int>)
    requires Shape(s) && Enabled(s, Forward(t, keyID, message))
    ensures Shape(Apply(s, Forward(t, keyID, message)))
  {
    hide LogsOk;
    LogsStay(s, Apply(s, Forward(t, keyID, message)));
    TableRowsStay(s, Apply(s, Forward(t, keyID, message)));
    var p := s.threads[t].job.p;
    var key := PeerKey(s.info[p].userID, keyID);
    if Route(s.table, s.info, p, keyID).To? {
      var q := s.info[s.table[key]];
      PeerKeyIsInjective(q.userID, q.identity.keyID, s.info[p].userID, keyID);
    }
  }

  lemma DoKeepsShape(s: Hub, t: nat, pickDone: bool)
    requires Shape(s) && Enabled(s, Do(t, pickDone))
    ensures Shape(Apply(s, Do(t, pickDone)))
  {
    hide LogsOk, ThreadsOk, TableOk;
    TableRowsStay(s, Apply(s, Do(t, pickDone)));
    DoKeepsLogs(s, t, pickDone);
    DoKeepsThreads(s, t, pickDone);
  }

  lemma DoKeepsThreads(s: Hub, t: nat, pickDone: bool)
    requires Shape(s) && Enabled(s, Do(t, pickDone))
    ensures ThreadsOk(Apply(s, Do(t, pickDone)))
  {
    hide LogsOk, TableOk, OneServer;
    var todo := s.threads[t].todo;
    assert todo == [todo[0]] + todo[1..];
    assert ThreadAllowed(s, s.threads[t]);
    var s' := Apply(s, Do(t, pickDone));
    forall u | u in s'.threads ensures ThreadAllowed(s', s'.threads[u]) {
      assert ThreadAllowed(s, s.threads[u]);
    }
  }

  lemma DoKeepsLogs(s: Hub, t: nat, pickDone: bool)
    requires Shape(s) && Enabled(s, Do(t, pickDone))
    ensures LogsOk(Apply(s, Do(t, pickDone)))
  {
    hide TableOk, OneServer;
    var th, s' := s.threads[t], Apply(s, Do(t, pickDone));
    var task := th.todo[0];
    assert TaskAllowed(s.info, task);
    forall p, item | p in s'.log && item in s'.log[p] ensures ItemAllowed(s'.info, p, item) {
      assert item in s.log[p] || (task.Enqueue? && p == task.p && item == task.item);
    }
  }

  lemma AdmitKeepsShape(s: Hub, t: nat, p: PeerId, a: Admission)
    requires Shape(s) && Enabled(s, Admit(t, p, a))
    ensures Shape(Apply(s, Admit(t, p, a)))
  {
    AdmitKeepsLogs(s, t, p, a);
    AdmitKeepsThreads(s, t, p, a);
    AdmitOneServer(s, t, p, a);
    hide LogsOk, ThreadsOk, OneServer;
  }

  lemma AdmitOneServer(s: Hub, t: nat, p: PeerId, a: Admission)
    requires Shape(s) && Enabled(s, Admit(t, p, a))
    ensures OneServer(Apply(s, Admit(t, p, a)))
  {
    hide LogsOk, TableOk;
  }

  lemma AdmitKeepsLogs(s: Hub, t: nat, p: PeerId, a: Admission)
    requires Shape(s) && Enabled(s, Admit(t, p, a))
    ensures LogsOk(Apply(s, Admit(t, p, a)))
  {
    hide ThreadsOk, TableOk, OneServer;
    var s' := Apply(s, Admit(t, p, a));
    forall q, item | q in s'.log && item in s'.log[q] ensures ItemAllowed(s'.info, q, item) {
      ItemStays(s.info, s'.info, q, item);
    }
  }

  lemma AdmitKeepsThreads(s: Hub, t: nat, p: PeerId, a: Admission)
    requires Shape(s) && Enabled(s, Admit(t, p, a))
    ensures ThreadsOk(Apply(s, Admit(t, p, a)))
  {
    hide LogsOk, TableOk, OneServer;
    var s' := Apply(s, Admit(t, p, a));
    forall u | u in s'.threads ensures ThreadAllowed(s', s'.threads[u]) {
      if u != t { assert ThreadAllowed(s, s.threads[u]); }
    }
  }

  lemma StopsAllowed(s: Hub, ps: seq<PeerId>)
    requires forall p :: p in ps ==> p in s.info
    ensures forall task :: task in Stops(ps) ==> TaskAllowed(s.info, task)
  {
    forall task | task in Stops(ps) ensures TaskAllowed(s.info, task) {
      var i :| 0 <= i < |ps| && Stops(ps)[i] == task;
      assert ps[i] in ps;
    }
  }

  /** A step that touches one thread leaves the conditions of all others standing. */
  lemma OtherThreads(s: Hub, s': Hub, t: nat)
    requires Shape(s) && s'.info == s.info && s'.registered == s.registered && s'.stopped == s.stopped && s'.committed == s.committed
    requires forall u :: u in s'.threads && u != t ==> u in s.threads && s'.threads[u] == s.threads[u]
    ensures forall u :: u in s'.threads && u != t ==> ThreadAllowed(s', s'.threads[u])
  {
    forall u | u in s'.threads && u != t ensures ThreadAllowed(s', s'.threads[u]) {
      assert ThreadAllowed(s, s.threads[u]);
    }
  }

  lemma UnregisterKeepsShape(s: Hub, t: nat, recipients: seq<PeerId>)
    requires Shape(s) && Enabled(s, Unregister(t, recipients))
    ensures Shape(Apply(s, Unregister(t, recipients)))
  {
    hide LogsOk;
    LogsStay(s, Apply(s, Unregister(t, recipients)));
    var p, s' := s.threads[t].job.p, Apply(s, Unregister(t, recipients));
    var todo := s'.threads[t].todo;
    assert todo[|todo| - 1] == StopPeer(p);
    forall task | task in todo ensures TaskAllowed(s.info, task) {
      var i :| 0 <= i < |todo| && todo[i] == task;
      if i < |recipients| { assert recipients[i] in recipients; }
    }
    OtherThreads(s, s', t);
  }

  lemma StepKeepsShape(s: Hub, a: Action)
    requires Shape(s) && Enabled(s, a)
    ensures Shape(Apply(s, a))
  {
    hide Shape, Apply, Enabled;
    match a
    case Admit(t, p, a) => AdmitKeepsShape(s, t, p, a);
    case Do(t, pickDone) => DoKeepsShape(s, t, pickDone);
    case Register(t, partners) => RegisterKeepsShape(s, t, partners);
    case StartServing(t, watch, lease) => StartKeepsShape(s, t, watch, lease);
    case Forward(t, keyID, message) => ForwardKeepsShape(s, t, keyID, message);
    case Leave(t) => LeaveKeepsShape(s, t);
    case Unregister(t, recipients) => UnregisterKeepsShape(s, t, recipients);
    case Check(t, verdict) => CheckKeepsShape(s, t, verdict);
    case LeaseFires(t) => LeaseKeepsShape(s, t);
    case Commit(t, r) => CommitKeepsShape(s, t, r);
    case Scan(t, matched) => ScanKeepsShape(s, t, matched);
    case Close(t, all) => CloseKeepsShape(s, t, all);
    case Write(p) => WriteKeepsShape(s, p);
    case Tick(later) => TickKeepsShape(s, later);
  }

  lemma WriteKeepsShape(s: Hub, p: PeerId)
    requires Shape(s) && Enabled(s, Write(p))
    ensures Shape(Apply(s, Write(p)))
  {
    hide LogsOk, TableOk;
    LogsStay(s, Apply(s, Write(p)));
    TableRowsStay(s, Apply(s, Write(p)));
  }

  lemma TickKeepsShape(s: Hub, later: Time)
    requires Shape(s) && Enabled(s, Tick(later))
    ensures Shape(Apply(s, Tick(later)))
  {
    hide LogsOk, TableOk;
    LogsStay(s, Apply(s, Tick(later)));
    TableRowsStay(s, Apply(s, Tick(later)));
  }

  lemma StartKeepsShape(s: Hub, t: nat, watch: nat, lease: nat)
    requires Shape(s) && Enabled(s, StartServing(t, watch, lease))
    ensures Shape(Apply(s, StartServing(t, watch, lease)))
  {
    hide LogsOk, TableOk;
    LogsStay(s, Apply(s, StartServing(t, watch, lease)));
    TableRowsStay(s, Apply(s, StartServing(t, watch, lease)));
  }

  lemma LeaveKeepsShape(s: Hub, t: nat)
    requires Shape(s) && Enabled(s, Leave(t))
    ensures Shape(Apply(s, Leave(t)))
  {
    hide LogsOk, TableOk;
    LogsStay(s, Apply(s, Leave(t)));
    TableRowsStay(s, Apply(s, Leave(t)));
  }

  lemma CheckKeepsShape(s: Hub, t: nat, verdict: Verdict)
    requires Shape(s) && Enabled(s, Check(t, verdict))
    ensures Shape(Apply(s, Check(t, verdict)))
  {
    hide LogsOk, TableOk;
    LogsStay(s, Apply(s, Check(t, verdict)));
    TableRowsStay(s, Apply(s, Check(t, verdict)));
  }

  lemma LeaseKeepsShape(s: Hub, t: nat)
    requires Shape(s) && Enabled(s, LeaseFires(t))
    ensures Shape(Apply(s, LeaseFires(t)))
  {
    hide LogsOk, TableOk;
    LogsStay(s, Apply(s, LeaseFires(t)));
    TableRowsStay(s, Apply(s, LeaseFires(t)));
  }

  lemma CommitKeepsShape(s: Hub, t: nat, r: Revocation)
    requires Shape(s) && Enabled(s, Commit(t, r))
    ensures Shape(Apply(s, Commit(t, r)))
  {
    hide LogsOk, TableOk;
    LogsStay(s, Apply(s, Commit(t, r)));
    TableRowsStay(s, Apply(s, Commit(t, r)));
  }

  lemma ScanKeepsShape(s: Hub, t: nat, matched: seq<PeerId>)
    requires Shape(s) && Enabled(s, Scan(t, matched))
    ensures Shape(Apply(s, Scan(t, matched)))
  {
    hide LogsOk, TableOk;
    LogsStay(s, Apply(s, Scan(t, matched)));
    TableRowsStay(s, Apply(s, Scan(t, matched)));
    StopsAllowed(s, matched);
  }

  lemma CloseKeepsShape(s: Hub, t: nat, all: seq<PeerId>)
    requires Shape(s) && Enabled(s, Close(t, all))
    ensures Shape(Apply(s, Close(t, all)))
  {
    hide LogsOk;
    LogsStay(s, Apply(s, Close(t, all)));
    StopsAllowed(s, all);
  }

  // ---------------------------------------------------------------- the other invariants

  lemma {:induction false} StopListed(ps: seq<PeerId>, p: PeerId)
    requires p in ps
    ensures StopPeer(p) in Stops(ps)
  {
    var i :| 0 <= i < |ps| && ps[i] == p;
    assert Stops(ps)[i] == StopPeer(p);
  }

  lemma RegisterKeepsAccounted(s: Hub, t: nat, partners: seq<PeerId>, p: PeerId)
    requires Shape(s) && Accounted(s) && Enabled(s, Register(t, partners)) && p in s.registered
    ensures var s' := Apply(s, Register(t, partners)); InTable(s', p) || StoppedOrOwed(s', p)
  {
    var s' := Apply(s, Register(t, partners));
    if !InTable(s, p) {
      SettledStays(s, Register(t, partners), p);
    } else if !InTable(s', p) {
      assert s'.threads[t].todo[0] == StopPeer(p);
    }
  }

  lemma UnregisterKeepsAccounted(s: Hub, t: nat, recipients: seq<PeerId>, p: PeerId)
    requires Shape(s) && Accounted(s) && Enabled(s, Unregister(t, recipients)) && p in s.registered
    ensures var s' := Apply(s, Unregister(t, recipients)); InTable(s', p) || StoppedOrOwed(s', p)
  {
    var s' := Apply(s, Unregister(t, recipients));
    if !InTable(s, p) {
      SettledStays(s, Unregister(t, recipients), p);
    } else if !InTable(s', p) {
      var todo := s'.threads[t].todo;
      assert todo[|todo| - 1] == StopPeer(p);
    }
  }

  lemma CloseKeepsAccounted(s: Hub, t: nat, all: seq<PeerId>, p: PeerId)
    requires Shape(s) && Accounted(s) && Enabled(s, Close(t, all)) && p in s.registered
    ensures StoppedOrOwed(Apply(s, Close(t, all)), p)
  {
    if InTable(s, p) {
      assert s.table[KeyOf(s.info[p])] in s.table.Values;
      StopListed(all, p);
      assert Apply(s, Close(t, all)).threads[t].todo == Stops(all);
    } else {
      SettledStays(s, Close(t, all), p);
    }
  }

  lemma TableStays(s: Hub, a: Action, p: PeerId)
    requires Enabled(s, a) && !a.Register? && !a.Unregister? && !a.Close? && InTable(s, p)
    ensures InTable(Apply(s, a), p)
  {
  }

  lemma RegisteredStays(s: Hub, a: Action)
    requires Enabled(s, a)
    ensures s.registered <= Apply(s, a).registered
    ensures Apply(s, a).registered <= s.registered + if a.Register? then {s.threads[a.t].job.p} else {}
  {
    hide Lists, Selected, Route, RegisterTable, UnregisterTable, Hellos, Offlines, Stops, KeyOf, EnqueueSpec;
  }

  lemma StepKeepsAccounted(s: Hub, a: Action)
    requires Shape(s) && Accounted(s) && Enabled(s, a)
    ensures Accounted(Apply(s, a))
  {
    var s' := Apply(s, a);
    RegisteredStays(s, a);
    forall p | p in s'.registered ensures InTable(s', p) || StoppedOrOwed(s', p) {
      if p !in s.registered {
        assert a.Register? && InTable(s', p);
      } else if a.Register? {
        RegisterKeepsAccounted(s, a.t, a.partners, p);
      } else if a.Unregister? {
        UnregisterKeepsAccounted(s, a.t, a.recipients, p);
      } else if a.Close? {
        CloseKeepsAccounted(s, a.t, a.all, p);
      } else if InTable(s, p) {
        TableStays(s, a, p);
      } else {
        SettledStays(s, a, p);
      }
    }
  }

  /** The scan itself: whoever is covered and registered by now is in the table or settled. */
  lemma ScanSettles(s: Hub, t: nat, matched: seq<PeerId>, p: PeerId)
    requires Shape(s) && Accounted(s) && Enabled(s, Scan(t, matched))
    requires p in s.registered && s.threads[t].job.r.Covers(s.info[p])
    ensures StoppedOrOwed(Apply(s, Scan(t, matched)), p)
  {
    if InTable(s, p) {
      assert s.table[KeyOf(s.info[p])] in s.table.Values;
      StopListed(matched, p);
      assert Apply(s, Scan(t, matched)).threads[t].todo == Stops(matched);
    } else {
      SettledStays(s, Scan(t, matched), p);
    }
  }

  /** A first check that comes to a verdict after a commit either stops the peer or was never
      about a covered one. */
  lemma CheckSettles(s: Hub, t: nat, verdict: Verdict, p: PeerId)
    requires Shape(s) && Enabled(s, Check(t, verdict)) && p !in s.checked && p in s.registered
    requires exists r :: r in s.committed && r.Covers(s.info[p])
    ensures var s' := Apply(s, Check(t, verdict)); p !in s'.checked || StoppedOrOwed(s', p)
  {
    var s' := Apply(s, Check(t, verdict));
    if p in s'.checked {
      assert s'.threads[t].todo[0] == StopPeer(p);
    }
  }

  /** A job of sweeping is the same sweep before and after; only a scan marks it scanned. */
  lemma SweepBefore(s: Hub, a: Action, t: nat)
    requires Enabled(s, a) && t in Apply(s, a).threads
    requires Apply(s, a).threads[t].job.Sweep? && Apply(s, a).threads[t].job.scanned
    ensures t in s.threads && s.threads[t].job.Sweep? && s.threads[t].job.r == Apply(s, a).threads[t].job.r
    ensures (a.Scan? && a.t == t) || s.threads[t].job.scanned
  {
    hide Lists, Selected, Route, RegisterTable, UnregisterTable, Hellos, Offlines, Stops, KeyOf, EnqueueSpec;
  }

  lemma CheckedBefore(s: Hub, a: Action)
    requires Enabled(s, a)
    ensures Apply(s, a).checked <= s.checked + if a.Check? then {s.threads[a.t].job.p} else {}
  {
    hide Lists, Selected, Route, RegisterTable, UnregisterTable, Hellos, Offlines, Stops, KeyOf, EnqueueSpec;
  }

  lemma InfoStays(s: Hub, a: Action, p: PeerId)
    requires Enabled(s, a) && p in s.info
    ensures p in Apply(s, a).info && Apply(s, a).info[p] == s.info[p]
  {
    hide Lists, Selected, Route, RegisterTable, UnregisterTable, Hellos, Offlines, Stops, KeyOf, EnqueueSpec;
  }

  /** Who is newly scanned, and who newly checked. */
  lemma ScanOrCheck(s: Hub, a: Action, t: nat, p: PeerId)
    requires Shape(s) && Enabled(s, a) && t in Apply(s, a).threads && p in Apply(s, a).checked && p in Apply(s, a).info
    requires Scanned(Apply(s, a).threads[t].job, Apply(s, a).info[p])
    ensures p in s.registered && t in s.threads && s.threads[t].job.Sweep? && s.threads[t].job.r == Apply(s, a).threads[t].job.r
    ensures s.threads[t].job.r.Covers(s.info[p]) && s.threads[t].job.r in s.committed
    ensures (a.Scan? && a.t == t) || s.threads[t].job.scanned
    ensures p in s.checked || a.Check?
  {
    SweepBefore(s, a, t);
    CheckedBefore(s, a);
    assert ThreadAllowed(s, s.threads[t]);
    assert a.Check? ==> ThreadAllowed(s, s.threads[a.t]);
    InfoStays(s, a, p);
  }

  lemma StepKeepsSweeps(s: Hub, a: Action)
    requires Shape(s) && Accounted(s) && SweepsAreTotal(s) && Enabled(s, a)
    ensures SweepsAreTotal(Apply(s, a))
  {
    var s' := Apply(s, a);
    forall t, p | t in s'.threads && p in s'.registered && p in s'.info && Scanned(s'.threads[t].job, s'.info[p])
      ensures StoppedOrOwed(s', p) || p !in s'.checked
    {
      if p in s'.checked {
        ScanOrCheck(s, a, t, p);
        if StoppedOrOwed(s, p) {
          SettledStays(s, a, p);
        } else if a.Scan? && a.t == t {
          ScanSettles(s, t, a.matched, p);
        } else if p !in s.checked {
          CheckSettles(s, a.t, a.verdict, p);
        }
      }
    }
  }

  /** A thread never changes its kind, nor whom it is about. */
  lemma JobsStay(s: Hub, a: Action, u: nat)
    requires Enabled(s, a) && u in s.threads
    ensures u in Apply(s, a).threads
    ensures s.threads[u].job.Watch? ==> Apply(s, a).threads[u].job == s.threads[u].job
    ensures s.threads[u].job.Lease? ==> Apply(s, a).threads[u].job.Lease? && Apply(s, a).threads[u].job.p == s.threads[u].job.p
  {
    hide Lists, Selected, Route, RegisterTable, UnregisterTable, Hellos, Offlines, Stops, KeyOf, EnqueueSpec;
  }

  lemma ServersStay(s: Hub, a: Action, u: nat)
    requires Enabled(s, a) && u in s.threads && s.threads[u].job.Serve?
    ensures u in Apply(s, a).threads && Apply(s, a).threads[u].job.Serve? && Apply(s, a).threads[u].job.p == s.threads[u].job.p
  {
    hide Lists, Selected, Route, RegisterTable, UnregisterTable, Hellos, Offlines, Stops, KeyOf, EnqueueSpec;
  }

  lemma GuardsStay(s: Hub, a: Action, p: PeerId)
    requires Shape(s) && Enabled(s, a) && HasGuards(s, p)
    ensures HasGuards(Apply(s, a), p)
  {
    var u :| u in s.threads && s.threads[u].job == Watch(p);
    JobsStay(s, a, u);
    var v :| v in s.threads && s.threads[v].job.Lease? && s.threads[v].job.p == p;
    JobsStay(s, a, v);
  }

  lemma ReadingBefore(s: Hub, a: Action, t: nat)
    requires Enabled(s, a) && t in Apply(s, a).threads && Apply(s, a).threads[t].job.Serve? && Apply(s, a).threads[t].job.phase.Reading?
    ensures (a.StartServing? && a.t == t && Apply(s, a).threads[t].job.p == s.threads[t].job.p)
      || (t in s.threads && s.threads[t].job == Apply(s, a).threads[t].job)
  {
    hide Lists, Selected, Route, RegisterTable, UnregisterTable, Hellos, Offlines, Stops, KeyOf, EnqueueSpec;
  }

  lemma StepKeepsGuarded(s: Hub, a: Action)
    requires Shape(s) && Guarded(s) && Enabled(s, a)
    ensures Guarded(Apply(s, a))
  {
    var s' := Apply(s, a);
    forall t | t in s'.threads && s'.threads[t].job.Serve? && s'.threads[t].job.phase.Reading?
      ensures HasGuards(s', s'.threads[t].job.p)
    {
      ReadingBefore(s, a, t);
      if a.StartServing? && a.t == t {
        assert s'.threads[a.watch].job == Watch(s'.threads[t].job.p);
        assert s'.threads[a.lease].job == Lease(s'.threads[t].job.p, false);
      } else {
        GuardsStay(s, a, s'.threads[t].job.p);
      }
    }
  }

  lemma StepKeepsServed(s: Hub, a: Action)
    requires Served(s) && Enabled(s, a)
    ensures Served(Apply(s, a))
  {
    var s' := Apply(s, a);
    RegisteredStays(s, a);
    forall p | p in s'.registered ensures HasServer(s', p) {
      if p in s.registered {
        var u :| u in s.threads && s.threads[u].job.Serve? && s.threads[u].job.p == p;
        ServersStay(s, a, u);
      } else {
        ServersStay(s, a, a.t);
      }
    }
  }

  lemma DoneKeepsTail(s: Hub, task: Task, pickDone: bool)
    requires QueuesInOrder(s) && task.p in s.queue && task.p in s.log
    ensures QueuesInOrder(Done(s, task, pickDone))
  {
    assert Tail(s.queue[task.p], s.log[task.p]);
    var s' := Done(s, task, pickDone);
    forall p | p in s'.queue && p in s'.log ensures Tail(s'.queue[p], s'.log[p]) {
      assert p in s.queue && p in s.log && Tail(s.queue[p], s.log[p]);
    }
  }

  /** Only a new peer, a single enqueue and the write pump touch a queue. */
  lemma StepKeepsQueues(s: Hub, a: Action)
    requires QueuesInOrder(s) && Enabled(s, a)
    ensures QueuesInOrder(Apply(s, a))
  {
    if a.Do? {
      DoneKeepsTail(s, s.threads[a.t].todo[0], a.pickDone);
    } else if a.Write? {
      assert a.p in s.log ==> Tail(s.queue[a.p], s.log[a.p]);
    }
  }

  lemma {:induction false} RunKeepsInv(s: Hub, actions: seq<Action>, end: Hub)
    requires Inv(s) && Run(s, actions, end)
    ensures Inv(end)
    decreases |actions|
  {
    if actions != [] {
      StepKeepsShape(s, actions[0]);
      StepKeepsAccounted(s, actions[0]);
      StepKeepsSweeps(s, actions[0]);
      StepKeepsGuarded(s, actions[0]);
      StepKeepsServed(s, actions[0]);
      StepKeepsQueues(s, actions[0]);
      RunKeepsInv(Apply(s, actions[0]), actions[1..], end);
    }
  }

  // ---------------------------------------------------------------- theorems over every run

  ghost predicate Starting(s: Hub, p: PeerId) {
    exists t :: Is(s, t, Serve(p, Registered))
  }

  /** A registered peer nobody has stopped or is about to stop is either still between register
      and its read loop, or has its check and its lease running. */
  lemma UnsettledIsGuarded(s: Hub, p: PeerId)
    requires Inv(s) && p in s.registered && !StoppedOrOwed(s, p)
    ensures Starting(s, p) || HasGuards(s, p)
  {
    var t :| t in s.threads && s.threads[t].job.Serve? && s.threads[t].job.p == p;
    assert ThreadAllowed(s, s.threads[t]);
    var phase := s.threads[t].job.phase;
    assert phase.Registered? ==> Is(s, t, Serve(p, Registered));
  }

  /** Once a revocation has been committed and its sweep has read the table, every registered peer
      it covers is stopped, or some thread still owes it that stop, or its first check has not
      come to a verdict; in the last case that check and the lease are running or about to start.
      This holds at every moment of every interleaving with registration, replacement, teardown
      and shutdown. */
  lemma RevocationReachesEveryPeer(actions: seq<Action>, s: Hub, t: nat, p: PeerId)
    requires Run(EMPTY, actions, s)
    requires t in s.threads && p in s.registered && p in s.info && Scanned(s.threads[t].job, s.info[p])
    ensures p in s.stopped || StopOwed(s, p) || (p !in s.checked && (Starting(s, p) || HasGuards(s, p)))
  {
    RunKeepsInv(EMPTY, actions, s);
    if !StoppedOrOwed(s, p) { UnsettledIsGuarded(s, p); }
  }

  /** When all owed stops have been made and the first check has come to a verdict, the covered
      peer is stopped. */
  lemma RevocationTakesEffect(actions: seq<Action>, s: Hub, t: nat, p: PeerId)
    requires Run(EMPTY, actions, s)
    requires t in s.threads && p in s.registered && p in s.info && Scanned(s.threads[t].job, s.info[p])
    requires p in s.checked && !StopOwed(s, p)
    ensures p in s.stopped
  {
    RunKeepsInv(EMPTY, actions, s);
  }

  /** The same told by what the revocation names: a sweep stops the peers of the device, the connector,
      the session or the whole account it names. */
  lemma SweptPeersAreStopped(actions: seq<Action>, s: Hub, t: nat, p: PeerId)
    requires Run(EMPTY, actions, s)
    requires t in s.threads && p in s.registered && p in s.info && s.info[p].userID != ""
    requires var a, job := s.info[p], s.threads[t].job;
      || job == Sweep(Revocation(a.userID, None, None, None), true)
      || (a.role.Connector? && job == Sweep(Revocation(a.userID, Some(a.subjectID), None, None), true))
      || (a.role.Client? && job == Sweep(Revocation(a.userID, None, Some(a.subjectID), None), true))
      || (a.role.Client? && a.sessionID.Some? && job == Sweep(Revocation(a.userID, None, None, a.sessionID), true))
    requires p in s.checked && !StopOwed(s, p)
    ensures p in s.stopped
  {
    hide Run, StopOwed;
    RevocationTakesEffect(actions, s, t, p);
  }

  /** A peer whose revocation was committed before its first verdict never gets through that
      check, however the sweep is scheduled. */
  lemma {:induction false} CoveredBeforeItsCheck(s: Hub, actions: seq<Action>, end: Hub, r: Revocation, p: PeerId)
    requires Inv(s) && Run(s, actions, end)
    requires p in s.info && r in s.committed && r.Covers(s.info[p]) && (p !in s.checked || StoppedOrOwed(s, p))
    ensures p !in end.checked || StoppedOrOwed(end, p)
    decreases |actions|
  {
    if actions != [] {
      var a := actions[0];
      InfoStays(s, a, p);
      CommittedStays(s, a);
      if StoppedOrOwed(s, p) {
        SettledStays(s, a, p);
      } else if p in Apply(s, a).checked {
        CheckedBefore(s, a);
        assert ThreadAllowed(s, s.threads[a.t]);
        CheckSettles(s, a.t, a.verdict, p);
      }
      RunKeepsInv(s, [a], Apply(s, a));
      CoveredBeforeItsCheck(Apply(s, a), actions[1..], end, r, p);
    }
  }

  lemma CommittedStays(s: Hub, a: Action)
    requires Enabled(s, a)
    ensures s.committed <= Apply(s, a).committed
  {
    hide Lists, Selected, Route, RegisterTable, UnregisterTable, Hellos, Offlines, Stops, KeyOf, EnqueueSpec;
  }

  /** Checks may fail for as long as they like: once the authorization has run out, a peer that is
      being served and that nobody stops has its lease ready to fire, and a fired lease is a stop. */
  lemma LeaseEndsService(actions: seq<Action>, s: Hub, p: PeerId)
    requires Run(EMPTY, actions, s) && p in s.registered && p in s.info && s.info[p].authorizationExpiresAt <= s.now
    ensures p in s.stopped || StopOwed(s, p) || Starting(s, p)
      || (exists t :: Enabled(s, LeaseFires(t)) && s.threads[t].job.p == p && StopOwed(Apply(s, LeaseFires(t)), p))
  {
    RunKeepsInv(EMPTY, actions, s);
    if !StoppedOrOwed(s, p) && !Starting(s, p) {
      UnsettledIsGuarded(s, p);
      var t :| t in s.threads && s.threads[t].job.Lease? && s.threads[t].job.p == p;
      assert ThreadAllowed(s, s.threads[t]);
      assert Enabled(s, LeaseFires(t));
      assert Apply(s, LeaseFires(t)).threads[t].todo[0] == StopPeer(p);
    }
  }

  /** Of two peers that registered for one account under one identity, at most one is neither
      stopped nor owed a stop. */
  lemma OneLivePeerPerIdentity(actions: seq<Action>, s: Hub, p: PeerId, q: PeerId)
    requires Run(EMPTY, actions, s) && p in s.registered && q in s.registered && p != q
    requires p in s.info && q in s.info
    requires s.info[p].userID == s.info[q].userID && s.info[p].identity.keyID == s.info[q].identity.keyID
    ensures StoppedOrOwed(s, p) || StoppedOrOwed(s, q)
  {
    RunKeepsInv(EMPTY, actions, s);
  }

  /** Every frame a peer was ever sent came from a peer of its account in the opposite role, each
      in the other's trust snapshot; so did every hello. An offline notice needs only the
      receiver's trust. */
  lemma FramesAreMutual(actions: seq<Action>, s: Hub, p: PeerId, item: Item)
    requires Run(EMPTY, actions, s) && p in s.log && item in s.log[p] && !item.Ready?
    ensures p in s.info && item.from in s.info
    ensures s.info[item.from].userID == s.info[p].userID && s.info[item.from].role != s.info[p].role
    ensures Trusts(s.info[p], s.info[item.from].identity.keyID)
    ensures !item.Offline? ==> Trusts(s.info[item.from], s.info[p].identity.keyID)
  {
    RunKeepsInv(EMPTY, actions, s);
    assert ItemAllowed(s.info, p, item);
  }

  /** Queues stay within their capacity and hold the newest part of what was put in, in order. */
  lemma DeliveryIsInOrder(actions: seq<Action>, s: Hub, p: PeerId)
    requires Run(EMPTY, actions, s) && p in s.info
    ensures p in s.queue && p in s.log && |s.queue[p]| <= QUEUE_CAPACITY
    ensures |s.queue[p]| <= |s.log[p]| && s.queue[p] == s.log[p][|s.log[p]| - |s.queue[p]|..]
  {
    RunKeepsInv(EMPTY, actions, s);
    assert Tail(s.queue[p], s.log[p]);
  }

  // ---------------------------------------------------------------- a run in which it happens

  /** A peer is admitted, gets its ready message queued and registers; then a revocation commits,
      sweeps and stops it. */
  function SweptRun(a: Admission, r: Revocation): seq<Action> {
    [Admit(0, 0, a), Do(0, false), Register(0, []), Commit(1, r), Scan(1, [0]), Do(1, false)]
  }

  /** Admitted, its ready message queued, about to register. */
  ghost predicate Joined(s: Hub, a: Admission) {
    && Enabled(s, Register(0, [])) && s.info == map[0 := a] && s.table == map[]
    && s.threads == map[0 := Thread(Serve(0, Dialing), [])] && s.queue == map[0 := [Ready]] && s.log == map[0 := [Ready]]
  }

  lemma Registering(s: Hub, a: Admission)
    requires Joined(s, a)
    ensures var t := Apply(s, Register(0, []));
      t.info == map[0 := a] && t.table == map[KeyOf(a) := 0] && 1 !in t.threads && 0 in t.queue && 0 in t.log && 0 in t.registered
  {
  }

  lemma Joining(a: Admission)
    requires ':' !in a.identity.keyID && 0 < a.authorizationExpiresAt && !Partners(a, a)
    ensures var s1 := Apply(EMPTY, Admit(0, 0, a));
      && Enabled(EMPTY, Admit(0, 0, a)) && Enabled(s1, Do(0, false))
      && Joined(Apply(s1, Do(0, false)), a)
  {
    var s1 := Apply(EMPTY, Admit(0, 0, a));
    var s2 := Apply(s1, Do(0, false));
    assert s2.log[0] == [Ready];
    assert Selected(RegisterTable(s2.table, s2.info, 0), s2.info, (b: Admission) => Partners(b, s2.info[0])) == {};
  }

  lemma Sweeping(s: Hub, a: Admission, r: Revocation)
    requires s.info == map[0 := a] && s.table == map[KeyOf(a) := 0] && 1 !in s.threads && r.Covers(a)
    requires 0 in s.queue && 0 in s.log && 0 in s.registered
    ensures var s4 := Apply(s, Commit(1, r));
      && Enabled(s, Commit(1, r)) && Enabled(s4, Scan(1, [0]))
      && var s5 := Apply(s4, Scan(1, [0]));
      && Enabled(s5, Do(1, false))
      && var end := Apply(s5, Do(1, false));
      && 0 in end.stopped && 0 in end.registered && end.info == map[0 := a]
  {
    var s4 := Apply(s, Commit(1, r));
    assert s4.table.Values == {0} by { assert s4.table[KeyOf(a)] == 0; }
    assert Selected(s4.table, s4.info, (b: Admission) => r.Covers(b)) == {0};
    assert Stops([0])[0] == StopPeer(0);
  }

  /** The guarantees above are about something: this run exists, and in its end the covered peer
      has registered and is stopped. */
  lemma SweptRunExists(a: Admission, r: Revocation) returns (end: Hub)
    requires ':' !in a.identity.keyID && 0 < a.authorizationExpiresAt && r.Covers(a)
    ensures Run(EMPTY, SweptRun(a, r), end) && 0 in end.registered && 0 in end.stopped && end.info == map[0 := a]
  {
    Joining(a);
    var s1 := Apply(EMPTY, Admit(0, 0, a));
    var s2 := Apply(s1, Do(0, false));
    Registering(s2, a);
    var s3 := Apply(s2, Register(0, []));
    hide Enabled, Apply;
    Sweeping(s3, a, r);
    var s4 := Apply(s3, Commit(1, r));
    var s5 := Apply(s4, Scan(1, [0]));
    end := Apply(s5, Do(1, false));
    RunOfSix(EMPTY, SweptRun(a, r), s1, s2, s3, s4, s5, end);
  }

  /** In particular for a device that is revoked, a connector that is revoked, and a session that ends. */
  lemma SweptRunsExist(a: Admission) returns (byRow: Hub, bySession: Hub)
    requires ':' !in a.identity.keyID && 0 < a.authorizationExpiresAt && a.userID != ""
    ensures var r := if a.role.Client? then Revocation(a.userID, None, Some(a.subjectID), None)
                     else Revocation(a.userID, Some(a.subjectID), None, None);
      Run(EMPTY, SweptRun(a, r), byRow) && 0 in byRow.registered && 0 in byRow.stopped && byRow.info == map[0 := a]
    ensures a.role.Client? && a.sessionID.Some? ==>
      && Run(EMPTY, SweptRun(a, Revocation(a.userID, None, None, a.sessionID)), bySession)
      && 0 in bySession.registered && 0 in bySession.stopped && bySession.info == map[0 := a]
  {
    byRow := SweptRunExists(a, if a.role.Client? then Revocation(a.userID, None, Some(a.subjectID), None)
                               else Revocation(a.userID, Some(a.subjectID), None, None));
    hide Run, SweptRun;
    bySession := byRow;
    if a.role.Client? && a.sessionID.Some? { bySession := SweptRunExists(a, Revocation(a.userID, None, None, a.sessionID)); }
  }

  lemma RunOfSix(s: Hub, actions: seq<Action>, s1: Hub, s2: Hub, s3: Hub, s4: Hub, s5: Hub, end: Hub)
    requires |actions| == 6
    requires Enabled(s, actions[0]) && Apply(s, actions[0]) == s1 && Enabled(s1, actions[1]) && Apply(s1, actions[1]) == s2
    requires Enabled(s2, actions[2]) && Apply(s2, actions[2]) == s3 && Enabled(s3, actions[3]) && Apply(s3, actions[3]) == s4
    requires Enabled(s4, actions[4]) && Apply(s4, actions[4]) == s5 && Enabled(s5, actions[5]) && Apply(s5, actions[5]) == end
    ensures Run(s, actions, end)
  {
    hide Enabled, Apply;
    assert Run(end, actions[6..], end);
    assert Run(s5, actions[5..], end);
    assert actions[4..][1..] == actions[5..] && Run(s4, actions[4..], end);
    assert actions[3..][1..] == actions[4..] && Run(s3, actions[3..], end);
    assert actions[2..][1..] == actions[3..] && Run(s2, actions[2..], end);
    assert actions[1..][1..] == actions[2..] && Run(s1, actions[1..], end);
  }
}
