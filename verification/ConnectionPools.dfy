/** Connection use of the two modules (cmd/server/setup.go).

    A connector transaction holds one connector connection from start to finish and, while
    holding it, asks the identity module `calls` questions one after another; each question
    borrows an identity connection. An identity transaction borrows one identity connection.
    The layout says whether the two modules draw from two pools or from one. */
module ConnectionPools {

  datatype Pool = IdentityPool | ConnectorPool

  datatype Layout =
    | Separate(identity: nat, connectors: nat)
    | Shared(size: nat)

  datatype Phase = Waiting | Holding | Calling | Finished

  datatype Transaction = Transaction(home: Pool, phase: Phase, calls: nat)

  /** One scheduling step. A denied call makes the caller give up its remaining calls. */
  datatype Action =
    | Start(i: nat)
    | Call(i: nat)
    | Return(i: nat, denied: bool)
    | Finish(i: nat)

  function PoolOf(l: Layout, p: Pool): Pool {
    if l.Shared? then IdentityPool else p
  }

  function Size(l: Layout, p: Pool): nat {
    match l
    case Shared(n) => n
    case Separate(i, c) => if p == IdentityPool then i else c
  }

  /** Connections of pool `q` that one transaction holds. */
  function Weight(l: Layout, t: Transaction, q: Pool): nat {
    (if (t.phase.Holding? || t.phase.Calling?) && PoolOf(l, t.home) == q then 1 else 0) +
    (if t.phase.Calling? && PoolOf(l, IdentityPool) == q then 1 else 0)
  }

  function InUse(l: Layout, ts: seq<Transaction>, q: Pool): nat {
    if ts == [] then 0 else InUse(l, ts[..|ts| - 1], q) + Weight(l, ts[|ts| - 1], q)
  }

  predicate Free(l: Layout, ts: seq<Transaction>, p: Pool) {
    InUse(l, ts, PoolOf(l, p)) < Size(l, PoolOf(l, p))
  }

  /** Only connector transactions call, and a calling transaction has a call to make. */
  predicate WellFormed(ts: seq<Transaction>) {
    forall i :: 0 <= i < |ts| ==>
      && (ts[i].home == IdentityPool ==> ts[i].calls == 0)
      && (ts[i].phase.Calling? ==> ts[i].calls > 0)
  }

  predicate Enabled(l: Layout, ts: seq<Transaction>, a: Action) {
    a.i < |ts| &&
    match a
    case Start(i) => ts[i].phase.Waiting? && Free(l, ts, ts[i].home)
    case Call(i) => ts[i].phase.Holding? && ts[i].calls > 0 && Free(l, ts, IdentityPool)
    case Return(i, _) => ts[i].phase.Calling?
    case Finish(i) => ts[i].phase.Holding? && ts[i].calls == 0
  }

  function After(t: Transaction, a: Action): Transaction {
    match a
    case Start(_) => t.(phase := Holding)
    case Call(_) => t.(phase := Calling)
    case Return(_, denied) =>
      t.(phase := Holding, calls := if denied || t.calls == 0 then 0 else t.calls - 1)
    case Finish(_) => t.(phase := Finished)
  }

  function Apply(ts: seq<Transaction>, a: Action): seq<Transaction>
    requires a.i < |ts|
  {
    ts[a.i := After(ts[a.i], a)]
  }

  predicate AllFinished(ts: seq<Transaction>) {
    forall i :: 0 <= i < |ts| ==> ts[i].phase.Finished?
  }

  predicate AllWaiting(ts: seq<Transaction>) {
    forall i :: 0 <= i < |ts| ==> ts[i].phase.Waiting?
  }

  ghost predicate Stuck(l: Layout, ts: seq<Transaction>) {
    !AllFinished(ts) && forall a :: !Enabled(l, ts, a)
  }

  /** `actions` can be performed one after another from `ts`, ending in `end`. */
  ghost predicate Run(l: Layout, ts: seq<Transaction>, actions: seq<Action>, end: seq<Transaction>)
    decreases |actions|
  {
    if actions == [] then ts == end
    else Enabled(l, ts, actions[0]) && Run(l, Apply(ts, actions[0]), actions[1..], end)
  }

  // ---------------------------------------------------------------- bookkeeping

  function Work(ts: seq<Transaction>): nat {
    if ts == [] then 0 else Work(ts[..|ts| - 1]) + WorkOf(ts[|ts| - 1])
  }

  function WorkOf(t: Transaction): nat {
    match t.phase
    case Waiting => 2 * t.calls + 2
    case Holding => 2 * t.calls + 1
    case Calling => 2 * t.calls
    case Finished => 0
  }

  lemma {:induction false} InUseUpdate(l: Layout, ts: seq<Transaction>, i: nat, t: Transaction, q: Pool)
    requires i < |ts|
    ensures InUse(l, ts[i := t], q) == InUse(l, ts, q) - Weight(l, ts[i], q) + Weight(l, t, q)
  {
    var n := |ts| - 1;
    if i == n {
      assert ts[i := t][..n] == ts[..n];
    } else {
      InUseUpdate(l, ts[..n], i, t, q);
      assert ts[i := t][..n] == ts[..n][i := t];
    }
  }

  lemma {:induction false} WorkUpdate(ts: seq<Transaction>, i: nat, t: Transaction)
    requires i < |ts|
    ensures Work(ts[i := t]) == Work(ts) - WorkOf(ts[i]) + WorkOf(t)
  {
    var n := |ts| - 1;
    if i == n {
      assert ts[i := t][..n] == ts[..n];
    } else {
      WorkUpdate(ts[..n], i, t);
      assert ts[i := t][..n] == ts[..n][i := t];
    }
  }

  lemma {:induction false} IdlePoolIsEmpty(l: Layout, ts: seq<Transaction>, q: Pool)
    requires forall i :: 0 <= i < |ts| ==> Weight(l, ts[i], q) == 0
    ensures InUse(l, ts, q) == 0
  {
    if ts != [] { IdlePoolIsEmpty(l, ts[..|ts| - 1], q); }
  }

  /** The transactions that will still ask the identity module something. */
  function Callers(ts: seq<Transaction>): nat {
    if ts == [] then 0
    else Callers(ts[..|ts| - 1]) + if ts[|ts| - 1].calls > 0 then 1 else 0
  }

  lemma {:induction false} CallersUpdate(ts: seq<Transaction>, i: nat, t: Transaction)
    requires i < |ts| && (t.calls > 0 ==> ts[i].calls > 0)
    ensures Callers(ts[i := t]) <= Callers(ts)
  {
    var n := |ts| - 1;
    if i == n {
      assert ts[i := t][..n] == ts[..n];
    } else {
      CallersUpdate(ts[..n], i, t);
      assert ts[i := t][..n] == ts[..n][i := t];
    }
  }

  // ---------------------------------------------------------------- every step

  /** No step takes a connection a pool does not have, and every step is progress. */
  lemma StepKeepsPools(l: Layout, ts: seq<Transaction>, a: Action)
    requires WellFormed(ts) && Enabled(l, ts, a)
    requires forall q :: InUse(l, ts, q) <= Size(l, q)
    ensures WellFormed(Apply(ts, a))
    ensures forall q :: InUse(l, Apply(ts, a), q) <= Size(l, q)
    ensures Work(Apply(ts, a)) < Work(ts)
    ensures Callers(Apply(ts, a)) <= Callers(ts)
  {
    var t := After(ts[a.i], a);
    forall q ensures InUse(l, Apply(ts, a), q) <= Size(l, q) {
      InUseUpdate(l, ts, a.i, t, q);
    }
    WorkUpdate(ts, a.i, t);
    CallersUpdate(ts, a.i, t);
  }

  lemma {:induction false} RunKeepsPools(l: Layout, ts: seq<Transaction>, actions: seq<Action>, end: seq<Transaction>)
    requires WellFormed(ts) && Run(l, ts, actions, end)
    requires forall q :: InUse(l, ts, q) <= Size(l, q)
    ensures WellFormed(end)
    ensures forall q :: InUse(l, end, q) <= Size(l, q)
    ensures |actions| + Work(end) <= Work(ts)
    ensures Callers(end) <= Callers(ts)
    decreases |actions|
  {
    if actions != [] {
      StepKeepsPools(l, ts, actions[0]);
      RunKeepsPools(l, Apply(ts, actions[0]), actions[1..], end);
    }
  }

  lemma WaitingHoldsNothing(l: Layout, ts: seq<Transaction>)
    requires AllWaiting(ts)
    ensures forall q :: InUse(l, ts, q) == 0
  {
    forall q ensures InUse(l, ts, q) == 0 { IdlePoolIsEmpty(l, ts, q); }
  }

  // ---------------------------------------------------------------- two pools

  /** With two pools, identity connections always come back on their own, so some step is
      always possible. */
  lemma SeparatePoolsProgress(l: Layout, ts: seq<Transaction>) returns (a: Action)
    requires l.Separate? && l.identity >= 1 && l.connectors >= 1
    requires WellFormed(ts) && !AllFinished(ts)
    ensures Enabled(l, ts, a)
    ensures Work(Apply(ts, a)) < Work(ts)
  {
    a := SeparatePoolsEnabled(l, ts);
    WorkUpdate(ts, a.i, After(ts[a.i], a));
  }

  lemma SeparatePoolsEnabled(l: Layout, ts: seq<Transaction>) returns (a: Action)
    requires l.Separate? && l.identity >= 1 && l.connectors >= 1
    requires WellFormed(ts) && !AllFinished(ts)
    ensures Enabled(l, ts, a)
  {
    if i: nat :| i < |ts| && ts[i].phase.Calling? {
      return Return(i, false);
    }
    if i: nat :| i < |ts| && ts[i].phase.Holding? && ts[i].calls == 0 {
      return Finish(i);
    }
    IdlePoolIsEmpty(l, ts, IdentityPool);
    if i: nat :| i < |ts| && ts[i].phase.Holding? {
      return Call(i);
    }
    IdlePoolIsEmpty(l, ts, ConnectorPool);
    var i: nat :| i < |ts| && !ts[i].phase.Finished?;
    return Start(i);
  }

  /** Every schedule over two pools is bounded and can only come to rest with all work done:
      no order of requests, however many, stalls the server. */
  lemma SeparatePoolsNeverStall(l: Layout, ts: seq<Transaction>, actions: seq<Action>, end: seq<Transaction>)
    requires l.Separate? && l.identity >= 1 && l.connectors >= 1
    requires WellFormed(ts) && AllWaiting(ts) && Run(l, ts, actions, end)
    ensures !Stuck(l, end)
    ensures |actions| <= Work(ts)
  {
    WaitingHoldsNothing(l, ts);
    RunKeepsPools(l, ts, actions, end);
    if !AllFinished(end) {
      var a := SeparatePoolsProgress(l, end);
    }
  }

  // ---------------------------------------------------------------- one pool

  lemma {:induction false} HoldersAreCallers(l: Layout, ts: seq<Transaction>)
    requires l.Shared?
    requires forall i :: 0 <= i < |ts| ==> !ts[i].phase.Calling? && (ts[i].phase.Holding? ==> ts[i].calls > 0)
    ensures InUse(l, ts, IdentityPool) <= Callers(ts)
  {
    if ts != [] { HoldersAreCallers(l, ts[..|ts| - 1]); }
  }

  lemma FewCallersProgress(l: Layout, ts: seq<Transaction>) returns (a: Action)
    requires l.Shared? && Callers(ts) < l.size
    requires WellFormed(ts) && !AllFinished(ts)
    ensures Enabled(l, ts, a)
  {
    if i: nat :| i < |ts| && ts[i].phase.Calling? {
      return Return(i, false);
    }
    if i: nat :| i < |ts| && ts[i].phase.Holding? && ts[i].calls == 0 {
      return Finish(i);
    }
    HoldersAreCallers(l, ts);
    if i: nat :| i < |ts| && ts[i].phase.Holding? {
      return Call(i);
    }
    var i: nat :| i < |ts| && !ts[i].phase.Finished?;
    return Start(i);
  }

  /** `ts` with the callers among its first `k` transactions started. */
  function Started(ts: seq<Transaction>, k: nat, left: nat): seq<Transaction>
    requires k <= |ts|
    ensures |Started(ts, k, left)| == |ts|
    ensures forall i :: k <= i < |ts| ==> Started(ts, k, left)[i] == ts[i]
    decreases k
  {
    if k == 0 || left == 0 then ts
    else if ts[k - 1].calls > 0 && ts[k - 1].phase.Waiting? then
      Started(ts, k - 1, left - 1)[k - 1 := ts[k - 1].(phase := Holding)]
    else Started(ts, k - 1, left)
  }

  lemma {:induction false} RunExtend(l: Layout, ts: seq<Transaction>, actions: seq<Action>, mid: seq<Transaction>, a: Action)
    requires Run(l, ts, actions, mid) && Enabled(l, mid, a)
    ensures Run(l, ts, actions + [a], Apply(mid, a))
    decreases |actions|
  {
    if actions == [] {
      assert Run(l, Apply(ts, a), [], Apply(mid, a));
      assert ([a])[1..] == [];
    } else {
      RunExtend(l, Apply(ts, actions[0]), actions[1..], mid, a);
      assert (actions + [a])[1..] == actions[1..] + [a];
    }
  }

  /** What a filled pool looks like: nobody is inside a call, everyone who holds a connection
      needs a second one. */
  predicate AllBlockedOnCall(ts: seq<Transaction>) {
    forall i :: 0 <= i < |ts| ==> ts[i].phase.Waiting? || (ts[i].phase.Holding? && ts[i].calls > 0)
  }

  lemma {:induction false} StartedShape(ts: seq<Transaction>, k: nat, left: nat)
    requires k <= |ts| && WellFormed(ts) && AllWaiting(ts)
    ensures WellFormed(Started(ts, k, left)) && AllBlockedOnCall(Started(ts, k, left))
    decreases k
  {
    if k > 0 && left > 0 {
      if ts[k - 1].calls > 0 {
        StartedShape(ts, k - 1, left - 1);
      } else {
        StartedShape(ts, k - 1, left);
      }
    }
  }

  lemma {:induction false} StartedFills(l: Layout, ts: seq<Transaction>, k: nat, left: nat)
    requires l.Shared? && k <= |ts|
    requires WellFormed(ts) && AllWaiting(ts) && Callers(ts[..k]) >= left
    ensures WellFormed(Started(ts, k, left)) && AllBlockedOnCall(Started(ts, k, left))
    ensures InUse(l, Started(ts, k, left), IdentityPool) == left
    decreases k
  {
    StartedShape(ts, k, left);
    assert k > 0 ==> ts[k - 1].phase.Waiting?;
    hide WellFormed, AllBlockedOnCall, AllWaiting, InUse;
    if k == 0 || left == 0 {
      WaitingHoldsNothing(l, ts);
    } else {
      assert ts[..k][..k - 1] == ts[..k - 1];
      if ts[k - 1].calls > 0 {
        StartedFills(l, ts, k - 1, left - 1);
        InUseUpdate(l, Started(ts, k - 1, left - 1), k - 1, ts[k - 1].(phase := Holding), IdentityPool);
      } else {
        StartedFills(l, ts, k - 1, left);
      }
    }
  }

  lemma StartNext(l: Layout, ts: seq<Transaction>, k: nat, left: nat)
    requires l.Shared? && 0 < left <= l.size && 0 < k <= |ts| && ts[k - 1].calls > 0
    requires WellFormed(ts) && AllWaiting(ts) && Callers(ts[..k - 1]) >= left - 1
    ensures Enabled(l, Started(ts, k - 1, left - 1), Start(k - 1))
    ensures Apply(Started(ts, k - 1, left - 1), Start(k - 1)) == Started(ts, k, left)
  {
    StartedFills(l, ts, k - 1, left - 1);
    hide InUse, WellFormed, AllBlockedOnCall;
  }

  /** Starting callers one after another fills the shared pool with transactions that each
      wait for a second connection. */
  lemma {:induction false} FillPool(l: Layout, ts: seq<Transaction>, k: nat, left: nat) returns (actions: seq<Action>)
    requires l.Shared? && left <= l.size && k <= |ts|
    requires WellFormed(ts) && AllWaiting(ts) && Callers(ts[..k]) >= left
    ensures Run(l, ts, actions, Started(ts, k, left))
    decreases k
  {
    if k == 0 || left == 0 { return []; }
    assert ts[..k][..k - 1] == ts[..k - 1];
    hide Run, Enabled, Apply, WellFormed, AllWaiting;
    if ts[k - 1].calls > 0 {
      actions := FillPool(l, ts, k - 1, left - 1);
      StartNext(l, ts, k, left);
      RunExtend(l, ts, actions, Started(ts, k - 1, left - 1), Start(k - 1));
      actions := actions + [Start(k - 1)];
    } else {
      actions := FillPool(l, ts, k - 1, left);
    }
  }

  lemma FilledPoolIsStuck(l: Layout, ts: seq<Transaction>)
    requires l.Shared? && l.size >= 1 && AllBlockedOnCall(ts) && InUse(l, ts, IdentityPool) == l.size
    ensures Stuck(l, ts)
  {
    if AllFinished(ts) { IdlePoolIsEmpty(l, ts, IdentityPool); }
    forall a ensures !Enabled(l, ts, a) {
      if a.i < |ts| { assert ts[a.i].phase.Waiting? || ts[a.i].phase.Holding?; }
    }
  }

  ghost predicate CanStall(l: Layout, ts: seq<Transaction>) {
    exists actions, end :: Run(l, ts, actions, end) && Stuck(l, end)
  }

  /** One shared pool of `n` connections can stall exactly when `n` or more transactions call
      the identity module from inside a connector transaction. */
  lemma SharedPoolStallsIff(n: nat, ts: seq<Transaction>)
    requires n >= 1 && WellFormed(ts) && AllWaiting(ts)
    ensures CanStall(Shared(n), ts) <==> Callers(ts) >= n
  {
    var l := Shared(n);
    if Callers(ts) >= n {
      assert ts[..|ts|] == ts;
      var actions := FillPool(l, ts, |ts|, n);
      StartedFills(l, ts, |ts|, n);
      FilledPoolIsStuck(l, Started(ts, |ts|, n));
    } else if CanStall(l, ts) {
      var actions, end :| Run(l, ts, actions, end) && Stuck(l, end);
      WaitingHoldsNothing(l, ts);
      RunKeepsPools(l, ts, actions, end);
      var a := FewCallersProgress(l, end);
    }
  }
}
