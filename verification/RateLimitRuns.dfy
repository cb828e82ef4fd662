/** What the limiter promises over a whole run of requests. */
module RateLimitRuns {
  import opened RateLimiting

  datatype Request = Request(key: string, at: int)

  predicate NonDecreasing(rs: seq<Request>) {
    forall i, j :: 0 <= i < j < |rs| ==> rs[i].at <= rs[j].at
  }

  // ---------------------------------------------------------------- shape

  /** Distinct clients in the order their windows started, none of them in the future, no more
      than the limiter may hold. */
  ghost predicate Ordered(l: Limits, es: seq<Entry>, now: int) {
    && |es| <= l.capacity
    && (forall i, j :: 0 <= i < j < |es| ==> es[i].key != es[j].key && es[i].startedAt <= es[j].startedAt)
    && (forall i :: 0 <= i < |es| ==> es[i].startedAt <= now && 1 <= es[i].count)
    && (forall i :: 0 <= i < |es| && l.maximum >= 1 ==> es[i].count <= l.maximum)
  }

  lemma {:induction false} SweptShape(l: Limits, es: seq<Entry>, now: int) returns (n: nat)
    ensures n <= |es| && Swept(l, es, now) == es[n..]
    ensures forall i :: 0 <= i < n ==> now - es[i].startedAt >= l.window
    ensures n < |es| ==> now - es[n].startedAt < l.window
  {
    if es != [] && now - es[0].startedAt >= l.window {
      n := SweptShape(l, es[1..], now);
      n := n + 1;
      forall i | 0 <= i < n ensures now - es[i].startedAt >= l.window {
        if i > 0 { assert es[i] == es[1..][i - 1]; }
      }
    } else {
      n := 0;
    }
  }

  lemma OrderedSuffix(l: Limits, es: seq<Entry>, before: int, now: int, n: nat)
    requires Ordered(l, es, before) && before <= now && n <= |es|
    ensures Ordered(l, es[n..], now)
  {
    var tail := es[n..];
    forall i, j | 0 <= i < j < |tail| ensures tail[i].key != tail[j].key && tail[i].startedAt <= tail[j].startedAt {
      assert es[n + i].key != es[n + j].key;
    }
  }

  lemma OrderedAppend(l: Limits, es: seq<Entry>, now: int, key: string)
    requires Ordered(l, es, now) && |es| < l.capacity && !Tracks(es, key)
    ensures Ordered(l, es + [Entry(key, now, 1)], now)
  {
    forall i | 0 <= i < |es| ensures es[i].key != key { }
  }

  /** After the sweep every window is open, so the in-place restart never happens while the clock
      does not run backwards. */
  lemma SweptIsOpen(l: Limits, es: seq<Entry>, before: int, now: int)
    requires Ordered(l, es, before) && before <= now
    ensures Ordered(l, Swept(l, es, now), now)
    ensures forall i :: 0 <= i < |Swept(l, es, now)| ==> now - Swept(l, es, now)[i].startedAt < l.window
  {
    var n := SweptShape(l, es, now);
    OrderedSuffix(l, es, before, now, n);
    forall i | 0 <= i < |es[n..]| ensures now - es[n..][i].startedAt < l.window {
      if i > 0 { assert es[n].startedAt <= es[n + i].startedAt; }
    }
  }

  lemma AllowKeepsOrder(l: Limits, es: seq<Entry>, before: int, key: string, now: int)
    requires l.capacity >= 1 && before <= now && Ordered(l, es, before)
    ensures Ordered(l, AllowEntries(l, es, key, now), now)
  {
    SweptIsOpen(l, es, before, now);
    var live := Swept(l, es, now);
    if !Tracks(live, key) {
      var n := |live| - |WithRoom(l, live)|;
      OrderedSuffix(l, live, now, now, n);
      assert WithRoom(l, live) == live[n..];
      forall i | 0 <= i < |live[n..]| ensures live[n..][i].key != key { assert live[n + i].key != key; }
      OrderedAppend(l, live[n..], now, key);
    }
  }

  // ---------------------------------------------------------------- per-key specification

  /** A plain unbounded fixed-window limiter, one window per client. */
  datatype Window = Idle | Open(startedAt: int, count: int)

  function Next(l: Limits, w: Window, now: int): Window {
    if w.Idle? || now - w.startedAt >= l.window then Open(now, 1)
    else if w.count >= l.maximum then w
    else Open(w.startedAt, w.count + 1)
  }

  function Answer(l: Limits, w: Window, now: int): Verdict {
    if w.Idle? || now - w.startedAt >= l.window || w.count < l.maximum then Allowed
    else Refused(l.window - (now - w.startedAt))
  }

  /** What the limiter remembers of a client. */
  function Remembered(es: seq<Entry>, key: string): Window {
    if Tracks(es, key) then var e := es[IndexOf(es, key)]; Open(e.startedAt, e.count) else Idle
  }

  /** An expired window and no window are the same thing. */
  function Current(l: Limits, w: Window, now: int): Window {
    if w.Open? && now - w.startedAt >= l.window then Idle else w
  }

  ghost predicate Agree(l: Limits, es: seq<Entry>, key: string, w: Window, now: int) {
    Current(l, Remembered(es, key), now) == Current(l, w, now)
  }

  /** Serving `r` throws away the still open window of `key`. */
  ghost predicate Evicts(l: Limits, es: seq<Entry>, r: Request, key: string)
    requires l.capacity >= 1
  {
    var live := Swept(l, es, r.at);
    Tracks(live, key) && !Tracks(live, r.key) && !Tracks(WithRoom(l, live), key)
  }

  lemma TracksSuffix(es: seq<Entry>, n: nat, key: string)
    requires n <= |es| && forall i, j :: 0 <= i < j < |es| ==> es[i].key != es[j].key
    ensures Tracks(es[n..], key) <==> Tracks(es, key) && IndexOf(es, key) >= n
    ensures Tracks(es[n..], key) ==> es[n..][IndexOf(es[n..], key)] == es[IndexOf(es, key)]
  {
    if Tracks(es[n..], key) {
      var i := IndexOf(es[n..], key);
      assert es[n + i].key == key;
    }
    if Tracks(es, key) && IndexOf(es, key) >= n {
      assert es[n..][IndexOf(es, key) - n].key == key;
    }
  }

  lemma UniqueIndex(es: seq<Entry>, i: nat)
    requires i < |es| && forall a, b :: 0 <= a < b < |es| ==> es[a].key != es[b].key
    ensures Tracks(es, es[i].key) && IndexOf(es, es[i].key) == i
  {
    assert Tracks(es, es[i].key);
  }

  /** After the sweep only open windows are left, and it never drops an open one. */
  lemma SweepRemembers(l: Limits, es: seq<Entry>, before: int, now: int, key: string)
    requires Ordered(l, es, before) && before <= now
    ensures Remembered(Swept(l, es, now), key) == Current(l, Remembered(es, key), now)
    ensures Ordered(l, Swept(l, es, now), now)
  {
    var n := SweptShape(l, es, now);
    TracksSuffix(es, n, key);
    if Tracks(es, key) {
      var i := IndexOf(es, key);
      if i >= n {
        assert es[n].startedAt <= es[i].startedAt;
      }
    }
  }

  /** The client that asks is answered as the specification would answer. */
  lemma OwnRequest(l: Limits, es: seq<Entry>, before: int, key: string, now: int)
    requires l.capacity >= 1 && Ordered(l, es, before) && before <= now
    ensures AllowVerdict(l, es, key, now) == Answer(l, Remembered(es, key), now)
    ensures Remembered(AllowEntries(l, es, key, now), key) == Next(l, Remembered(es, key), now)
  {
    SweepRemembers(l, es, before, now, key);
    AllowKeepsOrder(l, es, before, key, now);
    var live := Swept(l, es, now);
    var after := AllowEntries(l, es, key, now);
    SweptIsOpen(l, es, before, now);
    if Tracks(live, key) {
      var i := IndexOf(live, key);
      assert after[i].key == key;
      UniqueIndex(after, i);
    } else {
      UniqueIndex(after, |after| - 1);
    }
  }

  /** A request of another client leaves a client's window alone unless it evicts it. */
  lemma OtherRequest(l: Limits, es: seq<Entry>, before: int, r: Request, key: string)
    requires l.capacity >= 1 && Ordered(l, es, before) && before <= r.at && r.key != key
    ensures Remembered(AllowEntries(l, es, r.key, r.at), key) ==
      if Evicts(l, es, r, key) then Idle else Current(l, Remembered(es, key), r.at)
  {
    SweepRemembers(l, es, before, r.at, key);
    AllowKeepsOrder(l, es, before, r.key, r.at);
    SweptIsOpen(l, es, before, r.at);
    var live := Swept(l, es, r.at);
    if Tracks(live, r.key) {
      OtherRecounted(l, live, IndexOf(live, r.key), r.at, key);
    } else {
      OtherInserted(l, live, r, key);
    }
  }

  lemma OtherRecounted(l: Limits, live: seq<Entry>, i: nat, now: int, key: string)
    requires Ordered(l, live, now) && i < |live| && live[i].key != key && now - live[i].startedAt < l.window
    ensures Remembered(Recounted(l, live, i, now), key) == Remembered(live, key)
  {
    var after := Recounted(l, live, i, now);
    if Tracks(live, key) {
      var j := IndexOf(live, key);
      assert after[j] == live[j];
      UniqueIndex(after, j);
    } else {
      forall j | 0 <= j < |after| ensures after[j].key != key { assert live[j].key != key; }
    }
  }

  lemma OtherInserted(l: Limits, live: seq<Entry>, r: Request, key: string)
    requires l.capacity >= 1 && Ordered(l, live, r.at) && !Tracks(live, r.key) && r.key != key
    ensures Remembered(WithRoom(l, live) + [Entry(r.key, r.at, 1)], key) ==
      if Tracks(WithRoom(l, live), key) then Remembered(live, key) else Idle
  {
    var room := WithRoom(l, live);
    var after := room + [Entry(r.key, r.at, 1)];
    var n := |live| - |room|;
    assert room == live[n..];
    TracksSuffix(live, n, key);
    if Tracks(room, key) {
      var j := IndexOf(room, key);
      assert after[j] == room[j] && after[j].key == key;
      forall a | 0 <= a < j ensures after[a].key != key { assert after[a] == room[a]; }
      assert Tracks(after, key) && IndexOf(after, key) == j;
    } else {
      forall j | 0 <= j < |after| ensures after[j].key != key {
        if j < |room| { assert room[j].key != key; }
      }
    }
  }

  // ---------------------------------------------------------------- runs

  function After(l: Limits, es: seq<Entry>, rs: seq<Request>): seq<Entry>
    requires l.capacity >= 1
    decreases |rs|
  {
    if rs == [] then es else After(l, AllowEntries(l, es, rs[0].key, rs[0].at), rs[1..])
  }

  /** The verdicts one client gets in a run of everybody's requests. */
  function VerdictsFor(l: Limits, es: seq<Entry>, rs: seq<Request>, key: string): (vs: seq<Verdict>)
    requires l.capacity >= 1
    ensures |vs| == |TimesOf(rs, key)|
    decreases |rs|
  {
    if rs == [] then []
    else
      var own := if rs[0].key == key then [AllowVerdict(l, es, key, rs[0].at)] else [];
      own + VerdictsFor(l, AllowEntries(l, es, rs[0].key, rs[0].at), rs[1..], key)
  }

  function TimesOf(rs: seq<Request>, key: string): seq<int> {
    if rs == [] then []
    else (if rs[0].key == key then [rs[0].at] else []) + TimesOf(rs[1..], key)
  }

  /** The verdicts of the per-key specification, which sees that client's requests only. */
  function Answers(l: Limits, w: Window, times: seq<int>): (vs: seq<Verdict>)
    ensures |vs| == |times|
    decreases |times|
  {
    if times == [] then [] else [Answer(l, w, times[0])] + Answers(l, Next(l, w, times[0]), times[1..])
  }

  ghost predicate NeverEvicted(l: Limits, es: seq<Entry>, rs: seq<Request>, key: string)
    requires l.capacity >= 1
    decreases |rs|
  {
    rs == [] ||
    (!Evicts(l, es, rs[0], key) && NeverEvicted(l, AllowEntries(l, es, rs[0].key, rs[0].at), rs[1..], key))
  }

  predicate NotBefore(rs: seq<Request>, now: int) {
    forall i :: 0 <= i < |rs| ==> now <= rs[i].at
  }

  lemma AgreeLater(l: Limits, a: Window, b: Window, now: int, later: int)
    requires Current(l, a, now) == Current(l, b, now) && now <= later
    ensures Current(l, a, later) == Current(l, b, later)
    ensures Answer(l, a, later) == Answer(l, b, later) && Next(l, a, later) == Next(l, b, later)
  {
  }

  /** However many other clients there are, a client whose open window is never evicted gets
      exactly the answers of a private fixed-window limiter. */
  lemma {:induction false} RefinesPerKey(l: Limits, es: seq<Entry>, rs: seq<Request>, key: string, w: Window, now: int)
    requires l.capacity >= 1 && Ordered(l, es, now) && Agree(l, es, key, w, now)
    requires NonDecreasing(rs) && NotBefore(rs, now) && NeverEvicted(l, es, rs, key)
    ensures VerdictsFor(l, es, rs, key) == Answers(l, w, TimesOf(rs, key))
    decreases |rs|
  {
    if rs != [] {
      var r := rs[0];
      var es' := AllowEntries(l, es, r.key, r.at);
      AgreeLater(l, Remembered(es, key), w, now, r.at);
      AllowKeepsOrder(l, es, now, r.key, r.at);
      if r.key == key {
        OwnRequest(l, es, now, key, r.at);
        RefinesPerKey(l, es', rs[1..], key, Next(l, w, r.at), r.at);
        assert TimesOf(rs, key) == [r.at] + TimesOf(rs[1..], key);
      } else {
        OtherRequest(l, es, now, r, key);
        RefinesPerKey(l, es', rs[1..], key, w, r.at);
        assert TimesOf(rs, key) == TimesOf(rs[1..], key);
      }
    }
  }

  /** Starting from an empty limiter. */
  lemma FreshLimiterRefinesPerKey(l: Limits, rs: seq<Request>, key: string)
    requires l.capacity >= 1 && NonDecreasing(rs) && NeverEvicted(l, [], rs, key)
    ensures VerdictsFor(l, [], rs, key) == Answers(l, Idle, TimesOf(rs, key))
  {
    if rs != [] { RefinesPerKey(l, [], rs, key, Idle, rs[0].at); }
  }

  // ---------------------------------------------------------------- one client's requests

  function Own(key: string, times: seq<int>): (rs: seq<Request>)
    ensures |rs| == |times|
  {
    seq(|times|, i requires 0 <= i < |times| => Request(key, times[i]))
  }

  function Repeated(t: int, n: nat): (times: seq<int>)
    ensures |times| == n
  {
    seq(n, _ => t)
  }

  lemma {:induction false} OwnTimes(key: string, times: seq<int>)
    ensures TimesOf(Own(key, times), key) == times
  {
    if times != [] {
      OwnTimes(key, times[1..]);
      assert Own(key, times)[1..] == Own(key, times[1..]);
    }
  }

  lemma {:induction false} OwnNeverEvicts(l: Limits, es: seq<Entry>, key: string, times: seq<int>)
    requires l.capacity >= 1
    ensures NeverEvicted(l, es, Own(key, times), key)
    decreases |times|
  {
    if times != [] {
      OwnNeverEvicts(l, AllowEntries(l, es, key, times[0]), key, times[1..]);
      assert Own(key, times)[1..] == Own(key, times[1..]);
    }
  }

  /** The window after all of the requests. */
  function Folded(l: Limits, w: Window, times: seq<int>): Window
    decreases |times|
  {
    if times == [] then w else Folded(l, Next(l, w, times[0]), times[1..])
  }

  lemma {:induction false} AnswersConcat(l: Limits, w: Window, a: seq<int>, b: seq<int>)
    ensures Answers(l, w, a + b) == Answers(l, w, a) + Answers(l, Folded(l, w, a), b)
    decreases |a|
  {
    if a == [] {
      assert a + b == b;
    } else {
      assert (a + b)[1..] == a[1..] + b;
      AnswersConcat(l, Next(l, w, a[0]), a[1..], b);
    }
  }

  /** What a window admits in all; the first request is never refused. */
  function Room(l: Limits): nat { if l.maximum < 1 then 1 else l.maximum }

  /** How many requests at one instant a window still admits. */
  function Budget(l: Limits, w: Window, now: int): nat {
    if Current(l, w, now).Idle? then Room(l) else if w.count >= l.maximum then 0 else l.maximum - w.count
  }

  lemma {:induction false} RepeatedAnswers(l: Limits, w: Window, t: int, n: nat, k: nat)
    requires l.window > 0 && k < n && (w.Open? ==> w.count >= 1)
    ensures Answers(l, w, Repeated(t, n))[k] == Allowed <==> k < Budget(l, w, t)
    decreases n
  {
    assert Repeated(t, n)[1..] == Repeated(t, n - 1);
    if k > 0 { RepeatedAnswers(l, Next(l, w, t), t, n - 1, k - 1); }
  }

  /** Requests within the budget all count. */
  lemma {:induction false} RepeatedFolds(l: Limits, w: Window, t: int, n: nat)
    requires l.window > 0 && 1 <= n <= Budget(l, w, t)
    ensures Folded(l, w, Repeated(t, n)) == if Current(l, w, t).Idle? then Open(t, n) else Open(w.startedAt, w.count + n)
    decreases n
  {
    assert Repeated(t, n)[1..] == Repeated(t, n - 1);
    if n > 1 {
      RepeatedFolds(l, Next(l, w, t), t, n - 1);
    } else {
      assert Folded(l, Next(l, w, t), Repeated(t, 0)) == Next(l, w, t);
    }
  }

  lemma {:induction false} StaysOpen(l: Limits, w: Window, t: int, n: nat)
    requires w.Open? && t - w.startedAt < l.window
    ensures Folded(l, w, Repeated(t, n)).Open? && Folded(l, w, Repeated(t, n)).startedAt == w.startedAt
    decreases n
  {
    if n > 0 {
      assert Repeated(t, n)[1..] == Repeated(t, n - 1);
      StaysOpen(l, Next(l, w, t), t, n - 1);
    }
  }

  // ---------------------------------------------------------------- eviction

  /** A run of everybody's requests from `now` on, in which the client is not evicted again. */
  ghost predicate LaterRun(l: Limits, es: seq<Entry>, key: string, now: int, rs: seq<Request>)
    requires l.capacity >= 1
  {
    NonDecreasing(rs) && NotBefore(rs, now) && NeverEvicted(l, es, rs, key)
  }

  /** No later run tells the limiter from the specification. */
  ghost predicate Indistinguishable(l: Limits, es: seq<Entry>, key: string, w: Window, now: int)
    requires l.capacity >= 1
  {
    forall rs :: LaterRun(l, es, key, now, rs) ==> VerdictsFor(l, es, rs, key) == Answers(l, w, TimesOf(rs, key))
  }

  /** In some later run the limiter refuses what the specification admits. */
  ghost predicate RefusesTooMuch(l: Limits, es: seq<Entry>, key: string, w: Window, now: int)
    requires l.capacity >= 1
  {
    exists rs, i ::
      && LaterRun(l, es, key, now, rs) && 0 <= i < |VerdictsFor(l, es, rs, key)|
      && VerdictsFor(l, es, rs, key)[i].Refused? && Answers(l, w, TimesOf(rs, key))[i] == Allowed
  }

  lemma OwnRun(l: Limits, es: seq<Entry>, key: string, now: int, times: seq<int>)
    requires l.capacity >= 1 && Ordered(l, es, now) && Sorted(times) && forall t :: t in times ==> now <= t
    ensures LaterRun(l, es, key, now, Own(key, times))
    ensures TimesOf(Own(key, times), key) == times
    ensures VerdictsFor(l, es, Own(key, times), key) == Answers(l, Remembered(es, key), times)
  {
    OwnTimes(key, times);
    OwnNeverEvicts(l, es, key, times);
    forall i | 0 <= i < |times| ensures now <= Own(key, times)[i].at { assert times[i] in times; }
    RefinesPerKey(l, es, Own(key, times), key, Remembered(es, key), now);
  }

  /** What an eviction leaves: the limiter has forgotten the window the specification still has. */
  lemma Forgotten(l: Limits, es: seq<Entry>, before: int, r: Request, key: string, w: Window)
    requires l.capacity >= 1 && Ordered(l, es, before) && before <= r.at && r.key != key && Agree(l, es, key, w, before)
    ensures Ordered(l, AllowEntries(l, es, r.key, r.at), r.at)
    ensures !Evicts(l, es, r, key) ==> Agree(l, AllowEntries(l, es, r.key, r.at), key, w, r.at)
    ensures Evicts(l, es, r, key) ==>
      && Remembered(AllowEntries(l, es, r.key, r.at), key) == Idle
      && w.Open? && w.count >= 1 && w.startedAt <= r.at < w.startedAt + l.window
  {
    AllowKeepsOrder(l, es, before, r.key, r.at);
    OtherRequest(l, es, before, r, key);
    AgreeLater(l, Remembered(es, key), w, before, r.at);
    SweepRemembers(l, es, before, r.at, key);
  }

  /** Eviction is the only way the two can part: when it happens, some later run of that client
      alone tells the limiter and the specification apart; when it does not, no run does. */
  lemma EvictionIsVisible(l: Limits, es: seq<Entry>, before: int, r: Request, key: string, w: Window)
    requires l.capacity >= 1 && Ordered(l, es, before) && before <= r.at && r.key != key && Agree(l, es, key, w, before)
    ensures Indistinguishable(l, AllowEntries(l, es, r.key, r.at), key, w, r.at) <==> !Evicts(l, es, r, key)
  {
    var es' := AllowEntries(l, es, r.key, r.at);
    Forgotten(l, es, before, r, key, w);
    hide Evicts, AllowEntries, Ordered, NeverEvicted, Answers, VerdictsFor;
    if Evicts(l, es, r, key) {
      var n := Room(l);
      OwnRun(l, es', key, r.at, Repeated(r.at, n));
      RepeatedAnswers(l, Idle, r.at, n, n - 1);
      RepeatedAnswers(l, w, r.at, n, n - 1);
    } else {
      forall rs | LaterRun(l, es', key, r.at, rs) ensures VerdictsFor(l, es', rs, key) == Answers(l, w, TimesOf(rs, key)) {
        RefinesPerKey(l, es', rs, key, w, r.at);
      }
    }
  }

  /** `a` has counted no more than `w` of the same window. */
  predicate Behind(a: Window, w: Window) {
    a == w || (w.Open? && (a.Idle? || (a.startedAt == w.startedAt && a.count <= w.count)))
  }

  lemma {:induction false} NeverStricter(l: Limits, a: Window, w: Window, times: seq<int>, i: nat)
    requires l.window == 1 && Behind(a, w) && Sorted(times) && i < |times| && (w.Open? ==> w.count >= 1 && w.startedAt <= times[0])
    ensures Answers(l, a, times)[i].Refused? ==> Answers(l, w, times)[i].Refused?
    decreases i
  {
    if i > 0 {
      NeverStricter(l, Next(l, a, times[0]), Next(l, w, times[0]), times[1..], i - 1);
    }
  }

  /** An evicted client is not only given more: it fills a new window, which is still open when
      the forgotten one would have ended. Only windows of a single tick leave no room for that. */
  lemma EvictedCanBeRefusedIff(l: Limits, es: seq<Entry>, before: int, r: Request, key: string, w: Window)
    requires l.capacity >= 1 && Ordered(l, es, before) && before <= r.at && r.key != key && Agree(l, es, key, w, before)
    requires Evicts(l, es, r, key)
    ensures RefusesTooMuch(l, AllowEntries(l, es, r.key, r.at), key, w, r.at) <==> l.window >= 2
  {
    var es' := AllowEntries(l, es, r.key, r.at);
    Forgotten(l, es, before, r, key, w);
    hide Evicts, AllowEntries, Ordered, NeverEvicted, Answers, VerdictsFor;
    if l.window >= 2 {
      RefusedAtTheOldEnd(l, es', key, w, r.at);
    } else {
      forall rs, i | LaterRun(l, es', key, r.at, rs) && 0 <= i < |TimesOf(rs, key)| && VerdictsFor(l, es', rs, key)[i].Refused?
        ensures Answers(l, w, TimesOf(rs, key))[i].Refused?
      {
        RefinesPerKey(l, es', rs, key, Idle, r.at);
        TimesAreSorted(rs, key);
        assert TimesOf(rs, key)[0] in TimesOf(rs, key);
        NeverStricter(l, Idle, w, TimesOf(rs, key), i);
      }
    }
  }

  lemma RefusedAtTheOldEnd(l: Limits, es: seq<Entry>, key: string, w: Window, now: int)
    requires l.capacity >= 1 && l.window >= 2 && Ordered(l, es, now) && Remembered(es, key) == Idle
    requires w.Open? && w.startedAt <= now < w.startedAt + l.window
    ensures RefusesTooMuch(l, es, key, w, now)
  {
    hide NeverEvicted, VerdictsFor;
    var n, t, end := Room(l), if now > w.startedAt then now else w.startedAt + 1, w.startedAt + l.window;
    var times := Repeated(t, n) + [end];
    OwnRun(l, es, key, now, times);
    AnswersConcat(l, Idle, Repeated(t, n), [end]);
    AnswersConcat(l, w, Repeated(t, n), [end]);
    RepeatedFolds(l, Idle, t, n);
    StaysOpen(l, w, t, n);
    assert VerdictsFor(l, es, Own(key, times), key)[n].Refused?;
  }

  // ---------------------------------------------------------------- who gives way

  predicate OpenAt(l: Limits, e: Entry, now: int) { now - e.startedAt < l.window }

  function OpenCount(l: Limits, es: seq<Entry>, now: int): nat {
    if es == [] then 0 else (if OpenAt(l, es[0], now) then 1 else 0) + OpenCount(l, es[1..], now)
  }

  lemma {:induction false} CountSuffix(l: Limits, es: seq<Entry>, now: int, n: nat)
    requires n <= |es| && (forall i :: 0 <= i < n ==> !OpenAt(l, es[i], now)) && forall i :: n <= i < |es| ==> OpenAt(l, es[i], now)
    ensures OpenCount(l, es, now) == |es| - n
    decreases |es|
  {
    if n > 0 {
      CountSuffix(l, es[1..], now, n - 1);
    } else if es != [] {
      CountSuffix(l, es[1..], now, 0);
    }
  }

  /** The entry at `i` is the client's, its window is open, and no other open window started before it. */
  ghost predicate OldestOpen(l: Limits, es: seq<Entry>, i: nat, key: string, now: int) {
    i < |es| && es[i].key == key && OpenAt(l, es[i], now) && forall j :: 0 <= j < i ==> !OpenAt(l, es[j], now)
  }

  /** A newcomer arrives, as many windows are open as the limiter may hold, and this client's is the
      oldest of them. */
  ghost predicate GivesWay(l: Limits, es: seq<Entry>, r: Request, key: string) {
    && (forall j :: 0 <= j < |es| && es[j].key == r.key ==> !OpenAt(l, es[j], r.at))
    && OpenCount(l, es, r.at) == l.capacity
    && exists i :: OldestOpen(l, es, i, key, r.at)
  }

  lemma OpenSuffix(l: Limits, es: seq<Entry>, before: int, now: int) returns (n: nat)
    requires Ordered(l, es, before) && before <= now
    ensures n <= |es| && Swept(l, es, now) == es[n..] && OpenCount(l, es, now) == |es| - n
    ensures forall i :: 0 <= i < |es| ==> (OpenAt(l, es[i], now) <==> n <= i)
  {
    n := SweptShape(l, es, now);
    SweptIsOpen(l, es, before, now);
    forall i | n <= i < |es| ensures OpenAt(l, es[i], now) { assert es[i] == Swept(l, es, now)[i - n]; }
    CountSuffix(l, es, now, n);
  }

  lemma EvictsIff(l: Limits, es: seq<Entry>, before: int, r: Request, key: string)
    requires l.capacity >= 1 && Ordered(l, es, before) && before <= r.at
    ensures Evicts(l, es, r, key) <==> GivesWay(l, es, r, key)
  {
    var n := OpenSuffix(l, es, before, r.at);
    var live := es[n..];
    assert Tracks(live, r.key) <==> exists j :: n <= j < |es| && es[j].key == r.key by {
      if j :| n <= j < |es| && es[j].key == r.key { assert live[j - n].key == r.key; }
      if Tracks(live, r.key) { assert es[n + IndexOf(live, r.key)].key == r.key; }
    }
    if |live| == l.capacity {
      assert WithRoom(l, live) == live[1..];
      OnlyFirstMissing(live, key);
      assert live[0] == es[n];
      if live[0].key == key { assert OldestOpen(l, es, n, key, r.at); }
      if i :| OldestOpen(l, es, i, key, r.at) { assert i == n; }
    }
  }

  lemma OnlyFirstMissing(live: seq<Entry>, key: string)
    requires live != [] && forall i, j :: 0 <= i < j < |live| ==> live[i].key != live[j].key
    ensures Tracks(live, key) && !Tracks(live[1..], key) <==> live[0].key == key
  {
    if i :| 0 <= i < |live| && live[i].key == key {
      if i > 0 { assert live[1..][i - 1].key == key; }
    }
    if Tracks(live[1..], key) { assert live[1 + IndexOf(live[1..], key)].key == key; }
  }

  /** What a request makes of another client: its open window is forgotten exactly when it is the
      oldest of a full limiter's open windows and the request opens a new one; otherwise it is kept. */
  lemma OldestGivesWay(l: Limits, es: seq<Entry>, before: int, r: Request, key: string)
    requires l.capacity >= 1 && Ordered(l, es, before) && before <= r.at && r.key != key
    ensures Remembered(AllowEntries(l, es, r.key, r.at), key) ==
      if GivesWay(l, es, r, key) then Idle else Current(l, Remembered(es, key), r.at)
  {
    OtherRequest(l, es, before, r, key);
    EvictsIff(l, es, before, r, key);
  }

  /** Open windows that started after the client's own. */
  function NewerOpen(l: Limits, es: seq<Entry>, key: string, now: int): nat {
    if es == [] then 0
    else if es[0].key == key then OpenCount(l, es[1..], now)
    else NewerOpen(l, es[1..], key, now)
  }

  lemma {:induction false} NewerThanOldest(l: Limits, es: seq<Entry>, i: nat, key: string, now: int)
    requires OldestOpen(l, es, i, key, now) && forall a, b :: 0 <= a < b < |es| ==> es[a].key != es[b].key
    ensures NewerOpen(l, es, key, now) == OpenCount(l, es, now) - 1
    decreases i
  {
    if i > 0 {
      NewerThanOldest(l, es[1..], i - 1, key, now);
    }
  }

  /** At every request of the run fewer than capacity - 1 windows are open that started after the client's. */
  ghost predicate FewNewer(l: Limits, es: seq<Entry>, rs: seq<Request>, key: string)
    requires l.capacity >= 1
    decreases |rs|
  {
    rs == [] ||
    (NewerOpen(l, es, key, rs[0].at) < l.capacity - 1 && FewNewer(l, AllowEntries(l, es, rs[0].key, rs[0].at), rs[1..], key))
  }

  lemma {:induction false} FewNewerNeverEvicted(l: Limits, es: seq<Entry>, before: int, rs: seq<Request>, key: string)
    requires l.capacity >= 1 && Ordered(l, es, before) && NonDecreasing(rs) && NotBefore(rs, before) && FewNewer(l, es, rs, key)
    ensures NeverEvicted(l, es, rs, key)
    decreases |rs|
  {
    if rs != [] {
      EvictsIff(l, es, before, rs[0], key);
      if i :| OldestOpen(l, es, i, key, rs[0].at) { NewerThanOldest(l, es, i, key, rs[0].at); }
      AllowKeepsOrder(l, es, before, rs[0].key, rs[0].at);
      FewNewerNeverEvicted(l, AllowEntries(l, es, rs[0].key, rs[0].at), rs[0].at, rs[1..], key);
    }
  }

  /** A client after whom too few windows open to fill the limiter is answered as if alone. */
  lemma FewNewerAnswered(l: Limits, es: seq<Entry>, before: int, rs: seq<Request>, key: string)
    requires l.capacity >= 1 && Ordered(l, es, before) && NonDecreasing(rs) && NotBefore(rs, before) && FewNewer(l, es, rs, key)
    ensures VerdictsFor(l, es, rs, key) == Answers(l, Remembered(es, key), TimesOf(rs, key))
  {
    FewNewerNeverEvicted(l, es, before, rs, key);
    RefinesPerKey(l, es, rs, key, Remembered(es, key), before);
  }

  // ---------------------------------------------------------------- few enough clients

  /** The clients heard from in the window that ends with request `n`. */
  function Busy(l: Limits, rs: seq<Request>, n: nat): set<string>
    requires n < |rs|
  {
    set m | 0 <= m <= n && rs[m].at > rs[n].at - l.window :: rs[m].key
  }

  /** Every window on record began with a request. */
  ghost predicate Grounded(es: seq<Entry>, past: seq<Request>) {
    forall i :: 0 <= i < |es| ==> Request(es[i].key, es[i].startedAt) in past
  }

  lemma AllowKeepsGrounds(l: Limits, es: seq<Entry>, before: int, r: Request, past: seq<Request>)
    requires l.capacity >= 1 && Ordered(l, es, before) && before <= r.at && Grounded(es, past)
    ensures Grounded(AllowEntries(l, es, r.key, r.at), past + [r])
  {
    var n := SweptShape(l, es, r.at);
    SweptIsOpen(l, es, before, r.at);
    var live, after := Swept(l, es, r.at), AllowEntries(l, es, r.key, r.at);
    assert Grounded(live, past) by {
      forall i | 0 <= i < |live| ensures Request(live[i].key, live[i].startedAt) in past { assert live[i] == es[n + i]; }
    }
    forall i | 0 <= i < |after| ensures Request(after[i].key, after[i].startedAt) in past + [r] {
      if Tracks(live, r.key) {
        assert after[i].key == live[i].key && after[i].startedAt == live[i].startedAt;
      } else if i < |WithRoom(l, live)| {
        assert after[i] == live[|live| - |WithRoom(l, live)| + i];
      } else {
        assert after[i] == Entry(r.key, r.at, 1) && r in past + [r];
      }
    }
  }

  function KeysOf(es: seq<Entry>): set<string> { set i | 0 <= i < |es| :: es[i].key }

  lemma {:induction false} KeysCount(es: seq<Entry>)
    requires forall i, j :: 0 <= i < j < |es| ==> es[i].key != es[j].key
    ensures |KeysOf(es)| == |es|
  {
    if es != [] {
      var n := |es| - 1;
      KeysCount(es[..n]);
      assert KeysOf(es) == KeysOf(es[..n]) + {es[n].key};
      assert es[n].key !in KeysOf(es[..n]);
    }
  }

  lemma NoEvictionAmongFew(l: Limits, es: seq<Entry>, before: int, past: seq<Request>, r: Request, key: string)
    requires l.capacity >= 1 && Ordered(l, es, before) && before <= r.at && Grounded(es, past)
    requires |Busy(l, past + [r], |past|)| <= l.capacity
    ensures !Evicts(l, es, r, key)
  {
    if Evicts(l, es, r, key) {
      SweptIsOpen(l, es, before, r.at);
      var n := SweptShape(l, es, r.at);
      var live, all := Swept(l, es, r.at), past + [r];
      KeysCount(live);
      assert r.key !in KeysOf(live);
      assert all[|past|] == r;
      forall k | k in KeysOf(live) + {r.key} ensures k in Busy(l, all, |past|) {
        if k in KeysOf(live) {
          var i :| 0 <= i < |live| && live[i].key == k;
          assert live[i] == es[n + i];
          var m :| 0 <= m < |past| && past[m] == Request(k, live[i].startedAt);
          assert all[m] == past[m];
        }
      }
      Larger(KeysOf(live) + {r.key}, Busy(l, all, |past|));
    }
  }

  lemma Larger(a: set<string>, b: set<string>)
    requires a <= b
    ensures |a| <= |b|
  {
    assert b == a + (b - a);
  }

  lemma {:induction false} FewClientsNeverEvicted(l: Limits, es: seq<Entry>, before: int, past: seq<Request>, rs: seq<Request>, key: string)
    requires l.capacity >= 1 && Ordered(l, es, before) && Grounded(es, past) && NonDecreasing(rs) && NotBefore(rs, before)
    requires forall n :: |past| <= n < |past + rs| ==> |Busy(l, past + rs, n)| <= l.capacity
    ensures NeverEvicted(l, es, rs, key)
    decreases |rs|
  {
    if rs != [] {
      var r := rs[0];
      assert past + [r] + rs[1..] == past + rs;
      SameBusy(l, past + [r], rs[1..], |past|);
      NoEvictionAmongFew(l, es, before, past, r, key);
      AllowKeepsGrounds(l, es, before, r, past);
      AllowKeepsOrder(l, es, before, r.key, r.at);
      FewClientsNeverEvicted(l, AllowEntries(l, es, r.key, r.at), r.at, past + [r], rs[1..], key);
    }
  }

  lemma SameBusy(l: Limits, a: seq<Request>, b: seq<Request>, n: nat)
    requires n < |a|
    ensures Busy(l, a + b, n) == Busy(l, a, n)
  {
    assert forall m :: 0 <= m <= n ==> (a + b)[m] == a[m];
    forall k | k in Busy(l, a + b, n) ensures k in Busy(l, a, n) {
      var m :| 0 <= m <= n && (a + b)[m].at > (a + b)[n].at - l.window && (a + b)[m].key == k;
      assert a[m].key == k;
    }
    forall k | k in Busy(l, a, n) ensures k in Busy(l, a + b, n) {
      var m :| 0 <= m <= n && a[m].at > a[n].at - l.window && a[m].key == k;
      assert (a + b)[m].key == k;
    }
  }

  /** The bound on memory costs nothing as long as no stretch of one window length hears from more
      clients than the limiter may hold: then everyone gets the answers of a limiter of its own. */
  lemma FewClientsAnswered(l: Limits, rs: seq<Request>, key: string)
    requires l.capacity >= 1 && NonDecreasing(rs)
    requires forall n :: 0 <= n < |rs| ==> |Busy(l, rs, n)| <= l.capacity
    ensures VerdictsFor(l, [], rs, key) == Answers(l, Idle, TimesOf(rs, key))
  {
    if rs != [] {
      assert [] + rs == rs;
      FewClientsNeverEvicted(l, [], rs[0].at, [], rs, key);
      FreshLimiterRefinesPerKey(l, rs, key);
    }
  }

  // ---------------------------------------------------------------- bounds

  predicate Sorted(times: seq<int>) {
    forall i, j :: 0 <= i < j < |times| ==> times[i] <= times[j]
  }

  /** Requests admitted before `hi`. */
  function Admitted(l: Limits, w: Window, times: seq<int>, hi: int): nat
    decreases |times|
  {
    if times == [] then 0
    else
      var first := if times[0] < hi && Answer(l, w, times[0]) == Allowed then 1 else 0;
      first + Admitted(l, Next(l, w, times[0]), times[1..], hi)
  }

  function Left(l: Limits, w: Window): nat {
    if w.Idle? then Room(l) else if w.count >= l.maximum then 0 else l.maximum - w.count
  }

  /** Until its window ends, a client gets no more than what is left of it. */
  lemma {:induction false} WithinWindow(l: Limits, w: Window, times: seq<int>, hi: int)
    requires w.Open? && Sorted(times) && hi <= w.startedAt + l.window
    ensures Admitted(l, w, times, hi) <= Left(l, w)
    decreases |times|
  {
    if times != [] {
      if times[0] < hi {
        WithinWindow(l, Next(l, w, times[0]), times[1..], hi);
      } else {
        NothingBefore(l, w, times, hi);
      }
    }
  }

  lemma {:induction false} NothingBefore(l: Limits, w: Window, times: seq<int>, hi: int)
    requires Sorted(times) && (times != [] ==> times[0] >= hi)
    ensures Admitted(l, w, times, hi) == 0
    decreases |times|
  {
    if times != [] {
      assert forall i :: 0 <= i < |times[1..]| ==> times[1..][i] == times[i + 1];
      NothingBefore(l, Next(l, w, times[0]), times[1..], hi);
    }
  }

  /** Any stretch no longer than one window admits at most twice the maximum less one, whatever
      happened before it: it can meet the tail of one window and the head of the next. */
  lemma {:induction false} TwoWindowsAtMost(l: Limits, w: Window, times: seq<int>, lo: int, hi: int)
    requires Sorted(times) && hi <= lo + l.window
    requires forall i :: 0 <= i < |times| ==> lo <= times[i]
    requires w.Open? ==> w.count >= 1
    ensures Admitted(l, w, times, hi) <= Left(l, w) + Room(l)
    ensures Admitted(l, w, times, hi) <= 2 * Room(l) - 1
    decreases |times|
  {
    if times != [] {
      var t := times[0];
      if t >= hi {
        NothingBefore(l, w, times, hi);
      } else if Current(l, w, t).Idle? {
        WithinWindow(l, Next(l, w, t), times[1..], hi);
      } else {
        TwoWindowsAtMost(l, Next(l, w, t), times[1..], lo, hi);
      }
    }
  }

  /** Admissions among the given verdicts whose request came in [lo, hi). */
  function AdmittedBetween(vs: seq<Verdict>, times: seq<int>, lo: int, hi: int): nat
    requires |vs| == |times|
  {
    if times == [] then 0
    else
      var first := if lo <= times[0] < hi && vs[0] == Allowed then 1 else 0;
      first + AdmittedBetween(vs[1..], times[1..], lo, hi)
  }

  lemma {:induction false} AnswersBetween(l: Limits, w: Window, times: seq<int>, lo: int, hi: int)
    requires Sorted(times) && hi <= lo + l.window && (w.Open? ==> w.count >= 1)
    ensures AdmittedBetween(Answers(l, w, times), times, lo, hi) <= 2 * Room(l) - 1
    ensures (forall i :: 0 <= i < |times| ==> lo <= times[i]) ==>
      AdmittedBetween(Answers(l, w, times), times, lo, hi) == Admitted(l, w, times, hi)
    decreases |times|
  {
    if times != [] {
      AnswersBetween(l, Next(l, w, times[0]), times[1..], lo, hi);
      assert Answers(l, w, times)[1..] == Answers(l, Next(l, w, times[0]), times[1..]);
      if lo <= times[0] {
        TwoWindowsAtMost(l, w, times, lo, hi);
      }
    }
  }

  lemma {:induction false} TimesAreSorted(rs: seq<Request>, key: string)
    requires NonDecreasing(rs)
    ensures Sorted(TimesOf(rs, key))
    ensures forall t :: t in TimesOf(rs, key) ==> rs != [] && rs[0].at <= t
  {
    if rs != [] {
      var rest := TimesOf(rs[1..], key);
      TimesAreSorted(rs[1..], key);
      forall t | t in rest ensures rs[0].at <= t { assert rs[0].at <= rs[1].at; }
      hide Sorted, NonDecreasing;
      SortedCons(rs[0].at, rest);
    }
  }

  lemma SortedCons(t: int, rest: seq<int>)
    requires Sorted(rest) && forall u :: u in rest ==> t <= u
    ensures Sorted([t] + rest)
  {
    forall i | 0 <= i < |rest| ensures t <= rest[i] { assert rest[i] in rest; }
  }

  lemma {:induction false} AdmittedConcat(vs: seq<Verdict>, ws: seq<Verdict>, ts: seq<int>, us: seq<int>, lo: int, hi: int)
    requires |vs| == |ts| && |ws| == |us|
    ensures AdmittedBetween(vs + ws, ts + us, lo, hi) == AdmittedBetween(vs, ts, lo, hi) + AdmittedBetween(ws, us, lo, hi)
    decreases |ts|
  {
    if ts == [] {
      assert vs + ws == ws && ts + us == us;
    } else {
      assert (vs + ws)[1..] == vs[1..] + ws && (ts + us)[1..] == ts[1..] + us;
      AdmittedConcat(vs[1..], ws, ts[1..], us, lo, hi);
    }
  }

  lemma {:induction false} AllAdmitted(vs: seq<Verdict>, t: int, lo: int, hi: int)
    requires lo <= t < hi && forall i :: 0 <= i < |vs| ==> vs[i] == Allowed
    ensures AdmittedBetween(vs, Repeated(t, |vs|), lo, hi) == |vs|
    decreases |vs|
  {
    if vs != [] {
      assert Repeated(t, |vs|)[1..] == Repeated(t, |vs| - 1);
      AllAdmitted(vs[1..], t, lo, hi);
    }
  }

  /** Requests at one instant within the budget are all admitted, and the rest meets what they leave. */
  lemma FillAdmits(l: Limits, w: Window, t: int, n: nat, rest: seq<int>, lo: int, hi: int)
    requires l.window > 0 && n <= Budget(l, w, t) && (w.Open? ==> w.count >= 1) && lo <= t < hi
    ensures var times := Repeated(t, n) + rest;
      AdmittedBetween(Answers(l, w, times), times, lo, hi)
        == n + AdmittedBetween(Answers(l, Folded(l, w, Repeated(t, n)), rest), rest, lo, hi)
  {
    var vs := Answers(l, w, Repeated(t, n));
    forall k | 0 <= k < n ensures vs[k] == Allowed { RepeatedAnswers(l, w, t, n, k); }
    AllAdmitted(vs, t, lo, hi);
    AnswersConcat(l, w, Repeated(t, n), rest);
    AdmittedConcat(vs, Answers(l, Folded(l, w, Repeated(t, n)), rest), Repeated(t, n), rest, lo, hi);
  }

  /** No client that is never evicted gets more than `n` requests through in a stretch of one
      window length, however everybody's requests fall. */
  ghost predicate NeverMoreThan(l: Limits, n: int)
    requires l.capacity >= 1
  {
    forall rs, key, lo, hi :: hi <= lo + l.window && NonDecreasing(rs) && NeverEvicted(l, [], rs, key) ==>
      AdmittedBetween(VerdictsFor(l, [], rs, key), TimesOf(rs, key), lo, hi) <= n
  }

  lemma NotTwiceTheMaximum(l: Limits, rs: seq<Request>, key: string, lo: int, hi: int)
    requires l.capacity >= 1 && hi <= lo + l.window
    requires NonDecreasing(rs) && NeverEvicted(l, [], rs, key)
    ensures AdmittedBetween(VerdictsFor(l, [], rs, key), TimesOf(rs, key), lo, hi) < 2 * Room(l)
  {
    FreshLimiterRefinesPerKey(l, rs, key);
    TimesAreSorted(rs, key);
    AnswersBetween(l, Idle, TimesOf(rs, key), lo, hi);
  }

  /** One request opens a window; at its last tick come the rest it admits, and at the next tick a
      whole window's worth. */
  function Straddling(l: Limits): seq<int>
    requires l.window >= 2
  {
    [0] + (Repeated(l.window - 1, Room(l) - 1) + (Repeated(l.window, Room(l)) + []))
  }

  lemma StraddlingAdmits(l: Limits)
    requires l.window >= 2
    ensures Sorted(Straddling(l)) && forall t :: t in Straddling(l) ==> 0 <= t
    ensures AdmittedBetween(Answers(l, Idle, Straddling(l)), Straddling(l), l.window - 1, 2 * l.window - 1) == 2 * Room(l) - 1
  {
    var n, lo, hi := Room(l), l.window - 1, 2 * l.window - 1;
    var second := Repeated(l.window, n) + [];
    var first := Repeated(lo, n - 1) + second;
    var begun := Next(l, Idle, 0);
    var w := Folded(l, begun, Repeated(lo, n - 1));
    assert w == Open(0, n) by {
      if n > 1 { RepeatedFolds(l, begun, lo, n - 1); }
    }
    FillAdmits(l, begun, lo, n - 1, second, lo, hi);
    FillAdmits(l, w, l.window, n, [], lo, hi);
    assert Straddling(l)[1..] == first;
    assert Answers(l, Idle, Straddling(l))[1..] == Answers(l, begun, first);
  }

  /** The promise to operators, and that none is better: a client that is not evicted gets fewer
      than twice the maximum through in a stretch of one window length, and can get one less. */
  lemma AdmissionBoundIs(l: Limits, n: int)
    requires l.capacity >= 1 && l.window >= 2
    ensures NeverMoreThan(l, n) <==> n >= 2 * Room(l) - 1
  {
    hide NeverEvicted, AdmittedBetween, VerdictsFor, Straddling;
    forall rs, key, lo, hi | hi <= lo + l.window && NonDecreasing(rs) && NeverEvicted(l, [], rs, key)
      ensures AdmittedBetween(VerdictsFor(l, [], rs, key), TimesOf(rs, key), lo, hi) < 2 * Room(l)
    {
      NotTwiceTheMaximum(l, rs, key, lo, hi);
    }
    StraddlingAdmits(l);
    var rs := Own("client", Straddling(l));
    OwnRun(l, [], "client", 0, Straddling(l));
    assert AdmittedBetween(VerdictsFor(l, [], rs, "client"), TimesOf(rs, "client"), l.window - 1, 2 * l.window - 1) == 2 * Room(l) - 1;
  }

  // ---------------------------------------------------------------- waiting times

  /** A spent window refuses until it ends, always naming the same end, and then admits. */
  lemma {:induction false} SpentWindow(l: Limits, w: Window, times: seq<int>, i: nat)
    requires w.Open? && w.count >= l.maximum && Sorted(times) && i < |times|
    ensures var end := w.startedAt + l.window;
      && (times[i] < end ==> Answers(l, w, times)[i] == Refused(end - times[i]))
      && (times[i] >= end && (i == 0 || times[i - 1] < end) ==> Answers(l, w, times)[i] == Allowed)
    decreases i
  {
    if i > 0 && times[0] < w.startedAt + l.window {
      SpentWindow(l, w, times[1..], i - 1);
    }
  }

  /** A refusal's waiting time is exact in every later run of everybody that does not evict the
      client: until the announced moment it is refused, each time with the rest of the same wait,
      and its first request from that moment on is admitted. */
  lemma RetryAfterIsExact(l: Limits, es: seq<Entry>, before: int, key: string, now: int, rs: seq<Request>, i: nat)
    requires l.capacity >= 1 && Ordered(l, es, before) && before <= now
    requires AllowVerdict(l, es, key, now).Refused?
    requires LaterRun(l, AllowEntries(l, es, key, now), key, now, rs) && i < |TimesOf(rs, key)|
    ensures 0 < AllowVerdict(l, es, key, now).retryAfter <= l.window
    ensures var end := now + AllowVerdict(l, es, key, now).retryAfter; var times := TimesOf(rs, key);
      var v := VerdictsFor(l, AllowEntries(l, es, key, now), rs, key)[i];
      && (times[i] < end ==> v == Refused(end - times[i]))
      && (times[i] >= end && (i == 0 || times[i - 1] < end) ==> v == Allowed)
  {
    var es', w := AllowEntries(l, es, key, now), Remembered(es, key);
    RefusedIsSpent(l, es, before, key, now);
    RefinesPerKey(l, es', rs, key, w, now);
    TimesAreSorted(rs, key);
    SpentWindow(l, w, TimesOf(rs, key), i);
  }

  lemma RefusedIsSpent(l: Limits, es: seq<Entry>, before: int, key: string, now: int)
    requires l.capacity >= 1 && Ordered(l, es, before) && before <= now && AllowVerdict(l, es, key, now).Refused?
    ensures var w := Remembered(es, key);
      && w.Open? && w.count >= l.maximum && w.startedAt <= now < w.startedAt + l.window
      && AllowVerdict(l, es, key, now) == Refused(w.startedAt + l.window - now)
      && Remembered(AllowEntries(l, es, key, now), key) == w
    ensures Ordered(l, AllowEntries(l, es, key, now), now)
  {
    OwnRequest(l, es, before, key, now);
    AllowKeepsOrder(l, es, before, key, now);
  }
}
