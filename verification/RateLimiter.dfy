/** The bounded fixed-window limiter (internal/platform/httpserver/rate_limit.go). */
module RateLimiting {

  datatype Limits = Limits(maximum: int, window: int, capacity: nat)

  /** One tracked client; the limiter keeps them in the order their windows started. */
  datatype Entry = Entry(key: string, startedAt: int, count: int)

  datatype Verdict = Allowed | Refused(retryAfter: int)

  // ---------------------------------------------------------------- specification

  /** Expired windows are swept from the front until one is still open. */
  function Swept(l: Limits, es: seq<Entry>, now: int): seq<Entry> {
    if es != [] && now - es[0].startedAt >= l.window then Swept(l, es[1..], now) else es
  }

  predicate Tracks(es: seq<Entry>, key: string) {
    exists i :: 0 <= i < |es| && es[i].key == key
  }

  function IndexOf(es: seq<Entry>, key: string): (i: nat)
    requires Tracks(es, key)
    ensures i < |es| && es[i].key == key
    ensures forall j :: 0 <= j < i ==> es[j].key != key
  {
    if es[0].key == key then 0
    else
      assert Tracks(es[1..], key) by {
        var i :| 0 <= i < |es| && es[i].key == key;
        assert es[1..][i - 1].key == key;
      }
      1 + IndexOf(es[1..], key)
  }

  /** The oldest windows give way until there is room for one more. */
  function WithRoom(l: Limits, es: seq<Entry>): seq<Entry>
    requires l.capacity >= 1
  {
    if |es| >= l.capacity then es[|es| - l.capacity + 1..] else es
  }

  function Without(es: seq<Entry>, i: nat): seq<Entry>
    requires i < |es|
  {
    es[..i] + es[i + 1..]
  }

  /** A further request of the client at position `i`. */
  function Recounted(l: Limits, live: seq<Entry>, i: nat, now: int): seq<Entry>
    requires i < |live|
  {
    if now - live[i].startedAt >= l.window then Without(live, i) + [Entry(live[i].key, now, 1)]
    else if live[i].count >= l.maximum then live
    else live[i := live[i].(count := live[i].count + 1)]
  }

  function RecountVerdict(l: Limits, e: Entry, now: int): Verdict {
    if now - e.startedAt >= l.window || e.count < l.maximum then Allowed
    else Refused(l.window - (now - e.startedAt))
  }

  function AllowEntries(l: Limits, es: seq<Entry>, key: string, now: int): seq<Entry>
    requires l.capacity >= 1
  {
    var live := Swept(l, es, now);
    if Tracks(live, key) then Recounted(l, live, IndexOf(live, key), now)
    else WithRoom(l, live) + [Entry(key, now, 1)]
  }

  function AllowVerdict(l: Limits, es: seq<Entry>, key: string, now: int): Verdict {
    var live := Swept(l, es, now);
    if Tracks(live, key) then RecountVerdict(l, live[IndexOf(live, key)], now) else Allowed
  }

  // ---------------------------------------------------------------- the limiter

  /** A list element: the entry itself lives here and is updated in place. */
  class Element {
    const key: string
    var startedAt: int
    var count: int

    constructor (key: string, startedAt: int, count: int)
      ensures this.key == key && this.startedAt == startedAt && this.count == count
    {
      this.key, this.startedAt, this.count := key, startedAt, count;
    }

    function View(): Entry
      reads this
    {
      Entry(key, startedAt, count)
    }
  }

  ghost function Views(order: seq<Element>): (es: seq<Entry>)
    reads order
    ensures |es| == |order|
    ensures forall i :: 0 <= i < |order| ==> es[i] == order[i].View()
  {
    seq(|order|, i requires 0 <= i < |order| reads order => order[i].View())
  }

  lemma ViewsMoved(order: seq<Element>, before: seq<Entry>, at: nat)
    requires |order| == |before| && at < |order|
    requires forall j :: 0 <= j < |order| && j != at ==> order[j].View() == before[j]
    ensures Views(order[..at] + order[at + 1..] + [order[at]]) == Without(before, at) + [order[at].View()]
  {
    var after := order[..at] + order[at + 1..] + [order[at]];
    forall j | 0 <= j < |order| ensures Views(after)[j] == (Without(before, at) + [order[at].View()])[j] {
      assert after[j] == order[if j < at then j else if j < |order| - 1 then j + 1 else at];
    }
  }

  lemma ViewsSnoc(order: seq<Element>, e: Element)
    ensures Views(order + [e]) == Views(order) + [e.View()]
  {
    assert (order + [e])[..|order|] == order;
  }

  lemma ViewsSlice(order: seq<Element>, n: nat)
    requires n <= |order|
    ensures Views(order[n..]) == Views(order)[n..]
  {
  }

  function Drop(entries: map<string, Element>, key: string): map<string, Element> {
    map k | k in entries && k != key :: entries[k]
  }

  /** Map and list hold the same elements, each under its own key. */
  ghost predicate Consistent(entries: map<string, Element>, order: seq<Element>)
    decreases |order|
  {
    if order == [] then entries == map[]
    else
      var last := order[|order| - 1];
      last.key in entries && entries[last.key] == last && Consistent(Drop(entries, last.key), order[..|order| - 1])
  }

  lemma DropSize(entries: map<string, Element>, key: string)
    requires key in entries
    ensures |Drop(entries, key)| == |entries| - 1
  {
    assert Drop(entries, key).Keys == entries.Keys - {key};
  }

  lemma {:induction false} ConsistentSize(entries: map<string, Element>, order: seq<Element>)
    requires Consistent(entries, order)
    ensures |entries| == |order|
    decreases |order|
  {
    if order != [] {
      DropSize(entries, order[|order| - 1].key);
      ConsistentSize(Drop(entries, order[|order| - 1].key), order[..|order| - 1]);
    }
  }

  /** A listed element is stored under its key. */
  lemma {:induction false} Listed(entries: map<string, Element>, order: seq<Element>, i: nat)
    requires Consistent(entries, order) && i < |order|
    ensures order[i].key in entries && entries[order[i].key] == order[i]
    decreases |order|
  {
    if i < |order| - 1 { Listed(Drop(entries, order[|order| - 1].key), order[..|order| - 1], i); }
  }

  /** A stored element stands in the list at exactly one place. */
  lemma {:induction false} Locate(entries: map<string, Element>, order: seq<Element>, key: string) returns (at: nat)
    requires Consistent(entries, order) && key in entries
    ensures at < |order| && order[at] == entries[key] && order[at].key == key
    ensures forall j :: 0 <= j < |order| && j != at ==> order[j].key != key
    decreases |order|
  {
    var n := |order| - 1;
    if order[n].key == key {
      at := n;
      forall j | 0 <= j < n ensures order[j].key != key {
        Listed(Drop(entries, key), order[..n], j);
      }
    } else {
      at := Locate(Drop(entries, order[n].key), order[..n], key);
    }
  }

  lemma {:induction false} RemoveAt(entries: map<string, Element>, order: seq<Element>, at: nat)
    requires Consistent(entries, order) && at < |order|
    ensures Consistent(Drop(entries, order[at].key), order[..at] + order[at + 1..])
    decreases |order|
  {
    var n := |order| - 1;
    if at == n {
      assert order[..at] + order[at + 1..] == order[..n];
    } else {
      var last, key := order[n], order[at].key;
      Listed(Drop(entries, last.key), order[..n], at);
      RemoveAt(Drop(entries, last.key), order[..n], at);
      var less := order[..at] + order[at + 1..];
      assert less[..n - 1] == order[..n][..at] + order[..n][at + 1..];
      assert Drop(Drop(entries, key), last.key) == Drop(Drop(entries, last.key), key);
    }
  }

  lemma PushBack(entries: map<string, Element>, order: seq<Element>, e: Element)
    requires Consistent(entries, order) && e.key !in entries
    ensures Consistent(entries[e.key := e], order + [e])
  {
    assert (order + [e])[..|order|] == order;
    assert Drop(entries[e.key := e], e.key) == entries;
  }

  lemma MoveToBack(entries: map<string, Element>, order: seq<Element>, at: nat)
    requires Consistent(entries, order) && at < |order|
    ensures Consistent(entries, order[..at] + order[at + 1..] + [order[at]])
  {
    var e := order[at];
    Listed(entries, order, at);
    RemoveAt(entries, order, at);
    PushBack(Drop(entries, e.key), order[..at] + order[at + 1..], e);
    assert Drop(entries, e.key)[e.key := e] == entries;
  }

  lemma {:induction false} SweptIsSuffix(l: Limits, es: seq<Entry>, now: int, n: nat)
    requires n <= |es| && forall i :: 0 <= i < n ==> now - es[i].startedAt >= l.window
    requires n < |es| ==> now - es[n].startedAt < l.window
    ensures Swept(l, es, now) == es[n..]
    decreases n
  {
    if n > 0 { SweptIsSuffix(l, es[1..], now, n - 1); }
  }

  class RateLimiter {
    const limits: Limits
    var entries: map<string, Element>
    var order: seq<Element>

    ghost predicate Valid()
      reads this
    {
      limits.capacity >= 1 && |order| <= limits.capacity && Consistent(entries, order)
    }

    constructor (limits: Limits)
      requires limits.capacity >= 1
      ensures Valid() && this.limits == limits && order == []
    {
      this.limits, entries, order := limits, map[], [];
    }

    /** Both call sites pass the front element. */
    method Remove(element: Element)
      requires Valid() && order != [] && element == order[0]
      modifies this
      ensures Valid() && order == old(order)[1..] && entries == Drop(old(entries), element.key)
    {
      RemoveAt(entries, order, 0);
      assert order[..0] + order[1..] == order[1..];
      entries := map k | k in entries && k != element.key :: entries[k];
      order := order[1..];
    }

    method RemoveExpired(now: int)
      requires Valid()
      modifies this
      ensures Valid()
      ensures Views(order) == Swept(limits, old(Views(order)), now)
      ensures forall e :: e in order ==> e in old(order)
    {
      ghost var n, all := 0, order;
      while order != []
        invariant Valid() && n <= |all| && order == all[n..]
        invariant forall i :: 0 <= i < n ==> now - all[i].startedAt >= limits.window
        decreases |order|
      {
        assert order[0] == all[n];
        if now - order[0].startedAt < limits.window { break; }
        Remove(order[0]);
        n := n + 1;
      }
      ViewsSlice(all, n);
      SweptIsSuffix(limits, Views(all), now, n);
    }

    /** Counts one request for `key` and reports whether it is within the limit. */
    method Allow(key: string, now: int) returns (v: Verdict)
      requires Valid()
      modifies this, order
      ensures Valid()
      ensures Views(order) == AllowEntries(limits, old(Views(order)), key, now)
      ensures v == AllowVerdict(limits, old(Views(order)), key, now)
    {
      RemoveExpired(now);
      ghost var live := Views(order);
      if key in entries {
        ghost var at := Locate(entries, order, key);
        IndexIsUnique(live, key, at);
        assert order[at] in order;
        v := Recount(entries[key], at, now);
      } else {
        Untracked(entries, order, key);
        MakeRoom();
        Insert(key, now);
        v := Allowed;
      }
    }

    /** Starts a window for a new client, behind all others. */
    method Insert(key: string, now: int)
      requires Valid() && key !in entries && |order| < limits.capacity
      modifies this
      ensures Valid()
      ensures Views(order) == old(Views(order)) + [Entry(key, now, 1)]
    {
      var element := new Element(key, now, 1);
      PushBack(entries, order, element);
      entries := entries[key := element];
      ghost var was := order;
      order := order + [element];
      ViewsSnoc(was, element);
    }

    /** The branch of Allow for a client that is tracked already. */
    method Recount(element: Element, ghost at: nat, now: int) returns (v: Verdict)
      requires Valid() && at < |order| && order[at] == element
      modifies this, element
      ensures Valid()
      ensures Views(order) == Recounted(limits, old(Views(order)), at, now)
      ensures v == RecountVerdict(limits, old(element.View()), now)
    {
      ghost var live, was := Views(order), order;
      Unlisted(entries, order, at);
      if now - element.startedAt >= limits.window {
        element.startedAt, element.count := now, 1;
        var i :| 0 <= i < |order| && order[i] == element;
        assert i == at;
        MoveToBack(entries, order, i);
        order := order[..i] + order[i + 1..] + [element];
        ViewsMoved(was, live, i);
        return Allowed;
      }
      if element.count >= limits.maximum {
        return Refused(limits.window - (now - element.startedAt));
      }
      element.count := element.count + 1;
      assert Views(order) == live[at := live[at].(count := live[at].count + 1)];
      v := Allowed;
    }

    /** The eviction loop of Allow. */
    method MakeRoom()
      requires Valid()
      modifies this
      ensures Valid() && entries.Keys <= old(entries).Keys
      ensures Views(order) == WithRoom(limits, old(Views(order)))
    {
      ghost var n, all := 0, order;
      ConsistentSize(entries, order);
      while |entries| >= limits.capacity
        invariant Valid() && n <= |all| && order == all[n..] && |entries| == |order|
        invariant n == 0 || |order| >= limits.capacity - 1
        invariant entries.Keys <= old(entries).Keys
        decreases |order|
      {
        Remove(order[0]);
        ConsistentSize(entries, order);
        n := n + 1;
      }
      ViewsSlice(all, n);
    }
  }

  lemma Unlisted(entries: map<string, Element>, order: seq<Element>, at: nat)
    requires Consistent(entries, order) && at < |order|
    ensures forall j :: 0 <= j < |order| && j != at ==> order[j] != order[at]
  {
    Listed(entries, order, at);
    var i := Locate(entries, order, order[at].key);
  }

  lemma Untracked(entries: map<string, Element>, order: seq<Element>, key: string)
    requires Consistent(entries, order) && key !in entries
    ensures forall i :: 0 <= i < |order| ==> order[i].key != key
  {
    forall i | 0 <= i < |order| ensures order[i].key != key { Listed(entries, order, i); }
  }

  lemma IndexIsUnique(es: seq<Entry>, key: string, at: nat)
    requires at < |es| && es[at].key == key
    requires forall j :: 0 <= j < |es| && j != at ==> es[j].key != key
    ensures Tracks(es, key) && IndexOf(es, key) == at
  {
    assert Tracks(es, key);
  }
}
