/**
 The in-process event bus: idempotent subscription, and handlers awaited one by one in
 order of priority and then of registration.  A handler is known by its instance.
 */
module EventBus {
  import opened Wrappers

  const DEFAULT_EVENT_HANDLER_PRIORITY := 100

  type HandlerId = nat

  datatype Stored = Stored(handler: HandlerId, priority: int)

  /** A registration with its place in the list, as publish sorts it. */
  datatype Entry = Entry(stored: Stored, index: nat)

  predicate Registers(list: seq<Stored>, handler: HandlerId) {
    exists i | 0 <= i < |list| :: list[i].handler == handler
  }

  /** One subscribe call: a second one for the same instance changes nothing. */
  function Added(list: seq<Stored>, call: Stored): seq<Stored> {
    if Registers(list, call.handler) then list else list + [call]
  }

  function Registered(calls: seq<Stored>): seq<Stored> {
    if calls == [] then [] else Added(Registered(calls[..|calls| - 1]), calls[|calls| - 1])
  }

  /** The comparator, as a strict order. */
  predicate Before(a: Entry, b: Entry) {
    a.stored.priority < b.stored.priority || (a.stored.priority == b.stored.priority && a.index < b.index)
  }

  predicate InOrder(entries: seq<Entry>) {
    forall i, j | 0 <= i < j < |entries| :: Before(entries[i], entries[j])
  }

  function Indexed(list: seq<Stored>): seq<Entry> {
    seq(|list|, i requires 0 <= i < |list| => Entry(list[i], i))
  }

  predicate SameElements<T(==)>(u: seq<T>, v: seq<T>) {
    (forall i | 0 <= i < |u| :: u[i] in v) && forall i | 0 <= i < |v| :: v[i] in u
  }

  /** What any sort by that comparator returns. */
  predicate IsSortOf(sorted: seq<Entry>, list: seq<Stored>) {
    InOrder(sorted) && SameElements(sorted, Indexed(list))
  }

  function Inserted(sorted: seq<Entry>, e: Entry): seq<Entry> {
    if sorted == [] || Before(e, sorted[0]) then [e] + sorted else [sorted[0]] + Inserted(sorted[1..], e)
  }

  function SortedUpTo(list: seq<Stored>, n: nat): seq<Entry>
    requires n <= |list|
  {
    if n == 0 then [] else Inserted(SortedUpTo(list, n - 1), Entry(list[n - 1], n - 1))
  }

  function Plain(entries: seq<Entry>): seq<Stored> {
    seq(|entries|, i requires 0 <= i < |entries| => entries[i].stored)
  }

  /** The registrations in the order publish runs them. */
  function Order(list: seq<Stored>): seq<Stored> {
    Plain(SortedUpTo(list, |list|))
  }

  // ---------------------------------------------------------------------------------
  // The order is the one the comparator asks for
  // ---------------------------------------------------------------------------------

  lemma {:induction false} InsertedIsSorted(sorted: seq<Entry>, e: Entry)
    requires InOrder(sorted) && forall i | 0 <= i < |sorted| :: sorted[i].index != e.index
    ensures InOrder(Inserted(sorted, e))
    ensures forall x :: x in Inserted(sorted, e) <==> x == e || x in sorted
  {
    if sorted != [] && !Before(e, sorted[0]) {
      var rest := sorted[1..];
      InsertedIsSorted(rest, e);
      assert sorted == [sorted[0]] + rest;
      var all := Inserted(sorted, e);
      forall i, j | 0 <= i < j < |all|
        ensures Before(all[i], all[j])
      {
        assert all[j] in Inserted(rest, e);
        assert all[j] == e || all[j] in rest;
      }
    }
  }

  lemma {:induction false} UpToIsSorted(list: seq<Stored>, n: nat)
    requires n <= |list|
    ensures InOrder(SortedUpTo(list, n))
    ensures forall x :: x in SortedUpTo(list, n) <==> x.index < n && x.stored == list[x.index]
  {
    if n > 0 {
      UpToIsSorted(list, n - 1);
      InsertedIsSorted(SortedUpTo(list, n - 1), Entry(list[n - 1], n - 1));
    }
  }

  lemma SortIsSort(list: seq<Stored>)
    ensures IsSortOf(SortedUpTo(list, |list|), list)
  {
    UpToIsSorted(list, |list|);
    var sorted, indexed := SortedUpTo(list, |list|), Indexed(list);
    forall i | 0 <= i < |sorted|
      ensures sorted[i] in indexed
    {
      assert sorted[i] in sorted;
      assert indexed[sorted[i].index] == sorted[i];
    }
    forall i | 0 <= i < |indexed|
      ensures indexed[i] in sorted
    {
      assert indexed[i] == Entry(list[i], i);
    }
  }

  lemma BothEmpty(u: seq<Entry>, v: seq<Entry>)
    requires SameElements(u, v)
    ensures u == [] <==> v == []
  {
    if |u| > 0 {
      assert u[0] in v;
    }
    if |v| > 0 {
      assert v[0] in u;
    }
  }

  lemma Earlier(entries: seq<Entry>, i: nat, j: nat)
    requires InOrder(entries) && i < |entries| && j < |entries|
    ensures Before(entries[i], entries[j]) <==> i < j
  {
    if j < i {
      assert Before(entries[j], entries[i]);
    }
  }

  lemma HeadFirst(entries: seq<Entry>, x: Entry)
    requires InOrder(entries) && x in entries
    ensures x == entries[0] || Before(entries[0], x)
  {
    var k :| 0 <= k < |entries| && entries[k] == x;
  }

  /** Two lists in order with the same elements are the same list. */
  lemma {:induction false} OrderedUnique(u: seq<Entry>, v: seq<Entry>)
    requires InOrder(u) && InOrder(v) && SameElements(u, v)
    ensures u == v
    decreases |u|
  {
    BothEmpty(u, v);
    if u != [] {
      assert u[0] in v && v[0] in u;
      HeadFirst(u, v[0]);
      HeadFirst(v, u[0]);
      forall i | 0 <= i < |u| - 1
        ensures u[1..][i] in v[1..]
      {
        assert u[i + 1] in v && Before(u[0], u[i + 1]);
      }
      forall i | 0 <= i < |v| - 1
        ensures v[1..][i] in u[1..]
      {
        assert v[i + 1] in u && Before(v[0], v[i + 1]);
      }
      OrderedUnique(u[1..], v[1..]);
    }
  }

  /** Whatever algorithm the engine sorts with, handlers run in this order. */
  lemma AnySortRunsThis(list: seq<Stored>, sorted: seq<Entry>)
    requires IsSortOf(sorted, list)
    ensures Plain(sorted) == Order(list)
  {
    SortIsSort(list);
    var ours := SortedUpTo(list, |list|);
    forall i | 0 <= i < |sorted|
      ensures sorted[i] in ours
    {
      assert sorted[i] in Indexed(list);
    }
    forall i | 0 <= i < |ours|
      ensures ours[i] in sorted
    {
      assert ours[i] in Indexed(list);
    }
    OrderedUnique(sorted, ours);
  }

  // ---------------------------------------------------------------------------------
  // Each handler once, and confluence
  // ---------------------------------------------------------------------------------

  predicate DistinctHandlers(list: seq<Stored>) {
    forall i, j | 0 <= i < j < |list| :: list[i].handler != list[j].handler
  }

  lemma {:induction false} RegisteredOnce(calls: seq<Stored>)
    ensures DistinctHandlers(Registered(calls))
    ensures forall i | 0 <= i < |calls| :: Registers(Registered(calls), calls[i].handler)
    ensures forall x :: x in Registered(calls) ==> x in calls
  {
    if calls != [] {
      var init, last := calls[..|calls| - 1], calls[|calls| - 1];
      RegisteredOnce(init);
      var before, after := Registered(init), Registered(calls);
      forall i | 0 <= i < |calls|
        ensures Registers(after, calls[i].handler)
      {
        if i < |init| {
          assert Registers(before, init[i].handler);
          var k :| 0 <= k < |before| && before[k].handler == calls[i].handler;
          assert after[k].handler == calls[i].handler;
        } else if !Registers(before, last.handler) {
          assert after[|before|] == last;
        }
      }
    }
  }

  lemma OrderElements(list: seq<Stored>)
    ensures SameElements(Order(list), list)
  {
    UpToIsSorted(list, |list|);
    var sorted := SortedUpTo(list, |list|);
    forall i | 0 <= i < |sorted|
      ensures Order(list)[i] in list
    {
      assert sorted[i] in sorted;
    }
    forall i | 0 <= i < |list|
      ensures list[i] in Order(list)
    {
      assert Entry(list[i], i) in sorted;
      var k :| 0 <= k < |sorted| && sorted[k] == Entry(list[i], i);
      assert Order(list)[k] == list[i];
    }
  }

  lemma OrderKeepsDistinct(list: seq<Stored>)
    requires DistinctHandlers(list)
    ensures DistinctHandlers(Order(list))
  {
    UpToIsSorted(list, |list|);
    var sorted := SortedUpTo(list, |list|);
    forall i, j | 0 <= i < j < |sorted|
      ensures sorted[i].stored.handler != sorted[j].stored.handler
    {
      assert sorted[i] in sorted && sorted[j] in sorted;
      assert Before(sorted[i], sorted[j]);
    }
  }

  lemma SubscribedRuns(calls: seq<Stored>, h: HandlerId)
    ensures Registers(Order(Registered(calls)), h) <==> Registers(calls, h)
  {
    var list := Registered(calls);
    var order := Order(list);
    RegisteredOnce(calls);
    OrderElements(list);
    if Registers(calls, h) {
      var i :| 0 <= i < |calls| && calls[i].handler == h;
      var k :| 0 <= k < |list| && list[k].handler == calls[i].handler;
      assert list[k] in order;
    }
    if Registers(order, h) {
      var k :| 0 <= k < |order| && order[k].handler == h;
      assert order[k] in list;
      assert order[k] in calls;
    }
  }

  /** Every handler that was ever subscribed runs, and runs once. */
  lemma EachHandlerOnce(calls: seq<Stored>)
    ensures DistinctHandlers(Order(Registered(calls)))
    ensures forall h :: Registers(Order(Registered(calls)), h) <==> Registers(calls, h)
  {
    RegisteredOnce(calls);
    OrderKeepsDistinct(Registered(calls));
    forall h
      ensures Registers(Order(Registered(calls)), h) <==> Registers(calls, h)
    {
      SubscribedRuns(calls, h);
    }
  }

  /** A handler is always subscribed at one priority. */
  predicate Consistent(calls: set<Stored>) {
    forall a, b | a in calls && b in calls && a.handler == b.handler :: a == b
  }

  predicate DistinctPriorities(calls: set<Stored>) {
    forall a, b | a in calls && b in calls && a.priority == b.priority :: a == b
  }

  predicate Lists(calls: seq<Stored>, s: set<Stored>) {
    (forall x | x in s :: x in calls) && forall i | 0 <= i < |calls| :: calls[i] in s
  }

  lemma RegisteredLists(calls: seq<Stored>, s: set<Stored>)
    requires Lists(calls, s) && Consistent(s)
    ensures Lists(Registered(calls), s)
  {
    RegisteredOnce(calls);
    var list := Registered(calls);
    forall x | x in s
      ensures x in list
    {
      var i :| 0 <= i < |calls| && calls[i] == x;
      var k :| 0 <= k < |list| && list[k].handler == calls[i].handler;
      assert list[k] in calls;
    }
    forall i | 0 <= i < |list|
      ensures list[i] in s
    {
      assert list[i] in calls;
    }
  }

  function Zeroed(list: seq<Stored>): seq<Entry> {
    seq(|list|, i requires 0 <= i < |list| => Entry(list[i], 0))
  }

  /** The order, seen without the indices, is in order by priority alone. */
  lemma OrderByPriority(calls: seq<Stored>, s: set<Stored>)
    requires Lists(calls, s) && Consistent(s) && DistinctPriorities(s)
    ensures InOrder(Zeroed(Order(Registered(calls)))) && Lists(Order(Registered(calls)), s)
  {
    var list := Registered(calls);
    RegisteredLists(calls, s);
    OrderElements(list);
    EachHandlerOnce(calls);
    UpToIsSorted(list, |list|);
    var sorted, order := SortedUpTo(list, |list|), Order(list);
    forall i, j | 0 <= i < j < |order|
      ensures Before(Zeroed(order)[i], Zeroed(order)[j])
    {
      assert Before(sorted[i], sorted[j]);
      assert order[i] in s && order[j] in s;
    }
    forall x | x in s
      ensures x in order
    {
      assert x in list;
    }
  }

  lemma ConfluentWhenDistinct(a: seq<Stored>, b: seq<Stored>, s: set<Stored>)
    requires Lists(a, s) && Lists(b, s) && Consistent(s) && DistinctPriorities(s)
    ensures Order(Registered(a)) == Order(Registered(b))
  {
    OrderByPriority(a, s);
    OrderByPriority(b, s);
    var u, v := Order(Registered(a)), Order(Registered(b));
    ZeroedSame(u, v, s);
    OrderedUnique(Zeroed(u), Zeroed(v));
    forall i | 0 <= i < |u|
      ensures u[i] == v[i]
    {
      assert Zeroed(u)[i] == Zeroed(v)[i];
    }
  }

  lemma ZeroedSame(u: seq<Stored>, v: seq<Stored>, s: set<Stored>)
    requires Lists(u, s) && Lists(v, s)
    ensures SameElements(Zeroed(u), Zeroed(v)) && |Zeroed(u)| == |u| && |Zeroed(v)| == |v|
  {
    forall i | 0 <= i < |u|
      ensures Zeroed(u)[i] in Zeroed(v)
    {
      assert u[i] in s && u[i] in v;
      var k :| 0 <= k < |v| && v[k] == u[i];
      assert Zeroed(v)[k] == Zeroed(u)[i];
    }
    forall i | 0 <= i < |v|
      ensures Zeroed(v)[i] in Zeroed(u)
    {
      assert v[i] in s && v[i] in u;
      var k :| 0 <= k < |u| && u[k] == v[i];
      assert Zeroed(u)[k] == Zeroed(v)[i];
    }
  }

  ghost function Enumerated(s: set<Stored>): (calls: seq<Stored>)
    ensures Lists(calls, s)
    decreases |s|
  {
    if s == {} then []
    else
      var x :| x in s;
      [x] + Enumerated(s - {x})
  }

  lemma {:induction false} FirstCalls(first: seq<Stored>, more: seq<Stored>)
    requires DistinctHandlers(first)
    ensures first <= Registered(first + more)
    decreases |first| + |more|
  {
    var calls := first + more;
    if more != [] {
      assert calls[..|calls| - 1] == first + more[..|more| - 1];
      FirstCalls(first, more[..|more| - 1]);
    } else if first != [] {
      var init, last := first[..|first| - 1], first[|first| - 1];
      assert calls == first && init + [] == init;
      FirstCalls(init, []);
      RegisteredOnce(init);
      assert Registered(init) == init by {
        AllKept(init);
      }
      assert !Registers(init, last.handler);
    }
  }

  lemma {:induction false} AllKept(calls: seq<Stored>)
    requires DistinctHandlers(calls)
    ensures Registered(calls) == calls
  {
    if calls != [] {
      AllKept(calls[..|calls| - 1]);
      assert !Registers(calls[..|calls| - 1], calls[|calls| - 1].handler);
    }
  }

  /** Of two handlers at one priority, the one subscribed first runs first. */
  lemma FirstRunsFirst(calls: seq<Stored>, a: Stored, b: Stored)
    requires a.handler != b.handler && a.priority == b.priority
    requires [a, b] <= Registered(calls)
    ensures exists i, j | 0 <= i < j < |Order(Registered(calls))| ::
      Order(Registered(calls))[i] == a && Order(Registered(calls))[j] == b
  {
    var list := Registered(calls);
    UpToIsSorted(list, |list|);
    var sorted := SortedUpTo(list, |list|);
    assert list[0] == a && list[1] == b;
    assert Entry(a, 0) in sorted && Entry(b, 1) in sorted;
    var i :| 0 <= i < |sorted| && sorted[i] == Entry(a, 0);
    var j :| 0 <= j < |sorted| && sorted[j] == Entry(b, 1);
    Earlier(sorted, i, j);
    assert Order(list)[i] == a && Order(list)[j] == b;
  }

  ghost predicate Confluent(s: set<Stored>) {
    forall a, b | Lists(a, s) && Lists(b, s) :: Order(Registered(a)) == Order(Registered(b))
  }

  lemma SharedPriorityDiffers(s: set<Stored>, a: Stored, b: Stored)
    requires a in s && b in s && a.handler != b.handler && a.priority == b.priority
    ensures !Confluent(s)
  {
    var rest := Enumerated(s);
    var x, y := [a, b] + rest, [b, a] + rest;
    FirstCalls([a, b], rest);
    FirstCalls([b, a], rest);
    FirstRunsFirst(x, a, b);
    FirstRunsFirst(y, b, a);
    EachHandlerOnce(x);
    assert Lists(x, s) && Lists(y, s);
    assert Order(Registered(x)) != Order(Registered(y));
  }

  /** The execution order is independent of the order and number of the subscribe calls
      exactly when no two handlers share a priority. */
  lemma ConfluentIffDistinctPriorities(s: set<Stored>)
    requires Consistent(s)
    ensures Confluent(s) <==> DistinctPriorities(s)
  {
    if DistinctPriorities(s) {
      forall a, b | Lists(a, s) && Lists(b, s)
        ensures Order(Registered(a)) == Order(Registered(b))
      {
        ConfluentWhenDistinct(a, b, s);
      }
    } else {
      var a, b :| a in s && b in s && a.priority == b.priority && a != b;
      SharedPriorityDiffers(s, a, b);
    }
  }

  // ---------------------------------------------------------------------------------
  // Lower priority first, then first come
  // ---------------------------------------------------------------------------------

  /** Which subscribe calls made the registrations. */
  function Origins(calls: seq<Stored>): seq<nat> {
    if calls == [] then []
    else
      var init := calls[..|calls| - 1];
      Origins(init) + if Registers(Registered(init), calls[|calls| - 1].handler) then [] else [|init|]
  }

  /** The first call for its handler. */
  predicate IsFirst(calls: seq<Stored>, x: nat) {
    x < |calls| && forall w | 0 <= w < x :: calls[w].handler != calls[x].handler
  }

  lemma {:induction false} OriginsAreFirst(calls: seq<Stored>)
    ensures |Origins(calls)| == |Registered(calls)|
    ensures forall m | 0 <= m < |Origins(calls)| ::
      IsFirst(calls, Origins(calls)[m]) && calls[Origins(calls)[m]] == Registered(calls)[m]
    ensures forall m, n | 0 <= m < n < |Origins(calls)| :: Origins(calls)[m] < Origins(calls)[n]
  {
    if calls != [] {
      var init := calls[..|calls| - 1];
      OriginsAreFirst(init);
      forall m | 0 <= m < |Origins(init)|
        ensures IsFirst(calls, Origins(init)[m]) && calls[Origins(init)[m]] == Registered(init)[m]
      {
        assert IsFirst(init, Origins(init)[m]);
      }
      if !Registers(Registered(init), calls[|init|].handler) {
        RegisteredOnce(init);
        assert forall w | 0 <= w < |init| :: Registers(Registered(init), init[w].handler);
        assert IsFirst(calls, |init|);
      }
    }
  }

  /** Of two handlers, the one with the lower priority runs first, and with equal priorities the
      one that was subscribed first; each with the priority of its first call. */
  lemma RunsInOrder(calls: seq<Stored>, p: nat, q: nat) returns (x: nat, y: nat)
    requires p < q < |Order(Registered(calls))|
    ensures IsFirst(calls, x) && IsFirst(calls, y)
    ensures calls[x] == Order(Registered(calls))[p] && calls[y] == Order(Registered(calls))[q]
    ensures calls[x].priority < calls[y].priority || (calls[x].priority == calls[y].priority && x < y)
  {
    var list := Registered(calls);
    var sorted := SortedUpTo(list, |list|);
    UpToIsSorted(list, |list|);
    OriginsAreFirst(calls);
    assert sorted[p] in sorted && sorted[q] in sorted && Before(sorted[p], sorted[q]);
    x, y := Origins(calls)[sorted[p].index], Origins(calls)[sorted[q].index];
  }

  // ---------------------------------------------------------------------------------
  // The bus
  // ---------------------------------------------------------------------------------

  class InMemoryEventBus {
    var handlers: map<string, seq<Stored>>

    constructor ()
      ensures handlers == map[]
    {
      handlers := map[];
    }

    function Of(eventName: string): seq<Stored>
      reads this
    {
      if eventName in handlers then handlers[eventName] else []
    }

    method Subscribe(eventName: string, handler: HandlerId, priority: Option<int>)
      modifies this
      ensures Of(eventName) == Added(old(Of(eventName)), Stored(handler, if priority.Some? then priority.value else 100))
      ensures Registers(Of(eventName), handler) && old(Of(eventName)) <= Of(eventName)
      ensures forall other | other != eventName :: Of(other) == old(Of(other))
    {
      var existing := Of(eventName);
      for i := 0 to |existing|
        invariant forall k | 0 <= k < i :: existing[k].handler != handler
      {
        if existing[i].handler == handler {
          return;
        }
      }
      var value := if priority.Some? then priority.value else DEFAULT_EVENT_HANDLER_PRIORITY;
      handlers := handlers[eventName := existing + [Stored(handler, value)]];
      assert Of(eventName)[|existing|].handler == handler;
    }

    /** Runs the handlers in order; the first that fails ends it, so exactly a prefix of the
        order has run, and none but its last failed. */
    method Publish(eventName: string, fails: HandlerId -> bool) returns (ran: seq<Stored>, failed: bool)
      ensures ran <= Order(Of(eventName))
      ensures !failed ==> ran == Order(Of(eventName))
      ensures forall i | 0 <= i < |ran| :: fails(ran[i].handler) <==> failed && i == |ran| - 1
      ensures failed ==> ran != []
    {
      var stored := Of(eventName);
      var sorted: seq<Entry> := [];
      for n := 0 to |stored|
        invariant sorted == SortedUpTo(stored, n)
      {
        sorted := Inserted(sorted, Entry(stored[n], n));
      }
      ran := [];
      for i := 0 to |sorted|
        invariant ran == Plain(sorted)[..i]
        invariant forall k | 0 <= k < i :: !fails(ran[k].handler)
      {
        ran := ran + [sorted[i].stored];
        if fails(sorted[i].stored.handler) {
          return ran, true;
        }
      }
      failed := false;
    }
  }
}
