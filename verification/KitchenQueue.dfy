// The kitchen board's queue: tasks grouped by order, the oldest order first.
module KitchenQueue {
  import opened Prelude

  // Order ids are only compared for equality, and creation times for order.
  type OrderId = nat

  datatype Status = CONFIRMED | PREPARING | PACKING | READY

  datatype Task = Task(id: nat, orderId: OrderId, orderStatus: Status, orderCreatedAt: int)

  datatype Group = Group(id: OrderId, status: Status, createdAt: int, tasks: seq<Task>)

  // ---- What the queue is ----

  function Belongs(id: OrderId): Task -> bool { (task: Task) => task.orderId == id }

  /** The position of an order's first task, or the length when the order has none. */
  function FirstSeen(tasks: seq<Task>, id: OrderId): (i: nat)
    ensures i <= |tasks|
    ensures i < |tasks| ==> tasks[i].orderId == id
    ensures forall j :: 0 <= j < i ==> tasks[j].orderId != id
  {
    if tasks == [] || tasks[0].orderId == id then 0 else 1 + FirstSeen(tasks[1..], id)
  }

  predicate HasOrder(tasks: seq<Task>, id: OrderId) { FirstSeen(tasks, id) < |tasks| }

  /** The group of an order: its tasks in input order, headed by what its first task says. */
  function GroupOf(tasks: seq<Task>, id: OrderId): Group
    requires HasOrder(tasks, id)
  {
    var first := tasks[FirstSeen(tasks, id)];
    Group(id, first.orderStatus, first.orderCreatedAt, Filter(Belongs(id), tasks))
  }

  predicate IsGroup(tasks: seq<Task>, group: Group) { HasOrder(tasks, group.id) && group == GroupOf(tasks, group.id) }

  const CREATED: Group -> int := (group: Group) => group.createdAt

  function Seen(tasks: seq<Task>): Group -> int { (group: Group) => FirstSeen(tasks, group.id) }

  /** Older orders come first; orders of the same time in the order they were first seen. */
  predicate Precedes(tasks: seq<Task>, a: Group, b: Group) { Lex(CREATED, Seen(tasks), a, b) }

  predicate Ranked(tasks: seq<Task>, groups: seq<Group>) {
    && (forall group <- groups :: IsGroup(tasks, group))
    && (forall i, j :: 0 <= i < j < |groups| ==> Precedes(tasks, groups[i], groups[j]))
  }

  predicate IsQueue(tasks: seq<Task>, queue: seq<Group>) {
    && Ranked(tasks, queue)
    && (forall task <- tasks :: exists group <- queue :: group.id == task.orderId)
  }

  // ---- The stable sort by a key ----

  // Puts an element ahead of the elements whose key is not smaller.
  function Insert<T>(key: T -> int, x: T, sorted: seq<T>): (r: seq<T>)
    ensures multiset(r) == multiset(sorted) + multiset{x}
  {
    if sorted == [] then [x]
    else if key(x) <= key(sorted[0]) then [x] + sorted
    else
      assert sorted == [sorted[0]] + sorted[1..];
      [sorted[0]] + Insert(key, x, sorted[1..])
  }

  function StableSort<T>(key: T -> int, xs: seq<T>): (r: seq<T>)
    ensures multiset(r) == multiset(xs)
  {
    if xs == [] then []
    else
      assert xs == [xs[0]] + xs[1..];
      Insert(key, xs[0], StableSort(key, xs[1..]))
  }

  // Smaller keys come first, and equal keys by rank.
  predicate Lex<T>(key: T -> int, rank: T -> int, a: T, b: T) {
    key(a) < key(b) || (key(a) == key(b) && rank(a) < rank(b))
  }

  predicate LexSorted<T>(key: T -> int, rank: T -> int, xs: seq<T>) {
    forall i, j :: 0 <= i < j < |xs| ==> Lex(key, rank, xs[i], xs[j])
  }

  lemma {:induction false} InsertKeepsOrder<T>(key: T -> int, rank: T -> int, x: T, sorted: seq<T>)
    requires LexSorted(key, rank, sorted) && forall y <- sorted :: rank(x) < rank(y)
    ensures LexSorted(key, rank, Insert(key, x, sorted))
  {
    if sorted != [] && key(x) > key(sorted[0]) {
      var rest := Insert(key, x, sorted[1..]);
      InsertKeepsOrder(key, rank, x, sorted[1..]);
      forall y <- rest ensures Lex(key, rank, sorted[0], y) {
        assert y in multiset(rest);
        if y in sorted[1..] { assert exists k :: 1 <= k < |sorted| && sorted[k] == y; }
      }
      assert Insert(key, x, sorted) == [sorted[0]] + rest;
    }
  }

  /** Sorting elements given in the order of their ranks breaks ties by rank. */
  lemma {:induction false} SortIsStable<T>(key: T -> int, rank: T -> int, xs: seq<T>)
    requires forall i, j :: 0 <= i < j < |xs| ==> rank(xs[i]) < rank(xs[j])
    ensures LexSorted(key, rank, StableSort(key, xs))
  {
    if xs != [] {
      var rest := StableSort(key, xs[1..]);
      SortIsStable(key, rank, xs[1..]);
      forall y <- rest ensures rank(xs[0]) < rank(y) { assert y in multiset(xs[1..]); }
      InsertKeepsOrder(key, rank, xs[0], rest);
    }
  }

  // ---- Grouping ----

  // The groups gathered from the first tasks, in the order in which their orders were seen.
  ghost predicate Gathered(tasks: seq<Task>, n: nat, seen: seq<OrderId>, groups: map<OrderId, Group>)
    requires n <= |tasks|
  {
    && (forall id :: id in groups <==> FirstSeen(tasks, id) < n)
    && (forall id :: id in groups <==> id in seen)
    && (forall i, j :: 0 <= i < j < |seen| ==> FirstSeen(tasks, seen[i]) < FirstSeen(tasks, seen[j]))
    && (forall id <- groups ::
          var first := tasks[FirstSeen(tasks, id)];
          groups[id] == Group(id, first.orderStatus, first.orderCreatedAt, Filter(Belongs(id), tasks[..n])))
  }

  lemma GatherTask(tasks: seq<Task>, n: nat, seen: seq<OrderId>, groups: map<OrderId, Group>)
    requires n < |tasks| && Gathered(tasks, n, seen, groups)
    ensures var task := tasks[n]; var id := task.orderId;
      if id in groups then
        Gathered(tasks, n + 1, seen, groups[id := groups[id].(tasks := groups[id].tasks + [task])])
      else
        Gathered(tasks, n + 1, seen + [id], groups[id := Group(id, task.orderStatus, task.orderCreatedAt, [task])])
  {
    hide Filter;
    var id := tasks[n].orderId;
    assert tasks[..n + 1] == tasks[..n] + [tasks[n]];
    forall other: OrderId ensures Filter(Belongs(other), tasks[..n + 1]) ==
        Filter(Belongs(other), tasks[..n]) + (if other == id then [tasks[n]] else []) {
      FilterAppend(Belongs(other), tasks[..n], tasks[n]);
    }
    if id !in groups {
      assert FirstSeen(tasks, id) == n;
      FilterNone(Belongs(id), tasks[..n]);
    }
  }

  method GroupTasksByOrder(tasks: seq<Task>) returns (queue: seq<Group>)
    ensures IsQueue(tasks, queue)
  {
    hide Filter, FirstSeen, IsGroup;
    var seen: seq<OrderId> := [];
    var groups: map<OrderId, Group> := map[];
    for n := 0 to |tasks|
      invariant Gathered(tasks, n, seen, groups)
    {
      GatherTask(tasks, n, seen, groups);
      var task := tasks[n];
      if task.orderId in groups {
        var current := groups[task.orderId];
        groups := groups[task.orderId := current.(tasks := current.tasks + [task])];
      } else {
        seen := seen + [task.orderId];
        groups := groups[task.orderId := Group(task.orderId, task.orderStatus, task.orderCreatedAt, [task])];
      }
    }
    var values: seq<Group> := [];
    for i := 0 to |seen|
      invariant |values| == i && forall k :: 0 <= k < i ==> values[k] == groups[seen[k]]
    {
      values := values + [groups[seen[i]]];
    }
    queue := StableSort(CREATED, values);
    GatheredIsQueue(tasks, seen, groups, values);
  }

  lemma GatheredIsQueue(tasks: seq<Task>, seen: seq<OrderId>, groups: map<OrderId, Group>, values: seq<Group>)
    requires Gathered(tasks, |tasks|, seen, groups)
    requires |values| == |seen| && forall k :: 0 <= k < |seen| ==> seen[k] in groups && values[k] == groups[seen[k]]
    ensures IsQueue(tasks, StableSort(CREATED, values))
  {
    GatheredAreGroups(tasks, seen, groups, values);
    hide Gathered, Filter, FirstSeen, IsGroup, Insert, StableSort, Ranked;
    SortedIsRanked(tasks, values);
    forall task <- tasks ensures exists group <- StableSort(CREATED, values) :: group.id == task.orderId {
      TaskIsGathered(tasks, task, seen, groups);
      var k :| 0 <= k < |seen| && seen[k] == task.orderId;
      assert values[k].id == task.orderId && values[k] in multiset(StableSort(CREATED, values));
    }
  }

  lemma GatheredAreGroups(tasks: seq<Task>, seen: seq<OrderId>, groups: map<OrderId, Group>, values: seq<Group>)
    requires Gathered(tasks, |tasks|, seen, groups)
    requires |values| == |seen| && forall k :: 0 <= k < |seen| ==> seen[k] in groups && values[k] == groups[seen[k]]
    ensures forall k :: 0 <= k < |values| ==> IsGroup(tasks, values[k]) && values[k].id == seen[k]
    ensures forall i, j :: 0 <= i < j < |values| ==> FirstSeen(tasks, values[i].id) < FirstSeen(tasks, values[j].id)
  {
    hide Filter, FirstSeen, Belongs;
    assert tasks[..|tasks|] == tasks;
  }

  lemma SortedIsRanked(tasks: seq<Task>, values: seq<Group>)
    requires forall k :: 0 <= k < |values| ==> IsGroup(tasks, values[k])
    requires forall i, j :: 0 <= i < j < |values| ==> FirstSeen(tasks, values[i].id) < FirstSeen(tasks, values[j].id)
    ensures Ranked(tasks, StableSort(CREATED, values))
  {
    hide IsGroup, FirstSeen, StableSort;
    SortIsStable(CREATED, Seen(tasks), values);
    forall group <- StableSort(CREATED, values) ensures IsGroup(tasks, group) { assert group in multiset(values); }
  }

  lemma TaskIsGathered(tasks: seq<Task>, task: Task, seen: seq<OrderId>, groups: map<OrderId, Group>)
    requires Gathered(tasks, |tasks|, seen, groups) && task in tasks
    ensures task.orderId in seen
  {
    assert FirstSeen(tasks, task.orderId) < |tasks|;
  }

  method PreferredKitchenOrderId(tasks: seq<Task>) returns (preferred: Option<OrderId>)
    ensures preferred.None? <==> tasks == []
    ensures preferred.Some? ==> IsPreferred(tasks, preferred.value)
  {
    hide IsQueue, IsPreferred;
    var orders := GroupTasksByOrder(tasks);
    var i := 0;
    while i < |orders| && orders[i].status == READY
      invariant 0 <= i <= |orders| && forall k :: 0 <= k < i ==> orders[k].status == READY
    {
      i := i + 1;
    }
    PreferredInQueue(tasks, orders, i);
    if i < |orders| { return Some(orders[i].id); }
    if orders != [] { return Some(orders[0].id); }
    return None;
  }

  /** The first order that is not ready; the first of all when every order is ready. */
  ghost predicate IsPreferred(tasks: seq<Task>, id: OrderId) {
    && HasOrder(tasks, id)
    && (forall other :: HasOrder(tasks, other) && other != id ==>
          var mine, theirs := GroupOf(tasks, id), GroupOf(tasks, other);
          if mine.status != READY then theirs.status != READY ==> Precedes(tasks, mine, theirs)
          else theirs.status == READY && Precedes(tasks, mine, theirs))
  }

  lemma PreferredInQueue(tasks: seq<Task>, queue: seq<Group>, i: nat)
    requires IsQueue(tasks, queue)
    requires i <= |queue| && (forall k :: 0 <= k < i ==> queue[k].status == READY)
    requires i < |queue| ==> queue[i].status != READY
    ensures queue == [] <==> tasks == []
    ensures i < |queue| ==> IsPreferred(tasks, queue[i].id)
    ensures i == |queue| > 0 ==> IsPreferred(tasks, queue[0].id)
  {
    hide Filter;
    if tasks != [] { assert tasks[0] in tasks; }
    if queue != [] { assert queue[0] in queue; }
    if i < |queue| { FirstIsPreferred(tasks, queue, i); }
    else if queue != [] { FirstIsPreferred(tasks, queue, 0); }
  }

  lemma FirstIsPreferred(tasks: seq<Task>, queue: seq<Group>, first: nat)
    requires IsQueue(tasks, queue) && first < |queue| && forall k :: 0 <= k < first ==> queue[k].status == READY
    requires queue[first].status == READY ==> first == 0 && forall k :: 0 <= k < |queue| ==> queue[k].status == READY
    ensures IsPreferred(tasks, queue[first].id)
  {
    hide Filter, FirstSeen, Lex;
    var id := queue[first].id;
    assert queue[first] == GroupOf(tasks, id) by { assert queue[first] in queue; }
    forall other | HasOrder(tasks, other) && other != id
      ensures var mine, theirs := GroupOf(tasks, id), GroupOf(tasks, other);
        if mine.status != READY then theirs.status != READY ==> Precedes(tasks, mine, theirs)
        else theirs.status == READY && Precedes(tasks, mine, theirs)
    {
      var k := RankOf(tasks, queue, GroupOf(tasks, other));
      if first < k { assert Precedes(tasks, queue[first], queue[k]); }
    }
  }

  // ---- What the queue means ----

  /** Tasks, and the rule of the queue, leave no choice: there is one queue. */
  lemma QueueIsUnique(tasks: seq<Task>, a: seq<Group>, b: seq<Group>)
    requires IsQueue(tasks, a) && IsQueue(tasks, b)
    ensures a == b
  {
    RanksAgree(tasks, a, b, |a|);
    RanksAgree(tasks, b, a, |b|);
  }

  lemma {:induction false} RanksAgree(tasks: seq<Task>, a: seq<Group>, b: seq<Group>, n: nat)
    requires IsQueue(tasks, a) && IsQueue(tasks, b) && n <= |a|
    ensures n <= |b| && a[..n] == b[..n]
  {
    hide FirstSeen, Filter;
    if n > 0 {
      RanksAgree(tasks, a, b, n - 1);
      assert forall k :: 0 <= k < n - 1 ==> a[k] == a[..n - 1][k] == b[..n - 1][k] == b[k];
      var k := RankOf(tasks, b, a[n - 1]);
      if k > n - 1 {
        var j := RankOf(tasks, a, b[n - 1]);
        assert false;
      }
    }
  }

  lemma RankOf(tasks: seq<Task>, queue: seq<Group>, group: Group) returns (k: nat)
    requires IsQueue(tasks, queue) && IsGroup(tasks, group)
    ensures k < |queue| && queue[k] == group
  {
    assert tasks[FirstSeen(tasks, group.id)] in tasks;
    var same :| same in queue && same.id == group.id;
    k :| 0 <= k < |queue| && queue[k] == same;
  }

  function Concat(groups: seq<Group>): seq<Task> {
    if groups == [] then [] else groups[0].tasks + Concat(groups[1..])
  }

  /** Grouping loses, repeats and invents no task. */
  lemma GroupingIsAPartition(tasks: seq<Task>, queue: seq<Group>)
    requires IsQueue(tasks, queue)
    ensures multiset(Concat(queue)) == multiset(tasks)
  {
    forall task: Task ensures multiset(Concat(queue))[task] == multiset(tasks)[task] {
      GroupsHold(tasks, queue, task);
      if task in tasks { assert exists group <- queue :: group.id == task.orderId; }
    }
  }

  lemma {:induction false} GroupsHold(tasks: seq<Task>, groups: seq<Group>, task: Task)
    requires Ranked(tasks, groups)
    ensures multiset(Concat(groups))[task] ==
              if exists group <- groups :: group.id == task.orderId then multiset(tasks)[task] else 0
  {
    hide FirstSeen, Filter;
    if groups != [] {
      GroupsHold(tasks, groups[1..], task);
      assert IsGroup(tasks, groups[0]);
      FilterCount(Belongs(groups[0].id), tasks, task);
      assert forall group <- groups[1..] :: group.id != groups[0].id;
      assert forall group <- groups :: group == groups[0] || group in groups[1..];
      assert multiset(groups[0].tasks + Concat(groups[1..])) == multiset(groups[0].tasks) + multiset(Concat(groups[1..]));
    }
  }

  // ---- The four sections of the queue pane ----

  const SECTIONS := [CONFIRMED, PREPARING, PACKING, READY]

  function OfStatus<T>(statusOf: T -> Status, status: Status): T -> bool { (order: T) => statusOf(order) == status }

  // The orders shown by the first n sections, top to bottom.
  function Shown<T(!new)>(statusOf: T -> Status, orders: seq<T>, n: nat): seq<T>
    requires n <= |SECTIONS|
  {
    if n == 0 then [] else Shown(statusOf, orders, n - 1) + Filter(OfStatus(statusOf, SECTIONS[n - 1]), orders)
  }

  function QueuePane(queue: seq<Group>): seq<Group> { Shown((order: Group) => order.status, queue, |SECTIONS|) }

  /** Every order of the queue is shown exactly once. */
  lemma EveryOrderShownOnce(tasks: seq<Task>, queue: seq<Group>)
    requires IsQueue(tasks, queue)
    ensures multiset(QueuePane(queue)) == multiset(queue)
    ensures forall order <- queue :: multiset(QueuePane(queue))[order] == 1
  {
    hide Shown, IsQueue;
    forall order: Group ensures multiset(QueuePane(queue))[order] == multiset(queue)[order] {
      ShownSoFar((order: Group) => order.status, queue, |SECTIONS|, order);
      SectionExists(order.status);
    }
    forall order <- queue ensures multiset(queue)[order] == 1 { QueuedOnce(tasks, queue, order); }
  }

  lemma SectionExists(status: Status)
    ensures exists k :: 0 <= k < |SECTIONS| && SECTIONS[k] == status
  {
    assert SECTIONS[match status case CONFIRMED => 0 case PREPARING => 1 case PACKING => 2 case READY => 3] == status;
  }

  lemma QueuedOnce(tasks: seq<Task>, queue: seq<Group>, order: Group)
    requires IsQueue(tasks, queue) && order in queue
    ensures multiset(queue)[order] == 1
  {
    hide IsGroup, FirstSeen;
    var k :| 0 <= k < |queue| && queue[k] == order;
    assert queue == queue[..k] + [order] + queue[k + 1..];
    assert order !in queue[..k] && order !in queue[k + 1..];
  }

  lemma {:induction false} ShownSoFar<T(!new)>(statusOf: T -> Status, orders: seq<T>, n: nat, order: T)
    requires n <= |SECTIONS|
    ensures multiset(Shown(statusOf, orders, n))[order] ==
              if exists k :: 0 <= k < n && SECTIONS[k] == statusOf(order) then multiset(orders)[order] else 0
  {
    hide Filter;
    if n > 0 {
      ShownSoFar(statusOf, orders, n - 1, order);
      FilterCount(OfStatus(statusOf, SECTIONS[n - 1]), orders, order);
      SectionsDiffer();
      if SECTIONS[n - 1] == statusOf(order) {
        assert !exists k :: 0 <= k < n - 1 && SECTIONS[k] == statusOf(order);
      }
    }
  }

  lemma SectionsDiffer()
    ensures forall j, k :: 0 <= j < k < |SECTIONS| ==> SECTIONS[j] != SECTIONS[k]
  {
  }
}
