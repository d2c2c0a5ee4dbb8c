/** Kahn's algorithm with a least-first queue (agent-os-microkernel-mvp-buildpack/scripts/sync_dag_sources.py). */
module Topology {
  import opened Common
  import opened Text

  datatype TaskId = TaskId(text: string)

  datatype Task = Task(id: TaskId, deps: seq<TaskId>)

  datatype OrderError = UnknownDependency | Cycle

  function Ids(tasks: seq<Task>): set<TaskId> { set t | t in tasks :: t.id }

  /** A repeated id keeps its last entry, as in a dictionary. */
  function DepsOf(tasks: seq<Task>, id: TaskId): seq<TaskId> {
    if tasks == [] then []
    else
      var n := |tasks| - 1;
      if tasks[n].id == id then tasks[n].deps else DepsOf(tasks[..n], id)
  }

  ghost predicate DistinctIds(tasks: seq<Task>) { forall i, j :: 0 <= i < j < |tasks| ==> tasks[i].id != tasks[j].id }

  ghost predicate KnownDeps(tasks: seq<Task>) { forall t :: t in tasks ==> forall d :: d in t.deps ==> d in Ids(tasks) }

  // ---- What an order should be ----

  /** Every task once, and after everything it depends on. */
  ghost predicate IsTopological(tasks: seq<Task>, order: seq<TaskId>) {
    && Distinct(order)
    && (forall id :: id in order <==> id in Ids(tasks))
    && (forall i :: 0 <= i < |order| ==> Satisfied(tasks, order[..i], order[i]))
  }

  predicate Satisfied(tasks: seq<Task>, done: seq<TaskId>, id: TaskId) { forall d :: d in DepsOf(tasks, id) ==> d in done }

  /** The tasks that may come next. */
  ghost predicate IsReady(tasks: seq<Task>, done: seq<TaskId>, id: TaskId) {
    id in Ids(tasks) && id !in done && Satisfied(tasks, done, id)
  }

  /** `id` is ready, and no other ready task has a smaller id. */
  ghost predicate IsNext(tasks: seq<Task>, done: seq<TaskId>, id: TaskId) {
    IsReady(tasks, done, id) && forall x :: IsReady(tasks, done, x) && x != id ==> Below(id.text, x.text)
  }

  ghost predicate IsGreedy(tasks: seq<Task>, order: seq<TaskId>) {
    forall i :: 0 <= i < |order| ==> IsNext(tasks, order[..i], order[i])
  }

  /** A walk along dependencies that comes back to where it started. */
  ghost predicate IsCycle(tasks: seq<Task>, walk: seq<TaskId>) {
    |walk| >= 2 && walk[0] == walk[|walk| - 1] && IsWalk(tasks, walk)
  }

  predicate IsLink(tasks: seq<Task>, walk: seq<TaskId>, i: nat)
    requires i + 1 < |walk|
  {
    walk[i + 1] in DepsOf(tasks, walk[i])
  }

  ghost predicate IsWalk(tasks: seq<Task>, walk: seq<TaskId>) {
    && (forall i :: 0 <= i < |walk| ==> walk[i] in Ids(tasks))
    && (forall i :: 0 <= i < |walk| - 1 ==> IsLink(tasks, walk, i))
  }

  ghost predicate HasCycle(tasks: seq<Task>) { exists walk :: IsCycle(tasks, walk) }

  // ---- Greedy orders ----

  lemma {:induction false} GreedyIsDistinct(tasks: seq<Task>, order: seq<TaskId>)
    requires IsGreedy(tasks, order)
    ensures Distinct(order)
  {
    forall i, j | 0 <= i < j < |order| ensures order[i] != order[j] {
      assert IsNext(tasks, order[..j], order[j]);
      assert order[i] == order[..j][i];
    }
  }

  /** A complete greedy order is topological. */
  lemma {:induction false} GreedyIsTopological(tasks: seq<Task>, order: seq<TaskId>)
    requires IsGreedy(tasks, order) && forall id :: id in Ids(tasks) ==> id in order
    ensures IsTopological(tasks, order)
  {
    GreedyIsDistinct(tasks, order);
    forall i | 0 <= i < |order| ensures Satisfied(tasks, order[..i], order[i]) && order[i] in Ids(tasks) {
      assert IsNext(tasks, order[..i], order[i]);
    }
  }

  /** The position of the first difference between two orders. */
  lemma {:induction false} FirstDifference(a: seq<TaskId>, b: seq<TaskId>) returns (i: nat)
    requires |a| == |b| && a != b
    ensures i < |a| && a[..i] == b[..i] && a[i] != b[i]
  {
    if a[0] != b[0] {
      i := 0;
    } else {
      assert a == [a[0]] + a[1..] && b == [b[0]] + b[1..];
      var k := FirstDifference(a[1..], b[1..]);
      i := k + 1;
      assert a[..i] == [a[0]] + a[1..][..k] && b[..i] == [b[0]] + b[1..][..k];
    }
  }

  lemma {:induction false} SameLength(tasks: seq<Task>, order: seq<TaskId>)
    requires IsTopological(tasks, order)
    ensures |order| == |Ids(tasks)|
  {
    DistinctCardinality(order);
    assert (set x | x in order) == Ids(tasks);
  }

  /** Among all topological orders the greedy one is least: wherever another first differs, it has the larger id. */
  lemma {:induction false} GreedyIsLeast(tasks: seq<Task>, order: seq<TaskId>, other: seq<TaskId>) returns (i: nat)
    requires IsGreedy(tasks, order) && IsTopological(tasks, order) && IsTopological(tasks, other) && other != order
    ensures i < |order| && i < |other| && order[..i] == other[..i] && Below(order[i].text, other[i].text)
  {
    SameLength(tasks, order);
    SameLength(tasks, other);
    i := FirstDifference(order, other);
    assert IsNext(tasks, order[..i], order[i]);
    assert Satisfied(tasks, other[..i], other[i]);
    assert other[i] in other;
    assert other[i] !in other[..i];
    assert IsReady(tasks, order[..i], other[i]);
  }

  // ---- Cycles ----

  lemma {:induction false} PositionOf(order: seq<TaskId>, id: TaskId) returns (i: nat)
    requires id in order
    ensures i < |order| && order[i] == id
  {
    i :| 0 <= i < |order| && order[i] == id;
  }

  lemma {:induction false} DepComesFirst(tasks: seq<Task>, order: seq<TaskId>, i: nat, d: TaskId) returns (k: nat)
    requires IsTopological(tasks, order) && i < |order| && d in DepsOf(tasks, order[i])
    ensures k < i && order[k] == d
  {
    assert Satisfied(tasks, order[..i], order[i]);
    k := PositionOf(order[..i], d);
  }

  lemma {:induction false} WalkSlice(tasks: seq<Task>, walk: seq<TaskId>, i: nat, j: nat)
    requires IsWalk(tasks, walk) && i <= j <= |walk|
    ensures IsWalk(tasks, walk[i..j])
  {
    forall k | 0 <= k < j - i - 1 ensures IsLink(tasks, walk[i..j], k) {
      assert IsLink(tasks, walk, i + k);
    }
  }

  lemma {:induction false} WalkExtends(tasks: seq<Task>, walk: seq<TaskId>, d: TaskId)
    requires IsWalk(tasks, walk) && walk != [] && d in Ids(tasks) && d in DepsOf(tasks, walk[|walk| - 1])
    ensures IsWalk(tasks, walk + [d])
  {
    forall k | 0 <= k < |walk| ensures IsLink(tasks, walk + [d], k) {
      if k < |walk| - 1 { assert IsLink(tasks, walk, k); }
    }
  }

  /** Along a walk positions only decrease. */
  lemma {:induction false} WalkDescends(tasks: seq<Task>, order: seq<TaskId>, walk: seq<TaskId>, i: nat) returns (k: nat)
    requires IsTopological(tasks, order) && IsWalk(tasks, walk) && 2 <= |walk| && i < |order| && order[i] == walk[0]
    ensures k < i && order[k] == walk[|walk| - 1]
    decreases |walk|
  {
    assert IsLink(tasks, walk, 0);
    k := DepComesFirst(tasks, order, i, walk[1]);
    if |walk| > 2 {
      WalkSlice(tasks, walk, 1, |walk|);
      assert walk[1..|walk|] == walk[1..];
      k := WalkDescends(tasks, order, walk[1..], k);
    }
  }

  /** A cycle rules out every topological order. */
  lemma {:induction false} CycleExcludesOrder(tasks: seq<Task>, order: seq<TaskId>, walk: seq<TaskId>)
    requires IsCycle(tasks, walk)
    ensures !IsTopological(tasks, order)
  {
    if IsTopological(tasks, order) {
      var i := PositionOf(order, walk[0]);
      var k := WalkDescends(tasks, order, walk, i);
      assert false;
    }
  }

  /** Every task of `stuck` depends on another of them. */
  ghost predicate IsStuck(tasks: seq<Task>, stuck: set<TaskId>) {
    stuck <= Ids(tasks) && forall id {:trigger Waits(tasks, stuck, id)} :: id in stuck ==> Waits(tasks, stuck, id)
  }

  ghost predicate Waits(tasks: seq<Task>, stuck: set<TaskId>, id: TaskId) { exists d :: d in stuck && d in DepsOf(tasks, id) }

  lemma {:induction false} StuckWalk(tasks: seq<Task>, stuck: set<TaskId>, n: nat) returns (walk: seq<TaskId>)
    requires IsStuck(tasks, stuck) && stuck != {}
    ensures |walk| == n + 1 && IsWalk(tasks, walk) && forall i :: 0 <= i < |walk| ==> walk[i] in stuck
  {
    if n == 0 {
      var id :| id in stuck;
      walk := [id];
    } else {
      var w := StuckWalk(tasks, stuck, n - 1);
      var last := w[n - 1];
      assert Waits(tasks, stuck, last);
      var d :| d in stuck && d in DepsOf(tasks, last);
      WalkExtends(tasks, w, d);
      walk := w + [d];
    }
  }

  lemma {:induction false} RepeatExists(walk: seq<TaskId>, s: set<TaskId>) returns (i: nat, j: nat)
    requires |walk| > |s| && forall k :: 0 <= k < |walk| ==> walk[k] in s
    ensures i < j < |walk| && walk[i] == walk[j]
  {
    DistinctCardinality(walk);
    var seen := set x | x in walk;
    assert seen <= s;
    assert s == seen + (s - seen);
    assert !Distinct(walk);
    i, j :| 0 <= i < j < |walk| && walk[i] == walk[j];
  }

  /** A nonempty stuck set contains a cycle. */
  lemma {:induction false} StuckHasCycle(tasks: seq<Task>, stuck: set<TaskId>)
    requires IsStuck(tasks, stuck) && stuck != {}
    ensures HasCycle(tasks)
  {
    var walk := StuckWalk(tasks, stuck, |stuck|);
    var i, j := RepeatExists(walk, stuck);
    WalkSlice(tasks, walk, i, j + 1);
    assert IsCycle(tasks, walk[i..j + 1]);
  }

  // ---- Counting edges ----

  function Count(s: seq<TaskId>, x: TaskId): nat {
    if s == [] then 0 else Count(s[..|s| - 1], x) + (if s[|s| - 1] == x then 1 else 0)
  }

  lemma {:induction false} CountAppend(s: seq<TaskId>, y: TaskId, x: TaskId)
    ensures Count(s + [y], x) == Count(s, x) + (if y == x then 1 else 0)
  {
    assert (s + [y])[..|s|] == s;
  }

  /** How often tasks called `id` name `d` among their dependencies. */
  function Edges(tasks: seq<Task>, d: TaskId, id: TaskId): nat {
    if tasks == [] then 0
    else
      var n := |tasks| - 1;
      Edges(tasks[..n], d, id) + (if tasks[n].id == id then Count(tasks[n].deps, d) else 0)
  }

  function EdgesFrom(tasks: seq<Task>, done: seq<TaskId>, id: TaskId): nat {
    if done == [] then 0 else EdgesFrom(tasks, done[..|done| - 1], id) + Edges(tasks, done[|done| - 1], id)
  }

  /** Positions of `deps` that hold a finished task. */
  function CountIn(deps: seq<TaskId>, done: seq<TaskId>): (n: nat)
    ensures n <= |deps|
  {
    if deps == [] then 0 else CountIn(deps[..|deps| - 1], done) + (if deps[|deps| - 1] in done then 1 else 0)
  }

  lemma {:induction false} CountInAll(deps: seq<TaskId>, done: seq<TaskId>)
    ensures CountIn(deps, done) == |deps| <==> forall d :: d in deps ==> d in done
  {
    if deps != [] {
      var n := |deps| - 1;
      CountInAll(deps[..n], done);
      assert deps == deps[..n] + [deps[n]];
    }
  }

  lemma {:induction false} CountInOneMore(deps: seq<TaskId>, done: seq<TaskId>, c: TaskId)
    requires c !in done
    ensures CountIn(deps, done + [c]) == CountIn(deps, done) + Count(deps, c)
  {
    if deps != [] {
      CountInOneMore(deps[..|deps| - 1], done, c);
    }
  }

  lemma {:induction false} CountInNone(deps: seq<TaskId>)
    ensures CountIn(deps, []) == 0
  {
    if deps != [] {
      CountInNone(deps[..|deps| - 1]);
    }
  }

  lemma {:induction false} OtherEdges(tasks: seq<Task>, d: TaskId, id: TaskId)
    requires id !in Ids(tasks)
    ensures Edges(tasks, d, id) == 0
  {
    if tasks != [] {
      var n := |tasks| - 1;
      assert tasks[n] in tasks;
      OtherEdges(tasks[..n], d, id);
    }
  }

  lemma {:induction false} EdgesOfTask(tasks: seq<Task>, d: TaskId, id: TaskId)
    requires DistinctIds(tasks)
    ensures Edges(tasks, d, id) == Count(DepsOf(tasks, id), d)
  {
    if tasks != [] {
      var n := |tasks| - 1;
      if tasks[n].id == id {
        forall t | t in tasks[..n] ensures t.id != id {
        }
        OtherEdges(tasks[..n], d, id);
      } else {
        EdgesOfTask(tasks[..n], d, id);
      }
    }
  }

  /** With distinct ids, the edges from finished tasks are the finished dependencies. */
  lemma {:induction false} EdgesFromDone(tasks: seq<Task>, done: seq<TaskId>, id: TaskId)
    requires DistinctIds(tasks) && Distinct(done)
    ensures EdgesFrom(tasks, done, id) == CountIn(DepsOf(tasks, id), done)
  {
    if done == [] {
      CountInNone(DepsOf(tasks, id));
    } else {
      var n := |done| - 1;
      EdgesFromDone(tasks, done[..n], id);
      EdgesOfTask(tasks, done[n], id);
      CountInOneMore(DepsOf(tasks, id), done[..n], done[n]);
      assert done == done[..n] + [done[n]];
    }
  }

  // ---- The algorithm ----

  /** `{task["id"]: len(task["depends_on"]) for task in tasks}` */
  method CountDeps(tasks: seq<Task>) returns (indegree: map<TaskId, int>)
    ensures indegree.Keys == Ids(tasks) && forall id :: id in indegree ==> indegree[id] == |DepsOf(tasks, id)|
  {
    indegree := map[];
    for i := 0 to |tasks|
      invariant indegree.Keys == Ids(tasks[..i]) && forall id :: id in indegree ==> indegree[id] == |DepsOf(tasks[..i], id)|
    {
      assert tasks[..i + 1] == tasks[..i] + [tasks[i]];
      indegree := indegree[tasks[i].id := |tasks[i].deps|];
    }
    assert tasks[..|tasks|] == tasks;
  }

  /** What a children table must say about one pair of tasks. */
  ghost predicate TableOk(children: map<TaskId, seq<TaskId>>, ids: set<TaskId>) {
    children.Keys == ids && forall d, x :: d in children && x in children[d] ==> x in ids
  }

  method AddTask(children: map<TaskId, seq<TaskId>>, t: Task, ids: set<TaskId>) returns (r: Option<map<TaskId, seq<TaskId>>>)
    requires TableOk(children, ids) && t.id in ids
    ensures r.Some? <==> forall d :: d in t.deps ==> d in ids
    ensures r.Some? ==> TableOk(r.value, ids)
    ensures r.Some? ==> forall d, x :: d in ids ==> Count(r.value[d], x) == Count(children[d], x) + (if x == t.id then Count(t.deps, d) else 0)
  {
    var table := children;
    forall d ensures Count(t.deps[..0], d) == 0 {
    }
    for k := 0 to |t.deps|
      invariant TableOk(table, ids) && forall d :: d in t.deps[..k] ==> d in ids
      invariant forall d, x :: d in ids ==> Count(table[d], x) == Count(children[d], x) + (if x == t.id then Count(t.deps[..k], d) else 0)
    {
      var dep := t.deps[k];
      if dep !in table { return None; }
      assert t.deps[..k + 1] == t.deps[..k] + [dep];
      forall d ensures Count(t.deps[..k + 1], d) == Count(t.deps[..k], d) + (if dep == d then 1 else 0) {
        CountAppend(t.deps[..k], dep, d);
      }
      forall x ensures Count(table[dep] + [t.id], x) == Count(table[dep], x) + (if t.id == x then 1 else 0) {
        CountAppend(table[dep], t.id, x);
      }
      table := table[dep := table[dep] + [t.id]];
    }
    assert t.deps[..|t.deps|] == t.deps;
    r := Some(table);
  }

  method BuildChildren(tasks: seq<Task>) returns (r: Option<map<TaskId, seq<TaskId>>>)
    ensures r.Some? <==> KnownDeps(tasks)
    ensures r.Some? ==> TableOk(r.value, Ids(tasks))
    ensures r.Some? ==> forall d, x :: d in Ids(tasks) ==> Count(r.value[d], x) == Edges(tasks, d, x)
  {
    var ids := Ids(tasks);
    var table: map<TaskId, seq<TaskId>> := map id | id in ids :: [];
    for i := 0 to |tasks|
      invariant TableOk(table, ids) && forall t :: t in tasks[..i] ==> forall d :: d in t.deps ==> d in ids
      invariant forall d, x :: d in ids ==> Count(table[d], x) == Edges(tasks[..i], d, x)
    {
      assert tasks[..i + 1][..i] == tasks[..i] && tasks[..i + 1] == tasks[..i] + [tasks[i]];
      var next := AddTask(table, tasks[i], ids);
      if next.None? {
        assert tasks[i] in tasks;
        return None;
      }
      table := next.value;
    }
    assert tasks[..|tasks|] == tasks;
    r := Some(table);
  }

  /** One finished task: its children lose an edge each, and those that reach zero become ready. */
  method Release(list: seq<TaskId>, indegree: map<TaskId, int>, ready: set<TaskId>)
    returns (indegree': map<TaskId, int>, ready': set<TaskId>)
    requires forall x :: x in list ==> x in indegree
    requires ready <= indegree.Keys
    ensures indegree'.Keys == indegree.Keys && ready' <= indegree.Keys
    ensures forall x :: x in indegree ==> indegree'[x] == indegree[x] - Count(list, x)
    ensures forall x :: x in indegree ==> (x in ready' <==> x in ready || indegree'[x] <= 0 < indegree[x])
  {
    indegree', ready' := indegree, ready;
    for k := 0 to |list|
      invariant indegree'.Keys == indegree.Keys && ready' <= indegree.Keys
      invariant forall x :: x in indegree ==> indegree'[x] == indegree[x] - Count(list[..k], x)
      invariant forall x :: x in indegree ==> (x in ready' <==> x in ready || indegree'[x] <= 0 < indegree[x])
    {
      var child := list[k];
      assert list[..k + 1] == list[..k] + [child];
      forall x ensures Count(list[..k + 1], x) == Count(list[..k], x) + (if child == x then 1 else 0) {
        CountAppend(list[..k], child, x);
      }
      indegree' := indegree'[child := indegree'[child] - 1];
      if indegree'[child] == 0 { ready' := ready' + {child}; }
    }
    assert list[..|list|] == list;
  }

  ghost predicate Bookkeeping(tasks: seq<Task>, indegree: map<TaskId, int>, ready: set<TaskId>, order: seq<TaskId>) {
    && indegree.Keys == Ids(tasks) && ready <= Ids(tasks)
    && (forall id :: id in order ==> id in Ids(tasks) && id !in ready)
    && (forall id :: id in indegree ==> indegree[id] == |DepsOf(tasks, id)| - EdgesFrom(tasks, order, id))
    && (forall id :: id in indegree ==> (id in order || id in ready <==> indegree[id] <= 0))
  }

  /** The queue holds exactly the tasks that may come next. */
  lemma {:induction false} QueueIsReady(tasks: seq<Task>, indegree: map<TaskId, int>, ready: set<TaskId>, order: seq<TaskId>, id: TaskId)
    requires Bookkeeping(tasks, indegree, ready, order) && DistinctIds(tasks) && Distinct(order)
    ensures id in ready <==> IsReady(tasks, order, id)
  {
    EdgesFromDone(tasks, order, id);
    CountInAll(DepsOf(tasks, id), order);
  }

  lemma {:induction false} LeastTask(ready: set<TaskId>) returns (m: TaskId)
    requires ready != {}
    ensures m in ready && forall x :: x in ready && x != m ==> Below(m.text, x.text)
  {
    var texts := set t | t in ready :: t.text;
    var t :| t in ready;
    assert t.text in texts;
    var least := LeastExists(texts);
    m := TaskId(least);
    forall x | x in ready && x != m ensures Below(m.text, x.text) {
      assert x.text in texts;
    }
  }

  lemma {:induction false} PopIsNext(
    tasks: seq<Task>, indegree: map<TaskId, int>, ready: set<TaskId>, order: seq<TaskId>, current: TaskId)
    requires Bookkeeping(tasks, indegree, ready, order) && DistinctIds(tasks) && Distinct(order)
    requires current in ready && forall x :: x in ready && x != current ==> Below(current.text, x.text)
    ensures IsNext(tasks, order, current)
  {
    QueueIsReady(tasks, indegree, ready, order, current);
    forall x | IsReady(tasks, order, x) && x != current ensures Below(current.text, x.text) {
      QueueIsReady(tasks, indegree, ready, order, x);
    }
  }

  lemma {:induction false} GreedyExtends(tasks: seq<Task>, order: seq<TaskId>, current: TaskId)
    requires IsGreedy(tasks, order) && IsNext(tasks, order, current)
    ensures IsGreedy(tasks, order + [current])
  {
    forall i | 0 <= i < |order| + 1 ensures IsNext(tasks, (order + [current])[..i], (order + [current])[i]) {
      if i < |order| {
        assert (order + [current])[..i] == order[..i];
        assert IsNext(tasks, order[..i], order[i]);
      } else {
        assert (order + [current])[..i] == order;
      }
    }
  }

  lemma {:induction false} ReleaseKeeps(
    tasks: seq<Task>, indegree: map<TaskId, int>, ready: set<TaskId>, order: seq<TaskId>, current: TaskId,
    list: seq<TaskId>, indegree': map<TaskId, int>, ready': set<TaskId>)
    requires Bookkeeping(tasks, indegree, ready, order) && current in ready
    requires indegree'.Keys == indegree.Keys && ready' <= indegree.Keys
    requires forall x :: x in indegree ==> Count(list, x) == Edges(tasks, current, x)
    requires forall x :: x in indegree ==> indegree'[x] == indegree[x] - Count(list, x)
    requires forall x :: x in indegree ==> (x in ready' <==> x in ready - {current} || indegree'[x] <= 0 < indegree[x])
    ensures Bookkeeping(tasks, indegree', ready', order + [current])
  {
    assert (order + [current])[..|order|] == order;
    forall id | id in indegree'
      ensures indegree'[id] == |DepsOf(tasks, id)| - EdgesFrom(tasks, order + [current], id)
    {
      assert indegree[id] == |DepsOf(tasks, id)| - EdgesFrom(tasks, order, id);
    }
  }

  lemma {:induction false} IdsSize(tasks: seq<Task>)
    ensures |Ids(tasks)| <= |tasks| && (|Ids(tasks)| == |tasks| <==> DistinctIds(tasks))
  {
    var names := Map(tasks, (t: Task) => t.id);
    DistinctCardinality(names);
    forall id ensures id in Ids(tasks) <==> id in (set x | x in names) {
      if id in Ids(tasks) {
        var t :| t in tasks && t.id == id;
        var i :| 0 <= i < |tasks| && tasks[i] == t;
        assert names[i] == id;
      }
      if id in names {
        var i :| 0 <= i < |names| && names[i] == id;
        assert tasks[i] in tasks;
      }
    }
    assert Ids(tasks) == set x | x in names;
    assert Distinct(names) <==> DistinctIds(tasks);
  }

  lemma {:induction false} FullOrder(tasks: seq<Task>, order: seq<TaskId>)
    requires Distinct(order) && forall id :: id in order ==> id in Ids(tasks)
    ensures |order| <= |Ids(tasks)| <= |tasks|
    ensures |order| == |tasks| <==> DistinctIds(tasks) && forall id :: id in Ids(tasks) ==> id in order
  {
    var done := set x | x in order;
    DistinctCardinality(order);
    IdsSize(tasks);
    assert done <= Ids(tasks);
    assert Ids(tasks) == done + (Ids(tasks) - done);
    if forall id :: id in Ids(tasks) ==> id in order {
      assert done == Ids(tasks);
    }
  }

  /** When the queue runs dry early, the tasks left over wait for each other. */
  lemma {:induction false} LeftoverIsStuck(tasks: seq<Task>, indegree: map<TaskId, int>, order: seq<TaskId>, id: TaskId)
    requires Bookkeeping(tasks, indegree, {}, order) && DistinctIds(tasks) && Distinct(order) && KnownDeps(tasks)
    requires id in Ids(tasks) && id !in order
    ensures HasCycle(tasks)
  {
    var stuck := set x | x in Ids(tasks) && x !in order;
    forall x | x in stuck ensures Waits(tasks, stuck, x) {
      QueueIsReady(tasks, indegree, {}, order, x);
      var d :| d in DepsOf(tasks, x) && d !in order;
      DepIsKnown(tasks, x, d);
    }
    StuckHasCycle(tasks, stuck);
  }

  lemma {:induction false} DepIsKnown(tasks: seq<Task>, id: TaskId, d: TaskId)
    requires KnownDeps(tasks) && d in DepsOf(tasks, id)
    ensures d in Ids(tasks)
  {
    var i := DepsAt(tasks, id, d);
    assert tasks[i] in tasks;
  }

  lemma {:induction false} DepsAt(tasks: seq<Task>, id: TaskId, d: TaskId) returns (i: nat)
    requires d in DepsOf(tasks, id)
    ensures i < |tasks| && d in tasks[i].deps
  {
    var n := |tasks| - 1;
    if tasks[n].id == id {
      i := n;
    } else {
      i := DepsAt(tasks[..n], id, d);
    }
  }

  lemma {:induction false} OrderExcludesCycle(tasks: seq<Task>, order: seq<TaskId>)
    requires IsTopological(tasks, order)
    ensures !HasCycle(tasks)
  {
    forall walk ensures !IsCycle(tasks, walk) {
      if IsCycle(tasks, walk) {
        CycleExcludesOrder(tasks, order, walk);
      }
    }
  }

  method PopLeast(ready: set<TaskId>) returns (current: TaskId)
    requires ready != {}
    ensures current in ready && forall x :: x in ready && x != current ==> Below(current.text, x.text)
  {
    ghost var least := LeastTask(ready);
    current :| current in ready && forall x :: x in ready && x != current ==> Below(current.text, x.text);
  }

  /** The main loop: takes the least ready task until none is left. */
  method Drain(tasks: seq<Task>, children: map<TaskId, seq<TaskId>>, start: map<TaskId, int>)
    returns (order: seq<TaskId>, indegree: map<TaskId, int>)
    requires TableOk(children, Ids(tasks)) && forall d, x :: d in Ids(tasks) ==> Count(children[d], x) == Edges(tasks, d, x)
    requires start.Keys == Ids(tasks) && forall id :: id in start ==> start[id] == |DepsOf(tasks, id)|
    ensures Distinct(order) && Bookkeeping(tasks, indegree, {}, order) && (DistinctIds(tasks) ==> IsGreedy(tasks, order))
  {
    indegree, order := start, [];
    var ready := set id | id in indegree && indegree[id] == 0;
    while ready != {}
      invariant Bookkeeping(tasks, indegree, ready, order) && Distinct(order)
      invariant DistinctIds(tasks) ==> IsGreedy(tasks, order)
      decreases |Ids(tasks)| - |order|
    {
      var current := PopLeast(ready);
      if DistinctIds(tasks) {
        PopIsNext(tasks, indegree, ready, order, current);
        GreedyExtends(tasks, order, current);
      }
      var indegree', ready' := Release(children[current], indegree, ready - {current});
      ReleaseKeeps(tasks, indegree, ready, order, current, children[current], indegree', ready');
      order := order + [current];
      indegree, ready := indegree', ready';
      FullOrder(tasks, order);
    }
  }

  /**
   * Fails on an unknown dependency; else on a repeated id or a cycle, and only then; else returns the
   * greedy order, which holds every task after its dependencies and is the least such order.
   */
  method TopologicalOrder(tasks: seq<Task>) returns (r: Result<seq<TaskId>, OrderError>)
    ensures r == Err(UnknownDependency) <==> !KnownDeps(tasks)
    ensures r == Err(Cycle) <==> KnownDeps(tasks) && (!DistinctIds(tasks) || HasCycle(tasks))
    ensures r.Ok? ==> IsGreedy(tasks, r.value) && IsTopological(tasks, r.value) && |r.value| == |tasks|
  {
    var indegree := CountDeps(tasks);
    var children := BuildChildren(tasks);
    if children.None? { return Err(UnknownDependency); }
    var order, left := Drain(tasks, children.value, indegree);
    FullOrder(tasks, order);
    if |order| != |tasks| {
      if DistinctIds(tasks) {
        var id :| id in Ids(tasks) && id !in order;
        LeftoverIsStuck(tasks, left, order, id);
      }
      return Err(Cycle);
    }
    GreedyIsTopological(tasks, order);
    OrderExcludesCycle(tasks, order);
    r := Ok(order);
  }
}
