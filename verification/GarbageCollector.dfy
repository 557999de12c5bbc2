/** The mark-and-sweep collector and its cell allocator. */
module Collector {
  import opened Values

  type Addr = nat

  /** A value as the collector sees it: a pointer to a cell, or nothing to follow. */
  type Ref = Option<Addr>

  /** What a cell holds. `Leaf` stands for strings and C pointers, which refer to no cell. */
  datatype Body =
    | Dead(next: Ref)
    | Object(klass: Ref, container: seq<Ref>)
    | Array(data: seq<Ref>)
    | Function(context: Ref, hostClass: Ref, boundSelf: Option<Ref>, container: seq<Ref>)
    | CFunction(container: seq<Ref>)
    | Class(construct: Ref, prototype: Ref, parentClass: Ref, container: seq<Ref>)
    | Frame(parent: Ref, environment: Ref, catchtable: Ref, callee: Ref, self: Ref, locals: seq<Ref>)
    | CatchTable(frame: Ref, parent: Ref)
    | Leaf

  datatype Cell = Cell(mark: bool, immortal: bool, body: Body)

  datatype Task = ThreadTask(argument: Ref) | CallbackTask(func: Ref, arguments: seq<Ref>)

  datatype Paused = Paused(stack: seq<Ref>, frame: Ref, catchstack: Ref)

  /** What the collector reads of the VM: its registers and queues. */
  datatype HostVM = HostVM(running: bool, registers: seq<Ref>, stack: seq<Ref>, tasks: seq<Task>,
                           timers: seq<Task>, tickers: seq<Task>, paused: seq<Paused>)

  const HEAP_CELLS: nat := 4096
  const INITIAL_HEAPS: nat := 4

  /** What marking follows, in order. */
  function Children(b: Body): seq<Ref> {
    match b
    case Dead(_) => []
    case Object(k, c) => [k] + c
    case Array(d) => d
    case Function(x, h, s, c) => [x, h] + (if s.Some? then [s.value] else []) + c
    case CFunction(c) => c
    case Class(x, p, q, c) => [x, p, q] + c
    case Frame(p, e, t, f, s, l) => [p, e, t, f, s] + l
    case CatchTable(f, p) => [f, p]
    case Leaf => []
  }

  function TaskRoots(t: Task): seq<Ref> {
    match t
    case ThreadTask(a) => [a]
    case CallbackTask(f, args) => [f] + args
  }

  function TasksRoots(ts: seq<Task>): seq<Ref> {
    if |ts| == 0 then [] else TasksRoots(ts[..|ts| - 1]) + TaskRoots(ts[|ts| - 1])
  }

  function PausedRoots(ps: seq<Paused>): seq<Ref> {
    if |ps| == 0 then []
    else
      var p := ps[|ps| - 1];
      PausedRoots(ps[..|ps| - 1]) + (p.stack + [p.frame, p.catchstack])
  }

  /** The VM's roots; a VM that is not running has none. */
  function Roots(vm: HostVM): seq<Ref> {
    if !vm.running then []
    else
      vm.registers + vm.stack + TasksRoots(vm.tasks) + TasksRoots(vm.timers) + TasksRoots(vm.tickers) +
      PausedRoots(vm.paused)
  }

  // ----- what a cell and the VM refer to, field by field -----

  predicate Refers(b: Body, a: Addr) {
    || (b.Object? && (b.klass == Some(a) || Some(a) in b.container))
    || (b.Array? && Some(a) in b.data)
    || (b.Function? && (b.context == Some(a) || b.hostClass == Some(a) || b.boundSelf == Some(Some(a)) ||
                        Some(a) in b.container))
    || (b.CFunction? && Some(a) in b.container)
    || (b.Class? && (b.construct == Some(a) || b.prototype == Some(a) || b.parentClass == Some(a) ||
                     Some(a) in b.container))
    || (b.Frame? && (b.parent == Some(a) || b.environment == Some(a) || b.catchtable == Some(a) ||
                     b.callee == Some(a) || b.self == Some(a) || Some(a) in b.locals))
    || (b.CatchTable? && (b.frame == Some(a) || b.parent == Some(a)))
  }

  predicate TaskRefers(t: Task, a: Addr) {
    if t.ThreadTask? then t.argument == Some(a) else t.func == Some(a) || Some(a) in t.arguments
  }

  predicate PausedRefers(p: Paused, a: Addr) {
    Some(a) in p.stack || p.frame == Some(a) || p.catchstack == Some(a)
  }

  /** A running VM refers to what its registers, stack, queues and paused threads hold. */
  ghost predicate HostRefers(vm: HostVM, a: Addr) {
    vm.running &&
    (|| Some(a) in vm.registers || Some(a) in vm.stack
     || (exists t :: t in vm.tasks && TaskRefers(t, a))
     || (exists t :: t in vm.timers && TaskRefers(t, a))
     || (exists t :: t in vm.tickers && TaskRefers(t, a))
     || (exists p :: p in vm.paused && PausedRefers(p, a)))
  }

  /** Marking follows exactly the references a cell holds. */
  lemma ChildrenAreReferences(b: Body)
    ensures forall a: Addr :: Some(a) in Children(b) <==> Refers(b, a)
  {
  }

  lemma {:induction false} TasksRefer(ts: seq<Task>, a: Addr)
    ensures Some(a) in TasksRoots(ts) <==> exists t :: t in ts && TaskRefers(t, a)
    decreases |ts|
  {
    if |ts| > 0 {
      var rest, last := ts[..|ts| - 1], ts[|ts| - 1];
      TasksRefer(rest, a);
      assert ts == rest + [last];
      assert Some(a) in TaskRoots(last) <==> TaskRefers(last, a);
      if t :| t in ts && TaskRefers(t, a) {
        assert t in rest || t == last;
      }
    }
  }

  lemma {:induction false} AllPausedRefer(ps: seq<Paused>, a: Addr)
    ensures Some(a) in PausedRoots(ps) <==> exists p :: p in ps && PausedRefers(p, a)
    decreases |ps|
  {
    if |ps| > 0 {
      var rest, last := ps[..|ps| - 1], ps[|ps| - 1];
      AllPausedRefer(rest, a);
      assert ps == rest + [last];
      assert Some(a) in last.stack + [last.frame, last.catchstack] <==> PausedRefers(last, a);
      assert last in ps && forall p :: p in rest ==> p in ps;
      if p :| p in ps && PausedRefers(p, a) {
        assert p in rest || p == last;
      }
    }
  }

  /** The roots are exactly what the VM refers to. */
  lemma RootsAreReferences(vm: HostVM, a: Addr)
    ensures Some(a) in Roots(vm) <==> HostRefers(vm, a)
  {
    TasksRefer(vm.tasks, a);
    TasksRefer(vm.timers, a);
    TasksRefer(vm.tickers, a);
    AllPausedRefer(vm.paused, a);
  }

  // ----- reachability -----

  predicate Edge(m: seq<Cell>, a: Addr, b: Addr) {
    a < |m| && Some(b) in Children(m[a].body)
  }

  predicate Path(m: seq<Cell>, p: seq<Addr>) {
    |p| > 0 && (forall i :: 0 <= i < |p| - 1 ==> Edge(m, p[i], p[i + 1]))
  }

  ghost predicate Reaches(m: seq<Cell>, a: Addr, b: Addr) {
    exists p: seq<Addr> :: Path(m, p) && p[0] == a && p[|p| - 1] == b
  }

  /** Some value of `vs` leads to `b`. */
  ghost predicate ReachedFrom(m: seq<Cell>, vs: seq<Ref>, b: Addr) {
    exists a: Addr :: Some(a) in vs && Reaches(m, a, b)
  }

  /** Pointers point into the heap. */
  ghost predicate Pointing(m: seq<Cell>, vs: seq<Ref>) {
    forall a: Addr :: Some(a) in vs ==> a < |m|
  }

  ghost predicate Closed(m: seq<Cell>) {
    forall i :: 0 <= i < |m| ==> Pointing(m, Children(m[i].body))
  }

  predicate SameButMarks(m: seq<Cell>, m': seq<Cell>) {
    |m'| == |m| && forall i :: 0 <= i < |m| ==> m'[i].body == m[i].body && m'[i].immortal == m[i].immortal
  }

  /**
   * Between `m` and `m'` all of `vs` were marked: whatever was newly marked is reachable
   * from `vs`, and everything it refers to is marked, too.
   */
  ghost predicate Marked(m: seq<Cell>, m': seq<Cell>, vs: seq<Ref>) {
    SameButMarks(m, m') && Pointing(m', vs) &&
    (forall i :: 0 <= i < |m| && m[i].mark ==> m'[i].mark) &&
    (forall a: Addr :: Some(a) in vs ==> m'[a].mark) &&
    (forall i :: 0 <= i < |m| && m'[i].mark && !m[i].mark ==>
       ReachedFrom(m, vs, i) && forall b: Addr :: Some(b) in Children(m[i].body) ==> b < |m| && m'[b].mark)
  }

  lemma SamePaths(m: seq<Cell>, m': seq<Cell>, a: Addr, b: Addr)
    requires SameButMarks(m, m') && Reaches(m, a, b)
    ensures Reaches(m', a, b)
  {
    var p :| Path(m, p) && p[0] == a && p[|p| - 1] == b;
    assert Path(m', p) by {
      forall i | 0 <= i < |p| - 1 ensures Edge(m', p[i], p[i + 1]) {
        assert Edge(m, p[i], p[i + 1]);
      }
    }
  }

  lemma ReachesHere(m: seq<Cell>, a: Addr)
    ensures Reaches(m, a, a)
  {
    assert Path(m, [a]);
  }

  lemma ReachesVia(m: seq<Cell>, a: Addr, b: Addr, d: Addr)
    requires Edge(m, a, b) && Reaches(m, b, d)
    ensures Reaches(m, a, d)
  {
    var p :| Path(m, p) && p[0] == b && p[|p| - 1] == d;
    var q := [a] + p;
    assert Path(m, q) by {
      forall i | 0 <= i < |q| - 1 ensures Edge(m, q[i], q[i + 1]) {
        if i > 0 {
          assert Edge(m, p[i - 1], p[i]);
        }
      }
    }
    assert q[0] == a && q[|q| - 1] == d;
  }

  // ----- marking composes -----

  lemma MarkedNothing(m: seq<Cell>)
    ensures Marked(m, m, [])
  {
  }

  /** Marking `vs` and then `ws` marks `vs + ws`. */
  lemma MarkedBoth(m: seq<Cell>, m1: seq<Cell>, m2: seq<Cell>, vs: seq<Ref>, ws: seq<Ref>)
    requires Marked(m, m1, vs) && Marked(m1, m2, ws)
    ensures Marked(m, m2, vs + ws)
  {
    hide Reaches, Children;
    forall i | 0 <= i < |m| && m2[i].mark && !m[i].mark
      ensures ReachedFrom(m, vs + ws, i) && forall b: Addr :: Some(b) in Children(m[i].body) ==> b < |m| && m2[b].mark
    {
      if m1[i].mark {
        var a: Addr :| Some(a) in vs && Reaches(m, a, i);
        assert Some(a) in vs + ws;
      } else {
        var a: Addr :| Some(a) in ws && Reaches(m1, a, i);
        SamePaths(m1, m, a, i);
        assert Some(a) in vs + ws;
      }
    }
  }

  /** Setting a cell's bit and then marking what it refers to marks the cell. */
  lemma MarkedCell(m: seq<Cell>, m': seq<Cell>, a: Addr)
    requires a < |m| && !m[a].mark && Marked(m[a := m[a].(mark := true)], m', Children(m[a].body))
    ensures Marked(m, m', [Some(a)])
  {
    hide Reaches, Children;
    var m1 := m[a := m[a].(mark := true)];
    forall i | 0 <= i < |m| && m'[i].mark && !m[i].mark
      ensures ReachedFrom(m, [Some(a)], i) && forall b: Addr :: Some(b) in Children(m[i].body) ==> b < |m| && m'[b].mark
    {
      assert Some(a) in [Some(a)];
      if i == a {
        ReachesHere(m, a);
      } else {
        var b: Addr :| Some(b) in Children(m[a].body) && Reaches(m1, b, i);
        SamePaths(m1, m, b, i);
        ReachesVia(m, a, b, i);
      }
    }
  }

  lemma MarkedAlready(m: seq<Cell>, v: Ref)
    requires v.Some? ==> v.value < |m| && m[v.value].mark
    ensures Marked(m, m, [v])
  {
  }

  // ----- marking everything marks exactly what is reachable -----

  predicate Unmarked(m: seq<Cell>) {
    forall i :: 0 <= i < |m| ==> !m[i].mark
  }

  lemma {:induction false} MarksSpread(m: seq<Cell>, m': seq<Cell>, vs: seq<Ref>, p: seq<Addr>)
    requires Unmarked(m) && Marked(m, m', vs) && Path(m, p) && Some(p[0]) in vs
    ensures p[|p| - 1] < |m| && m'[p[|p| - 1]].mark
    decreases |p|
  {
    hide ReachedFrom;
    if |p| > 1 {
      var q := p[..|p| - 1];
      assert Path(m, q) by {
        forall i | 0 <= i < |q| - 1 ensures Edge(m, q[i], q[i + 1]) {
          assert Edge(m, p[i], p[i + 1]);
        }
      }
      MarksSpread(m, m', vs, q);
      assert Edge(m, p[|p| - 2], p[|p| - 1]);
    }
  }

  /** From a heap without marks, the marked cells are exactly the reachable ones. */
  lemma MarkedIsReachable(m: seq<Cell>, m': seq<Cell>, vs: seq<Ref>)
    requires Unmarked(m) && Marked(m, m', vs)
    ensures forall i :: 0 <= i < |m| ==> (m'[i].mark <==> ReachedFrom(m, vs, i))
  {
    hide Children;
    forall i | 0 <= i < |m| && ReachedFrom(m, vs, i) ensures m'[i].mark {
      var a: Addr :| Some(a) in vs && Reaches(m, a, i);
      var p :| Path(m, p) && p[0] == a && p[|p| - 1] == i;
      MarksSpread(m, m', vs, p);
    }
  }

  /** Cells without a mark: marking shrinks this set. */
  ghost function Pale(m: seq<Cell>): set<int> {
    set i | 0 <= i < |m| && !m[i].mark
  }

  // ----- the free list -----

  /** The intrusive list from `head` is `xs`. */
  predicate Chain(m: seq<Cell>, head: Ref, xs: seq<Addr>)
    decreases |xs|
  {
    if |xs| == 0 then head.None?
    else head == Some(xs[0]) && xs[0] < |m| && m[xs[0]].body.Dead? && Chain(m, m[xs[0]].body.next, xs[1..])
  }

  predicate Distinct(xs: seq<Addr>) {
    forall i, j :: 0 <= i < j < |xs| ==> xs[i] != xs[j]
  }

  lemma {:induction false} ChainSame(m: seq<Cell>, m': seq<Cell>, head: Ref, xs: seq<Addr>)
    requires Chain(m, head, xs) && |m| <= |m'| && forall x :: x in xs && x < |m| ==> m'[x].body == m[x].body
    ensures Chain(m', head, xs)
    decreases |xs|
  {
    if |xs| > 0 {
      assert xs[0] in xs;
      forall x | x in xs[1..] && x < |m| ensures m'[x].body == m[x].body {
        assert x in xs;
      }
      ChainSame(m, m', m[xs[0]].body.next, xs[1..]);
    }
  }

  /** The free list holds exactly the dead cells, apart from the ones just handed out. */
  ghost predicate FreeExactly(m: seq<Cell>, head: Ref, xs: seq<Addr>, out: set<Addr>) {
    Chain(m, head, xs) && Distinct(xs) && (forall x :: x in out ==> x !in xs) &&
    (forall i: nat :: i < |m| ==> (m[i].body.Dead? <==> i in xs || i in out)) &&
    (forall x :: x in xs || x in out ==> x < |m|)
  }

  /** A collected cell: what sweeping does to it depends on its mark alone. */
  predicate SweptCell(c: Cell, c': Cell) {
    if c.mark then c' == c.(mark := false)
    else if c.body.Dead? then c' == c
    else c'.body.Dead? && !c'.mark
  }

  lemma PushFree(m: seq<Cell>, head: Ref, xs: seq<Addr>, out: set<Addr>, a: Addr, immortal: bool)
    requires FreeExactly(m, head, xs, out) && a < |m| && !m[a].body.Dead?
    ensures FreeExactly(m[a := Cell(false, immortal, Dead(head))], Some(a), [a] + xs, out)
  {
    var m' := m[a := Cell(false, immortal, Dead(head))];
    var xs' := [a] + xs;
    assert a !in xs;
    ChainSame(m, m', head, xs);
    assert xs'[1..] == xs;
  }

  lemma SameFree(m: seq<Cell>, m': seq<Cell>, head: Ref, xs: seq<Addr>, out: set<Addr>)
    requires FreeExactly(m, head, xs, out) && |m'| == |m| && forall i :: 0 <= i < |m| ==> m'[i].body == m[i].body
    ensures FreeExactly(m', head, xs, out)
  {
    ChainSame(m, m', head, xs);
  }

  /** The roots and all cells that look immortal. */
  function Immortals(m: seq<Cell>, n: nat): (r: seq<Ref>)
    requires n <= |m|
    ensures forall a: Addr :: Some(a) in r <==> a < n && m[a].immortal
  {
    if n == 0 then [] else Immortals(m, n - 1) + if m[n - 1].immortal then [Some(n - 1)] else []
  }

  /** A cell survives if the VM's roots or an immortal cell lead to it. */
  ghost predicate Kept(m: seq<Cell>, vm: HostVM, i: Addr) {
    ReachedFrom(m, Roots(vm) + Immortals(m, |m|), i)
  }

  /** What a collection leaves of a heap. */
  ghost predicate Collected(m: seq<Cell>, m': seq<Cell>, vm: HostVM) {
    |m'| == |m| && forall i :: 0 <= i < |m| ==>
      if m[i].body.Dead? || Kept(m, vm, i) then m'[i] == m[i] else m'[i].body.Dead? && !m'[i].mark
  }

  /** Marking from the roots and the immortals, then sweeping, collects. */
  lemma SweptIsCollected(m: seq<Cell>, m1: seq<Cell>, m2: seq<Cell>, vm: HostVM)
    requires Unmarked(m) && Marked(m, m1, Roots(vm) + Immortals(m, |m|)) && |m2| == |m1|
    requires forall i :: 0 <= i < |m1| ==> SweptCell(m1[i], m2[i])
    ensures Collected(m, m2, vm) && Unmarked(m2)
  {
    hide Children, Roots, Marked, ReachedFrom;
    MarkedIsReachable(m, m1, Roots(vm) + Immortals(m, |m|));
    assert SameButMarks(m, m1) by { MarkedSame(m, m1, Roots(vm) + Immortals(m, |m|)); }
    forall i | 0 <= i < |m|
      ensures if m[i].body.Dead? || Kept(m, vm, i) then m2[i] == m[i] else m2[i].body.Dead? && !m2[i].mark
    {
      assert SweptCell(m1[i], m2[i]) && m1[i].(mark := false) == m[i];
    }
  }

  lemma MarkedSame(m: seq<Cell>, m': seq<Cell>, vs: seq<Ref>)
    requires Marked(m, m', vs)
    ensures SameButMarks(m, m') && Pale(m') <= Pale(m)
  {
  }

  /** The live cell is still there, unchanged. */
  predicate Survives(m: seq<Cell>, m': seq<Cell>, a: Addr) {
    a < |m| == |m'| && !m[a].body.Dead? && m'[a] == m[a]
  }

  /** `held` has everything the VM refers to, every immortal cell, and what its own cells refer to. */
  ghost predicate Holds(m: seq<Cell>, vm: HostVM, held: set<Addr>) {
    && (forall a: Addr :: HostRefers(vm, a) ==> a in held)
    && (forall a: Addr :: a < |m| && m[a].immortal ==> a in held)
    && (forall a: Addr, b: Addr :: a in held && a < |m| && Refers(m[a].body, b) ==> b in held)
  }

  /**
   * Field by field: what the VM refers to, what is immortal and what a surviving cell refers to survives if
   * it was live; and nothing survives that one could do without.
   */
  ghost predicate Exact(m: seq<Cell>, m': seq<Cell>, vm: HostVM) {
    && (forall a: Addr :: HostRefers(vm, a) && a < |m| && !m[a].body.Dead? ==> Survives(m, m', a))
    && (forall a: Addr :: a < |m| && m[a].immortal && !m[a].body.Dead? ==> Survives(m, m', a))
    && (forall a: Addr, b: Addr :: Survives(m, m', a) && Refers(m[a].body, b) && b < |m| && !m[b].body.Dead? ==>
          Survives(m, m', b))
    && (forall held, a: Addr :: Holds(m, vm, held) && Survives(m, m', a) ==> a in held)
  }

  lemma CollectedExactly(m: seq<Cell>, m': seq<Cell>, vm: HostVM)
    requires Collected(m, m', vm)
    ensures Exact(m, m', vm)
  {
    hide Children, Roots, Refers, HostRefers, Holds, Reaches;
    var vs := Roots(vm) + Immortals(m, |m|);
    forall a: Addr | HostRefers(vm, a) && a < |m| && !m[a].body.Dead? ensures Survives(m, m', a) {
      RootsAreReferences(vm, a);
      ReachesHere(m, a);
      assert Some(a) in vs;
    }
    forall a: Addr | a < |m| && m[a].immortal && !m[a].body.Dead? ensures Survives(m, m', a) {
      ReachesHere(m, a);
      assert Some(a) in vs;
    }
    forall a: Addr, b: Addr | Survives(m, m', a) && Refers(m[a].body, b) && b < |m| && !m[b].body.Dead?
      ensures Survives(m, m', b)
    {
      assert Kept(m, vm, a);
      ChildrenAreReferences(m[a].body);
      var r: Addr :| Some(r) in vs && Reaches(m, r, a);
      ReachesOneMore(m, r, a, b);
    }
    forall held, a: Addr | Holds(m, vm, held) && Survives(m, m', a) ensures a in held {
      assert Kept(m, vm, a);
      var r: Addr :| Some(r) in vs && Reaches(m, r, a);
      RootsAreReferences(vm, r);
      assert r in held by { HeldRoot(m, vm, held, r); }
      ReachedHeld(m, vm, held, r, a);
    }
  }

  lemma HeldRoot(m: seq<Cell>, vm: HostVM, held: set<Addr>, r: Addr)
    requires Holds(m, vm, held) && (HostRefers(vm, r) || (r < |m| && m[r].immortal))
    ensures r in held
  {
  }

  lemma ReachesOneMore(m: seq<Cell>, a: Addr, b: Addr, d: Addr)
    requires Reaches(m, a, b) && Edge(m, b, d)
    ensures Reaches(m, a, d)
  {
    var p :| Path(m, p) && p[0] == a && p[|p| - 1] == b;
    var q := p + [d];
    assert Path(m, q) by {
      forall i | 0 <= i < |q| - 1 ensures Edge(m, q[i], q[i + 1]) {
        if i < |p| - 1 {
          assert Edge(m, p[i], p[i + 1]);
        }
      }
    }
    assert q[0] == a && q[|q| - 1] == d;
  }

  lemma ReachedHeld(m: seq<Cell>, vm: HostVM, held: set<Addr>, a: Addr, b: Addr)
    requires Holds(m, vm, held) && a in held && Reaches(m, a, b)
    ensures b in held
  {
    var p :| Path(m, p) && p[0] == a && p[|p| - 1] == b;
    PathHeld(m, vm, held, p);
  }

  lemma {:induction false} PathHeld(m: seq<Cell>, vm: HostVM, held: set<Addr>, p: seq<Addr>)
    requires Holds(m, vm, held) && Path(m, p) && p[0] in held
    ensures p[|p| - 1] in held
    decreases |p|
  {
    hide Children, Refers, HostRefers;
    if |p| > 1 {
      var q := p[..|p| - 1];
      forall i | 0 <= i < |q| - 1 ensures Edge(m, q[i], q[i + 1]) {
        assert Edge(m, p[i], p[i + 1]);
      }
      PathHeld(m, vm, held, q);
      assert Edge(m, p[|p| - 2], p[|p| - 1]);
      ChildrenAreReferences(m[p[|p| - 2]].body);
    }
  }

  class GarbageCollector {
    var memory: seq<Cell>
    var heapCount: nat
    var freelist: Ref
    var vm: HostVM
    ghost var free: seq<Addr>

    /** Sound, but for the cells in `out`, which are dead and not on the free list. */
    ghost predicate Sound(out: set<Addr>)
      reads this
    {
      |memory| == HEAP_CELLS * heapCount && heapCount > 0 &&
      FreeExactly(memory, freelist, free, out) && Closed(memory) && Pointing(memory, Roots(vm)) && Unmarked(memory)
    }

    /** Between allocations the free list is not empty. */
    ghost predicate Valid()
      reads this
    {
      Sound({}) && |free| > 0
    }

    constructor (host: HostVM)
      requires Roots(host) == []
      ensures Valid() && |memory| == HEAP_CELLS * INITIAL_HEAPS && vm == host
    {
      memory, heapCount, freelist, vm, free := [], 0, None, host, [];
      new;
      var i := 0;
      while i < INITIAL_HEAPS
        invariant i <= INITIAL_HEAPS && heapCount == i && |memory| == HEAP_CELLS * i && vm == host
        invariant FreeExactly(memory, freelist, free, {}) && Closed(memory) && Unmarked(memory) &&
            (i > 0 ==> |free| > 0)
      {
        AddHeap({});
        i := i + 1;
      }
    }

    /** Appends a heap of dead cells, each linked in front of the one before. */
    method AddHeap(ghost out: set<Addr>)
      requires FreeExactly(memory, freelist, free, out) && Closed(memory) && Unmarked(memory)
      modifies `memory, `heapCount, `freelist, `free
      ensures heapCount == old(heapCount) + 1 && |memory| == old(|memory|) + HEAP_CELLS
      ensures memory[..old(|memory|)] == old(memory)
      ensures FreeExactly(memory, freelist, free, out) && Closed(memory) && Unmarked(memory) && |free| > 0
    {
      hide Children;
      heapCount := heapCount + 1;
      var i := 0;
      while i < HEAP_CELLS
        invariant 0 <= i <= HEAP_CELLS && heapCount == old(heapCount) + 1 && |memory| == old(|memory|) + i &&
            memory[..old(|memory|)] == old(memory)
        invariant FreeExactly(memory, freelist, free, out) && Closed(memory) && Unmarked(memory) &&
            (i > 0 ==> |free| > 0)
      {
        AppendFree(memory, freelist, free, out);
        free := [|memory|] + free;
        memory, freelist := memory + [Cell(false, false, Dead(freelist))], Some(|memory|);
        i := i + 1;
      }
    }

    /** Doubles the number of heaps. */
    method GrowHeap(ghost out: set<Addr>)
      requires Sound(out)
      modifies `memory, `heapCount, `freelist, `free
      ensures Sound(out) && |free| > 0 && heapCount == 2 * old(heapCount) && memory[..old(|memory|)] == old(memory)
    {
      hide Children, FreeExactly, Closed, Unmarked;
      var count := heapCount;
      while count > 0
        invariant 0 <= count <= old(heapCount) && heapCount + count == 2 * old(heapCount)
        invariant |memory| == HEAP_CELLS * heapCount && old(|memory|) <= |memory| && memory[..old(|memory|)] ==
            old(memory)
        invariant FreeExactly(memory, freelist, free, out) && Closed(memory) && Unmarked(memory)
        invariant count < old(heapCount) ==> |free| > 0
      {
        ghost var before := memory;
        AddHeap(out);
        assert memory[..old(|memory|)] == memory[..|before|][..old(|memory|)];
        count := count - 1;
      }
    }

    /** Marks everything a value leads to; terminates on cyclic heaps because marks only grow. */
    method Mark(v: Ref)
      requires Closed(memory) && Pointing(memory, [v])
      modifies `memory
      ensures Marked(old(memory), memory, [v])
      decreases Pale(memory), 1
    {
      hide Children, Reaches;
      if v.None? {
        MarkedNone(memory, v);
        return;
      }
      assert v.value < |memory| by { assert Some(v.value) in [v]; }
      if memory[v.value].mark {
        MarkedAlready(memory, v);
        return;
      }
      ghost var m := memory;
      memory := memory[v.value := memory[v.value].(mark := true)];
      assert v.value in Pale(m) && v.value !in Pale(memory) && Pale(memory) <= Pale(m);
      MarkAll(Children(memory[v.value].body));
      MarkedCell(m, memory, v.value);
    }

    method MarkAll(vs: seq<Ref>)
      requires Closed(memory) && Pointing(memory, vs)
      modifies `memory
      ensures Marked(old(memory), memory, vs)
      decreases Pale(memory), 2
    {
      hide Children, Reaches, ReachedFrom;
      var i := 0;
      MarkedNothing(memory);
      while i < |vs|
        invariant i <= |vs| && Marked(old(memory), memory, vs[..i])
      {
        ghost var m := memory;
        MarkedSame(old(memory), m, vs[..i]);
        assert vs[i] in vs;
        Mark(vs[i]);
        MarkedBoth(old(memory), m, memory, vs[..i], [vs[i]]);
        assert vs[..i] + [vs[i]] == vs[..i + 1];
        i := i + 1;
      }
      assert vs[..i] == vs;
    }

    method MarkTasks(ts: seq<Task>)
      requires Closed(memory) && Pointing(memory, TasksRoots(ts))
      modifies `memory
      ensures Marked(old(memory), memory, TasksRoots(ts))
    {
      hide Children, Reaches, ReachedFrom;
      var i := 0;
      MarkedNothing(memory);
      while i < |ts|
        invariant i <= |ts| && Marked(old(memory), memory, TasksRoots(ts[..i]))
      {
        ghost var m := memory;
        MarkedSame(old(memory), m, TasksRoots(ts[..i]));
        TasksParts(ts, i);
        MarkAll(TaskRoots(ts[i]));
        MarkedBoth(old(memory), m, memory, TasksRoots(ts[..i]), TaskRoots(ts[i]));
        i := i + 1;
      }
      assert ts[..i] == ts;
    }

    method MarkPaused(ps: seq<Paused>)
      requires Closed(memory) && Pointing(memory, PausedRoots(ps))
      modifies `memory
      ensures Marked(old(memory), memory, PausedRoots(ps))
    {
      hide Children, Reaches, ReachedFrom;
      var i := 0;
      MarkedNothing(memory);
      while i < |ps|
        invariant i <= |ps| && Marked(old(memory), memory, PausedRoots(ps[..i]))
      {
        ghost var m := memory;
        MarkedSame(old(memory), m, PausedRoots(ps[..i]));
        PausedParts(ps, i);
        MarkAll(ps[i].stack + [ps[i].frame, ps[i].catchstack]);
        MarkedBoth(old(memory), m, memory, PausedRoots(ps[..i]), ps[i].stack + [ps[i].frame, ps[i].catchstack]);
        i := i + 1;
      }
      assert ps[..i] == ps;
    }

    /** The VM's registers, stack, queues and paused threads, in this order. */
    method MarkRoots()
      requires Closed(memory) && Pointing(memory, Roots(vm))
      modifies `memory
      ensures Marked(old(memory), memory, Roots(vm))
    {
      hide Children, Reaches, ReachedFrom, Marked, Closed, TasksRoots, PausedRoots;
      ghost var m0 := memory;
      MarkedNothing(m0);
      if vm.running {
        RootParts(m0, vm);
        MarkAll(vm.registers);
        ghost var m1 := memory;
        MarkedSame(m0, m1, vm.registers);
        StillPointing(m0, m1);
        MarkAll(vm.stack);
        ghost var m2 := memory;
        MarkedSame(m1, m2, vm.stack);
        StillPointing(m1, m2);
        MarkedBoth(m0, m1, m2, vm.registers, vm.stack);
        MarkTasks(vm.tasks);
        ghost var m3 := memory;
        MarkedSame(m2, m3, TasksRoots(vm.tasks));
        StillPointing(m2, m3);
        MarkedBoth(m0, m2, m3, vm.registers + vm.stack, TasksRoots(vm.tasks));
        MarkTasks(vm.timers);
        ghost var m4 := memory;
        MarkedSame(m3, m4, TasksRoots(vm.timers));
        StillPointing(m3, m4);
        MarkedBoth(m0, m3, m4, vm.registers + vm.stack + TasksRoots(vm.tasks), TasksRoots(vm.timers));
        MarkTasks(vm.tickers);
        ghost var m5 := memory;
        MarkedSame(m4, m5, TasksRoots(vm.tickers));
        StillPointing(m4, m5);
        MarkedBoth(m0, m4, m5, vm.registers + vm.stack + TasksRoots(vm.tasks) + TasksRoots(vm.timers),
            TasksRoots(vm.tickers));
        MarkPaused(vm.paused);
        MarkedBoth(m0, m5, memory,
          vm.registers + vm.stack + TasksRoots(vm.tasks) + TasksRoots(vm.timers) + TasksRoots(vm.tickers),
              PausedRoots(vm.paused));
      }
    }

    /** Every cell whose immortal bit is set is marked, dead ones included. */
    method MarkImmortals(ghost m0: seq<Cell>, ghost vs: seq<Ref>)
      requires Closed(memory) && Marked(m0, memory, vs)
      modifies `memory
      ensures Marked(m0, memory, vs + Immortals(m0, |m0|))
    {
      hide Children, Reaches, ReachedFrom;
      var i := 0;
      assert vs + Immortals(m0, 0) == vs;
      while i < |memory|
        invariant i <= |memory| == |m0| && Closed(memory) && Marked(m0, memory, vs + Immortals(m0, i))
      {
        ghost var m := memory;
        if memory[i].immortal {
          PointingOne(m, i);
          Mark(Some(i));
          MarkedBoth(m0, m, memory, vs + Immortals(m0, i), [Some(i)]);
          MarkedSame(m, memory, [Some(i)]);
          StillPointing(m, memory);
          assert vs + Immortals(m0, i) + [Some(i)] == vs + Immortals(m0, i + 1);
        } else {
          assert vs + Immortals(m0, i) == vs + Immortals(m0, i + 1);
        }
        i := i + 1;
      }
    }

    /** Clears marks; live cells without a mark become dead and go on the free list. */
    method Sweep(ghost out: set<Addr>)
      requires FreeExactly(memory, freelist, free, out) && Closed(memory)
      modifies `memory, `freelist, `free
      ensures |memory| == old(|memory|) && forall i :: 0 <= i < |memory| ==> SweptCell(old(memory)[i], memory[i])
      ensures FreeExactly(memory, freelist, free, out) && Closed(memory) && |free| >= old(|free|)
    {
      hide Children, FreeExactly;
      ghost var m := memory;
      var i := 0;
      while i < |memory|
        invariant 0 <= i <= |memory| == |m| && Closed(memory) && FreeExactly(memory, freelist, free, out)
        invariant forall j :: 0 <= j < i ==> SweptCell(m[j], memory[j])
        invariant forall j :: i <= j < |m| ==> memory[j] == m[j]
        invariant |free| >= old(|free|)
      {
        if memory[i].mark {
          Unmark(memory, freelist, free, out, i);
          memory := memory[i := memory[i].(mark := false)];
        } else if !memory[i].body.Dead? {
          Deallocate(i, out);
        }
        i := i + 1;
      }
    }

    /** The memory pattern a freed cell is filled with leaves its immortal bit set. */
    method Deallocate(a: Addr, ghost out: set<Addr>)
      requires FreeExactly(memory, freelist, free, out) && Closed(memory) && a < |memory| && !memory[a].body.Dead?
      modifies `memory, `freelist, `free
      ensures memory == old(memory)[a := Cell(false, true, Dead(old(freelist)))] && free == [a] + old(free)
      ensures FreeExactly(memory, freelist, free, out) && Closed(memory)
    {
      PushFree(memory, freelist, free, out, a, true);
      ClosedUpdate(memory, a, Cell(false, true, Dead(freelist)));
      free := [a] + free;
      memory, freelist := memory[a := Cell(false, true, Dead(freelist))], Some(a);
    }

    /**
     * A collection is exact: a live cell survives, unchanged, if and only if the VM's roots
     * or an immortal cell lead to it. All marks are clear again.
     */
    method Collect(ghost out: set<Addr>)
      requires Sound(out)
      modifies `memory, `freelist, `free
      ensures Sound(out) && Collected(old(memory), memory, vm) && |free| >= old(|free|)
      ensures Exact(old(memory), memory, vm)
    {
      hide Children, ReachedFrom, FreeExactly, Roots, Marked, Exact;
      ghost var m := memory;
      MarkRoots();
      MarkedSame(m, memory, Roots(vm));
      StillPointing(m, memory);
      MarkImmortals(m, Roots(vm));
      ghost var m1 := memory;
      MarkedSame(m, m1, Roots(vm) + Immortals(m, |m|));
      StillPointing(m, m1);
      SameFree(m, m1, freelist, free, out);
      Sweep(out);
      SweptIsCollected(m, m1, memory, vm);
      CollectedExactly(m, memory, vm);
    }

    /**
     * Hands out a dead cell and gives it `body`. If it was the last free one the heap is
     * collected, and doubled when that frees nothing; so a free cell is always left.
     */
    method AllocateCell(body: Body) returns (a: Addr)
      requires Valid() && !body.Dead? && Pointing(memory, Children(body))
      modifies this
      ensures Valid() && vm == old(vm) && heapCount >= old(heapCount)
      ensures a in old(free) && a < old(|memory|) <= |memory| && old(memory)[a].body.Dead?
      ensures memory[a] == Cell(false, false, body) && a !in free
      ensures old(|free|) > 1 ==> |memory| == old(|memory|) && forall i :: 0 <= i < |memory| && i != a ==>
          memory[i] == old(memory)[i]
      ensures old(|free|) == 1 ==> forall i :: 0 <= i < old(|memory|) && i != a ==>
        if old(memory)[i].body.Dead? || Kept(old(memory), vm, i) then memory[i] ==
            old(memory)[i] else memory[i].body.Dead?
      ensures heapCount > old(heapCount) ==> heapCount == 2 * old(heapCount)
    {
      hide Children, ReachedFrom, Roots, Chain, Reaches, Kept;
      ghost var m := memory;
      TakeFree(memory, freelist, free);
      a := freelist.value;
      free := free[1..];
      freelist := memory[a].body.next;
      assert Sound({a});
      if freelist.None? {
        NoneLeft(memory, freelist, free);
        Collect({a});
        if freelist.None? {
          NoneLeft(memory, freelist, free);
          ghost var m1 := memory;
          GrowHeap({a});
          assert forall i :: 0 <= i < |m1| ==> memory[i] == memory[..|m1|][i];
        } else {
          SomeLeft(memory, freelist, free);
        }
      } else {
        SomeLeft(memory, freelist, free);
      }
      Initialise(memory, freelist, free, a, body, m);
      memory := memory[a := Cell(false, false, body)];
    }
  }

  lemma TasksParts(ts: seq<Task>, i: nat)
    requires i < |ts|
    ensures TasksRoots(ts[..i + 1]) == TasksRoots(ts[..i]) + TaskRoots(ts[i])
    ensures forall v :: v in TaskRoots(ts[i]) ==> v in TasksRoots(ts)
  {
    assert ts[..i + 1][..i] == ts[..i];
    TasksPrefix(ts, i + 1);
  }

  lemma {:induction false} TasksPrefix(ts: seq<Task>, i: nat)
    requires i <= |ts|
    ensures forall v :: v in TasksRoots(ts[..i]) ==> v in TasksRoots(ts)
    decreases |ts|
  {
    if i < |ts| {
      assert ts[..|ts| - 1][..i] == ts[..i];
      TasksPrefix(ts[..|ts| - 1], i);
    } else {
      assert ts[..i] == ts;
    }
  }

  lemma PausedParts(ps: seq<Paused>, i: nat)
    requires i < |ps|
    ensures PausedRoots(ps[..i + 1]) == PausedRoots(ps[..i]) + (ps[i].stack + [ps[i].frame, ps[i].catchstack])
    ensures forall v :: v in ps[i].stack + [ps[i].frame, ps[i].catchstack] ==> v in PausedRoots(ps)
  {
    assert ps[..i + 1][..i] == ps[..i];
    PausedPrefix(ps, i + 1);
  }

  lemma {:induction false} PausedPrefix(ps: seq<Paused>, i: nat)
    requires i <= |ps|
    ensures forall v :: v in PausedRoots(ps[..i]) ==> v in PausedRoots(ps)
    decreases |ps|
  {
    if i < |ps| {
      assert ps[..|ps| - 1][..i] == ps[..i];
      PausedPrefix(ps[..|ps| - 1], i);
    } else {
      assert ps[..i] == ps;
    }
  }

  lemma RootParts(m: seq<Cell>, vm: HostVM)
    requires Pointing(m, Roots(vm)) && vm.running
    ensures Pointing(m, vm.registers) && Pointing(m, vm.stack) && Pointing(m, TasksRoots(vm.tasks))
    ensures Pointing(m, TasksRoots(vm.timers)) && Pointing(m, TasksRoots(vm.tickers)) &&
        Pointing(m, PausedRoots(vm.paused))
  {
  }

  lemma StillPointing(m: seq<Cell>, m': seq<Cell>)
    requires SameButMarks(m, m')
    ensures Closed(m) ==> Closed(m')
    ensures forall vs :: Pointing(m, vs) ==> Pointing(m', vs)
  {
    hide Children;
    if Closed(m) {
      forall i | 0 <= i < |m'| ensures Pointing(m', Children(m'[i].body)) {
        assert Pointing(m, Children(m[i].body));
      }
    }
  }

  lemma PointingOne(m: seq<Cell>, a: Addr)
    requires a < |m|
    ensures Pointing(m, [Some(a)])
  {
  }

  lemma ClosedUpdate(m: seq<Cell>, a: Addr, c: Cell)
    requires Closed(m) && a < |m| && Pointing(m, Children(c.body))
    ensures Closed(m[a := c])
  {
    hide Children;
    var m' := m[a := c];
    forall i | 0 <= i < |m'| ensures Pointing(m', Children(m'[i].body)) {
      assert i != a ==> Pointing(m, Children(m[i].body));
    }
  }

  lemma Unmark(m: seq<Cell>, head: Ref, xs: seq<Addr>, out: set<Addr>, a: Addr)
    requires FreeExactly(m, head, xs, out) && Closed(m) && a < |m|
    ensures var m' := m[a := m[a].(mark := false)]; FreeExactly(m', head, xs, out) && Closed(m')
  {
    hide Children;
    SameFree(m, m[a := m[a].(mark := false)], head, xs, out);
    assert Pointing(m, Children(m[a].body));
    ClosedUpdate(m, a, m[a].(mark := false));
  }

  lemma TakeFree(m: seq<Cell>, head: Ref, xs: seq<Addr>)
    requires FreeExactly(m, head, xs, {}) && |xs| > 0
    ensures head == Some(xs[0]) && xs[0] < |m| && m[xs[0]].body.Dead?
    ensures FreeExactly(m, m[xs[0]].body.next, xs[1..], {xs[0]})
  {
    var ys := xs[1..];
    forall i: nat | i < |m| ensures m[i].body.Dead? <==> i in ys || i in {xs[0]} {
      assert i in xs <==> i == xs[0] || i in ys;
    }
    forall i, j | 0 <= i < j < |ys| ensures ys[i] != ys[j] {
      assert ys[i] == xs[i + 1] && ys[j] == xs[j + 1];
    }
  }

  lemma NoneLeft(m: seq<Cell>, head: Ref, xs: seq<Addr>)
    requires Chain(m, head, xs) && head.None?
    ensures |xs| == 0
  {
  }

  lemma SomeLeft(m: seq<Cell>, head: Ref, xs: seq<Addr>)
    requires Chain(m, head, xs) && head.Some?
    ensures |xs| > 0
  {
  }

  /** The handed out cell is no longer dead, so nothing is missing from the free list. */
  lemma Initialise(m: seq<Cell>, head: Ref, xs: seq<Addr>, a: Addr, body: Body, m0: seq<Cell>)
    requires FreeExactly(m, head, xs, {a}) && Closed(m) && Unmarked(m) && !body.Dead? && |m0| <= |m| &&
        Pointing(m0, Children(body))
    ensures var m' := m[a := Cell(false, false, body)]; FreeExactly(m', head, xs, {}) && Closed(m') && Unmarked(m')
  {
    hide Children;
    var m' := m[a := Cell(false, false, body)];
    assert a in {a};
    assert forall x :: x in xs ==> x != a;
    ChainSame(m, m', head, xs);
    ClosedUpdate(m, a, Cell(false, false, body));
    forall i: nat | i < |m'| ensures m'[i].body.Dead? <==> i in xs {
      assert m[i].body.Dead? <==> i in xs || i in {a};
    }
    assert Closed(m') && Unmarked(m');
    assert Chain(m', head, xs) && Distinct(xs);
  }

  lemma MarkedNone(m: seq<Cell>, v: Ref)
    requires v.None?
    ensures Marked(m, m, [v])
  {
    forall a: Addr ensures Some(a) !in [v] {
      var w: Ref := Some(a);
      assert w in [v] ==> w == v;
    }
    MarkedNothing(m);
  }

  lemma AppendFree(m: seq<Cell>, head: Ref, xs: seq<Addr>, out: set<Addr>)
    requires FreeExactly(m, head, xs, out) && Closed(m) && Unmarked(m)
    ensures var m' := m + [Cell(false, false, Dead(head))];
      FreeExactly(m', Some(|m|), [|m|] + xs, out) && Closed(m') && Unmarked(m')
  {
    var m' := m + [Cell(false, false, Dead(head))];
    ChainSame(m, m', head, xs);
    assert ([|m|] + xs)[1..] == xs;
    assert Distinct([|m|] + xs) by {
      forall i | 0 <= i < |xs| ensures xs[i] != |m| {
        assert xs[i] in xs;
      }
    }
    forall i | 0 <= i < |m'| ensures Pointing(m', Children(m'[i].body)) {
      if i < |m| {
        assert Pointing(m, Children(m[i].body));
      }
    }
  }
}
