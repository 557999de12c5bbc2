/** Branch detection and the lanes in which the disassembler draws branches. */
module Lanes {
  import opened Values
  import opened Bytecode
  import opened Assembling
  import opened VirtualMachine

  datatype Branch = Branch(start: int, end: int) {
    predicate IsBackwardsJump() {
      end <= start
    }

    predicate InRange(addr: int) {
      if IsBackwardsJump() then end <= addr <= start else start <= addr <= end
    }

    predicate OverlapsWithBranch(other: Branch) {
      InRange(other.start) || InRange(other.end)
    }

    function LowerAddress(): int {
      if IsBackwardsJump() then end else start
    }

    function UpperAddress(): int {
      if IsBackwardsJump() then start else end
    }
  }

  // ----- detection -----

  /** The branch drawn for the instruction at `p`, if it has a jump operand. */
  function BranchAt(code: seq<Cell>, p: nat, functions: bool): Option<Branch>
    requires p < |code| && code[p].Raw?
  {
    var op := code[p].b;
    var operand := if op == 21 && functions then ReadI32(code, p + 9)
                   else if op == 35 || 37 <= op <= 45 then ReadI32(code, p + 1)
                   else None;
    match operand
    case None => None
    case Some(offset) => Some(Branch(p, p + offset))
  }

  /** The branch drawn is the one decoded there: from the instruction to where its offset leads. */
  lemma BranchIsDecoded(code: seq<Cell>, p: nat, functions: bool)
    requires RawAt(code, p) && Fetch(code, p).Some?
    ensures BranchAt(code, p, functions) ==
      match Fetch(code, p).value
      case BranchOp(_, offset) => Some(Branch(p, p + offset))
      case RegisterCatchTable(offset) => Some(Branch(p, p + offset))
      case PutFunction(_, offset, _, _, _, _, _) => if functions then Some(Branch(p, p + offset)) else None
      case _ => None
  {
    hide ReadI32, ReadU32, ReadWord;
  }

  /**
   * And it ends where the machine goes: a step of the machine jumps to the branch's end or falls through, hands
   * the end to the catch table it registers, or to the function it makes.
   */
  lemma BranchLeads(code: seq<Cell>, m: Machine)
    requires m.status.Running? && m.ip >= 0 && Fetch(code, m.ip).Some?
    ensures RawAt(code, m.ip)
    ensures var i, b, m' := Fetch(code, m.ip).value, BranchAt(code, m.ip, true), Step(code, m);
      && (b.Some? <==> i.BranchOp? || i.RegisterCatchTable? || i.PutFunction?)
      && (b.Some? ==> b.value.start == m.ip)
      && (i.BranchOp? && m'.status.Running? ==> m'.ip == b.value.end || m'.ip == m.ip + 5)
      && (i.BranchOp? && i.kind.Always? && b.value.end != m.ip ==> m'.ip == b.value.end)
      && (i.RegisterCatchTable? && m'.status.Running? ==>
            |m'.catches| > 0 && m'.catches[|m'.catches| - 1].address == b.value.end)
      && (i.PutFunction? && m'.status.Running? ==>
            |m'.heap.funcs| > 0 && m'.heap.funcs[|m'.heap.funcs| - 1].body == b.value.end)
  {
    hide Fetch, BranchAt;
    FetchedRaw(code, m.ip);
    BranchIsDecoded(code, m.ip, true);
  }

  lemma FetchedRaw(code: seq<Cell>, p: nat)
    requires Fetch(code, p).Some?
    ensures RawAt(code, p)
  {
  }

  /** The branches of the instructions at the given addresses, in order. */
  function BranchesAt(code: seq<Cell>, starts: seq<nat>, functions: bool): seq<Branch> {
    if |starts| == 0 then []
    else
      var rest := BranchesAt(code, starts[1..], functions);
      var p := starts[0];
      if p < |code| && code[p].Raw? && BranchAt(code, p,
          functions).Some? then [BranchAt(code, p, functions).value] + rest
      else rest
  }

  /** The addresses in front of `end`. */
  function Until(starts: seq<nat>, end: nat): seq<nat> {
    if |starts| == 0 || starts[0] >= end then [] else [starts[0]] + Until(starts[1..], end)
  }

  /** The branches from one instruction on are its own and those from the next one on. */
  lemma OneFurther(code: seq<Cell>, functions: bool, offset: nat, end: nat)
    requires offset < |code| && offset < end && Walk(code, offset).Some?
    ensures code[offset].Raw?
    ensures var next := offset + InstructionLength(code[offset].b); var found := BranchAt(code, offset, functions);
      && offset < next <= |code| && Walk(code, next).Some?
      && BranchesAt(code, Until(Walk(code, offset).value, end), functions) ==
         (if found.Some? then [found.value] else []) + BranchesAt(code, Until(Walk(code, next).value, end), functions)
  {
    hide BranchAt, InstructionLength;
    LongEnough(code[offset].b);
    var next := offset + InstructionLength(code[offset].b);
    WalkInside(code, next);
    var rest := Until(Walk(code, next).value, end);
    assert Walk(code, offset).value == [offset] + Walk(code, next).value;
    assert Walk(code, offset).value[1..] == Walk(code, next).value;
    assert Until(Walk(code, offset).value, end) == [offset] + rest;
    assert ([offset] + rest)[1..] == rest;
  }

  lemma NoFurther(code: seq<Cell>, functions: bool, offset: nat, end: nat)
    requires Walk(code, offset).Some? && (offset >= |code| || offset >= end)
    ensures BranchesAt(code, Until(Walk(code, offset).value, end), functions) == []
  {
  }

  /**
   * Walking by instruction lengths from one address up to another finds the branches of exactly the
   * instructions there.
   */
  method DetectBranches(code: seq<Cell>, functions: bool, start: nat, end: nat) returns (branches: seq<Branch>)
    requires start <= |code| ==> Walk(code, start).Some?
    ensures branches ==
      if start <= |code| then BranchesAt(code, Until(Walk(code, start).value, end), functions) else []
  {
    hide BranchAt, InstructionLength, BranchesAt;
    branches := [];
    if start > |code| { return; }
    var offset := start;
    while offset < |code| && offset < end
      invariant 0 <= offset <= |code| && Walk(code, offset).Some?
      invariant branches + BranchesAt(code, Until(Walk(code, offset).value, end), functions)
             == BranchesAt(code, Until(Walk(code, start).value, end), functions)
      decreases |code| - offset
    {
      OneFurther(code, functions, offset, end);
      var found := BranchAt(code, offset, functions);
      ghost var before := branches;
      if found.Some? {
        branches := branches + [found.value];
      }
      offset := offset + InstructionLength(code[offset].b);
      ghost var after := BranchesAt(code, Until(Walk(code, offset).value, end), functions);
      assert found.Some? ==> before + ([found.value] + after) == branches + after;
    }
    NoFurther(code, functions, offset, end);
    assert branches + [] == branches;
  }

  // ----- lanes -----

  predicate Descending(bs: seq<Branch>) {
    forall i, j :: 0 <= i < j < |bs| ==> bs[i].LowerAddress() >= bs[j].LowerAddress()
  }

  /** Two branches share an address. */
  ghost predicate Intersect(a: Branch, b: Branch) {
    exists x: int :: a.InRange(x) && b.InRange(x)
  }

  /**
   * The test asks only whether an end of the other branch lies in this one. It finds every
   * intersection when the other branch starts no lower, which is why sorting matters.
   */
  lemma OverlapIsIntersection(a: Branch, b: Branch)
    requires b.LowerAddress() >= a.LowerAddress()
    ensures a.OverlapsWithBranch(b) <==> Intersect(a, b)
  {
    if a.OverlapsWithBranch(b) {
      assert b.InRange(b.start) && b.InRange(b.end);
    }
    if x :| a.InRange(x) && b.InRange(x) {
      assert a.InRange(b.LowerAddress());
    }
  }

  /** The other way round the test can miss a branch that contains this one. */
  lemma OverlapMissesContainer()
    ensures var a, b := Branch(150, 160), Branch(30, 200); !a.OverlapsWithBranch(b) && Intersect(a, b)
  {
    assert Branch(150, 160).InRange(155) && Branch(30, 200).InRange(155);
  }

  /** Some branch already drawn in `lane` overlaps `b`. */
  predicate Taken(bs: seq<Branch>, lanes: seq<nat>, b: Branch, lane: nat)
    requires |lanes| <= |bs|
  {
    exists j :: 0 <= j < |lanes| && b.OverlapsWithBranch(bs[j]) && lanes[j] == lane
  }

  /** Counts as the source does: are there branches of that lane in the way. */
  method OverlapsWithOtherBranchline(bs: seq<Branch>, lanes: seq<nat>, b: Branch, lane: nat) returns (r: bool)
    requires |lanes| <= |bs|
    ensures r <==> Taken(bs, lanes, b, lane)
  {
    var count := 0;
    var j := 0;
    while j < |lanes|
      invariant j <= |lanes|
      invariant count > 0 <==> exists i :: 0 <= i < j && b.OverlapsWithBranch(bs[i]) && lanes[i] == lane
    {
      if b.OverlapsWithBranch(bs[j]) && lanes[j] == lane {
        count := count + 1;
      }
      j := j + 1;
    }
    r := count > 0;
  }

  /**
   * Gives every branch a lane. Intersecting branches get different lanes, every lane is
   * below the density, and a branch is moved to the left only past lanes that are taken.
   */
  method AllocateLanes(bs: seq<Branch>) returns (lanes: seq<nat>, density: nat)
    requires Descending(bs)
    ensures |lanes| == |bs|
    ensures forall i, j :: 0 <= i < j < |bs| && Intersect(bs[i], bs[j]) ==> lanes[i] != lanes[j]
    ensures forall i :: 0 <= i < |bs| ==> lanes[i] < density
    ensures density > 0 ==> exists i :: 0 <= i < |bs| && lanes[i] + 1 == density
    ensures forall i, l :: 0 <= i < |bs| && 0 <= l < lanes[i] ==> LaneBefore(bs, lanes, i, l)
  {
    hide Intersect;
    lanes, density := [], if |bs| > 0 then 1 else 0;
    var i := 0;
    while i < |bs|
      invariant i == |lanes| <= |bs| && (|bs| > 0 ==> density >= 1)
      invariant forall k :: 0 <= k < i ==> lanes[k] <= k && lanes[k] < density
      invariant forall k, m :: 0 <= k < m < i && Intersect(bs[k], bs[m]) ==> lanes[k] != lanes[m]
      invariant forall k, l :: 0 <= k < i && 0 <= l < lanes[k] ==> LaneBefore(bs, lanes, k, l)
      invariant density <= 1 || Reached(lanes, density)
      invariant i > 0 ==> lanes[0] == 0
      invariant |bs| == 0 ==> density == 0
    {
      var lane := 0;
      var taken := OverlapsWithOtherBranchline(bs, lanes, bs[i], lane);
      while taken
        invariant lane <= i && (taken <==> Taken(bs, lanes, bs[i], lane))
        invariant forall l :: 0 <= l < lane ==> Taken(bs, lanes, bs[i], l)
        decreases i - lane, taken
      {
        assert lane < i;
        lane := lane + 1;
        taken := OverlapsWithOtherBranchline(bs, lanes, bs[i], lane);
      }
      NewLane(bs, lanes, lane);
      if lane + 1 > density {
        density := lane + 1;
      }
      lanes := lanes + [lane];
      i := i + 1;
    }
    assert density == 1 ==> lanes[0] + 1 == density;
  }

  /** Lane `l` is taken by an earlier branch in the way of branch `k`. */
  ghost predicate LaneBefore(bs: seq<Branch>, lanes: seq<nat>, k: int, l: int)
    requires 0 <= k < |lanes| <= |bs|
  {
    exists j :: 0 <= j < k && lanes[j] == l && Intersect(bs[k], bs[j])
  }

  predicate Reached(lanes: seq<nat>, density: nat) {
    exists i :: 0 <= i < |lanes| && lanes[i] + 1 == density
  }

  lemma NewLane(bs: seq<Branch>, lanes: seq<nat>, lane: nat)
    requires |lanes| < |bs| && Descending(bs) && !Taken(bs, lanes, bs[|lanes|], lane)
    requires forall l :: 0 <= l < lane ==> Taken(bs, lanes, bs[|lanes|], l)
    requires forall k, l :: 0 <= k < |lanes| && 0 <= l < lanes[k] ==> LaneBefore(bs, lanes, k, l)
    ensures forall k :: 0 <= k < |lanes| && Intersect(bs[k], bs[|lanes|]) ==> lanes[k] != lane
    ensures var lanes' := lanes + [lane]; forall k, l :: 0 <= k < |lanes'| && 0 <= l < lanes'[k] ==>
        LaneBefore(bs, lanes', k, l)
    ensures forall d :: Reached(lanes, d) ==> Reached(lanes + [lane], d)
    ensures Reached(lanes + [lane], lane + 1)
  {
    hide Intersect;
    var n := |lanes|;
    var lanes' := lanes + [lane];
    forall k | 0 <= k < n && Intersect(bs[k], bs[n]) ensures lanes[k] != lane {
      IntersectSymmetric(bs[k], bs[n]);
      OverlapIsIntersection(bs[n], bs[k]);
    }
    forall k, l | 0 <= k < |lanes'| && 0 <= l < lanes'[k] ensures LaneBefore(bs, lanes', k, l) {
      if k < n {
        assert LaneBefore(bs, lanes, k, l);
        var j :| 0 <= j < k && lanes[j] == l && Intersect(bs[k], bs[j]);
        assert lanes'[j] == l;
      } else {
        assert Taken(bs, lanes, bs[n], l);
        var j :| 0 <= j < n && bs[n].OverlapsWithBranch(bs[j]) && lanes[j] == l;
        OverlapIsIntersection(bs[n], bs[j]);
        assert lanes'[j] == l;
      }
    }
    forall d | Reached(lanes, d) ensures Reached(lanes', d) {
      var i :| 0 <= i < n && lanes[i] + 1 == d;
      assert lanes'[i] + 1 == d;
    }
    assert lanes'[n] + 1 == lane + 1;
  }

  lemma IntersectSymmetric(a: Branch, b: Branch)
    ensures Intersect(a, b) <==> Intersect(b, a)
  {
  }

  // ----- the density -----

  /** The branches active at an address. */
  function Active(bs: seq<Branch>, x: int): set<int> {
    set k | 0 <= k < |bs| && bs[k].InRange(x)
  }

  /** The density bounds the number of branches active at any address. */
  lemma DensityBounds(bs: seq<Branch>, lanes: seq<nat>, density: nat, x: int)
    requires |lanes| == |bs| && forall i :: 0 <= i < |bs| ==> lanes[i] < density
    requires forall i, j :: 0 <= i < j < |bs| && Intersect(bs[i], bs[j]) ==> lanes[i] != lanes[j]
    ensures |Active(bs, x)| <= density
  {
    hide Intersect;
    var act := Active(bs, x);
    forall i, j | i in act && j in act && i != j ensures lanes[i] != lanes[j] {
      Meet(bs[i], bs[j], x);
      IntersectSymmetric(bs[i], bs[j]);
    }
    Pigeons(act, lanes, density);
  }

  lemma Meet(a: Branch, b: Branch, x: int)
    requires a.InRange(x) && b.InRange(x)
    ensures Intersect(a, b)
  {
  }

  /** As many different lanes as indices, all below `n`. */
  lemma {:induction false} Pigeons(xs: set<int>, lanes: seq<nat>, n: nat)
    requires forall i :: i in xs ==> 0 <= i < |lanes| && lanes[i] < n
    requires forall i, j :: i in xs && j in xs && i != j ==> lanes[i] != lanes[j]
    ensures |xs| <= n
    decreases n
  {
    if n == 0 {
      forall i ensures i !in xs {
      }
      assert xs == {};
    } else if i :| i in xs && lanes[i] == n - 1 {
      Pigeons(xs - {i}, lanes, n - 1);
    } else {
      Pigeons(xs, lanes, n - 1);
    }
  }

  /** Every lane below `n` is some branch's, so there are that many branches. */
  lemma {:induction false} Covers(xs: set<int>, lanes: seq<nat>, n: nat)
    requires forall i :: i in xs ==> 0 <= i < |lanes|
    requires forall l: nat :: l < n ==> InUse(xs, lanes, l)
    ensures |xs| >= n
    decreases n
  {
    if n > 0 {
      assert InUse(xs, lanes, n - 1);
      var i :| i in xs && 0 <= i < |lanes| && lanes[i] == n - 1;
      forall l: nat | l < n - 1 ensures InUse(xs - {i}, lanes, l) {
        assert InUse(xs, lanes, l);
        var k :| k in xs && 0 <= k < |lanes| && lanes[k] == l;
        assert k in xs - {i};
      }
      Covers(xs - {i}, lanes, n - 1);
    }
  }

  /** One of the branches has lane `l`. */
  predicate InUse(xs: set<int>, lanes: seq<nat>, l: nat) {
    exists i :: i in xs && 0 <= i < |lanes| && lanes[i] == l
  }

  /** No branch lies inside one that starts further down. */
  predicate Unnested(bs: seq<Branch>) {
    forall i, j :: 0 <= i < j < |bs| ==> bs[i].UpperAddress() >= bs[j].UpperAddress()
  }

  /** The density is reached at this address and nowhere exceeded. */
  ghost predicate MostActive(bs: seq<Branch>, density: nat, x: int) {
    |Active(bs, x)| == density && forall y :: |Active(bs, y)| <= density
  }

  /**
   * If no branch lies inside another the density is the maximum number of active branches, as its
   * documentation says: at the upper end of the branch in the last lane, every lane is in use.
   */
  lemma DensityIsMaximum(bs: seq<Branch>, lanes: seq<nat>, density: nat)
    requires Descending(bs) && Unnested(bs) && |lanes| == |bs| && |bs| > 0
    requires forall i :: 0 <= i < |bs| ==> lanes[i] < density
    requires forall i, j :: 0 <= i < j < |bs| && Intersect(bs[i], bs[j]) ==> lanes[i] != lanes[j]
    requires exists i :: 0 <= i < |bs| && lanes[i] + 1 == density
    requires forall i, l :: 0 <= i < |bs| && 0 <= l < lanes[i] ==> LaneBefore(bs, lanes, i, l)
    ensures exists x :: MostActive(bs, density, x)
  {
    var i :| 0 <= i < |bs| && lanes[i] + 1 == density;
    var x := bs[i].UpperAddress();
    var act := Active(bs, x);
    forall l: nat | l < density ensures InUse(act, lanes, l) {
      if l == lanes[i] {
        assert i in act;
      } else {
        assert LaneBefore(bs, lanes, i, l);
        var j :| 0 <= j < i && lanes[j] == l && Intersect(bs[i], bs[j]);
        assert j in act;
      }
    }
    Covers(act, lanes, density);
    forall y ensures |Active(bs, y)| <= density {
      DensityBounds(bs, lanes, density, y);
    }
    assert MostActive(bs, density, x);
  }

  /** It is not always the maximum of active branches: here no address has three, but three lanes are needed. */
  lemma DensityNotMaximum(lanes: seq<nat>, density: nat)
    requires var bs := [Branch(150, 160), Branch(30, 200), Branch(10, 20), Branch(0, 100)];
      |lanes| == |bs| && (forall i :: 0 <= i < |bs| ==> lanes[i] < density) &&
      (forall i, j :: 0 <= i < j < |bs| && Intersect(bs[i], bs[j]) ==> lanes[i] != lanes[j]) &&
      (forall i, l :: 0 <= i < |bs| && 0 <= l < lanes[i] ==> LaneBefore(bs, lanes, i, l))
    ensures density >= 3
    ensures forall x :: |Active([Branch(150, 160), Branch(30, 200), Branch(10, 20), Branch(0, 100)], x)| <= 2
  {
    var bs := [Branch(150, 160), Branch(30, 200), Branch(10, 20), Branch(0, 100)];
    Meet(bs[0], bs[1], 155);
    Meet(bs[1], bs[3], 50);
    Meet(bs[2], bs[3], 15);
    assert lanes[0] > 0 ==> LaneBefore(bs, lanes, 0, 0);
    assert lanes[1] > 1 ==> LaneBefore(bs, lanes, 1, 1);
    assert lanes[2] > 0 ==> LaneBefore(bs, lanes, 2, 0);
    assert lanes[0] == 0 && lanes[1] == 1;
    assert !Intersect(bs[2], bs[0]) && !Intersect(bs[2], bs[1]);
    assert lanes[2] == 0;
    assert lanes[3] >= 2;
    forall x ensures |Active(bs, x)| <= 2 {
      assert Active(bs, x) <= {0, 1} || Active(bs, x) <= {1, 3} || Active(bs, x) <= {2, 3};
      Small(Active(bs, x), {0, 1});
      Small(Active(bs, x), {1, 3});
      Small(Active(bs, x), {2, 3});
    }
  }

  lemma Small(a: set<int>, b: set<int>)
    ensures a <= b ==> |a| <= |b|
  {
    if a <= b {
      assert b == a + (b - a);
    }
  }
}
