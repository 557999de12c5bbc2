/**
 * The assembler: a byte buffer, labels, and references to labels that are patched once
 * their label is placed.
 */
module Assembling {
  import opened Values
  import opened Syntax
  import opened Bytecode
  import opened Layout

  type Label = nat

  /** A label operand at `target` that still has to be written, relative to `base`. */
  datatype Ref = Ref(id: Label, target: nat, base: nat)

  /** Instructions with a label operand. */
  datatype Jump = ToBranch(kind: BranchKind) | ToHandler | ToFunction(f: Func)

  /**
   * An assembler's state. `functions` and `starts` record what function each label was
   * referred to as, and where instructions begin.
   */
  datatype Asm = Asm(buffer: seq<Cell>, labels: map<Label, nat>, pending: seq<Ref>, next: Label,
                     functions: map<Label, Func>, starts: seq<nat>)

  function JumpIns(j: Jump, offset: int): Ins {
    match j
    case ToBranch(k) => BranchOp(k, offset)
    case ToHandler => RegisterCatchTable(offset)
    case ToFunction(f) => FunctionIns(f, offset)
  }

  /** Where the label operand is, seen from the start of the instruction. */
  function Hole(j: Jump): nat {
    if j.ToFunction? then 9 else 1
  }

  // ----- what each operation does to the state -----

  function Written(a: Asm, i: Ins): Asm {
    a.(buffer := a.buffer + Encode(i), starts := a.starts + [|a.buffer|])
  }

  function Reserved(a: Asm): Asm {
    a.(next := a.next + 1)
  }

  function Placed(a: Asm, l: Label): Asm {
    a.(labels := a.labels[l := |a.buffer|])
  }

  /** The offset written when the label is already placed; functions count from their operand. */
  function Backward(a: Asm, j: Jump, l: Label): int
    requires l in a.labels
  {
    a.labels[l] - (|a.buffer| + Hole(j)) + 1
  }

  function Referred(a: Asm, j: Jump, l: Label): Asm {
    var b := Written(a, JumpIns(j, if l in a.labels then Backward(a, j, l) else 0));
    b.(pending := if l in a.labels then a.pending else a.pending + [Ref(l, |a.buffer| + Hole(j), |a.buffer|)],
       functions := if j.ToFunction? then a.functions[l := j.f] else a.functions)
  }

  predicate Pending(a: Asm, i: int) {
    exists j :: 0 <= j < |a.pending| && a.pending[j].target <= i < a.pending[j].target + 4
  }

  // ----- invariants -----

  /** The addresses visited by walking the buffer with the length table, if it ends at the end. */
  function Walk(code: seq<Cell>, p: nat): Option<seq<nat>>
    decreases |code| - p
  {
    if p == |code| then Some([])
    else if p > |code| || !code[p].Raw? then None
    else
      match Walk(code, p + InstructionLength(code[p].b))
      case None => None
      case Some(rest) => Some([p] + rest)
  }

  predicate IsStart(a: Asm, x: int) {
    x == |a.buffer| || x in a.starts
  }

  /** Walking visits exactly the written instructions, and labels and references sit on them. */
  ghost predicate Aligned(a: Asm) {
    Walk(a.buffer, 0) == Some(a.starts) && (forall x :: x in a.starts ==> 0 <= x < |a.buffer|) &&
    (forall l :: l in a.labels ==> IsStart(a, a.labels[l])) &&
    (forall u :: u in a.pending ==> u.base in a.starts) &&
    (forall x :: x in a.starts ==> !Pending(a, x))
  }

  ghost predicate WF(a: Asm) {
    (forall l :: l in a.labels ==> l < a.next && a.labels[l] <= |a.buffer|) &&
    (forall l :: l in a.functions ==> l < a.next) &&
    (forall u :: u in a.pending ==> u.id < a.next && u.base < u.target && u.target + 4 <= |a.buffer|) &&
    (forall i, j :: 0 <= i < j < |a.pending| ==> a.pending[i].target + 4 <= a.pending[j].target) &&
    Aligned(a)
  }

  /** `b` is `a` after more has been written, reserved and placed. */
  ghost predicate Grows(a: Asm, b: Asm) {
    a.buffer <= b.buffer && a.pending <= b.pending && a.next <= b.next &&
    (forall l :: l in a.labels ==> l in b.labels && b.labels[l] == a.labels[l]) &&
    (forall l :: l in a.functions ==> l in b.functions && b.functions[l] == a.functions[l]) &&
    (forall j :: |a.pending| <= j < |b.pending| ==> b.pending[j].target >= |a.buffer|)
  }

  /**
   * The program `c` with final label addresses `L` is a completion of the state `a`: all
   * written bytes, all patched operands, all placed labels and all functions agree.
   */
  ghost predicate Completes(c: Program, L: map<Label, nat>, a: Asm) {
    |a.buffer| <= |c.code| < INT32_LIMIT &&
    (forall i :: 0 <= i < |a.buffer| && !Pending(a, i) ==> c.code[i] == a.buffer[i]) &&
    (forall l :: l in a.labels ==> l in L && L[l] == a.labels[l]) &&
    (forall l :: l in L ==> L[l] <= |c.code|) &&
    (forall u :: u in a.pending ==> u.id in L && Has(c.code, u.target, U32(L[u.id] - u.base))) &&
    (forall l :: l in a.functions ==> l in L && L[l] in c.funs && c.funs[L[l]] == a.functions[l])
  }

  /** A completion of a later state completes every earlier one. */
  lemma CompletesBefore(c: Program, L: map<Label, nat>, a: Asm, b: Asm)
    requires Grows(a, b) && Completes(c, L, b)
    ensures Completes(c, L, a)
  {
    forall i | 0 <= i < |a.buffer| && !Pending(a, i) ensures c.code[i] == a.buffer[i] {
      forall j | 0 <= j < |b.pending| ensures !(b.pending[j].target <= i < b.pending[j].target + 4) {
        assert j < |a.pending| ==> a.pending[j] == b.pending[j];
      }
      assert a.buffer[i] == b.buffer[i];
    }
    forall u | u in a.pending ensures u in b.pending {
      var j :| 0 <= j < |a.pending| && a.pending[j] == u;
      assert b.pending[j] == u;
    }
  }

  // ----- walking -----

  lemma {:induction false} WalkAppend(code: seq<Cell>, i: Ins, p: nat)
    requires p <= |code| && Walk(code, p).Some?
    ensures Walk(code + Encode(i), p) == Some(Walk(code, p).value + [|code|])
    decreases |code| - p
  {
    hide Operands, InstructionLength;
    var code' := code + Encode(i);
    EncodeLength(i);
    LongEnough(Opcode(i));
    if p == |code| {
      assert code'[p] == Raw(Opcode(i));
      assert p + Len(i) == |code'|;
      assert Walk(code', p) == Some([p] + []);
      assert [p] + [] == [] + [|code|];
    } else {
      assert code'[p] == code[p];
      WalkInside(code, p + InstructionLength(code[p].b));
      var q := p + InstructionLength(code[p].b);
      WalkAppend(code, i, q);
      assert [p] + (Walk(code, q).value + [|code|]) == ([p] + Walk(code, q).value) + [|code|];
    }
  }

  lemma LongEnough(op: Byte)
    ensures InstructionLength(op) >= 1
  {
  }

  lemma WalkInside(code: seq<Cell>, p: nat)
    requires Walk(code, p).Some?
    ensures p <= |code|
  {
  }

  /** Changing bytes that are not the first of an instruction does not change the walk. */
  lemma {:induction false} WalkSame(a: seq<Cell>, b: seq<Cell>, p: nat)
    requires |a| == |b| && Walk(a, p).Some?
    requires forall x :: x in Walk(a, p).value && 0 <= x < |a| ==> b[x] == a[x]
    ensures Walk(b, p) == Walk(a, p)
    decreases |a| - p
  {
    if p < |a| {
      var q := p + InstructionLength(a[p].b);
      assert Walk(a, p).value == [p] + Walk(a, q).value;
      assert p in Walk(a, p).value;
      forall x | x in Walk(a, q).value && 0 <= x < |a| ensures b[x] == a[x] {
        assert x in Walk(a, p).value;
      }
      WalkSame(a, b, q);
    }
  }

  // ----- the operations keep the invariants -----

  lemma WrittenKeeps(a: Asm, i: Ins)
    requires WF(a)
    ensures WF(Written(a, i)) && Grows(a, Written(a, i))
  {
    hide Encode, Walk;
    var b := Written(a, i);
    EncodeLength(i);
    assert Walk(b.buffer, 0) == Some(b.starts) by {
      WalkAppend(a.buffer, i, 0);
    }
    assert |b.buffer| > |a.buffer|;
    forall l | l in b.labels ensures IsStart(b, b.labels[l]) {
      assert IsStart(a, a.labels[l]);
    }
    forall x | x in b.starts ensures !Pending(b, x) {
      if x in a.starts {
        assert !Pending(a, x);
      }
    }
  }

  lemma ReservedKeeps(a: Asm)
    requires WF(a)
    ensures WF(Reserved(a)) && Grows(a, Reserved(a))
  {
    var b := Reserved(a);
    assert Aligned(b) by {
      forall l | l in b.labels ensures IsStart(b, b.labels[l]) {
        assert IsStart(a, a.labels[l]);
      }
      forall x | x in b.starts ensures !Pending(b, x) {
        assert !Pending(a, x);
      }
    }
  }

  lemma PlacedKeeps(a: Asm, l: Label)
    requires WF(a) && l < a.next && l !in a.labels
    ensures WF(Placed(a, l)) && Grows(a, Placed(a, l))
  {
    var b := Placed(a, l);
    assert Aligned(b) by {
      forall k | k in b.labels ensures IsStart(b, b.labels[k]) {
        assert k != l ==> IsStart(a, a.labels[k]);
      }
      forall x | x in b.starts ensures !Pending(b, x) {
        assert !Pending(a, x);
      }
    }
  }

  lemma ReferredKeeps(a: Asm, j: Jump, l: Label)
    requires WF(a) && l < a.next && (j.ToFunction? ==> l !in a.functions)
    ensures WF(Referred(a, j, l)) && Grows(a, Referred(a, j, l))
  {
    hide Encode, Walk, InstructionLength, Backward, WF;
    var x := if l in a.labels then Backward(a, j, l) else 0;
    var w, p := Written(a, JumpIns(j, x)), |a.buffer|;
    assert WF(w) && Grows(a, w) by {
      WrittenKeeps(a, JumpIns(j, x));
    }
    assert |w.buffer| == p + if j.ToFunction? then 27 else 5 by {
      EncodeLength(JumpIns(j, x));
      JumpLength(j, x);
    }
    var w' := if j.ToFunction? then w.(functions := w.functions[l := j.f]) else w;
    assert WF(w') by {
      FunctionKeeps(w, l, w'.functions);
    }
    if l !in a.labels {
      assert forall y :: y in w.starts ==> y <= p by { StartsInside(a); }
      assert forall u :: u in a.pending ==> u.target + 4 <= p by { StartsInside(a); }
      PendingKeeps(w', Ref(l, p + Hole(j), p), p);
    }
  }

  lemma StartsInside(a: Asm)
    requires WF(a)
    ensures forall y :: y in a.starts ==> y < |a.buffer|
    ensures forall u :: u in a.pending ==> u.target + 4 <= |a.buffer|
  {
    hide Walk;
  }

  lemma FunctionKeeps(a: Asm, l: Label, fs: map<Label, Func>)
    requires WF(a) && l < a.next && fs.Keys <= a.functions.Keys + {l}
    ensures WF(a.(functions := fs))
  {
    hide Walk;
    var b := a.(functions := fs);
    assert Aligned(b) by {
      forall k | k in b.labels ensures IsStart(b, b.labels[k]) {
        assert IsStart(a, a.labels[k]);
      }
      forall x | x in b.starts ensures !Pending(b, x) {
        assert !Pending(a, x);
      }
    }
  }

  lemma PendingKeeps(a: Asm, u: Ref, p: nat)
    requires WF(a) && p in a.starts && (forall y :: y in a.starts ==> y <= p) && u.id < a.next
    requires u.base == p && p < u.target && u.target + 4 <= |a.buffer| && forall v :: v in a.pending ==>
        v.target + 4 <= p
    ensures WF(a.(pending := a.pending + [u]))
  {
    hide Walk;
    var b := a.(pending := a.pending + [u]);
    assert Aligned(b) by {
      forall k | k in b.labels ensures IsStart(b, b.labels[k]) {
        assert IsStart(a, a.labels[k]);
      }
      forall x | x in b.starts ensures !Pending(b, x) {
        assert !Pending(a, x);
        forall j | 0 <= j < |b.pending| ensures !(b.pending[j].target <= x < b.pending[j].target + 4) {
          assert j < |a.pending| ==> b.pending[j] == a.pending[j];
        }
      }
    }
  }

  lemma JumpLength(j: Jump, x: int)
    ensures Len(JumpIns(j, x)) == if j.ToFunction? then 27 else 5
  {
  }

  // ----- what a completion holds where an instruction was written -----

  lemma WrittenFetch(c: Program, L: map<Label, nat>, a: Asm, i: Ins)
    requires WF(a) && Fits(i) && Completes(c, L, Written(a, i))
    ensures Fetch(c.code, |a.buffer|) == Some(i)
  {
    hide Fetch, Encode, Fits, Walk, Aligned;
    var b := Written(a, i);
    var p := |a.buffer|;
    forall k | 0 <= k < |Encode(i)| ensures c.code[p + k] == Encode(i)[k] {
      assert !Pending(b, p + k);
      assert b.buffer[p + k] == Encode(i)[k];
    }
    assert c.code[p..p + |Encode(i)|] == Encode(i);
    FetchEncode(c.code, p, i);
  }

  lemma FourBytes(x: int)
    ensures |U32(x)| == 4
  {
  }

  lemma EightBytes(w: Word)
    ensures |Bytes8(w)| == 8
  {
  }

  /** The encodings of a jump with two different offsets differ in the operand only. */
  lemma JumpEncoding(j: Jump, x: int, k: nat)
    requires k < Len(JumpIns(j, x))
    ensures |Encode(JumpIns(j, x))| == Len(JumpIns(j, x)) == Len(JumpIns(j, 0)) == |Encode(JumpIns(j, 0))|
    ensures if Hole(j) <= k < Hole(j) + 4 then Encode(JumpIns(j, x))[k] == U32(x)[k - Hole(j)]
            else Encode(JumpIns(j, x))[k] == Encode(JumpIns(j, 0))[k]
  {
    hide U32, Bytes8;
    FourBytes(x);
    FourBytes(0);
    match j
    case ToBranch(_) =>
    case ToHandler =>
    case ToFunction(f) =>
      FunctionEncoding(f, x);
      FunctionEncoding(f, 0);
  }

  /** What stands before and behind the offset of a function reference. */
  function FunctionFront(f: Func): seq<Cell> {
    [Raw(Opcode(FunctionIns(f, 0)))] + Bytes8(Symbol(f.name))
  }

  function FunctionBack(f: Func): seq<Cell> {
    [Flag(f.anonymous), Flag(f.needsArguments)] + U32(f.params) + U32(f.required) + U32(f.lvarcount)
  }

  lemma FunctionEncoding(f: Func, x: int)
    ensures |FunctionFront(f)| == 9 && |U32(x)| == 4 && |FunctionBack(f)| == 14 && Len(FunctionIns(f, x)) == 27
    ensures Encode(FunctionIns(f, x)) == FunctionFront(f) + U32(x) + FunctionBack(f)
  {
    FourBytes(x);
    FourBytes(f.params);
    FourBytes(f.required);
    FourBytes(f.lvarcount);
    EightBytes(Symbol(f.name));
    hide U32, Bytes8;
  }

  /** A jump to a label leads from its instruction to the label's final address. */
  lemma ReferredFetch(c: Program, L: map<Label, nat>, a: Asm, j: Jump, l: Label)
    requires WF(a) && Completes(c, L, Referred(a, j, l)) && (l in a.labels ==> !j.ToFunction?)
    ensures l in L && Fetch(c.code, |a.buffer|) == Some(JumpIns(j, L[l] - |a.buffer|))
  {
    hide Fetch, Encode, Walk, Aligned;
    var b, p := Referred(a, j, l), |a.buffer|;
    if l in a.labels {
      var i := JumpIns(j, Backward(a, j, l));
      assert Completes(c, L, Written(a, i)) by {
        assert Written(a, i) == b;
      }
      assert a.labels[l] == L[l];
      WrittenFetch(c, L, a, i);
    } else {
      var u := Ref(l, p + Hole(j), p);
      assert u in b.pending by {
        assert b.pending[|a.pending|] == u;
      }
      var x := L[l] - p;
      HoleFilled(c, L, a, j, l, x);
      FetchEncode(c.code, p, JumpIns(j, x));
    }
  }

  lemma HoleFilled(c: Program, L: map<Label, nat>, a: Asm, j: Jump, l: Label, x: int)
    requires WF(a) && l !in a.labels && Completes(c, L, Referred(a, j, l))
    requires l in L && x == L[l] - |a.buffer| && Has(c.code, |a.buffer| + Hole(j), U32(x))
    ensures Has(c.code, |a.buffer|, Encode(JumpIns(j, x)))
  {
    hide Fetch, Encode, Walk, Aligned, InstructionLength, U32, Completes, WF, Referred;
    var p, e := |a.buffer|, Encode(JumpIns(j, x));
    EncodeLength(JumpIns(j, x));
    EncodeLength(JumpIns(j, 0));
    JumpLength(j, 0);
    JumpLength(j, x);
    forall k | 0 <= k < |e| ensures p + k < |c.code| && c.code[p + k] == e[k] {
      JumpEncoding(j, x, k);
      if Hole(j) <= k < Hole(j) + 4 {
        FourBytes(x);
        HasAt(c.code, p + Hole(j), U32(x), k - Hole(j));
      } else {
        OutsideHole(c, L, a, j, l, k);
      }
    }
    var last := e[|e| - 1];
    assert c.code[p..p + |e|] == e;
  }

  /** Around the operand a completion keeps the bytes of the instruction as it was written. */
  lemma OutsideHole(c: Program, L: map<Label, nat>, a: Asm, j: Jump, l: Label, k: nat)
    requires WF(a) && l !in a.labels && Completes(c, L, Referred(a, j, l))
    requires k < |Encode(JumpIns(j, 0))| && !(Hole(j) <= k < Hole(j) + 4)
    ensures |a.buffer| + k < |c.code| && c.code[|a.buffer| + k] == Encode(JumpIns(j, 0))[k]
  {
    hide Fetch, Encode, Walk, Aligned, InstructionLength, U32;
    var b, p := Referred(a, j, l), |a.buffer|;
    forall r | 0 <= r < |b.pending| ensures !(b.pending[r].target <= p + k < b.pending[r].target + 4) {
      assert r < |a.pending| ==> b.pending[r] == a.pending[r] && a.pending[r] in a.pending;
    }
    assert b.buffer[p + k] == Encode(JumpIns(j, 0))[k];
  }

  /**
   * Referring to a function label that is already placed would count from the operand:
   * the function would start eight bytes before its label.
   */
  lemma PlacedFunctionLabelMisses(a: Asm, f: Func, l: Label)
    requires l in a.labels
    ensures |a.buffer| + Backward(a, ToFunction(f), l) == (a.labels[l] as int) - 8
    ensures forall k :: |a.buffer| + Backward(a, ToBranch(k), l) == a.labels[l]
  {
  }

  // ----- resolving -----

  /** References whose label is not placed stay unresolved. */
  function Unplaced(us: seq<Ref>, labels: map<Label, nat>): seq<Ref> {
    if |us| == 0 then []
    else Unplaced(us[..|us| - 1], labels) + if us[|us| - 1].id in labels then [] else [us[|us| - 1]]
  }

  lemma {:induction false} UnplacedEmpty(us: seq<Ref>, labels: map<Label, nat>)
    ensures Unplaced(us, labels) == [] <==> forall u :: u in us ==> u.id in labels
  {
    if |us| > 0 {
      var last := us[|us| - 1];
      UnplacedEmpty(us[..|us| - 1], labels);
      assert us == us[..|us| - 1] + [last];
    }
  }

  /** The bytes after the first `n` references have been resolved where possible. */
  ghost predicate Patched(code: seq<Cell>, a: Asm, n: nat)
    requires n <= |a.pending|
  {
    |code| == |a.buffer| &&
    (forall i :: 0 <= i < |code| && !Pending(a, i) ==> code[i] == a.buffer[i]) &&
    (forall r :: 0 <= r < n && a.pending[r].id in a.labels ==>
       Has(code, a.pending[r].target, U32(a.labels[a.pending[r].id] - a.pending[r].base)))
  }

  function Patch(code: seq<Cell>, p: nat, bs: seq<Cell>): seq<Cell>
    requires p + |bs| <= |code|
  {
    code[..p] + bs + code[p + |bs|..]
  }

  lemma PatchOne(code: seq<Cell>, a: Asm, n: nat)
    requires WF(a) && n < |a.pending| && Patched(code, a, n) && a.pending[n].id in a.labels
    ensures a.pending[n].target + 4 <= |code|
    ensures Patched(Patch(code, a.pending[n].target, U32(a.labels[a.pending[n].id] - a.pending[n].base)), a, n + 1)
  {
    hide Walk, Aligned, WF, U32, Digit;
    var u := a.pending[n];
    var bs := U32(a.labels[u.id] - u.base);
    FourBytes(a.labels[u.id] - u.base);
    Apart(a, n);
    hide Patch, Pending, Has;
    var code' := Patch(code, u.target, bs);
    PatchOutside(code, u.target, bs);
    forall i | 0 <= i < |code'| && !Pending(a, i) ensures code'[i] == a.buffer[i] {
      NotPending(a, i, n);
    }
    forall r | 0 <= r < n + 1 && a.pending[r].id in a.labels
      ensures Has(code', a.pending[r].target, U32(a.labels[a.pending[r].id] - a.pending[r].base))
    {
      if r < n {
        PatchKeepsRef(code, a, n, r);
      } else {
        PatchHas(code, u.target, bs);
      }
    }
  }

  /** Patching a reference leaves the ones patched before as they are. */
  lemma PatchKeepsRef(code: seq<Cell>, a: Asm, n: nat, r: nat)
    requires WF(a) && r < n < |a.pending| && Patched(code, a, n)
    requires a.pending[n].id in a.labels && a.pending[r].id in a.labels
    ensures a.pending[n].target + 4 <= |code|
    ensures var bs := U32(a.labels[a.pending[n].id] - a.pending[n].base); var v := a.pending[r];
      Has(Patch(code, a.pending[n].target, bs), v.target, U32(a.labels[v.id] - v.base))
  {
    hide Walk, Aligned, WF, U32, Digit, Patch, Pending, Has;
    var u, v := a.pending[n], a.pending[r];
    FourBytes(a.labels[u.id] - u.base);
    FourBytes(a.labels[v.id] - v.base);
    Apart(a, n);
    PatchKeeps(code, u.target, U32(a.labels[u.id] - u.base), v.target, U32(a.labels[v.id] - v.base));
  }

  lemma PatchOutside(code: seq<Cell>, p: nat, bs: seq<Cell>)
    requires p + |bs| <= |code|
    ensures |Patch(code, p, bs)| == |code|
    ensures forall i :: 0 <= i < |code| && !(p <= i < p + |bs|) ==> Patch(code, p, bs)[i] == code[i]
  {
  }

  lemma PatchHas(code: seq<Cell>, p: nat, bs: seq<Cell>)
    requires p + |bs| <= |code|
    ensures Has(Patch(code, p, bs), p, bs)
  {
    assert Patch(code, p, bs)[p..p + |bs|] == bs;
  }

  lemma PatchKeeps(code: seq<Cell>, p: nat, bs: seq<Cell>, q: nat, xs: seq<Cell>)
    requires p + |bs| <= |code| && q + |xs| <= p && Has(code, q, xs)
    ensures Has(Patch(code, p, bs), q, xs)
  {
    assert Patch(code, p, bs)[q..q + |xs|] == code[q..q + |xs|];
  }

  lemma NotPending(a: Asm, i: nat, n: nat)
    requires !Pending(a, i) && n < |a.pending|
    ensures !(a.pending[n].target <= i < a.pending[n].target + 4)
  {
    assert a.pending[n] in a.pending;
  }

  /** Recorded operands lie in the buffer and do not overlap. */
  lemma Apart(a: Asm, n: nat)
    requires WF(a) && n < |a.pending|
    ensures a.pending[n].target + 4 <= |a.buffer|
    ensures forall r :: 0 <= r < n ==> a.pending[r].target + 4 <= a.pending[n].target
  {
    hide Walk, Aligned;
    assert a.pending[n] in a.pending;
    forall r | 0 <= r < n ensures a.pending[r].target + 4 <= a.pending[n].target {
      assert a.pending[r] in a.pending;
    }
  }

  /** When every reference has been resolved the buffer is a completion of the state before. */
  lemma ResolvedCompletes(code: seq<Cell>, a: Asm, funs: map<int, Func>)
    requires WF(a) && Patched(code, a, |a.pending|) && |code| < INT32_LIMIT
    requires forall u :: u in a.pending ==> u.id in a.labels
    requires forall l :: l in a.functions ==>
      l in a.labels && a.labels[l] in funs && funs[a.labels[l]] == a.functions[l]
    ensures Completes(Program(code, funs), a.labels, a)
  {
    hide Walk, Aligned, U32;
    forall u | u in a.pending ensures Has(code, u.target, U32(a.labels[u.id] - u.base)) {
      var r :| 0 <= r < |a.pending| && a.pending[r] == u;
    }
  }

  /** Patching leaves instruction boundaries alone. */
  lemma ResolvedWalk(code: seq<Cell>, a: Asm)
    requires WF(a) && Patched(code, a, |a.pending|)
    ensures Walk(code, 0) == Some(a.starts)
  {
    hide U32;
    WalkSame(a.buffer, code, 0);
  }

  class Assembler {
    var buffer: seq<Cell>
    var labels: map<Label, nat>
    var unresolved: seq<Ref>
    var nextLabel: Label
    ghost var functions: map<Label, Func>
    ghost var starts: seq<nat>

    ghost function State(): Asm
      reads this
    {
      Asm(buffer, labels, unresolved, nextLabel, functions, starts)
    }

    constructor ()
      ensures State() == Asm([], map[], [], 0, map[], [])
      ensures WF(State())
    {
      buffer, labels, unresolved, nextLabel, functions, starts := [], map[], [], 0, map[], [];
    }

    method ReserveLabel() returns (l: Label)
      requires WF(State())
      modifies this
      ensures l == old(nextLabel) && State() == Reserved(old(State())) && WF(State())
    {
      ReservedKeeps(State());
      l := nextLabel;
      nextLabel := nextLabel + 1;
    }

    method PlaceLabel(l: Label)
      requires WF(State()) && l < nextLabel && l !in labels
      modifies this
      ensures State() == Placed(old(State()), l) && WF(State())
    {
      PlacedKeeps(State(), l);
      labels := labels[l := |buffer|];
    }

    /** Reserves a label and places it here. */
    method PlaceNewLabel() returns (l: Label)
      requires WF(State())
      modifies this
      ensures l == old(nextLabel) && State() == Placed(Reserved(old(State())), l) && WF(State())
    {
      l := ReserveLabel();
      assert l !in labels;
      PlaceLabel(l);
    }

    /** An instruction without a label operand. */
    method Write(i: Ins)
      requires WF(State())
      modifies this
      ensures State() == Written(old(State()), i) && WF(State())
    {
      WrittenKeeps(State(), i);
      starts := starts + [|buffer|];
      buffer := buffer + Encode(i);
    }

    method WriteU8(b: Byte)
      modifies `buffer
      ensures buffer == old(buffer) + [Raw(b)]
    {
      buffer := buffer + [Raw(b)];
    }

    method WriteU32(x: int)
      modifies `buffer
      ensures buffer == old(buffer) + U32(x)
    {
      buffer := buffer + U32(x);
    }

    method WriteU64(w: Word)
      modifies `buffer
      ensures buffer == old(buffer) + Bytes8(w)
    {
      buffer := buffer + Bytes8(w);
    }

    /** The shared shape of the branch writers, one per branch opcode, and the catch table writer. */
    method WriteJumpToLabel(j: Jump, l: Label)
      requires WF(State()) && l < nextLabel && !j.ToFunction?
      modifies this
      ensures State() == Referred(old(State()), j, l) && WF(State())
    {
      hide WF, U32;
      ghost var a := State();
      ReferredKeeps(a, j, l);
      starts := starts + [|buffer|];
      if l in labels {
        WriteU8(Opcode(JumpIns(j, 0)));
        var offset := labels[l] - |buffer| + 1;
        WriteU32(offset);
        assert buffer == a.buffer + Encode(JumpIns(j, offset));
      } else {
        var instructionBase := |buffer|;
        WriteU8(Opcode(JumpIns(j, 0)));
        unresolved := unresolved + [Ref(l, |buffer|, instructionBase)];
        WriteU32(0);
        assert buffer == a.buffer + Encode(JumpIns(j, 0));
      }
    }

    /** The operands behind the offset of a function instruction. */
    method WriteFunctionBack(f: Func)
      modifies `buffer
      ensures buffer == old(buffer) + FunctionBack(f)
    {
      hide U32;
      WriteU8(if f.anonymous then 1 else 0);
      WriteU8(if f.needsArguments then 1 else 0);
      WriteU32(f.params);
      WriteU32(f.required);
      WriteU32(f.lvarcount);
    }

    method WritePutFunctionToLabel(f: Func, l: Label)
      requires WF(State()) && l < nextLabel && l !in functions
      modifies this
      ensures State() == Referred(old(State()), ToFunction(f), l) && WF(State())
    {
      hide WF, U32, Encode, Bytes8, Grows, Referred, Backward, FunctionBack;
      ghost var a := State();
      starts := starts + [|buffer|];
      functions := functions[l := f];
      var offset := 0;
      var instructionBase := |buffer|;
      WriteU8(21);
      WriteU64(Symbol(f.name));
      EightBytes(Symbol(f.name));
      if l in labels {
        offset := labels[l] - |buffer| + 1;
      } else {
        unresolved := unresolved + [Ref(l, |buffer|, instructionBase)];
      }
      WriteU32(offset);
      WriteFunctionBack(f);
      assert buffer == a.buffer + Encode(FunctionIns(f, offset)) by { FunctionBytes(a.buffer, f, offset); }
      assert State() == Referred(a, ToFunction(f), l) by { ReferredFunction(a, f, l); }
      ReferredKeeps(a, ToFunction(f), l);
    }

    /** Writes the offset of every reference whose label is placed and drops it from the list. */
    method ResolveUnresolvedLabelReferences()
      requires WF(State())
      modifies `buffer, `unresolved
      ensures Patched(buffer, old(State()), |old(unresolved)|)
      ensures unresolved == Unplaced(old(unresolved), labels)
    {
      ghost var a := State();
      hide WF, Walk, Aligned, Patched, Patch, Pending, Has, U32, Digit, Unplaced, Sifted;
      ghost var done := 0;
      var i := 0;
      StartPatched(a);
      StartSifted(a.pending, labels);
      while i < |unresolved|
        invariant 0 <= done <= |a.pending| && Sifted(unresolved, a.pending, done, i, labels)
        invariant Patched(buffer, a, done)
        decreases |a.pending| - done
      {
        var u := unresolved[i];
        SkipOrDrop(unresolved, a.pending, done, i, labels);
        if u.id !in labels {
          SkipOne(buffer, a, done);
          i := i + 1;
        } else {
          PatchOne(buffer, a, done);
          var bs := U32(labels[u.id] - u.base);
          assert |bs| == 4 by { FourBytes(labels[u.id] - u.base); }
          buffer := Patch(buffer, u.target, bs);
          unresolved := unresolved[..i] + unresolved[i + 1..];
        }
        done := done + 1;
      }
      AllSifted(unresolved, a.pending, done, i, labels);
    }
  }

  /** The bytes of a function instruction, in the order they are written. */
  lemma FunctionBytes(s: seq<Cell>, f: Func, x: int)
    ensures s + [Raw(21)] + Bytes8(Symbol(f.name)) + U32(x) + FunctionBack(f) == s + Encode(FunctionIns(f, x))
  {
    hide U32, Bytes8, FunctionBack, Encode;
    FunctionEncoding(f, x);
    var w, o, back := Bytes8(Symbol(f.name)), U32(x), FunctionBack(f);
    assert s + ([Raw(21)] + w + o + back) == s + [Raw(21)] + w + o + back;
  }

  /** The state after a function instruction that refers to a label. */
  lemma ReferredFunction(a: Asm, f: Func, l: Label)
    ensures Referred(a, ToFunction(f), l) ==
      Asm(a.buffer + Encode(FunctionIns(f, if l in a.labels then a.labels[l] - (|a.buffer| + 9) + 1 else 0)), a.labels,
          if l in a.labels then a.pending else a.pending + [Ref(l, |a.buffer| + 9, |a.buffer|)], a.next,
          a.functions[l := f], a.starts + [|a.buffer|])
  {
    hide Encode;
  }

  lemma NoneUnplaced(labels: map<Label, nat>)
    ensures Unplaced([], labels) == []
  {
  }

  lemma NextUnplaced(us: seq<Ref>, n: nat, labels: map<Label, nat>)
    requires n < |us|
    ensures Unplaced(us[..n + 1], labels) == Unplaced(us[..n], labels) + if us[n].id in labels then [] else [us[n]]
  {
    assert us[..n + 1][..n] == us[..n];
  }

  /** The first `n` references have been looked at: `i` of them are kept, and the others follow. */
  predicate Sifted(list: seq<Ref>, us: seq<Ref>, n: nat, i: nat, labels: map<Label, nat>) {
    n <= |us| && list == Unplaced(us[..n], labels) + us[n..] && i == |Unplaced(us[..n], labels)|
  }

  lemma StartSifted(us: seq<Ref>, labels: map<Label, nat>)
    ensures Sifted(us, us, 0, 0, labels)
  {
    NoneUnplaced(labels);
    assert us[..0] == [] && us[0..] == us;
  }

  /** While the list goes on there are references left; skipping or erasing the next one looks at it. */
  lemma SkipOrDrop(list: seq<Ref>, us: seq<Ref>, n: nat, i: nat, labels: map<Label, nat>)
    requires Sifted(list, us, n, i, labels) && i < |list|
    ensures n < |us| && list[i] == us[n]
    ensures us[n].id !in labels ==> Sifted(list, us, n + 1, i + 1, labels)
    ensures us[n].id in labels ==> Sifted(list[..i] + list[i + 1..], us, n + 1, i, labels)
  {
    NextUnplaced(us, n, labels);
    var kept := Unplaced(us[..n], labels);
    hide Unplaced;
    assert list[..i] == kept && list[i + 1..] == us[n + 1..];
    assert us[n..] == [us[n]] + us[n + 1..];
  }

  lemma AllSifted(list: seq<Ref>, us: seq<Ref>, n: nat, i: nat, labels: map<Label, nat>)
    requires Sifted(list, us, n, i, labels) && i >= |list|
    ensures n == |us| && list == Unplaced(us, labels)
  {
    assert us[..|us|] == us;
  }

  lemma StartPatched(a: Asm)
    ensures Patched(a.buffer, a, 0)
  {
  }

  lemma SkipOne(code: seq<Cell>, a: Asm, n: nat)
    requires n < |a.pending| && Patched(code, a, n) && a.pending[n].id !in a.labels
    ensures Patched(code, a, n + 1)
  {
  }
}
