/**
 * Normalising preserves meaning. The rewritten program creates fewer function objects, so
 * the two runs agree up to a renaming of them.
 */
module NormalForm {
  import opened Values
  import opened Normalising
  import R = Source
  import X = Syntax
  import M = Semantics

  /**
   * How the heap of a rewritten run mirrors the original's: `renamed[i]` is the original of
   * function object i; `arguments` and `lengths` record what never changes, which array
   * each activation was called with and how long each array is.
   */
  datatype World = World(renamed: seq<nat>, arguments: seq<Option<nat>>, lengths: seq<nat>)

  predicate Ext(w: World, u: World) {
    w.renamed <= u.renamed && w.arguments <= u.arguments && w.lengths <= u.lengths
  }

  predicate ValR(w: World, a: Value, b: Value) {
    match b
    case Fun(i) => a.Fun? && i < |w.renamed| && w.renamed[i] == a.id
    case Arr(i) => a == b && i < |w.lengths|
    case _ => a == b
  }

  predicate ValsR(w: World, a: seq<Value>, b: seq<Value>) {
    |a| == |b| && forall i :: 0 <= i < |a| ==> ValR(w, a[i], b[i])
  }

  predicate ActR(w: World, a: R.Act, b: M.Act) {
    && a.env == b.env && ValsR(w, a.locals, b.locals)
    && (a.arguments.Some? ==>
          |b.locals| > 0 && b.locals[0] == Arr(a.arguments.value) && a.arguments.value < |w.lengths|)
  }

  predicate ActsR(w: World, a: seq<R.Act>, b: seq<M.Act>) {
    && |a| == |b| == |w.arguments|
    && forall i :: 0 <= i < |a| ==> ActR(w, a[i], b[i]) && a[i].arguments == w.arguments[i]
  }

  /** The same function, up to its name. */
  predicate Alike(f: X.Func, g: X.Func) {
    f == g.(name := f.name)
  }

  predicate CloR(a: R.Closure, b: M.Closure) {
    Alike(b.f, NormF(a.f)) && b.env == a.env && SoundF(a.f)
  }

  predicate Increasing(s: seq<nat>) {
    forall i, j :: 0 <= i < j < |s| ==> s[i] < s[j]
  }

  predicate ClosR(w: World, a: seq<R.Closure>, b: seq<M.Closure>) {
    && |b| == |w.renamed| && Increasing(w.renamed)
    && forall i :: 0 <= i < |b| ==> w.renamed[i] < |a| && CloR(a[w.renamed[i]], b[i])
  }

  predicate ArrsR(w: World, a: seq<seq<Value>>, b: seq<seq<Value>>) {
    && |a| == |b| == |w.lengths|
    && forall i :: 0 <= i < |a| ==> |a[i]| == w.lengths[i] && ValsR(w, a[i], b[i])
  }

  predicate StR(w: World, a: R.State, b: M.State) {
    ActsR(w, a.acts, b.acts) && ClosR(w, a.clos, b.clos) && ArrsR(w, a.arrs, b.arrs)
  }

  predicate ResR(w: World, a: R.Res, b: M.Res) {
    match a
    case Val(v, s) => b.Val? && ValR(w, v, b.v) && StR(w, s, b.st)
    case Next(s) => b.Next? && StR(w, s, b.st)
    case Break(s) => b.Break? && StR(w, s, b.st)
    case Continue(s) => b.Continue? && StR(w, s, b.st)
    case Return(v, s) => b.Return? && ValR(w, v, b.v) && StR(w, s, b.st)
    case Throw(v, s) => b.Throw? && ValR(w, v, b.v) && StR(w, s, b.st)
    case Timeout => b.Timeout?
    case Stuck => false
  }

  // ----- the relation and the primitive operations -----

  lemma ExtTrans(a: World, b: World, c: World)
    requires Ext(a, b) && Ext(b, c)
    ensures Ext(a, c)
  {
  }

  lemma ValMono(w: World, u: World, a: Value, b: Value)
    requires Ext(w, u) && ValR(w, a, b)
    ensures ValR(u, a, b)
  {
  }

  lemma ValsMono(w: World, u: World, a: seq<Value>, b: seq<Value>)
    requires Ext(w, u) && ValsR(w, a, b)
    ensures ValsR(u, a, b)
  {
    hide ValR;
    forall i | 0 <= i < |a| ensures ValR(u, a[i], b[i]) {
      ValMono(w, u, a[i], b[i]);
    }
  }

  lemma {:induction false} AncestorR(w: World, a: seq<R.Act>, b: seq<M.Act>, frame: nat, level: nat)
    requires ActsR(w, a, b)
    ensures R.Ancestor(a, frame, level) == M.Ancestor(b, frame, level)
    decreases level
  {
    hide ValsR;
    if frame < |a| && level > 0 && a[frame].env.Some? {
      AncestorR(w, a, b, a[frame].env.value, level - 1);
    }
  }

  lemma ReadR(w: World, s: R.State, t: M.State, cur: nat, loc: X.Loc)
    requires StR(w, s, t) && R.Read(s, cur, loc).Some?
    ensures M.Read(t, cur, loc).Some? && ValR(w, R.Read(s, cur, loc).value, M.Read(t, cur, loc).value)
  {
    hide ClosR, ArrsR, ValR;
    AncestorR(w, s.acts, t.acts, cur, loc.level);
  }

  lemma WriteR(w: World, s: R.State, t: M.State, cur: nat, loc: X.Loc, v: Value, v': Value)
    requires StR(w, s, t) && ValR(w, v, v') && R.Write(s, cur, loc, v).Some?
    ensures M.Write(t, cur, loc, v').Some?
    ensures StR(w, R.Write(s, cur, loc, v).value, M.Write(t, cur, loc, v').value)
  {
    hide ClosR, ArrsR, ValR;
    AncestorR(w, s.acts, t.acts, cur, loc.level);
  }

  lemma SameEquality(w: World, a: Value, b: Value, a': Value, b': Value)
    requires Increasing(w.renamed) && ValR(w, a, a') && ValR(w, b, b')
    ensures a == b <==> a' == b'
  {
    if a'.Fun? && b'.Fun? && a'.id != b'.id {
      var lo, hi := if a'.id < b'.id then a'.id else b'.id, if a'.id < b'.id then b'.id else a'.id;
      assert w.renamed[lo] < w.renamed[hi];
    }
  }

  lemma BinaryR(w: World, op: BinOp, a: Value, b: Value, a': Value, b': Value)
    requires Increasing(w.renamed) && ValR(w, a, a') && ValR(w, b, b') && Binary(op, a, b).Some?
    ensures Binary(op, a', b').Some? && ValR(w, Binary(op, a, b).value, Binary(op, a', b').value)
    ensures Comparable(a, b) == Comparable(a', b')
  {
    hide Multiply, Concat;
    SameEquality(w, a, b, a', b');
    if op.Add? && a.Str? && b.Str? {
      assert Concat(a.s, b.s).value.Str? || Concat(a.s, b.s).value.Null? by { ConcatShape(a.s, b.s); }
    }
    if op.Mul? {
      if a.Str? && b.Num? { MultiplyShape(a.s, Truncate(b.n)); }
      if a.Num? && b.Str? { MultiplyShape(b.s, Truncate(a.n)); }
    }
  }

  lemma ConcatShape(l: string, r: string)
    requires Concat(l, r).Some?
    ensures Concat(l, r).value.Str? || Concat(l, r).value.Null?
  {
  }

  lemma MultiplyShape(s: string, n: int)
    requires Multiply(s, n).Some?
    ensures Multiply(s, n).value.Str? || Multiply(s, n).value.Null?
  {
  }

  lemma UnaryR(w: World, op: UnOp, a: Value, a': Value)
    requires ValR(w, a, a')
    ensures ValR(w, Unary(op, a), Unary(op, a')) && Truthy(a) == Truthy(a') && TypeName(a) == TypeName(a')
  {
  }

  // ----- growing the world -----

  /** A function object that the rewritten run creates too. */
  function WithFun(w: World, id: nat): World {
    w.(renamed := w.renamed + [id])
  }

  lemma FunR(w: World, s: R.State, t: M.State, f: R.Func, g: X.Func, cur: nat) returns (u: World)
    requires StR(w, s, t) && SoundF(f) && Alike(g, NormF(f))
    ensures u == WithFun(w, |s.clos|) && Ext(w, u) && |t.clos| < |u.renamed|
    ensures ValR(u, Fun(|s.clos|), Fun(|t.clos|))
    ensures StR(u, s.(clos := s.clos + [R.Closure(f, cur)]), t.(clos := t.clos + [M.Closure(g, cur)]))
  {
    hide NormF, SoundF, Alike;
    u := WithFun(w, |s.clos|);
    StMono(w, u, s, t);
    var a, b := s.clos + [R.Closure(f, cur)], t.clos + [M.Closure(g, cur)];
    forall i | 0 <= i < |b| ensures u.renamed[i] < |a| && CloR(a[u.renamed[i]], b[i]) {
      if i < |t.clos| {
        assert a[u.renamed[i]] == s.clos[w.renamed[i]];
      }
    }
  }

  /** Activations and arrays only ever mention the world through values. */
  lemma StMono(w: World, u: World, s: R.State, t: M.State)
    requires StR(w, s, t) && Ext(w, u) && u.arguments == w.arguments && u.lengths == w.lengths
    ensures ActsR(u, s.acts, t.acts) && ArrsR(u, s.arrs, t.arrs)
  {
    hide ValsR, ClosR;
    forall i | 0 <= i < |s.acts| ensures ActR(u, s.acts[i], t.acts[i]) {
      ValsMono(w, u, s.acts[i].locals, t.acts[i].locals);
    }
    forall i | 0 <= i < |s.arrs| ensures ValsR(u, s.arrs[i], t.arrs[i]) {
      ValsMono(w, u, s.arrs[i], t.arrs[i]);
    }
  }

  /** A function object that only the original run creates, and drops. */
  lemma DroppedFunR(w: World, s: R.State, t: M.State, c: R.Closure)
    requires StR(w, s, t)
    ensures StR(w, s.(clos := s.clos + [c]), t)
  {
    hide CloR, ActsR, ArrsR;
  }

  function Entered(w: World, f: R.Func, given: nat): World {
    if f.needsArguments then
      World(w.renamed, w.arguments + [Some(|w.lengths|)], w.lengths + [given])
    else w.(arguments := w.arguments + [None])
  }

  lemma EntryLocalsR(w: World, f: R.Func, args: seq<Value>, args': seq<Value>, arr: nat)
    requires SoundF(f) && ValsR(w, args, args')
    requires f.needsArguments ==> arr < |w.lengths| && f.lvarcount > 0
    ensures ValsR(w, R.EntryLocals(f, args, arr), M.EntryLocals(NormF(f), args', arr))
    ensures f.needsArguments ==> M.EntryLocals(NormF(f), args', arr)[0] == Arr(arr)
  {
    var a, b := R.EntryLocals(f, args, arr), M.EntryLocals(NormF(f), args', arr);
    assert NormF(f).lvarcount == f.lvarcount;
    hide NormF, ValR, MarksF, SoundF;
    if f.needsArguments {
      EntryLocalR(w, f, args, args', arr, 0);
    }
    forall j | 0 <= j < |a| ensures ValR(w, a[j], b[j]) {
      EntryLocalR(w, f, args, args', arr, j);
    }
  }

  lemma EntryLocalR(w: World, f: R.Func, args: seq<Value>, args': seq<Value>, arr: nat, j: nat)
    requires SoundF(f) && ValsR(w, args, args') && j < f.lvarcount
    requires f.needsArguments ==> arr < |w.lengths|
    ensures ValR(w, R.EntryLocals(f, args, arr)[j], M.EntryLocals(NormF(f), args', arr)[j])
    ensures f.needsArguments && j == 0 ==> M.EntryLocals(NormF(f), args', arr)[j] == Arr(arr)
  {
    hide MarksF, SoundArgs, SoundB, NormB, Prologue;
  }

  lemma EnterR(w: World, s: R.State, t: M.State, c: R.Closure, d: M.Closure, args: seq<Value>, args': seq<Value>)
    requires StR(w, s, t) && CloR(c, d) && ValsR(w, args, args')
    requires c.f.needsArguments ==> c.f.lvarcount > 0
    ensures Ext(w, Entered(w, c.f, |args|))
    ensures StR(Entered(w, c.f, |args|), R.Enter(s, c, args), M.Enter(t, d, args'))
  {
    var u := Entered(w, c.f, |args|);
    var arr := |s.arrs|;
    assert d.f.needsArguments == c.f.needsArguments by { hide MarksF; }
    assert M.EntryLocals(d.f, args', arr) == M.EntryLocals(NormF(c.f), args', arr) by { hide NormF; }
    hide NormF, MarksF, SoundArgs, SoundB, ValR, R.EntryLocals, M.EntryLocals;
    ValsMono(w, u, args, args');
    EntryLocalsR(u, c.f, args, args', arr);
    forall i | 0 <= i < |s.acts| ensures ActR(u, s.acts[i], t.acts[i]) {
      ValsMono(w, u, s.acts[i].locals, t.acts[i].locals);
    }
    forall i | 0 <= i < |s.arrs| ensures ValsR(u, s.arrs[i], t.arrs[i]) {
      ValsMono(w, u, s.arrs[i], t.arrs[i]);
    }
  }
}
