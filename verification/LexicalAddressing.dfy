/**
 * Slots at run time: a machine with frames of recycled slots against a machine with one
 * named cell per activation and declaration. Control goes forward, past any code, or back to
 * the beginning of a loop it is in.
 */
module LexicalAddressing {
  import opened Values
  import opened SlotAllocation

  /** A value read from a slot or a cell. */
  type Word = int

  /**
   * An activation of function `fid` in both machines: its environment, where in the walk
   * its control stands, its frame of slots and its cells. `written` records the
   * declarations initialised since control last entered their scope.
   */
  datatype Act = Act(fid: Fid, env: Option<nat>, cursor: nat, slots: seq<Word>, cells: map<nat, Word>,
      written: set<nat>)

  datatype Event =
    | Call(fid: Fid, env: Option<nat>)                 // a new activation
    | Move(act: nat, to: nat)                          // a jump inside the activation's function
    | Init(act: nat, decl: nat, v: Word)               // the initialisation at a declaration
    | Assign(act: nat, use: Resolved, v: Word)         // a write through an address
    | Read(act: nat, use: Resolved)                    // a read through an address

  /**
   * What the walk produced: the table of declarations, the nesting and frame sizes of the
   * functions, their loops, and the declarations that are used from inside their function.
   */
  datatype Static = Static(decls: seq<Decl>, parents: map<Fid, Fid>, sizes: map<Fid, nat>, loops: seq<Span>,
                           shared: set<nat>)

  function StaticOf(w: Walk): Static {
    Static(w.decls, w.parents, map f | f in w.slots :: |w.slots[f]|, w.loops,
           set u | u in w.uses && u.level > 0 :: u.decl)
  }

  /** The moment is inside the loop. */
  predicate InLoop(l: Span, at: nat) {
    l.first <= at < l.last
  }

  /** Control of function `fid` can go forward, or back to the beginning of a loop around it. */
  predicate CanMove(s: Static, fid: Fid, from: nat, to: nat) {
    from <= to || exists k :: 0 <= k < |s.loops| && BackEdge(s.loops[k], fid, from, to)
  }

  predicate BackEdge(l: Span, fid: Fid, from: nat, to: nat) {
    l.fid == fid && InLoop(l, from) && to == l.first
  }

  /** Follows `level` environments up from `a`, as the VM does. */
  function Up(acts: seq<Act>, a: nat, level: nat): Option<nat>
    decreases level
  {
    if a >= |acts| then None
    else if level == 0 then Some(a)
    else if acts[a].env.None? then None
    else Up(acts, acts[a].env.value, level - 1)
  }

  predicate Inside(d: Decl, at: nat) {
    d.birth < at && (d.death.Some? ==> at < d.death.value)
  }

  /** The declarations that stay initialised when control moves to `to`. */
  function StillWritten(s: Static, written: set<nat>, to: nat): set<nat> {
    set d | d in written && d < |s.decls| && Inside(s.decls[d], to)
  }

  /**
   * The variable of activation `b` may be used: from its own function it is initialised in
   * its scope; from inside it has been initialised at some time.
   */
  predicate Usable(s: Static, acts: seq<Act>, a: nat, u: Resolved)
    requires a < |acts|
  {
    u.decl < |s.decls| && u.fid == acts[a].fid && u.slot == s.decls[u.decl].slot &&
    Around(s.parents, u.fid, u.level) == Some(s.decls[u.decl].fid) && (u.level > 0 ==> u.decl in s.shared) &&
    var b := Up(acts, a, u.level);
    b.Some? && b.value < |acts| && u.decl in acts[b.value].cells && (u.level == 0 ==> u.decl in acts[b.value].written)
  }

  /** Environments follow the nesting of functions. */
  predicate EnvOK(s: Static, acts: seq<Act>, fid: Fid, env: Option<nat>) {
    if fid in s.parents then env.Some? && env.value < |acts| && acts[env.value].fid == s.parents[fid] else env.None?
  }

  predicate Enabled(s: Static, acts: seq<Act>, e: Event) {
    match e
    case Call(fid, env) => fid in s.sizes && EnvOK(s, acts, fid, env)
    case Move(a, to) => a < |acts| && CanMove(s, acts[a].fid, acts[a].cursor, to)
    case Init(a, d, _) => a < |acts| && d < |s.decls| && s.decls[d].fid == acts[a].fid && s.decls[d].birth ==
        acts[a].cursor
    case Assign(a, u, _) => a < |acts| && Usable(s, acts, a, u)
    case Read(a, u) => a < |acts| && Usable(s, acts, a, u)
  }

  function Store(act: Act, slot: nat, d: nat, v: Word): Act
    requires slot < |act.slots|
  {
    act.(slots := act.slots[slot := v], cells := act.cells[d := v])
  }

  /** The frame and the cells after an event. */
  function After(s: Static, acts: seq<Act>, e: Event): seq<Act> {
    match e
    case Call(fid, env) =>
      acts + [Act(fid, env, 0, seq(if fid in s.sizes then s.sizes[fid] else 0, _ => 0), map[], {})]
    case Move(a, to) =>
      if a < |acts| then acts[a := acts[a].(cursor := to, written := StillWritten(s, acts[a].written, to))] else acts
    case Init(a, d, v) =>
      if a < |acts| && d < |s.decls| && s.decls[d].slot < |acts[a].slots| then
        acts[a := Store(acts[a], s.decls[d].slot, d, v).(written := acts[a].written + {d})]
      else acts
    case Assign(a, u, v) =>
      (match Up(acts, a, u.level)
       case None => acts
       case Some(b) =>
         if b < |acts| && u.slot < |acts[b].slots| then acts[b := Store(acts[b], u.slot, u.decl, v)] else acts)
    case Read(_, _) => acts
  }

  predicate Steps(s: Static, before: seq<Act>, e: Event, acts: seq<Act>) {
    Enabled(s, before, e) && acts == After(s, before, e)
  }

  function Final(s: Static, es: seq<Event>): seq<Act> {
    if |es| == 0 then [] else After(s, Final(s, es[..|es| - 1]), es[|es| - 1])
  }

  /** The events were all enabled, and lead to `acts`. */
  predicate Runs(s: Static, es: seq<Event>, acts: seq<Act>) {
    if |es| == 0 then acts == []
    else
      var before := Final(s, es[..|es| - 1]);
      Runs(s, es[..|es| - 1], before) && Steps(s, before, es[|es| - 1], acts)
  }

  lemma RunsFinal(s: Static, es: seq<Event>, acts: seq<Act>)
    requires Runs(s, es, acts)
    ensures acts == Final(s, es)
  {
  }

  /** What the slot machine reads, and what the machine with named cells reads. */
  predicate ReadsAgree(acts: seq<Act>, a: nat, u: Resolved) {
    match Up(acts, a, u.level)
    case None => false
    case Some(b) =>
      b < |acts| && u.slot < |acts[b].slots| && u.decl in acts[b].cells && acts[b].slots[u.slot] ==
          acts[b].cells[u.decl]
  }

  /** Some loop of their function contains both declarations. */
  predicate InOneLoop(s: Static, i: nat, d: nat)
    requires i < |s.decls| && d < |s.decls|
  {
    exists k :: 0 <= k < |s.loops| && LoopOfBoth(s.loops[k], s.decls[i], s.decls[d])
  }

  predicate LoopOfBoth(l: Span, a: Decl, b: Decl) {
    l.fid == b.fid && InLoop(l, a.birth) && InLoop(l, b.birth)
  }

  /** No declaration that an inner function uses has its slot in common with one in the same loop. */
  ghost predicate SharedApart(s: Static) {
    forall i, d :: d in s.shared && Shares(s.decls, i, d) ==> !InOneLoop(s, i, d)
  }

  /** Two declarations that were given the same slot. */
  predicate Shares(ds: seq<Decl>, i: int, d: int) {
    0 <= i < |ds| && 0 <= d < |ds| && i != d && SameSlot(ds[i], ds[d])
  }

  // ----- the invariant -----

  ghost predicate Fits(s: Static) {
    Table(s.decls) && LoopsFit(s) && forall d :: 0 <= d < |s.decls| ==>
      s.decls[d].fid in s.sizes && s.decls[d].slot < s.sizes[s.decls[d].fid] && (d in s.shared ==> s.decls[d].captured)
  }

  ghost predicate LoopsFit(s: Static) {
    && (forall j, k :: 0 <= j < |s.loops| && 0 <= k < |s.loops| ==> Laminar(s.loops[j], s.loops[k]))
    && (forall i, k :: 0 <= i < |s.decls| && 0 <= k < |s.loops| ==> Contained(s.decls[i], s.loops[k]))
  }

  /** Control at `at` is behind the declaration's scope and cannot come back into it. */
  predicate Gone(s: Static, d: Decl, at: nat) {
    && d.death.Some? && d.death.value <= at
    && (forall k :: 0 <= k < |s.loops| && s.loops[k].fid == d.fid && s.loops[k].first <= d.birth ==>
          s.loops[k].last <= at)
  }

  /** Slots and cells agree on all initialised declarations and on all that inner functions use. */
  predicate Agree(s: Static, act: Act) {
    act.fid in s.sizes && |act.slots| == s.sizes[act.fid] &&
    (forall d :: d in act.written ==> d < |s.decls| && d in act.cells && Near(s.decls[d], act.cursor)) &&
    (forall d :: d in act.cells ==> d < |s.decls| && s.decls[d].fid == act.fid) &&
    (forall d :: d in act.cells && (d in act.written || d in s.shared) && s.decls[d].slot < |act.slots| ==>
       act.slots[s.decls[d].slot] == act.cells[d])
  }

  /** Other owners of the slot of an initialised declaration that inner functions use are gone. */
  ghost predicate OthersGone(s: Static, act: Act) {
    forall d, i :: d in act.cells && d in s.shared && Shares(s.decls, i, d) ==> Gone(s, s.decls[i], act.cursor)
  }

  /** Inside the scope, or right at the declaration. */
  predicate Near(d: Decl, at: nat) {
    d.birth <= at && (d.death.Some? ==> at < d.death.value)
  }

  ghost predicate Sound(s: Static, acts: seq<Act>) {
    forall a :: 0 <= a < |acts| ==>
      Agree(s, acts[a]) && OthersGone(s, acts[a]) && EnvOK(s, acts[..a], acts[a].fid, acts[a].env)
  }

  /** A declaration that matters now: control is in its scope, or an inner function may use it. */
  predicate Matters(s: Static, act: Act, d: nat) {
    d < |s.decls| && (Near(s.decls[d], act.cursor) || (d in act.cells && d in s.shared))
  }

  /** Two declarations that matter at the same time have different slots. */
  lemma SlotsDiffer(s: Static, act: Act, d: nat, e: nat)
    requires Fits(s) && OthersGone(s, act) && Matters(s, act, d) && Matters(s, act, e)
    requires d != e && s.decls[d].fid == s.decls[e].fid
    ensures s.decls[d].slot != s.decls[e].slot
  {
    hide LoopsFit;
    var x, y := if d < e then d else e, if d < e then e else d;
    assert Apart(s.decls[x], s.decls[y]);
    assert Shares(s.decls, x, y) <==> SameSlot(s.decls[x], s.decls[y]);
  }

  /** Storing to one declaration keeps the agreement of all others. */
  lemma StoreAgrees(s: Static, act: Act, d: nat, v: Word, written: set<nat>)
    requires Fits(s) && Agree(s, act) && OthersGone(s, act) && Matters(s, act, d) && s.decls[d].fid == act.fid
    requires written == act.written || (written == act.written + {d} && Near(s.decls[d], act.cursor))
    ensures s.decls[d].slot < |act.slots| && Agree(s, Store(act, s.decls[d].slot, d, v).(written := written))
  {
    hide Table, LoopsFit, Near, OthersGone;
    var act' := Store(act, s.decls[d].slot, d, v).(written := written);
    forall e | e in act'.cells && (e in act'.written || e in s.shared)
      ensures act'.slots[s.decls[e].slot] == act'.cells[e]
    {
      if e != d {
        SlotsDiffer(s, act, d, e);
      }
    }
  }

  /** What is gone stays gone, wherever control goes. */
  lemma GoneKept(s: Static, i: nat, at: nat, to: nat)
    requires LoopsFit(s) && i < |s.decls| && Gone(s, s.decls[i], at) && CanMove(s, s.decls[i].fid, at, to)
    ensures Gone(s, s.decls[i], to)
  {
    var d := s.decls[i];
    if to < at {
      var j :| 0 <= j < |s.loops| && BackEdge(s.loops[j], d.fid, at, to);
      assert Contained(d, s.loops[j]);
      forall k | 0 <= k < |s.loops| && s.loops[k].fid == d.fid && s.loops[k].first <= d.birth
        ensures s.loops[k].last <= to
      {
        assert Laminar(s.loops[j], s.loops[k]);
      }
    }
  }

  /** At its declaration, the other owners of a variable's slot are gone, unless one loop contains both. */
  lemma GoneAtBirth(s: Static, d: nat, i: nat)
    requires Fits(s) && SharedApart(s) && d in s.shared && Shares(s.decls, i, d)
    ensures Gone(s, s.decls[i], s.decls[d].birth)
  {
    hide LoopsFit;
    var x, y := if d < i then d else i, if d < i then i else d;
    assert Apart(s.decls[x], s.decls[y]);
    forall k | 0 <= k < |s.loops| && s.loops[k].fid == s.decls[i].fid && s.loops[k].first <= s.decls[i].birth
      ensures s.loops[k].last <= s.decls[d].birth
    {
      assert !LoopOfBoth(s.loops[k], s.decls[i], s.decls[d]);
    }
  }

  lemma {:induction false} UpFunction(s: Static, acts: seq<Act>, a: nat, level: nat)
    requires Sound(s, acts) && a < |acts| && Up(acts, a, level).Some?
    ensures var b := Up(acts, a, level).value; b < |acts| && Around(s.parents, acts[a].fid, level) == Some(acts[b].fid)
    decreases level
  {
    if level > 0 {
      assert EnvOK(s, acts[..a], acts[a].fid, acts[a].env);
      UpFunction(s, acts, acts[a].env.value, level - 1);
    }
  }

  /** A change of one activation that keeps its function and environment. */
  lemma OneChanged(s: Static, acts: seq<Act>, a: nat, act: Act)
    requires Sound(s, acts) && a < |acts| && Agree(s, act) && OthersGone(s, act)
    requires act.fid == acts[a].fid && act.env == acts[a].env
    ensures Sound(s, acts[a := act])
  {
    hide Agree, OthersGone;
    var acts' := acts[a := act];
    forall b | 0 <= b < |acts'|
      ensures Agree(s, acts'[b]) && OthersGone(s, acts'[b]) && EnvOK(s, acts'[..b], acts'[b].fid, acts'[b].env)
    {
      assert Agree(s, acts[b]) && OthersGone(s, acts[b]) && EnvOK(s, acts[..b], acts[b].fid, acts[b].env);
    }
  }

  lemma AssignSound(s: Static, acts: seq<Act>, a: nat, u: Resolved, v: Word)
    requires Fits(s) && Sound(s, acts) && a < |acts| && Usable(s, acts, a, u)
    ensures Sound(s, After(s, acts, Assign(a, u, v)))
  {
    hide Fits, Gone, Near;
    var b := Up(acts, a, u.level).value;
    UpFunction(s, acts, a, u.level);
    assert Agree(s, acts[b]) && OthersGone(s, acts[b]);
    StoreAgrees(s, acts[b], u.decl, v, acts[b].written);
    OneChanged(s, acts, b, Store(acts[b], u.slot, u.decl, v));
  }

  lemma CallSound(s: Static, acts: seq<Act>, fid: Fid, env: Option<nat>)
    requires Sound(s, acts) && fid in s.sizes && EnvOK(s, acts, fid, env)
    ensures Sound(s, After(s, acts, Call(fid, env)))
  {
    var acts' := After(s, acts, Call(fid, env));
    forall b | 0 <= b < |acts'|
      ensures Agree(s, acts'[b]) && OthersGone(s, acts'[b]) && EnvOK(s, acts'[..b], acts'[b].fid, acts'[b].env)
    {
      if b < |acts| {
        assert Agree(s, acts[b]) && OthersGone(s, acts[b]) && EnvOK(s, acts[..b], acts[b].fid, acts[b].env);
        assert acts'[..b] == acts[..b];
      } else {
        assert acts'[..b] == acts;
      }
    }
  }

  lemma MoveSound(s: Static, acts: seq<Act>, a: nat, to: nat)
    requires Fits(s) && Sound(s, acts) && a < |acts| && CanMove(s, acts[a].fid, acts[a].cursor, to)
    ensures Sound(s, After(s, acts, Move(a, to)))
  {
    hide Table, LoopsFit, CanMove, Gone;
    var act := acts[a];
    var act' := act.(cursor := to, written := StillWritten(s, act.written, to));
    assert Agree(s, act) && OthersGone(s, act);
    forall d, i | d in act'.cells && d in s.shared && Shares(s.decls, i, d) ensures Gone(s, s.decls[i], to) {
      GoneKept(s, i, act.cursor, to);
    }
    OneChanged(s, acts, a, act');
  }

  lemma StepSound(s: Static, acts: seq<Act>, e: Event)
    requires Fits(s) && SharedApart(s) && Sound(s, acts) && Enabled(s, acts, e)
    ensures Sound(s, After(s, acts, e))
  {
    hide Fits, SharedApart, Usable, Sound, Agree, EnvOK, CanMove;
    match e
    case Call(fid, env) => CallSound(s, acts, fid, env);
    case Move(a, to) => MoveSound(s, acts, a, to);
    case Init(a, d, v) =>
      SoundAt(s, acts, a);
      InitAgrees(s, acts[a], d, v);
      OneChanged(s, acts, a, Store(acts[a], s.decls[d].slot, d, v).(written := acts[a].written + {d}));
    case Assign(a, u, v) => AssignSound(s, acts, a, u, v);
    case Read(_, _) =>
  }

  lemma SoundAt(s: Static, acts: seq<Act>, a: nat)
    requires Sound(s, acts) && a < |acts|
    ensures Agree(s, acts[a]) && OthersGone(s, acts[a])
  {
  }

  lemma InitAgrees(s: Static, act: Act, d: nat, v: Word)
    requires Fits(s) && SharedApart(s) && Agree(s, act) && OthersGone(s, act)
    requires d < |s.decls| && s.decls[d].fid == act.fid && s.decls[d].birth == act.cursor
    ensures s.decls[d].slot < |act.slots|
    ensures var act' := Store(act, s.decls[d].slot, d, v).(written := act.written + {d});
      Agree(s, act') && OthersGone(s, act')
  {
    hide SharedApart, Gone, LoopsFit;
    assert Near(s.decls[d], act.cursor);
    StoreAgrees(s, act, d, v, act.written + {d});
    forall i | d in s.shared && Shares(s.decls, i, d) ensures Gone(s, s.decls[i], act.cursor) {
      GoneAtBirth(s, d, i);
    }
  }

  lemma {:induction false} RunsSound(s: Static, es: seq<Event>, acts: seq<Act>)
    requires Fits(s) && SharedApart(s) && Runs(s, es, acts)
    ensures Sound(s, acts)
    decreases |es|
  {
    hide Fits, SharedApart, Sound, Enabled, After;
    if |es| == 0 {
      NoActs(s);
    } else {
      var before := Final(s, es[..|es| - 1]);
      RunsSound(s, es[..|es| - 1], before);
      StepSound(s, before, es[|es| - 1]);
    }
  }

  lemma NoActs(s: Static)
    ensures Sound(s, [])
  {
  }

  /**
   * Lexical addressing is sound unless a loop contains a variable used from inside together with
   * another owner of its slot: in every run, a read through (slot, level) sees what the machine with
   * named cells sees.
   */
  lemma ReadsSound(s: Static, es: seq<Event>, acts: seq<Act>, a: nat, u: Resolved)
    requires Fits(s) && SharedApart(s) && Runs(s, es, acts) && Enabled(s, acts, Read(a, u))
    ensures ReadsAgree(acts, a, u)
  {
    hide Table, SharedApart, Fits, Runs, Sound;
    RunsSound(s, es, acts);
    UpFunction(s, acts, a, u.level);
    AgreesAt(s, acts, Up(acts, a, u.level).value, u);
  }

  lemma AgreesAt(s: Static, acts: seq<Act>, b: nat, u: Resolved)
    requires Fits(s) && Sound(s, acts) && b < |acts| && u.decl < |s.decls| && u.slot == s.decls[u.decl].slot
    requires u.decl in acts[b].cells && s.decls[u.decl].fid == acts[b].fid
    requires u.decl in acts[b].written || u.decl in s.shared
    ensures u.slot < |acts[b].slots| && acts[b].slots[u.slot] == acts[b].cells[u.decl]
  {
    hide OthersGone, LoopsFit;
    assert Agree(s, acts[b]);
  }

  // ----- the exact condition -----

  lemma RunsMore(s: Static, es: seq<Event>, acts: seq<Act>, e: Event) returns (es': seq<Event>, acts': seq<Act>)
    requires Runs(s, es, acts) && Enabled(s, acts, e)
    ensures es' == es + [e] && acts' == After(s, acts, e) && Runs(s, es', acts')
  {
    hide Enabled, After;
    RunsFinal(s, es, acts);
    es', acts' := es + [e], After(s, acts, e);
    assert es'[..|es'| - 1] == es && es'[|es'| - 1] == e;
    assert Steps(s, acts, e, acts');
  }

  /** Functions are numbered from the outside in, and all have frames. */
  ghost predicate Numbered(s: Static) {
    forall f :: f in s.parents ==> s.parents[f] < f && f in s.sizes && s.parents[f] in s.sizes
  }

  /** Some run gets as far as calling `f`, by calling every function around it first. */
  lemma {:induction false} Activate(s: Static, f: Fid) returns (es: seq<Event>, acts: seq<Act>, a: nat)
    requires Numbered(s) && f in s.sizes
    ensures Runs(s, es, acts) && a < |acts| && acts[a].fid == f && acts[a].env ==
        (if a == 0 then None else Some(a - 1)) && |acts| == a + 1
    ensures forall level: nat :: Around(s.parents, f, level).Some? ==>
      level <= a && Up(acts, a, level) == Some(a - level)
    ensures forall b :: 0 <= b <= a ==>
      acts[b].cursor == 0 && |acts[b].slots| == (if acts[b].fid in s.sizes then s.sizes[acts[b].fid] else 0)
    decreases f
  {
    hide Runs;
    if f in s.parents {
      var es0, acts0, b := Activate(s, s.parents[f]);
      es, acts := RunsMore(s, es0, acts0, Call(f, Some(b)));
      a := b + 1;
      forall level: nat | Around(s.parents, f, level).Some? ensures level <= a && Up(acts, a, level) ==
          Some(a - level) {
        if level > 0 {
          UpPrefix(acts0, acts, b, level - 1);
        }
      }
    } else {
      NothingRuns(s);
      es, acts := RunsMore(s, [], [], Call(f, None));
      a := 0;
      assert forall level: nat :: Around(s.parents, f, level).Some? ==> level == 0;
    }
  }

  lemma NothingRuns(s: Static)
    ensures Runs(s, [], [])
  {
  }

  lemma {:induction false} UpPrefix(acts: seq<Act>, acts': seq<Act>, a: nat, level: nat)
    requires |acts| <= |acts'| && acts == acts'[..|acts|] && Up(acts, a, level).Some?
    ensures Up(acts', a, level) == Up(acts, a, level)
    decreases level
  {
    if level > 0 {
      UpPrefix(acts, acts', acts[a].env.value, level - 1);
    }
  }

  /** Changing slots and cells leaves environments alone. */
  lemma {:induction false} UpSame(acts: seq<Act>, acts': seq<Act>, a: nat, level: nat)
    requires |acts| == |acts'| && forall b :: 0 <= b < |acts| ==> acts'[b].env == acts[b].env
    ensures Up(acts', a, level) == Up(acts, a, level)
    decreases level
  {
    if level > 0 && a < |acts| && acts[a].env.Some? {
      UpSame(acts, acts', acts[a].env.value, level - 1);
    }
  }

  /**
   * In activation `b` the declaration `d` is initialised, and in the next round of loop `k` the
   * declaration `i`, which shares its slot.
   */
  lemma Clobber(s: Static, es0: seq<Event>, acts0: seq<Act>, b: nat, d: nat, i: nat, k: nat)
    returns (es: seq<Event>, acts: seq<Act>)
    requires Runs(s, es0, acts0) && b < |acts0| && Shares(s.decls, i, d)
    requires k < |s.loops| && LoopOfBoth(s.loops[k], s.decls[i], s.decls[d])
    requires s.decls[d].fid == acts0[b].fid && s.decls[d].slot < |acts0[b].slots| && acts0[b].cursor == 0
    ensures Runs(s, es, acts) && |acts| == |acts0|
    ensures forall c :: 0 <= c < |acts| ==> acts[c].env == acts0[c].env && acts[c].fid == acts0[c].fid
    ensures |acts[b].slots| == |acts0[b].slots| && acts[b].slots[s.decls[d].slot] == 2
    ensures d in acts[b].cells && acts[b].cells[d] == 1
  {
    hide Runs, StillWritten;
    es, acts := RunsMore(s, es0, acts0, Move(b, s.decls[d].birth));
    es, acts := RunsMore(s, es, acts, Init(b, d, 1));
    assert BackEdge(s.loops[k], acts[b].fid, acts[b].cursor, s.loops[k].first);
    es, acts := RunsMore(s, es, acts, Move(b, s.loops[k].first));
    es, acts := RunsMore(s, es, acts, Move(b, s.decls[i].birth));
    es, acts := RunsMore(s, es, acts, Init(b, i, 2));
  }

  /**
   * A variable that an inner function uses can be clobbered by another owner of its slot in the
   * same loop: there is a run after which the inner function reads what that owner wrote.
   */
  lemma LoopReadsWrong(s: Static, u: Resolved, i: nat) returns (es: seq<Event>, acts: seq<Act>, a: nat)
    requires Fits(s) && Numbered(s) && u.decl in s.shared && u.level > 0 && u.fid in s.sizes
    requires u.decl < |s.decls| && u.slot == s.decls[u.decl].slot
    requires Shares(s.decls, i, u.decl) && InOneLoop(s, i, u.decl)
    requires Around(s.parents, u.fid, u.level) == Some(s.decls[u.decl].fid)
    ensures Runs(s, es, acts) && Enabled(s, acts, Read(a, u)) && !ReadsAgree(acts, a, u)
  {
    hide Runs, Numbered, LoopsFit, Table, LoopOfBoth;
    var k :| 0 <= k < |s.loops| && LoopOfBoth(s.loops[k], s.decls[i], s.decls[u.decl]);
    es, acts, a := Activate(s, u.fid);
    var b := a - u.level;
    assert Around(s.parents, u.fid, u.level).Some?;
    UpFid(s, es, acts, a, u.level);
    var acts0 := acts;
    es, acts := Clobber(s, es, acts, b, u.decl, i, k);
    UpSame(acts0, acts, a, u.level);
  }

  /** The activation an address leads to belongs to the function it should. */
  lemma {:induction false} UpFid(s: Static, es: seq<Event>, acts: seq<Act>, a: nat, level: nat)
    requires Runs(s, es, acts) && a < |acts| && Up(acts, a, level).Some?
    ensures Up(acts, a, level).value < |acts|
    ensures Around(s.parents, acts[a].fid, level) == Some(acts[Up(acts, a, level).value].fid)
  {
    EnvsRun(s, es, acts);
    UpEnvs(s, acts, a, level);
  }

  ghost predicate Envs(s: Static, acts: seq<Act>) {
    forall a :: 0 <= a < |acts| ==> EnvOK(s, acts[..a], acts[a].fid, acts[a].env)
  }

  lemma {:induction false} EnvsRun(s: Static, es: seq<Event>, acts: seq<Act>)
    requires Runs(s, es, acts)
    ensures Envs(s, acts)
    decreases |es|
  {
    if |es| > 0 {
      var before := Final(s, es[..|es| - 1]);
      EnvsRun(s, es[..|es| - 1], before);
      EnvsStep(s, before, es[|es| - 1]);
    }
  }

  lemma EnvsStep(s: Static, acts: seq<Act>, e: Event)
    requires Envs(s, acts) && Enabled(s, acts, e)
    ensures Envs(s, After(s, acts, e))
  {
    hide Usable;
    var acts' := After(s, acts, e);
    forall a | 0 <= a < |acts'| ensures EnvOK(s, acts'[..a], acts'[a].fid, acts'[a].env) {
      if a < |acts| {
        assert EnvOK(s, acts[..a], acts[a].fid, acts[a].env);
      } else {
        assert acts'[..a] == acts;
      }
    }
  }

  lemma {:induction false} UpEnvs(s: Static, acts: seq<Act>, a: nat, level: nat)
    requires Envs(s, acts) && a < |acts| && Up(acts, a, level).Some?
    ensures Up(acts, a, level).value < |acts|
    ensures Around(s.parents, acts[a].fid, level) == Some(acts[Up(acts, a, level).value].fid)
    decreases level
  {
    if level > 0 {
      assert EnvOK(s, acts[..a], acts[a].fid, acts[a].env);
      UpEnvs(s, acts, acts[a].env.value, level - 1);
    }
  }

  // ----- programs -----

  ghost predicate AllReadsAgree(w: Walk) {
    forall es, acts, a: nat, u ::
      u in w.uses && Runs(StaticOf(w), es, acts) && Enabled(StaticOf(w), acts, Read(a, u)) ==>
      ReadsAgree(acts, a, u)
  }

  lemma StaticFits(tree: Nodes)
    ensures var w := Resolve(tree); Fits(StaticOf(w)) && Numbered(StaticOf(w))
  {
    ResolveLoops(tree);
    hide Resolve;
    ResolveCorrect(tree);
    var w := Resolve(tree);
    var s := StaticOf(w);
    forall d | 0 <= d < |s.decls|
      ensures s.decls[d].fid in s.sizes && s.decls[d].slot < s.sizes[s.decls[d].fid] &&
          (d in s.shared ==> s.decls[d].captured)
    {
      assert Held(w.slots, w.decls[d], w.time);
      if d in s.shared {
        var u :| u in w.uses && u.level > 0 && u.decl == d;
        assert Addressed(w, u);
      }
    }
  }

  lemma ResolveLoops(tree: Nodes)
    ensures Loops(Resolve(tree))
  {
    assert Correct(START) && Loops(START);
    VisitAllLoops(START, tree);
  }

  /**
   * No variable that an inner function uses has its slot in common with another variable of the
   * same loop.
   */
  ghost predicate ReuseOutsideLoops(w: Walk) {
    forall u, i :: u in w.uses && u.level > 0 && Shares(w.decls, i, u.decl) ==> !InOneLoop(StaticOf(w), i, u.decl)
  }

  /**
   * Slot reuse is sound for exactly these programs: then, and only then, every read in every run
   * sees what one named cell per activation and declaration holds.
   */
  lemma ReuseSoundExactly(tree: Nodes)
    ensures var w := Resolve(tree); AllReadsAgree(w) <==> ReuseOutsideLoops(w)
  {
    hide Resolve, Fits, Runs, Enabled, ReadsAgree, Numbered, InOneLoop, SameSlot;
    StaticFits(tree);
    ResolveCorrect(tree);
    var w := Resolve(tree);
    var s := StaticOf(w);
    if ReuseOutsideLoops(w) {
      assert SharedApart(s);
      forall es, acts, a: nat, u | u in w.uses && Runs(s, es, acts) && Enabled(s, acts, Read(a, u))
        ensures ReadsAgree(acts, a, u)
      {
        ReadsSound(s, es, acts, a, u);
      }
    }
    if AllReadsAgree(w) {
      forall u, i | u in w.uses && u.level > 0 && Shares(w.decls, i, u.decl) ensures !InOneLoop(s, i, u.decl) {
        assert Addressed(w, u);
        if InOneLoop(s, i, u.decl) {
          var es, acts, a := LoopReadsWrong(s, u, i);
          assert false;
        }
      }
    }
  }

  /** So every program without loops reads rightly, whatever is captured. */
  lemma LoopFreeSound(tree: Nodes)
    requires Resolve(tree).loops == []
    ensures AllReadsAgree(Resolve(tree))
  {
    hide Resolve, AllReadsAgree;
    ReuseSoundExactly(tree);
  }

  /** And so does every program in which variables that inner functions use got appended slots. */
  lemma AppendedSound(tree: Nodes)
    requires var w := Resolve(tree);
      forall u :: u in w.uses && u.level > 0 ==> u.decl < |w.decls| && w.decls[u.decl].appended
    ensures AllReadsAgree(Resolve(tree))
  {
    hide Resolve, AllReadsAgree, InOneLoop;
    ReuseSoundExactly(tree);
    ResolveCorrect(tree);
    var w := Resolve(tree);
    forall u, i: int | u in w.uses && u.level > 0 ensures !Shares(w.decls, i, u.decl) {
      assert Addressed(w, u);
      if 0 <= i < |w.decls| && i != u.decl {
        OnlyOwner(w, u.decl, i);
      }
    }
  }

  /** A captured variable in an appended slot is the slot's only owner. */
  lemma OnlyOwner(w: Walk, d: nat, i: nat)
    requires Inv(w) && d < |w.decls| && i < |w.decls| && i != d && w.decls[d].captured && w.decls[d].appended
    ensures !SameSlot(w.decls[i], w.decls[d])
  {
    hide SlotsOK, ScopesOK;
    var x, y := if d < i then d else i, if d < i then i else d;
    assert Apart(w.decls[x], w.decls[y]);
  }

  // ----- a captured variable in a recycled slot -----

  const INNER: Nodes := Then(Use(2), Done)
  const FIRST: Node := Scope(Then(Declare(1), Then(Use(3), Done)))
  const SECOND: Node := Scope(Then(Declare(2), Then(Use(3), Then(Function([], false, INNER), Done))))
  const BODY: Nodes := Then(FIRST, Then(SECOND, Done))
  /** `func { let g; loop { { let t = 1; if g { g() } } { let a; g = func { a } } } }` */
  const EXAMPLE: Nodes := Then(Function([], false, Then(Declare(3), Then(Loop(BODY), Done))), Done)

  const FREE: Slot := Slot(false, false, false, false)
  const USED: Slot := Slot(true, false, false, false)
  const G: Decl := Decl(1, 3, 0, 0, None, false, true)

  /** In front of the loop. */
  function Ahead(): Walk {
    Walk(map[1 := [USED]], map[], [Local(1, map[3 := 0])], [G], [], [], 1, 2, 0)
  }

  /** In the first block, behind its declaration. */
  function Inside1(): Walk {
    Walk(map[1 := [USED, USED]], map[], [Local(1, map[3 := 0]), Local(1, map[1 := 1])],
         [G, Decl(1, 1, 1, 1, None, false, true)], [], [], 2, 2, 0)
  }

  /** Behind the use of `g` in the first block. */
  function Called(): Walk {
    Inside1().(uses := [Resolved(1, 0, 0, 0, 3, 2)], time := 3)
  }

  /** Between the blocks: the first block's slot is free again. */
  function Middle(): Walk {
    Walk(map[1 := [USED, FREE]], map[], [Local(1, map[3 := 0])], [G, Decl(1, 1, 1, 1, Some(3), false, true)],
         [Resolved(1, 0, 0, 0, 3, 2)], [], 4, 2, 0)
  }

  /** In the second block, behind its declaration, which recycled slot 1. */
  function Behind(): Walk {
    Walk(map[1 := [USED, USED]], map[], [Local(1, map[3 := 0]), Local(1, map[2 := 2])],
         [G, Decl(1, 1, 1, 1, Some(3), false, true), Decl(1, 2, 1, 4, None, false, false)],
         [Resolved(1, 0, 0, 0, 3, 2)], [], 5, 2, 0)
  }

  lemma GDeclared()
    ensures Visit(Began(START, false), Declare(3)) == Ahead()
  {
    var w := Began(START, false);
    assert w.slots == map[1 := []] && w.scopes == [Local(1, map[])];
    assert Lookup(w.scopes[..0], 3) == None;
    assert Lookup(w.scopes, 3) == None;
    var empty: seq<Slot> := [];
    assert empty + [USED] == [USED];
    assert Allocated(empty, false, false) == ([USED], 0);
    assert Declared(w, 3).slots == map[1 := [USED]];
    assert Declared(w, 3).scopes == Ahead().scopes;
  }

  lemma FirstDeclared()
    ensures Visit(Entered(Ahead(), 1), Declare(1)) == Inside1()
  {
    var w := Entered(Ahead(), 1);
    NotFound(w.scopes, 1);
    assert LastInactive([USED]) == None;
    assert [USED] + [USED] == [USED, USED];
    assert Allocated([USED], false, false) == ([USED, USED], 1);
    assert Declared(w, 1).slots == map[1 := [USED, USED]];
    assert Declared(w, 1).scopes == Inside1().scopes;
  }

  lemma NotFound(scopes: seq<Local>, sym: Symbol)
    requires |scopes| == 2 && sym !in scopes[0].names && sym !in scopes[1].names
    ensures Lookup(scopes, sym) == None
  {
    assert scopes[..1][..0] == [];
    assert Lookup(scopes[..1], sym) == None;
  }

  lemma FirstUse()
    ensures Visit(Inside1(), Use(3)) == Called()
  {
    var w := Inside1();
    assert w.scopes[..1] == [Local(1, map[3 := 0])];
    assert Lookup(w.scopes[..1], 3) == Some((0, 0));
    assert Lookup(w.scopes, 3) == Some((0, 0));
  }

  lemma FirstLeft()
    ensures Left(Called()) == Middle()
  {
    var w := Called();
    var names := w.scopes[1].names;
    assert 1 in names && names[1] == 1;
    assert 1 in names.Values;
    assert names.Values == {1};
    assert SlotsOf(w.decls, {1}) == {1};
    assert FreedAll([USED, USED], {1}) == [USED, FREE];
    assert Left(w).slots == map[1 := [USED, FREE]];
    assert Left(w).scopes == [Local(1, map[3 := 0])];
  }

  lemma FirstBlock()
    ensures Visit(Ahead(), FIRST) == Middle()
  {
    hide Inside1, Called, Left, Entered, Middle, Access, Declared;
    FirstDeclared();
    FirstUse();
    FirstLeft();
    var w := Entered(Ahead(), 1);
    assert VisitAll(Inside1(), Then(Use(3), Done)) == VisitAll(Called(), Done) == Called();
    assert VisitAll(w, Then(Declare(1), Then(Use(3), Done))) == Called();
  }

  lemma SecondDeclared()
    ensures Visit(Entered(Middle(), 1), Declare(2)) == Behind()
  {
    var w := Entered(Middle(), 1);
    NotFound(w.scopes, 2);
    assert w.slots[1] == [USED, FREE];
    assert LastInactive([USED, FREE]) == Some(1);
    assert [USED, FREE][1 := USED] == [USED, USED];
    assert Allocated([USED, FREE], false, false) == ([USED, USED], 1);
    assert Declared(w, 2).slots == map[1 := [USED, USED]];
    assert Declared(w, 2).scopes == Behind().scopes;
  }

  /** Behind the use of `g` in the second block. */
  function Used(): Walk {
    Behind().(uses := [Resolved(1, 0, 0, 0, 3, 2), Resolved(1, 0, 0, 0, 3, 5)], time := 6)
  }

  lemma OuterUse()
    ensures Visit(Behind(), Use(3)) == Used()
  {
    var w := Behind();
    assert w.scopes[..1] == [Local(1, map[3 := 0])];
    assert Lookup(w.scopes[..1], 3) == Some((0, 0));
    assert Lookup(w.scopes, 3) == Some((0, 0));
  }

  lemma InnerUse()
    ensures var w := Visit(Began(Used(), false), Use(2)); CapturedUse(w) && w.time == 7 && w.loops == []
  {
    var w := Began(Used(), false);
    var scopes := w.scopes;
    assert scopes == [Local(1, map[3 := 0]), Local(1, map[2 := 2]), Local(2, map[])];
    assert scopes[..2] == [Local(1, map[3 := 0]), Local(1, map[2 := 2])];
    assert Lookup(scopes[..2], 2) == Some((2, 0));
    assert Lookup(scopes, 2) == Some((2, 1));
    assert 1 in w.slots;
  }

  /** The inner function uses the second block's variable, which has the first block's slot. */
  predicate CapturedUse(w: Walk) {
    && Resolved(2, 2, 1, 1, 2, 6) in w.uses && |w.decls| >= 3
    && w.decls[1].fid == 1 && w.decls[1].slot == 1 && w.decls[1].birth == 1
    && w.decls[2].fid == 1 && w.decls[2].slot == 1 && w.decls[2].birth == 4
  }

  lemma LeftKept(w: Walk)
    requires CapturedUse(w)
    ensures CapturedUse(Left(w)) && Left(w).time >= w.time && Left(w).loops == w.loops
  {
  }

  lemma SecondBlock()
    ensures var w := Visit(Middle(), SECOND); CapturedUse(w) && w.time >= 7 && w.loops == []
  {
    hide Left, Entered, Middle, Behind, Used, Began, Access, Declared, CapturedUse;
    MiddleTop();
    SecondDeclared();
    OuterUse();
    InnerUse();
    var f := Function([], false, INNER);
    var w1 := Began(Used(), false);
    assert Params(w1, []) == w1;
    var w2 := Visit(w1, Use(2));
    assert VisitAll(w1, INNER) == VisitAll(w2, Done) == w2;
    LeftKept(w2);
    assert Visit(Used(), f) == Left(w2);
    var w3 := Left(w2);
    LeftKept(w3);
    assert VisitAll(Used(), Then(f, Done)) == VisitAll(w3, Done) == w3;
    assert VisitAll(Behind(), Then(Use(3), Then(f, Done))) == w3;
    var w0 := Entered(Middle(), 1);
    assert VisitAll(w0, Then(Declare(2), Then(Use(3), Then(f, Done)))) ==
      VisitAll(Behind(), Then(Use(3), Then(f, Done)));
  }

  lemma MiddleTop()
    ensures Open(Middle()) && Top(Middle()).fid == 1
  {
  }

  /** The loop contains both blocks. */
  lemma LoopVisited()
    ensures var w := Visit(Ahead(), Loop(BODY)); CapturedUse(w) && |w.loops| == 1
    ensures var w := Visit(Ahead(), Loop(BODY)); w.loops[0].fid == 1 && w.loops[0].first == 1 && w.loops[0].last >= 7
  {
    AheadTop();
    BodyVisited();
    SecondBlock();
    hide Middle, CapturedUse, Ahead, Looped, VisitAll;
    LoopedUse(Ahead(), Visit(Middle(), SECOND));
    assert Visit(Ahead(), Loop(BODY)) == Looped(Ahead(), VisitAll(Ahead(), BODY));
  }

  lemma BodyVisited()
    ensures VisitAll(Ahead(), BODY) == Visit(Middle(), SECOND)
  {
    hide Visit, Ahead, Middle;
    FirstBlock();
    var w := Visit(Middle(), SECOND);
    assert VisitAll(w, Done) == w;
    assert VisitAll(Middle(), Then(SECOND, Done)) == w;
  }

  lemma LoopedUse(w: Walk, w': Walk)
    requires CapturedUse(w') && Open(w)
    ensures CapturedUse(Looped(w, w')) && Looped(w, w').loops == w'.loops + [Span(Top(w).fid, w.time, w'.time)]
  {
  }

  lemma AheadTop()
    ensures Open(Ahead()) && Top(Ahead()).fid == 1 && Ahead().time == 1
  {
  }

  /** So slot reuse is not sound for every program. */
  lemma RecycledCapture()
    ensures !AllReadsAgree(Resolve(EXAMPLE))
  {
    hide Left, Ahead, Began, AllReadsAgree, CapturedUse;
    GDeclared();
    LoopVisited();
    var w1 := Began(START, false);
    assert Params(w1, []) == w1;
    var w2 := Visit(Ahead(), Loop(BODY));
    assert VisitAll(w1, Then(Declare(3), Then(Loop(BODY), Done))) == VisitAll(Ahead(), Then(Loop(BODY), Done)) ==
      VisitAll(w2, Done) == w2;
    LeftKept(w2);
    var f := Function([], false, Then(Declare(3), Then(Loop(BODY), Done)));
    assert Visit(START, f) == Left(w2);
    assert Resolve(EXAMPLE) == VisitAll(Left(w2), Done) == Left(w2);
    LoopOfCapture(Resolve(EXAMPLE));
    ReuseSoundExactly(EXAMPLE);
  }

  lemma LoopOfCapture(w: Walk)
    requires CapturedUse(w) && |w.loops| == 1
    requires w.loops[0].fid == 1 && w.loops[0].first == 1 && w.loops[0].last >= 7
    ensures !ReuseOutsideLoops(w)
  {
    var u := Resolved(2, 2, 1, 1, 2, 6);
    assert Shares(w.decls, 1, 2);
    assert LoopOfBoth(StaticOf(w).loops[0], w.decls[1], w.decls[2]);
    assert InOneLoop(StaticOf(w), 1, 2);
    assert u in w.uses && u.level > 0 && Shares(w.decls, 1, u.decl);
  }
}
