/**
 * Slots of local variables: which slot of a function's frame each declaration gets, how
 * slots are recycled when a block ends, and which ones are pinned because an inner
 * function refers to them.
 */
module SlotAllocation {
  import opened Values

  datatype Slot = Slot(active: bool, leaked: bool, constant: bool, shadowing: bool)

  /** The inactive slot nearest to the end. */
  function LastInactive(slots: seq<Slot>): (r: Option<nat>)
    ensures r.Some? ==> r.value < |slots| && !slots[r.value].active
    ensures r.None? ==> forall i :: 0 <= i < |slots| ==> slots[i].active
    ensures r.Some? ==> forall i :: r.value < i < |slots| ==> slots[i].active
  {
    if |slots| == 0 then None
    else if !slots[|slots| - 1].active then Some(|slots| - 1)
    else LastInactive(slots[..|slots| - 1])
  }

  /** A recycled slot keeps its old flags; only an appended one gets the new ones. */
  function Allocated(slots: seq<Slot>, constant: bool, shadowing: bool): (r: (seq<Slot>, nat))
    ensures r.1 < |r.0| && r.0[r.1].active && |slots| <= |r.0| <= |slots| + 1
    ensures forall i :: 0 <= i < |slots| && i != r.1 ==> r.0[i] == slots[i]
    ensures r.1 < |slots| ==> |r.0| == |slots| && !slots[r.1].active && r.0[r.1] == slots[r.1].(active := true)
    ensures r.1 == |slots| <==> forall i :: 0 <= i < |slots| ==> slots[i].active
  {
    match LastInactive(slots)
    case None => (slots + [Slot(true, false, constant, shadowing)], |slots|)
    case Some(i) => (slots[i := slots[i].(active := true)], i)
  }

  /** A leaked slot is never freed. */
  function Freed(slots: seq<Slot>, i: nat): seq<Slot> {
    if i < |slots| && !slots[i].leaked then slots[i := Slot(false, false, false, false)] else slots
  }

  function Leaked(slots: seq<Slot>, i: nat): seq<Slot> {
    if i < |slots| then slots[i := slots[i].(leaked := true)] else slots
  }

  /** The variable slots of one function. */
  class FunctionScope {
    var slots: seq<Slot>
    var lvarcount: nat

    ghost predicate Valid()
      reads this
    {
      lvarcount == |slots|
    }

    constructor ()
      ensures Valid() && slots == []
    {
      slots, lvarcount := [], 0;
    }

    method AllocSlot(constant: bool, shadowing: bool) returns (index: nat)
      requires Valid()
      modifies this
      ensures Valid() && (slots, index) == Allocated(old(slots), constant, shadowing)
    {
      if |slots| == 0 {
        lvarcount := lvarcount + 1;
        slots := slots + [Slot(true, false, constant, shadowing)];
        return 0;
      }
      var i := |slots|;
      while i > 0
        invariant 0 <= i <= |slots| && slots == old(slots)
        invariant LastInactive(slots) == LastInactive(slots[..i])
      {
        assert slots[..i][..i - 1] == slots[..i - 1];
        if !slots[i - 1].active {
          slots := slots[i - 1 := slots[i - 1].(active := true)];
          return i - 1;
        }
        i := i - 1;
      }
      lvarcount := lvarcount + 1;
      slots := slots + [Slot(true, false, constant, shadowing)];
      index := |slots| - 1;
    }

    method MarkAsFree(index: nat)
      requires Valid()
      modifies `slots
      ensures Valid() && slots == Freed(old(slots), index)
    {
      if index < |slots| {
        if !slots[index].leaked {
          slots := slots[index := Slot(false, false, false, false)];
        }
      }
    }

    method MarkAsLeaked(index: nat)
      requires Valid()
      modifies `slots
      ensures Valid() && slots == Leaked(old(slots), index)
    {
      if index < |slots| {
        slots := slots[index := slots[index].(leaked := true)];
      }
    }
  }

  // ----- the rewriter's walk -----

  type Symbol = nat
  type Fid = nat

  const ARGUMENTS: Symbol := 0

  /**
   * What of a syntax tree concerns names, in visiting order: declarations, uses (reads and
   * writes), scopes, loops, and functions.
   */
  datatype Node =
    | Declare(sym: Symbol)
    | Use(sym: Symbol)
    | Scope(body: Nodes)
    | Loop(body: Nodes)
    | Function(params: seq<Symbol>, needsArguments: bool, body: Nodes)

  datatype Nodes = Done | Then(head: Node, tail: Nodes)

  /**
   * A declaration of function `fid`: its slot, the part of the walk during which it is in
   * scope, whether an inner function refers to it, and whether its slot was appended.
   */
  datatype Decl = Decl(fid: Fid, sym: Symbol, slot: nat, birth: nat, death: Option<nat>, captured: bool, appended: bool)

  /**
   * A use of `sym` in function `fid` at moment `time` of the walk: the declaration found and the
   * address written into the tree.
   */
  datatype Resolved = Resolved(fid: Fid, decl: nat, slot: nat, level: nat, sym: Symbol, time: nat)

  datatype Local = Local(fid: Fid, names: map<Symbol, nat>)

  /** The part of the walk during which it was inside a loop of function `fid`. */
  datatype Span = Span(fid: Fid, first: nat, last: nat)

  /**
   * `scopes` is innermost last, `parents` maps a function to the one around it, `loops` lists
   * the loops that have been left, and `time` counts the walk's steps.
   */
  datatype Walk = Walk(slots: map<Fid, seq<Slot>>, parents: map<Fid, Fid>, scopes: seq<Local>, decls: seq<Decl>,
                       uses: seq<Resolved>, loops: seq<Span>, time: nat, next: Fid, errors: nat)

  /** The declaration `sym` refers to, and how many functions lie between. */
  function Lookup(scopes: seq<Local>, sym: Symbol): Option<(nat, nat)> {
    if |scopes| == 0 then None
    else
      var top := scopes[|scopes| - 1];
      if sym in top.names then Some((top.names[sym], 0))
      else
        match Lookup(scopes[..|scopes| - 1], sym)
        case None => None
        case Some((d, level)) =>
          Some((d, if scopes[|scopes| - 2].fid != top.fid then level + 1 else level))
  }

  /** Looking a symbol up pins its slot if the search left the function it started in. */
  function Access(w: Walk, sym: Symbol): Walk {
    match Lookup(w.scopes, sym)
    case None => w
    case Some((d, level)) =>
      if level == 0 || d >= |w.decls| || w.decls[d].fid !in w.slots then w
      else
        var f := w.decls[d].fid;
        w.(slots := w.slots[f := Leaked(w.slots[f], w.decls[d].slot)],
           decls := w.decls[d := w.decls[d].(captured := true)])
  }

  predicate Open(w: Walk) {
    |w.scopes| > 0 && w.scopes[|w.scopes| - 1].fid in w.slots
  }

  function Top(w: Walk): Local
    requires Open(w)
  {
    w.scopes[|w.scopes| - 1]
  }

  /** A new declaration in the innermost scope; a second one of the same name is an error. */
  function Declared(w: Walk, sym: Symbol): Walk {
    if !Open(w) then w
    else if sym in Top(w).names then w.(errors := w.errors + 1)
    else
      var f := Top(w).fid;
      var (slots, slot) := Allocated(w.slots[f], false, false);
      w.(slots := w.slots[f := slots],
         scopes := w.scopes[|w.scopes| - 1 := Top(w).(names := Top(w).names[sym := |w.decls|])],
         decls := w.decls + [Decl(f, sym, slot, w.time, None, false, slot == |w.slots[f]|)],
         time := w.time + 1)
  }

  function Entered(w: Walk, fid: Fid): Walk {
    w.(scopes := w.scopes + [Local(fid, map[])])
  }

  /** The end of a scope frees the slots of its declarations. */
  function FreedAll(slots: seq<Slot>, dead: set<nat>): (r: seq<Slot>)
    ensures |r| == |slots|
  {
    seq(|slots|, i requires 0 <= i < |slots| =>
      if i in dead && !slots[i].leaked then Slot(false, false, false, false) else slots[i])
  }

  function SlotsOf(decls: seq<Decl>, ds: set<nat>): set<nat> {
    set d | d in ds && d < |decls| :: decls[d].slot
  }

  function Closed(decls: seq<Decl>, ds: set<nat>, time: nat): (r: seq<Decl>)
    ensures |r| == |decls|
  {
    seq(|decls|, i requires 0 <= i < |decls| => if i in ds then decls[i].(death := Some(time)) else decls[i])
  }

  function Left(w: Walk): Walk {
    if !Open(w) then w
    else
      var f, ds := Top(w).fid, Top(w).names.Values;
      w.(slots := w.slots[f := FreedAll(w.slots[f], SlotsOf(w.decls, ds))],
         scopes := w.scopes[..|w.scopes| - 1],
         decls := Closed(w.decls, ds, w.time),
         time := w.time + 1)
  }

  /** Parameters are looked up before they are declared, which may pin an outer variable. */
  function Params(w: Walk, ps: seq<Symbol>): Walk {
    if |ps| == 0 then w
    else
      var w1 := Params(w, ps[..|ps| - 1]);
      var p := ps[|ps| - 1];
      if Open(w1) && p in Top(w1).names then Access(w1, p) else Declared(Access(w1, p), p)
  }

  function NewFunction(w: Walk): Walk {
    w.(slots := w.slots[w.next := []],
       parents := if Open(w) then w.parents[w.next := Top(w).fid] else w.parents,
       next := w.next + 1)
  }

  function Began(w: Walk, needsArguments: bool): Walk {
    var w1 := Entered(NewFunction(w), w.next);
    if needsArguments then Declared(w1, ARGUMENTS) else w1
  }

  /** One node. Without an enclosing scope there is nothing to declare a name in. */
  function Visit(w: Walk, n: Node): Walk
    decreases n
  {
    match n
    case Declare(sym) => if Open(w) && sym in Top(w).names then Declared(w, sym) else Declared(Access(w, sym), sym)
    case Use(sym) =>
      var w1 := Access(w, sym);
      (match Lookup(w.scopes, sym)
       case None => w1.(time := w1.time + 1)
       case Some((d, level)) =>
         if d < |w.decls| && Open(w) then
           w1.(uses := w1.uses + [Resolved(Top(w).fid, d, w.decls[d].slot, level, sym, w.time)], time := w1.time + 1)
         else w1)
    case Scope(body) => if Open(w) then Left(VisitAll(Entered(w, Top(w).fid), body)) else w
    case Loop(body) => Looped(w, VisitAll(w, body))
    case Function(ps, needsArguments, body) => Left(VisitAll(Params(Began(w, needsArguments), ps), body))
  }

  /** The loop that began at `w` ends at `w'`. */
  function Looped(w: Walk, w': Walk): Walk {
    if Open(w) then w'.(loops := w'.loops + [Span(Top(w).fid, w.time, w'.time)]) else w'
  }

  function VisitAll(w: Walk, ns: Nodes): Walk
    decreases ns
  {
    match ns
    case Done => w
    case Then(n, rest) => VisitAll(Visit(w, n), rest)
  }

  // ----- invariants of the walk -----

  predicate SameSlot(a: Decl, b: Decl) {
    a.fid == b.fid && a.slot == b.slot
  }

  /** Two declarations share a slot only if the first was gone before the second and never captured. */
  predicate Apart(a: Decl, b: Decl) {
    SameSlot(a, b) ==> a.death.Some? && a.death.value <= b.birth && !a.captured && !b.appended
  }

  ghost predicate Recycled(ds: seq<Decl>, j: nat)
    requires j < |ds|
  {
    exists i :: 0 <= i < j && SameSlot(ds[i], ds[j])
  }

  /**
   * The table of declarations, in the order of their birth: slots are shared only one after
   * the other, and exactly the declarations that recycle a slot are not marked as appended.
   */
  ghost predicate Table(ds: seq<Decl>) {
    (forall i, j :: 0 <= i < j < |ds| ==> ds[i].birth < ds[j].birth && Apart(ds[i], ds[j])) &&
    (forall i :: 0 <= i < |ds| && ds[i].death.Some? ==> ds[i].birth < ds[i].death.value) &&
    (forall j :: 0 <= j < |ds| && !ds[j].appended ==> Recycled(ds, j))
  }

  lemma TableSnoc(ds: seq<Decl>, d: Decl)
    requires Table(ds) && d.death.None? && forall i :: 0 <= i < |ds| ==> ds[i].birth < d.birth && Apart(ds[i], d)
    requires !d.appended ==> exists i :: 0 <= i < |ds| && SameSlot(ds[i], d)
    ensures Table(ds + [d])
  {
    hide Apart, SameSlot;
    var ds' := ds + [d];
    forall j | 0 <= j < |ds'| && !ds'[j].appended ensures Recycled(ds', j) {
      if j < |ds| {
        assert Recycled(ds, j);
        var i :| 0 <= i < j && SameSlot(ds[i], ds[j]);
        assert SameSlot(ds'[i], ds'[j]);
      } else {
        var i :| 0 <= i < |ds| && SameSlot(ds[i], d);
        assert SameSlot(ds'[i], ds'[j]);
      }
    }
  }

  /** Only open declarations are captured or closed. */
  predicate Updated(a: Decl, b: Decl) {
    b.fid == a.fid && b.slot == a.slot && b.birth == a.birth && b.appended == a.appended &&
    (b.death == a.death || (a.death.None? && b.death.Some? && a.birth < b.death.value)) &&
    (b.captured ==> a.captured || a.death.None?)
  }

  lemma TableUpdated(ds: seq<Decl>, ds': seq<Decl>)
    requires Table(ds) && |ds'| == |ds| && forall i :: 0 <= i < |ds| ==> Updated(ds[i], ds'[i])
    ensures Table(ds')
  {
    forall i, j | 0 <= i < j < |ds'| ensures ds'[i].birth < ds'[j].birth && Apart(ds'[i], ds'[j]) {
      assert Updated(ds[i], ds'[i]) && Updated(ds[j], ds'[j]) && Apart(ds[i], ds[j]);
    }
    forall j | 0 <= j < |ds'| && !ds'[j].appended ensures Recycled(ds', j) {
      assert Updated(ds[j], ds'[j]) && Recycled(ds, j);
      var i :| 0 <= i < j && SameSlot(ds[i], ds[j]);
      assert Updated(ds[i], ds'[i]) && SameSlot(ds'[i], ds'[j]);
    }
  }

  /** A declaration's slot exists; it is in use while the declaration is open, pinned once it is captured. */
  predicate Held(slots: map<Fid, seq<Slot>>, d: Decl, time: nat) {
    d.fid in slots && d.slot < |slots[d.fid]| && d.birth < time && (d.death.Some? ==> d.death.value < time) &&
    (d.death.None? ==> slots[d.fid][d.slot].active) && (d.captured ==> slots[d.fid][d.slot].leaked)
  }

  ghost predicate AllHeld(w: Walk) {
    forall i :: 0 <= i < |w.decls| ==> Held(w.slots, w.decls[i], w.time)
  }

  /** Leaked slots stay active. */
  predicate Pinned(slots: seq<Slot>) {
    forall k :: 0 <= k < |slots| && slots[k].leaked ==> slots[k].active
  }

  /** Every slot was given to some declaration. */
  ghost predicate AllOwned(ds: seq<Decl>, f: Fid, n: nat) {
    forall k :: 0 <= k < n ==> Owned(ds, f, k)
  }

  ghost predicate SlotsOK(w: Walk) {
    AllHeld(w) && forall f :: f in w.slots ==> f < w.next && Pinned(w.slots[f]) && AllOwned(w.decls, f, |w.slots[f]|)
  }

  predicate Owns(ds: seq<Decl>, i: int, f: Fid, k: int) {
    0 <= i < |ds| && ds[i].fid == f && ds[i].slot == k
  }

  ghost predicate Owned(ds: seq<Decl>, f: Fid, k: int) {
    exists i :: Owns(ds, i, f, k)
  }

  /** Names in scope stand for open declarations of the scope's function. */
  ghost predicate ScopesOK(w: Walk) {
    (forall k :: 0 <= k < |w.scopes| ==> w.scopes[k].fid in w.slots) &&
    (forall k, sym :: 0 <= k < |w.scopes| && sym in w.scopes[k].names ==>
       var d := w.scopes[k].names[sym];
       d < |w.decls| && w.decls[d].fid == w.scopes[k].fid && w.decls[d].sym == sym && w.decls[d].death.None?) &&
    (forall k, k', sym, sym' :: 0 <= k < k' < |w.scopes| && sym in w.scopes[k].names && sym' in w.scopes[k'].names ==>
       w.scopes[k].names[sym] != w.scopes[k'].names[sym'])
  }

  ghost predicate Inv(w: Walk) {
    Table(w.decls) && SlotsOK(w) && ScopesOK(w)
  }

  lemma DeclaredTable(w: Walk, sym: Symbol)
    requires Inv(w) && Open(w) && sym !in Top(w).names
    ensures Table(Declared(w, sym).decls)
  {
    hide ScopesOK, Table, Owned;
    var f := Top(w).fid;
    assert f in w.slots && Pinned(w.slots[f]) && AllOwned(w.decls, f, |w.slots[f]|);
    var (slots, slot) := Allocated(w.slots[f], false, false);
    var d := Declared(w, sym).decls[|w.decls|];
    forall i | 0 <= i < |w.decls| ensures w.decls[i].birth < d.birth && Apart(w.decls[i], d) {
      assert Held(w.slots, w.decls[i], w.time);
    }
    if slot < |w.slots[f]| {
      assert Owned(w.decls, f, slot);
      OwnerSame(w.decls, d);
    }
    TableSnoc(w.decls, d);
  }

  lemma OwnerSame(ds: seq<Decl>, d: Decl)
    requires Owned(ds, d.fid, d.slot)
    ensures exists i :: 0 <= i < |ds| && SameSlot(ds[i], d)
  {
    var i :| Owns(ds, i, d.fid, d.slot);
    assert SameSlot(ds[i], d);
  }

  lemma DeclaredKeeps(w: Walk, sym: Symbol)
    requires Inv(w)
    ensures Inv(Declared(w, sym))
  {
    if Open(w) && sym !in Top(w).names {
      DeclaredTable(w, sym);
      DeclaredSlots(w, sym);
      DeclaredScopes(w, sym);
    }
  }

  lemma DeclaredSlots(w: Walk, sym: Symbol)
    requires Inv(w) && Open(w) && sym !in Top(w).names
    ensures SlotsOK(Declared(w, sym))
  {
    hide Table, Owned, Owns;
    var w' := Declared(w, sym);
    var f := Top(w).fid;
    var n := |w.decls|;
    assert f in w.slots && Pinned(w.slots[f]) && AllOwned(w.decls, f, |w.slots[f]|);
    MoreOwners(w.decls, w'.decls[n]);
    forall i | 0 <= i < |w'.decls| ensures Held(w'.slots, w'.decls[i], w'.time) {
      if i < n {
        assert Held(w.slots, w.decls[i], w.time);
      }
    }
  }

  lemma DeclaredScopes(w: Walk, sym: Symbol)
    requires Inv(w) && Open(w) && sym !in Top(w).names
    ensures ScopesOK(Declared(w, sym))
  {
    hide Table, SlotsOK, Allocated;
  }

  lemma MoreOwners(ds: seq<Decl>, d: Decl)
    ensures forall f, k :: Owned(ds, f, k) ==> Owned(ds + [d], f, k)
    ensures Owned(ds + [d], d.fid, d.slot)
  {
    forall f, k | Owned(ds, f, k) ensures Owned(ds + [d], f, k) {
      var i :| Owns(ds, i, f, k);
      assert Owns(ds + [d], i, f, k);
    }
    assert Owns(ds + [d], |ds|, d.fid, d.slot);
  }

  /** Scope `k` is the innermost one that has the name. */
  predicate Innermost(scopes: seq<Local>, sym: Symbol, k: int) {
    0 <= k < |scopes| && sym in scopes[k].names && forall j :: k < j < |scopes| ==> sym !in scopes[j].names
  }

  /** A name is found exactly if some scope has it, and then in the innermost one that has it. */
  lemma {:induction false} LookupInnermost(scopes: seq<Local>, sym: Symbol)
    ensures Lookup(scopes, sym).None? <==> forall k :: 0 <= k < |scopes| ==> sym !in scopes[k].names
    ensures forall k :: Innermost(scopes, sym, k) ==>
      Lookup(scopes, sym).Some? && Lookup(scopes, sym).value.0 == scopes[k].names[sym]
    ensures Lookup(scopes, sym).Some? ==> exists k :: Innermost(scopes, sym, k)
    decreases |scopes|
  {
    if |scopes| > 0 {
      var n := |scopes| - 1;
      var rest := scopes[..n];
      LookupInnermost(rest, sym);
      if sym in scopes[n].names {
        assert Innermost(scopes, sym, n);
      } else {
        forall k | 0 <= k < n ensures scopes[k] == rest[k] {
        }
        if Lookup(rest, sym).Some? {
          var k :| Innermost(rest, sym, k);
          assert Innermost(scopes, sym, k);
        }
        forall k | Innermost(scopes, sym, k)
          ensures Lookup(scopes, sym).Some? && Lookup(scopes, sym).value.0 == scopes[k].names[sym]
        {
          assert Innermost(rest, sym, k);
        }
      }
    }
  }

  lemma LookupOpen(scopes: seq<Local>, sym: Symbol)
    requires Lookup(scopes, sym).Some?
    ensures exists k ::
      0 <= k < |scopes| && sym in scopes[k].names && scopes[k].names[sym] == Lookup(scopes, sym).value.0
  {
    hide Lookup;
    LookupInnermost(scopes, sym);
    var k :| Innermost(scopes, sym, k);
    assert sym in scopes[k].names;
  }

  lemma AccessKeeps(w: Walk, sym: Symbol)
    requires Inv(w)
    ensures Inv(Access(w, sym)) && Access(w, sym).scopes == w.scopes
  {
    match Lookup(w.scopes, sym)
    case None =>
    case Some((d, level)) =>
      LookupOpen(w.scopes, sym);
      PinKeeps(w, d);
  }

  /** Pinning an open declaration's slot. */
  lemma PinKeeps(w: Walk, d: nat)
    requires Inv(w) && d < |w.decls| && w.decls[d].death.None?
    ensures w.decls[d].fid in w.slots
    ensures Inv(w.(slots := w.slots[w.decls[d].fid := Leaked(w.slots[w.decls[d].fid], w.decls[d].slot)],
                   decls := w.decls[d := w.decls[d].(captured := true)]))
  {
    var f := w.decls[d].fid;
    var w' := w.(slots := w.slots[f := Leaked(w.slots[f], w.decls[d].slot)], decls :=
        w.decls[d := w.decls[d].(captured := true)]);
    assert Held(w.slots, w.decls[d], w.time);
    TableUpdated(w.decls, w'.decls);
    SameOwners(w, w');
    PinSlots(w, w', d);
  }

  lemma SameOwners(w: Walk, w': Walk)
    requires |w'.decls| == |w.decls|
    requires forall i :: 0 <= i < |w.decls| ==> w'.decls[i].fid == w.decls[i].fid && w'.decls[i].slot == w.decls[i].slot
    ensures forall f, k :: Owned(w.decls, f, k) ==> Owned(w'.decls, f, k)
  {
    forall f, k | Owned(w.decls, f, k) ensures Owned(w'.decls, f, k) {
      var i :| Owns(w.decls, i, f, k);
      assert Owns(w'.decls, i, f, k);
    }
  }

  lemma PinSlots(w: Walk, w': Walk, d: nat)
    requires SlotsOK(w) && d < |w.decls| && w.decls[d].death.None? && w.decls[d].fid in w.slots
    requires w'.slots == w.slots[w.decls[d].fid := Leaked(w.slots[w.decls[d].fid], w.decls[d].slot)]
    requires w'.decls == w.decls[d := w.decls[d].(captured := true)] && w'.time == w.time && w'.next == w.next
    requires forall f, k :: Owned(w.decls, f, k) ==> Owned(w'.decls, f, k)
    ensures SlotsOK(w')
  {
    hide Owned;
    assert Held(w.slots, w.decls[d], w.time);
    forall i | 0 <= i < |w'.decls| ensures Held(w'.slots, w'.decls[i], w'.time) {
      assert Held(w.slots, w.decls[i], w.time);
    }
  }

  lemma LeftKeeps(w: Walk)
    requires Inv(w)
    ensures Inv(Left(w))
  {
    if Open(w) {
      LeftTable(w);
      LeftSlots(w);
      LeftScopes(w);
    }
  }

  lemma LeftTable(w: Walk)
    requires Inv(w) && Open(w)
    ensures Table(Left(w).decls)
  {
    hide FreedAll, SlotsOf, Table;
    TopOpen(w);
    forall i | 0 <= i < |w.decls| ensures Updated(w.decls[i], Left(w).decls[i]) {
      assert Held(w.slots, w.decls[i], w.time);
    }
    TableUpdated(w.decls, Left(w).decls);
  }

  /** The declarations of the innermost scope are open and belong to its function. */
  lemma TopOpen(w: Walk)
    requires ScopesOK(w) && Open(w)
    ensures forall d :: d in Top(w).names.Values ==>
      d < |w.decls| && w.decls[d].death.None? && w.decls[d].fid == Top(w).fid
  {
  }

  lemma LeftSlots(w: Walk)
    requires Inv(w) && Open(w)
    ensures SlotsOK(Left(w))
  {
    hide Owned, Table, Held, FreedAll, SlotsOf;
    var w' := Left(w);
    SameOwners(w, w');
    forall i | 0 <= i < |w'.decls| ensures Held(w'.slots, w'.decls[i], w'.time) {
      LeftHeld(w, i);
    }
    FreedPinned(w.slots[Top(w).fid], SlotsOf(w.decls, Top(w).names.Values));
  }

  lemma FreedPinned(slots: seq<Slot>, dead: set<nat>)
    requires Pinned(slots)
    ensures Pinned(FreedAll(slots, dead))
  {
  }

  /** Two open declarations of one function have different slots. */
  lemma OpenApart(ds: seq<Decl>, i: nat, j: nat)
    requires Table(ds) && i < |ds| && j < |ds| && i != j && ds[i].death.None? && ds[j].death.None? && ds[i].fid ==
        ds[j].fid
    ensures ds[i].slot != ds[j].slot
  {
    if i < j {
      assert Apart(ds[i], ds[j]);
    } else {
      assert Apart(ds[j], ds[i]);
    }
  }

  /** Freeing the slots of a scope frees no slot of a declaration that stays open. */
  lemma LeftHeld(w: Walk, i: nat)
    requires Inv(w) && Open(w) && i < |w.decls|
    ensures Held(Left(w).slots, Left(w).decls[i], Left(w).time)
  {
    hide Owned;
    TopOpen(w);
    assert Held(w.slots, w.decls[i], w.time);
    var f, ds, k := Top(w).fid, Top(w).names.Values, w.decls[i].slot;
    if i !in ds && w.decls[i].death.None? && w.decls[i].fid == f && k in SlotsOf(w.decls, ds) {
      var d :| d in ds && d < |w.decls| && w.decls[d].slot == k;
      OpenApart(w.decls, i, d);
      assert false;
    }
  }

  lemma LeftScopes(w: Walk)
    requires Inv(w) && Open(w)
    ensures ScopesOK(Left(w))
  {
    hide Table, SlotsOK, FreedAll, SlotsOf;
    var w', n := Left(w), |w.scopes| - 1;
    forall k, sym | 0 <= k < |w'.scopes| && sym in w'.scopes[k].names
      ensures (var d := w'.scopes[k].names[sym];
        d < |w'.decls| && w'.decls[d].fid == w'.scopes[k].fid && w'.decls[d].sym == sym && w'.decls[d].death.None?)
    {
      var d := w.scopes[k].names[sym];
      forall s | s in w.scopes[n].names ensures w.scopes[n].names[s] != d {
      }
    }
  }

  lemma EnteredKeeps(w: Walk, f: Fid)
    requires Inv(w) && f in w.slots
    ensures Inv(Entered(w, f))
  {
    hide Table;
  }

  lemma BeganKeeps(w: Walk, needsArguments: bool)
    requires Inv(w)
    ensures Inv(Began(w, needsArguments))
  {
    hide Inv, Declared, Entered;
    var w0 := NewFunction(w);
    NewFunctionKeeps(w);
    EnteredKeeps(w0, w.next);
    DeclaredKeeps(Entered(w0, w.next), ARGUMENTS);
  }

  lemma NewFunctionKeeps(w: Walk)
    requires Inv(w)
    ensures Inv(NewFunction(w))
  {
    hide Table, Owned;
    var w0 := NewFunction(w);
    forall i | 0 <= i < |w0.decls| ensures Held(w0.slots, w0.decls[i], w0.time) {
      assert Held(w.slots, w.decls[i], w.time);
    }
  }

  lemma {:induction false} ParamsKeep(w: Walk, ps: seq<Symbol>)
    requires Inv(w)
    ensures Inv(Params(w, ps))
    decreases |ps|
  {
    hide Inv, Access, Declared;
    if |ps| > 0 {
      var w1, p := Params(w, ps[..|ps| - 1]), ps[|ps| - 1];
      ParamsKeep(w, ps[..|ps| - 1]);
      AccessKeeps(w1, p);
      DeclaredKeeps(Access(w1, p), p);
    }
  }

  /** Every step of the walk keeps the invariant. */
  lemma {:induction false} VisitKeeps(w: Walk, n: Node)
    requires Inv(w)
    ensures Inv(Visit(w, n))
    decreases n
  {
    hide Table, SlotsOK, ScopesOK, Access, Declared, Params, Began;
    match n
    case Declare(sym) =>
      DeclaredKeeps(w, sym);
      AccessKeeps(w, sym);
      DeclaredKeeps(Access(w, sym), sym);
    case Use(sym) =>
      AccessKeeps(w, sym);
      var w1 := Access(w, sym);
      LaterTime(w1, w1.uses);
      if Lookup(w.scopes, sym).Some? && Lookup(w.scopes, sym).value.0 < |w.decls| && Open(w) {
        var (d, level) := Lookup(w.scopes, sym).value;
        LaterTime(w1, w1.uses + [Resolved(Top(w).fid, d, w.decls[d].slot, level, sym, w.time)]);
      }
    case Scope(body) =>
      if Open(w) {
        EnteredKeeps(w, Top(w).fid);
        VisitAllKeeps(Entered(w, Top(w).fid), body);
        LeftKeeps(VisitAll(Entered(w, Top(w).fid), body));
      }
    case Function(ps, needsArguments, body) =>
      BeganKeeps(w, needsArguments);
      ParamsKeep(Began(w, needsArguments), ps);
      VisitAllKeeps(Params(Began(w, needsArguments), ps), body);
      LeftKeeps(VisitAll(Params(Began(w, needsArguments), ps), body));
    case Loop(body) =>
      VisitAllKeeps(w, body);
      LoopedKeeps(w, VisitAll(w, body));
  }

  lemma LoopedKeeps(w: Walk, w': Walk)
    requires Inv(w')
    ensures Inv(Looped(w, w'))
  {
    hide Table, Owned;
    var w2 := Looped(w, w');
    forall i | 0 <= i < |w2.decls| ensures Held(w2.slots, w2.decls[i], w2.time) {
      assert Held(w'.slots, w'.decls[i], w'.time);
    }
  }

  lemma LaterTime(w: Walk, us: seq<Resolved>)
    requires Inv(w)
    ensures Inv(w.(uses := us, time := w.time + 1))
  {
    hide Table, Owned;
    var w' := w.(uses := us, time := w.time + 1);
    forall i | 0 <= i < |w'.decls| ensures Held(w'.slots, w'.decls[i], w'.time) {
      assert Held(w.slots, w.decls[i], w.time);
    }
  }

  lemma {:induction false} VisitAllKeeps(w: Walk, ns: Nodes)
    requires Inv(w)
    ensures Inv(VisitAll(w, ns))
    decreases ns
  {
    hide Inv;
    if ns.Then? {
      VisitKeeps(w, ns.head);
      VisitAllKeeps(Visit(w, ns.head), ns.tail);
    }
  }

  // ----- addresses: levels count functions -----

  /** The function `level` functions around `f`. */
  function Around(parents: map<Fid, Fid>, f: Fid, level: nat): Option<Fid>
    decreases level
  {
    if level == 0 then Some(f)
    else if f in parents then Around(parents, parents[f], level - 1)
    else None
  }

  /** Neighbouring scopes belong to the same function or to a function and the one around it. */
  ghost predicate Nested(w: Walk) {
    (forall k :: 0 <= k < |w.scopes| - 1 && w.scopes[k].fid != w.scopes[k + 1].fid ==>
       w.scopes[k + 1].fid in w.parents && w.parents[w.scopes[k + 1].fid] == w.scopes[k].fid) &&
    ParentsOK(w)
  }

  /** Functions are numbered from the outside in. */
  ghost predicate ParentsOK(w: Walk) {
    forall f :: f in w.parents ==> f < w.next && w.parents[f] < f && f in w.slots && w.parents[f] in w.slots
  }

  predicate Addressed(w: Walk, u: Resolved) {
    u.decl < |w.decls| && u.slot == w.decls[u.decl].slot && (u.level > 0 ==> w.decls[u.decl].captured) &&
    u.fid < w.next && u.fid in w.slots && Around(w.parents, u.fid, u.level) == Some(w.decls[u.decl].fid)
  }

  /** Every use's address is its declaration's slot, as many environments up as functions lie between. */
  ghost predicate Correct(w: Walk) {
    Inv(w) && Nested(w) && forall k :: 0 <= k < |w.uses| ==> Addressed(w, w.uses[k])
  }

  /** What later steps of the walk leave alone. */
  ghost predicate Extends(w: Walk, w': Walk) {
    w.next <= w'.next && w.time <= w'.time && |w.decls| <= |w'.decls| && w.slots.Keys <= w'.slots.Keys &&
    (forall i :: 0 <= i < |w.decls| ==> Kept(w.decls[i], w'.decls[i])) &&
    (forall f :: f in w.parents ==> f in w'.parents && w'.parents[f] == w.parents[f]) &&
    (forall f :: f in w'.parents && f !in w.parents ==> f >= w.next)
  }

  predicate Kept(a: Decl, b: Decl) {
    b.fid == a.fid && b.sym == a.sym && b.slot == a.slot && b.birth == a.birth && b.appended == a.appended &&
    (a.captured ==> b.captured)
  }

  /** The same stack of scopes, with more names at most in the innermost. */
  predicate SameStack(a: seq<Local>, b: seq<Local>) {
    |a| == |b| && forall k :: 0 <= k < |a| ==> a[k].fid == b[k].fid
  }

  lemma {:induction false} AroundKept(p: map<Fid, Fid>, p': map<Fid, Fid>, f: Fid, level: nat)
    requires forall g :: g in p ==> g in p' && p'[g] == p[g]
    requires Around(p, f, level).Some?
    ensures Around(p', f, level) == Around(p, f, level)
    decreases level
  {
    if level > 0 {
      AroundKept(p, p', p[f], level - 1);
    }
  }

  lemma StillAddressed(w: Walk, w': Walk, u: Resolved)
    requires Extends(w, w') && Addressed(w, u)
    ensures Addressed(w', u)
  {
    assert Kept(w.decls[u.decl], w'.decls[u.decl]);
    AroundKept(w.parents, w'.parents, u.fid, u.level);
  }

  lemma {:induction false} LookupLevel(w: Walk, n: nat, sym: Symbol)
    requires Nested(w) && ScopesOK(w) && 0 < n <= |w.scopes| && Lookup(w.scopes[..n], sym).Some?
    ensures var (d, level) := Lookup(w.scopes[..n], sym).value;
      d < |w.decls| && Around(w.parents, w.scopes[n - 1].fid, level) == Some(w.decls[d].fid)
    decreases n
  {
    var top := w.scopes[n - 1];
    if sym !in top.names {
      assert w.scopes[..n][..n - 1] == w.scopes[..n - 1];
      LookupLevel(w, n - 1, sym);
      if w.scopes[n - 2].fid != top.fid {
        assert w.scopes[n - 2 + 1].fid in w.parents;
      }
    }
  }

  lemma ExtendsTrans(a: Walk, b: Walk, c: Walk)
    requires Extends(a, b) && Extends(b, c)
    ensures Extends(a, c)
  {
    forall i | 0 <= i < |a.decls| ensures Kept(a.decls[i], c.decls[i]) {
      assert Kept(a.decls[i], b.decls[i]) && Kept(b.decls[i], c.decls[i]);
    }
  }

  lemma AccessExtends(w: Walk, sym: Symbol)
    requires Inv(w)
    ensures Extends(w, Access(w, sym)) && Access(w, sym).parents == w.parents && Access(w, sym).uses == w.uses
    ensures Access(w, sym).next == w.next
    ensures Lookup(w.scopes, sym).Some? && Lookup(w.scopes, sym).value.1 > 0 ==>
      Lookup(w.scopes, sym).value.0 < |w.decls| && Access(w, sym).decls[Lookup(w.scopes, sym).value.0].captured
  {
    if Lookup(w.scopes, sym).Some? {
      LookupOpen(w.scopes, sym);
      var d := Lookup(w.scopes, sym).value.0;
      assert Held(w.slots, w.decls[d], w.time);
    }
  }

  lemma DeclaredExtends(w: Walk, sym: Symbol)
    ensures Extends(w, Declared(w, sym)) && Declared(w, sym).parents == w.parents && Declared(w, sym).uses == w.uses
    ensures SameStack(w.scopes, Declared(w, sym).scopes) && Declared(w, sym).next == w.next
  {
    hide Allocated;
  }

  lemma LeftExtends(w: Walk)
    ensures Extends(w, Left(w)) && Left(w).parents == w.parents && Left(w).uses == w.uses && Left(w).next == w.next
  {
    hide FreedAll, SlotsOf;
  }

  lemma StackNested(w: Walk, w': Walk)
    requires Nested(w) && SameStack(w.scopes, w'.scopes) && Extends(w, w') && ParentsOK(w')
    ensures Nested(w')
  {
    forall k | 0 <= k < |w'.scopes| - 1 && w'.scopes[k].fid != w'.scopes[k + 1].fid
      ensures w'.scopes[k + 1].fid in w'.parents && w'.parents[w'.scopes[k + 1].fid] == w'.scopes[k].fid
    {
      assert w.scopes[k].fid == w'.scopes[k].fid && w.scopes[k + 1].fid == w'.scopes[k + 1].fid;
    }
  }

  /** A step that keeps the stack and adds no use keeps correctness. */
  lemma StillCorrect(w: Walk, w': Walk)
    requires Correct(w) && Inv(w') && Extends(w, w') && SameStack(w.scopes, w'.scopes) && w'.uses == w.uses
    requires w'.parents == w.parents || ParentsOK(w')
    ensures Correct(w')
  {
    hide Inv, Addressed;
    StackNested(w, w');
    forall k | 0 <= k < |w'.uses| ensures Addressed(w', w'.uses[k]) {
      StillAddressed(w, w', w.uses[k]);
    }
  }

  lemma {:induction false} ParamsExtend(w: Walk, ps: seq<Symbol>)
    requires Inv(w)
    ensures Extends(w, Params(w, ps)) && Params(w, ps).parents == w.parents && Params(w, ps).uses == w.uses
    ensures SameStack(w.scopes, Params(w, ps).scopes) && Params(w, ps).next == w.next
    decreases |ps|
  {
    hide Inv, Access, Declared;
    if |ps| > 0 {
      var w1, p := Params(w, ps[..|ps| - 1]), ps[|ps| - 1];
      ParamsExtend(w, ps[..|ps| - 1]);
      ParamsKeep(w, ps[..|ps| - 1]);
      AccessKeeps(w1, p);
      AccessExtends(w1, p);
      DeclaredExtends(Access(w1, p), p);
      ExtendsTrans(w, w1, Access(w1, p));
      ExtendsTrans(w, Access(w1, p), Declared(Access(w1, p), p));
    }
  }

  lemma EnteredCorrect(w: Walk, f: Fid)
    requires Correct(w) && f in w.slots
    requires |w.scopes| > 0 ==> var g := w.scopes[|w.scopes| - 1].fid; g == f || (f in w.parents && w.parents[f] == g)
    ensures Correct(Entered(w, f)) && Extends(w, Entered(w, f))
  {
    hide Inv;
    EnteredKeeps(w, f);
    var w' := Entered(w, f);
    forall k | 0 <= k < |w'.uses| ensures Addressed(w', w'.uses[k]) {
      assert Addressed(w, w.uses[k]);
    }
  }

  lemma TopInside(w: Walk)
    requires Inv(w) && |w.scopes| > 0
    ensures Open(w) && Top(w).fid < w.next
  {
    assert w.scopes[|w.scopes| - 1].fid in w.slots;
  }

  lemma NewFunctionCorrect(w: Walk)
    requires Correct(w)
    ensures Correct(NewFunction(w)) && Extends(w, NewFunction(w)) && w.next in NewFunction(w).slots
  {
    hide Inv, Addressed;
    NewFunctionKeeps(w);
    if |w.scopes| > 0 {
      TopInside(w);
    }
    assert Extends(w, NewFunction(w));
    StillCorrect(w, NewFunction(w));
  }

  lemma BeganCorrect(w: Walk, needsArguments: bool)
    requires Correct(w)
    ensures var w' := Began(w, needsArguments);
      Correct(w') && Extends(w, w') && |w'.scopes| == |w.scopes| + 1 && SameStack(w.scopes, w'.scopes[..|w.scopes|])
  {
    hide Inv, Addressed, Extends, Nested, Declared;
    var w0 := NewFunction(w);
    NewFunctionCorrect(w);
    if |w.scopes| > 0 {
      TopInside(w);
    }
    EnteredCorrect(w0, w.next);
    ExtendsTrans(w, w0, Entered(w0, w.next));
    if needsArguments {
      DeclaredCorrect(Entered(w0, w.next), ARGUMENTS);
      ExtendsTrans(w, Entered(w0, w.next), Began(w, needsArguments));
    }
  }

  lemma DeclaredCorrect(w: Walk, sym: Symbol)
    requires Correct(w)
    ensures Correct(Declared(w, sym)) && Extends(w, Declared(w, sym)) && SameStack(w.scopes, Declared(w, sym).scopes)
  {
    hide Inv, Addressed, Extends, Declared;
    DeclaredKeeps(w, sym);
    DeclaredExtends(w, sym);
    StillCorrect(w, Declared(w, sym));
  }

  lemma AccessCorrect(w: Walk, sym: Symbol)
    requires Correct(w)
    ensures Correct(Access(w, sym)) && Extends(w, Access(w, sym)) && Access(w, sym).scopes == w.scopes
  {
    hide Inv, Addressed, Extends, Access;
    AccessKeeps(w, sym);
    AccessExtends(w, sym);
    StillCorrect(w, Access(w, sym));
  }

  lemma LeftCorrect(w: Walk)
    requires Correct(w) && |w.scopes| > 0
    ensures Correct(Left(w)) && Extends(w, Left(w)) && Left(w).scopes == w.scopes[..|w.scopes| - 1]
  {
    hide Inv, Addressed, FreedAll, SlotsOf, Closed;
    TopInside(w);
    LeftKeeps(w);
    LeftExtends(w);
    forall k | 0 <= k < |Left(w).uses| ensures Addressed(Left(w), Left(w).uses[k]) {
      StillAddressed(w, Left(w), w.uses[k]);
    }
  }

  lemma UseCorrect(w: Walk, sym: Symbol)
    requires Correct(w)
    ensures Correct(Visit(w, Use(sym))) && Extends(w, Visit(w, Use(sym))) && Visit(w, Use(sym)).scopes == w.scopes
  {
    hide Inv, Addressed, Access;
    AccessCorrect(w, sym);
    AccessExtends(w, sym);
    VisitKeeps(w, Use(sym));
    var w1, w' := Access(w, sym), Visit(w, Use(sym));
    forall k | 0 <= k < |w'.uses| ensures Addressed(w', w'.uses[k]) {
      if k < |w.uses| {
        StillAddressed(w, w', w.uses[k]);
      } else {
        UseAddressed(w, sym);
      }
    }
  }

  lemma UseAddressed(w: Walk, sym: Symbol)
    requires Correct(w) && |Visit(w, Use(sym)).uses| > |w.uses|
    ensures var w' := Visit(w, Use(sym)); Addressed(w', w'.uses[|w.uses|])
  {
    hide Access, Table;
    AccessExtends(w, sym);
    TopInside(w);
    assert w.scopes[..|w.scopes|] == w.scopes;
    LookupLevel(w, |w.scopes|, sym);
    var d := Lookup(w.scopes, sym).value.0;
    assert Kept(w.decls[d], Access(w, sym).decls[d]);
  }

  lemma {:induction false} VisitCorrect(w: Walk, n: Node)
    requires Correct(w)
    ensures Correct(Visit(w, n)) && Extends(w, Visit(w, n)) && SameStack(w.scopes, Visit(w, n).scopes)
    decreases n
  {
    hide Correct, Extends, Access, Declared, Params, Began, Left;
    match n
    case Declare(sym) =>
      AccessCorrect(w, sym);
      DeclaredCorrect(w, sym);
      DeclaredCorrect(Access(w, sym), sym);
      ExtendsTrans(w, Access(w, sym), Declared(Access(w, sym), sym));
    case Use(sym) => UseCorrect(w, sym);
    case Scope(body) =>
      if Open(w) {
        ScopeEntered(w);
        var w1 := Entered(w, Top(w).fid);
        VisitAllCorrect(w1, body);
        LeftCorrect(VisitAll(w1, body));
        ExtendsTrans(w, w1, VisitAll(w1, body));
        ExtendsTrans(w, VisitAll(w1, body), Visit(w, n));
      } else {
        NoChange(w);
      }
    case Function(ps, needsArguments, body) =>
      BeganCorrect(w, needsArguments);
      var w1 := Began(w, needsArguments);
      var w2 := Params(w1, ps);
      ParamsCorrect(w1, ps);
      VisitAllCorrect(w2, body);
      var w3 := VisitAll(w2, body);
      LeftCorrect(w3);
      ExtendsTrans(w, w1, w2);
      ExtendsTrans(w, w2, w3);
      ExtendsTrans(w, w3, Left(w3));
    case Loop(body) =>
      VisitAllCorrect(w, body);
      LoopedCorrect(w, VisitAll(w, body));
      ExtendsTrans(w, VisitAll(w, body), Visit(w, n));
  }

  lemma LoopedCorrect(w: Walk, w': Walk)
    requires Correct(w')
    ensures Correct(Looped(w, w')) && Extends(w', Looped(w, w')) && SameStack(w'.scopes, Looped(w, w').scopes)
  {
    hide Inv, Addressed;
    LoopedKeeps(w, w');
    StillCorrect(w', Looped(w, w'));
  }

  lemma ScopeEntered(w: Walk)
    requires Correct(w) && Open(w)
    ensures Correct(Entered(w, Top(w).fid)) && Extends(w, Entered(w, Top(w).fid))
  {
    hide Inv, Nested;
    EnteredCorrect(w, Top(w).fid);
  }

  lemma NoChange(w: Walk)
    ensures Extends(w, w)
  {
  }

  lemma ParamsCorrect(w: Walk, ps: seq<Symbol>)
    requires Correct(w)
    ensures Correct(Params(w, ps)) && Extends(w, Params(w, ps)) && SameStack(w.scopes, Params(w, ps).scopes)
  {
    hide Inv, Addressed, Extends, Params;
    ParamsKeep(w, ps);
    ParamsExtend(w, ps);
    StillCorrect(w, Params(w, ps));
  }

  lemma {:induction false} VisitAllCorrect(w: Walk, ns: Nodes)
    requires Correct(w)
    ensures Correct(VisitAll(w, ns)) && Extends(w, VisitAll(w, ns)) && SameStack(w.scopes, VisitAll(w, ns).scopes)
    decreases ns
  {
    hide Correct, Extends;
    match ns
    case Done => NoChange(w);
    case Then(n, rest) =>
      VisitCorrect(w, n);
      VisitAllCorrect(Visit(w, n), rest);
      ExtendsTrans(w, Visit(w, n), VisitAll(w, ns));
  }

  // ----- loops, scopes and declarations nest -----

  /** What later steps of the walk leave alone of loops, scopes and lifetimes. */
  ghost predicate Grows(w: Walk, w': Walk) {
    && w.time <= w'.time && |w.decls| <= |w'.decls| && |w.loops| <= |w'.loops| && |w'.scopes| == |w.scopes|
    && w'.loops[..|w.loops|] == w.loops
    && (forall k :: |w.loops| <= k < |w'.loops| ==> w.time <= w'.loops[k].first)
    && (forall i :: 0 <= i < |w.decls| ==>
          w'.decls[i].death == w.decls[i].death && w'.decls[i].birth == w.decls[i].birth)
    && (forall i :: |w.decls| <= i < |w'.decls| ==> w.time <= w'.decls[i].birth)
    && (forall k, sym :: 0 <= k < |w.scopes| && sym in w'.scopes[k].names ==>
          (sym in w.scopes[k].names && w'.scopes[k].names[sym] == w.scopes[k].names[sym]) ||
          w'.scopes[k].names[sym] >= |w.decls|)
  }

  lemma GrowsTrans(a: Walk, b: Walk, c: Walk)
    requires Grows(a, b) && Grows(b, c)
    ensures Grows(a, c)
  {
    forall k | |a.loops| <= k < |c.loops| ensures a.time <= c.loops[k].first {
      if k < |b.loops| {
        assert c.loops[k] == c.loops[..|b.loops|][k];
      }
    }
    assert c.loops[..|a.loops|] == c.loops[..|b.loops|][..|a.loops|];
  }

  lemma GrowsSame(w: Walk)
    ensures Grows(w, w)
  {
  }

  lemma AccessGrows(w: Walk, sym: Symbol)
    requires Inv(w)
    ensures Grows(w, Access(w, sym))
  {
    AccessKeeps(w, sym);
  }

  lemma DeclaredGrows(w: Walk, sym: Symbol)
    ensures Grows(w, Declared(w, sym))
  {
    hide Allocated;
  }

  lemma {:induction false} ParamsGrow(w: Walk, ps: seq<Symbol>)
    requires Inv(w)
    ensures Grows(w, Params(w, ps))
    decreases |ps|
  {
    hide Inv, Access, Declared, Grows;
    GrowsSame(w);
    ParamsUnfold(w, ps);
    if |ps| > 0 {
      var w1, p := Params(w, ps[..|ps| - 1]), ps[|ps| - 1];
      ParamsGrow(w, ps[..|ps| - 1]);
      ParamsKeep(w, ps[..|ps| - 1]);
      AccessGrows(w1, p);
      DeclaredGrows(Access(w1, p), p);
      GrowsTrans(w, w1, Access(w1, p));
      GrowsTrans(w, Access(w1, p), Declared(Access(w1, p), p));
    }
  }

  /** A scope that is entered, grows and is left has grown the walk around it. */
  lemma EnteredLeft(w: Walk, w1: Walk, w2: Walk)
    requires Grows(w1, w2) && Open(w2) && |w1.scopes| == |w.scopes| + 1 && w1.scopes[..|w.scopes|] == w.scopes
    requires w1.scopes[|w.scopes|].names == map[]
    requires w1.decls == w.decls && w1.loops == w.loops && w1.time == w.time
    ensures Grows(w, Left(w2))
  {
    hide FreedAll, SlotsOf;
    var w3 := Left(w2);
    var n := |w.scopes|;
    assert forall d :: d in Top(w2).names.Values ==> d >= |w.decls|;
    forall k, sym | 0 <= k < n && sym in w3.scopes[k].names
      ensures (sym in w.scopes[k].names && w3.scopes[k].names[sym] == w.scopes[k].names[sym]) ||
              w3.scopes[k].names[sym] >= |w.decls|
    {
      assert w3.scopes[k] == w2.scopes[k];
      assert w1.scopes[k] == w1.scopes[..n][k];
    }
  }

  lemma LoopedGrows(w: Walk, w': Walk)
    requires Grows(w, w')
    ensures Grows(w, Looped(w, w'))
  {
  }

  lemma UseGrows(w: Walk, sym: Symbol)
    requires Inv(w)
    ensures Grows(w, Visit(w, Use(sym)))
  {
    hide Inv, Access;
    AccessGrows(w, sym);
  }

  lemma {:induction false} VisitGrows(w: Walk, n: Node)
    requires Correct(w)
    ensures Grows(w, Visit(w, n))
    decreases n
  {
    hide Correct, Grows, Access, Declared, Params, Inv, Extends, Left;
    CorrectInv(w);
    match n
    case Declare(sym) =>
      AccessGrows(w, sym);
      DeclaredGrows(w, sym);
      DeclaredGrows(Access(w, sym), sym);
      GrowsTrans(w, Access(w, sym), Declared(Access(w, sym), sym));
    case Use(sym) => UseGrows(w, sym);
    case Scope(body) =>
      GrowsSame(w);
      if Open(w) {
        var w1 := Entered(w, Top(w).fid);
        ScopeEntered(w);
        VisitAllGrows(w1, body);
        VisitAllCorrect(w1, body);
        CorrectInv(VisitAll(w1, body));
        TopInside(VisitAll(w1, body));
        EnteredLeft(w, w1, VisitAll(w1, body));
      }
    case Loop(body) =>
      VisitAllGrows(w, body);
      LoopedGrows(w, VisitAll(w, body));
    case Function(ps, needsArguments, body) =>
      var w0 := Entered(NewFunction(w), w.next);
      var w1 := Began(w, needsArguments);
      var w2 := Params(w1, ps);
      BeganCorrect(w, needsArguments);
      BeganGrows(w, needsArguments);
      CorrectInv(w1);
      ParamsGrow(w1, ps);
      ParamsCorrect(w1, ps);
      VisitAllGrows(w2, body);
      VisitAllCorrect(w2, body);
      var w3 := VisitAll(w2, body);
      GrowsTrans(w0, w1, w2);
      GrowsTrans(w0, w2, w3);
      CorrectInv(w3);
      TopInside(w3);
      EnteredLeft(w, w0, w3);
  }

  lemma BeganGrows(w: Walk, needsArguments: bool)
    ensures Grows(Entered(NewFunction(w), w.next), Began(w, needsArguments))
  {
    hide Declared, Grows, NewFunction;
    GrowsSame(Entered(NewFunction(w), w.next));
    DeclaredGrows(Entered(NewFunction(w), w.next), ARGUMENTS);
  }

  lemma CorrectInv(w: Walk)
    requires Correct(w)
    ensures Inv(w)
  {
  }

  lemma {:induction false} VisitAllGrows(w: Walk, ns: Nodes)
    requires Correct(w)
    ensures Grows(w, VisitAll(w, ns))
    decreases ns
  {
    hide Correct, Grows, Extends;
    match ns
    case Done => GrowsSame(w);
    case Then(n, rest) =>
      VisitGrows(w, n);
      VisitCorrect(w, n);
      VisitAllGrows(Visit(w, n), rest);
      GrowsTrans(w, Visit(w, n), VisitAll(w, ns));
  }

  /** Loops are behind one another or inside one another. */
  predicate Laminar(a: Span, b: Span) {
    a.last <= b.first || b.last <= a.first || (a.first <= b.first && b.last <= a.last) ||
    (b.first <= a.first && a.last <= b.last)
  }

  /** A loop that begins inside a declaration's lifetime ends inside it. */
  predicate Contained(d: Decl, l: Span) {
    d.birth < l.first ==> d.death.None? || d.death.value <= l.first || l.last <= d.death.value
  }

  ghost predicate Loops(w: Walk) {
    && (forall k :: 0 <= k < |w.loops| ==> w.loops[k].first <= w.loops[k].last <= w.time)
    && (forall j, k :: 0 <= j < |w.loops| && 0 <= k < |w.loops| ==> Laminar(w.loops[j], w.loops[k]))
    && (forall i, k :: 0 <= i < |w.decls| && 0 <= k < |w.loops| ==> Contained(w.decls[i], w.loops[k]))
  }

  predicate ClosedSince(a: Decl, b: Decl, time: nat) {
    b.birth == a.birth && (b.death == a.death || (b.death.Some? && b.death.value >= time))
  }

  /** A step that records no loop and closes declarations only now. */
  lemma LoopsKept(w: Walk, w': Walk)
    requires Loops(w) && w'.loops == w.loops && w.time <= w'.time && |w.decls| <= |w'.decls|
    requires forall i :: 0 <= i < |w.decls| ==> ClosedSince(w.decls[i], w'.decls[i], w.time)
    requires forall i :: |w.decls| <= i < |w'.decls| ==> w.time <= w'.decls[i].birth
    ensures Loops(w')
  {
    forall i, k | 0 <= i < |w'.decls| && 0 <= k < |w'.loops| ensures Contained(w'.decls[i], w'.loops[k]) {
      if i < |w.decls| {
        assert Contained(w.decls[i], w.loops[k]);
      }
    }
  }

  lemma LoopedLoops(w: Walk, w': Walk)
    requires Inv(w) && Loops(w) && Loops(w') && Grows(w, w')
    ensures Loops(Looped(w, w'))
  {
    hide Table, Owned, ScopesOK;
    var w2 := Looped(w, w');
    if Open(w) {
      var l := Span(Top(w).fid, w.time, w'.time);
      forall j | 0 <= j < |w'.loops| ensures Laminar(w'.loops[j], l) && Laminar(l, w'.loops[j]) {
        if j < |w.loops| {
          assert w'.loops[j] == w'.loops[..|w.loops|][j];
        }
      }
      forall i | 0 <= i < |w'.decls| ensures Contained(w'.decls[i], l) {
        if i < |w.decls| {
          assert Held(w.slots, w.decls[i], w.time);
        }
      }
      forall j, k | 0 <= j < |w2.loops| && 0 <= k < |w2.loops| ensures Laminar(w2.loops[j], w2.loops[k]) {
        if j < |w'.loops| && k < |w'.loops| {
          assert Laminar(w'.loops[j], w'.loops[k]);
        }
      }
      forall i, k | 0 <= i < |w2.decls| && 0 <= k < |w2.loops| ensures Contained(w2.decls[i], w2.loops[k]) {
        if k < |w'.loops| {
          assert Contained(w'.decls[i], w'.loops[k]);
        }
      }
    }
  }

  lemma AccessLoops(w: Walk, sym: Symbol)
    requires Inv(w) && Loops(w)
    ensures Loops(Access(w, sym))
  {
    hide Loops;
    AccessGrows(w, sym);
    LoopsKept(w, Access(w, sym));
  }

  lemma DeclaredLoops(w: Walk, sym: Symbol)
    requires Loops(w)
    ensures Loops(Declared(w, sym))
  {
    hide Loops, Allocated;
    LoopsKept(w, Declared(w, sym));
  }

  lemma LeftLoops(w: Walk)
    requires Loops(w)
    ensures Loops(Left(w))
  {
    hide Loops, FreedAll, SlotsOf;
    LoopsKept(w, Left(w));
  }

  lemma {:induction false} ParamsLoops(w: Walk, ps: seq<Symbol>)
    requires Inv(w) && Loops(w)
    ensures Loops(Params(w, ps))
    decreases |ps|
  {
    hide Inv, Access, Declared, Loops;
    ParamsUnfold(w, ps);
    if |ps| > 0 {
      var w1, p := Params(w, ps[..|ps| - 1]), ps[|ps| - 1];
      ParamsLoops(w, ps[..|ps| - 1]);
      ParamsKeep(w, ps[..|ps| - 1]);
      AccessLoops(w1, p);
      DeclaredLoops(Access(w1, p), p);
    }
  }

  lemma UseLoops(w: Walk, sym: Symbol)
    requires Inv(w) && Loops(w)
    ensures Loops(Visit(w, Use(sym)))
  {
    hide Inv, Access, Loops;
    AccessLoops(w, sym);
    LoopsKept(Access(w, sym), Visit(w, Use(sym)));
  }

  /** Entering a function or scope opens no loop. */
  lemma BeganLoops(w: Walk, needsArguments: bool)
    requires Loops(w)
    ensures Loops(Began(w, needsArguments))
  {
    hide Loops, Declared, Allocated;
    var w0 := Entered(NewFunction(w), w.next);
    LoopsKept(w, w0);
    DeclaredLoops(w0, ARGUMENTS);
  }

  lemma {:induction false} VisitLoops(w: Walk, n: Node)
    requires Correct(w) && Loops(w)
    ensures Loops(Visit(w, n))
    decreases n
  {
    hide Correct, Grows, Access, Declared, Params, Inv, Extends, Left, Loops, Began, Looped;
    CorrectInv(w);
    match n
    case Declare(sym) =>
      AccessLoops(w, sym);
      DeclaredLoops(w, sym);
      DeclaredLoops(Access(w, sym), sym);
    case Use(sym) => UseLoops(w, sym);
    case Scope(body) =>
      if Open(w) {
        var w1 := Entered(w, Top(w).fid);
        ScopeEntered(w);
        LoopsKept(w, w1);
        VisitAllLoops(w1, body);
        LeftLoops(VisitAll(w1, body));
      }
    case Loop(body) =>
      VisitAllLoops(w, body);
      VisitAllGrows(w, body);
      LoopedLoops(w, VisitAll(w, body));
    case Function(ps, needsArguments, body) =>
      var w1 := Began(w, needsArguments);
      BeganLoops(w, needsArguments);
      BeganCorrect(w, needsArguments);
      CorrectInv(w1);
      ParamsLoops(w1, ps);
      ParamsCorrect(w1, ps);
      VisitAllLoops(Params(w1, ps), body);
      LeftLoops(VisitAll(Params(w1, ps), body));
  }

  lemma {:induction false} VisitAllLoops(w: Walk, ns: Nodes)
    requires Correct(w) && Loops(w)
    ensures Loops(VisitAll(w, ns))
    decreases ns
  {
    hide Correct, Loops, Extends;
    if ns.Then? {
      VisitLoops(w, ns.head);
      VisitCorrect(w, ns.head);
      VisitAllLoops(Visit(w, ns.head), ns.tail);
    }
  }

  // ----- the slot of an exception that no handler names -----

  /** The node declares a variable of the function it stands in. */
  predicate Declares(n: Node) {
    match n
    case Declare(_) => true
    case Use(_) => false
    case Scope(body) => DeclaresAny(body)
    case Loop(body) => DeclaresAny(body)
    case Function(_, _, _) => false
  }

  predicate DeclaresAny(ns: Nodes) {
    match ns
    case Done => false
    case Then(n, rest) => Declares(n) || DeclaresAny(rest)
  }

  predicate SameActive(a: seq<Slot>, b: seq<Slot>) {
    |a| == |b| && forall k :: 0 <= k < |a| ==> a[k].active == b[k].active
  }

  /** Nothing was allocated or freed in function `g`. */
  ghost predicate Idle(w: Walk, w': Walk, g: Fid) {
    && g in w.slots && g in w'.slots && SameActive(w.slots[g], w'.slots[g])
    && |w.decls| <= |w'.decls|
    && (forall i :: 0 <= i < |w.decls| ==> w'.decls[i].fid == w.decls[i].fid)
    && (forall i :: |w.decls| <= i < |w'.decls| ==> w'.decls[i].fid != g)
  }

  lemma IdleTrans(a: Walk, b: Walk, c: Walk, g: Fid)
    requires Idle(a, b, g) && Idle(b, c, g)
    ensures Idle(a, c, g)
  {
  }

  lemma AccessIdle(w: Walk, sym: Symbol, g: Fid)
    requires Inv(w) && g in w.slots
    ensures Idle(w, Access(w, sym), g) && Access(w, sym).scopes == w.scopes
  {
    hide Inv;
  }

  lemma DeclaredIdle(w: Walk, sym: Symbol, g: Fid)
    requires g in w.slots && Open(w) && Top(w).fid != g
    ensures Idle(w, Declared(w, sym), g)
  {
    hide Allocated;
  }

  lemma LeftIdle(w: Walk, g: Fid)
    requires g in w.slots && Open(w) && (Top(w).fid != g || Top(w).names == map[])
    ensures Idle(w, Left(w), g)
  {
    assert Top(w).names == map[] ==> Top(w).names.Values == {};
    assert SlotsOf(w.decls, {}) == {};
  }

  lemma {:induction false} ParamsIdle(w: Walk, ps: seq<Symbol>, g: Fid)
    requires Correct(w) && g in w.slots && Open(w) && Top(w).fid != g
    ensures Idle(w, Params(w, ps), g)
    decreases |ps|
  {
    hide Inv, Access, Declared, Idle, Correct, Extends;
    ParamsUnfold(w, ps);
    if |ps| == 0 {
      IdleSame(w, g);
    } else {
      var w1, p := Params(w, ps[..|ps| - 1]), ps[|ps| - 1];
      ParamsIdle(w, ps[..|ps| - 1], g);
      ParamsCorrect(w, ps[..|ps| - 1]);
      IdleSlots(w, w1, g);
      OneMoreIdle(w1, p, g);
      IdleTrans(w, w1, Access(w1, p), g);
      StackOpen(w, w1);
      if !(p in Top(w1).names) {
        IdleTrans(w, Access(w1, p), Declared(Access(w1, p), p), g);
      }
    }
  }

  lemma IdleSame(w: Walk, g: Fid)
    requires g in w.slots
    ensures Idle(w, w, g)
  {
  }

  lemma IdleSlots(w: Walk, w': Walk, g: Fid)
    requires Idle(w, w', g)
    ensures g in w'.slots
  {
  }

  /** The same stack is open again, and on the same function. */
  lemma StackOpen(w: Walk, w': Walk)
    requires Open(w) && Correct(w') && SameStack(w.scopes, w'.scopes)
    ensures Open(w') && Top(w').fid == Top(w).fid
  {
    hide Table, SlotsOK;
    TopInside(w');
  }

  lemma OneMoreIdle(w: Walk, p: Symbol, g: Fid)
    requires Correct(w) && g in w.slots && |w.scopes| > 0 && w.scopes[|w.scopes| - 1].fid != g
    ensures Idle(w, Access(w, p), g) && Idle(Access(w, p), Declared(Access(w, p), p), g)
  {
    hide Idle, Access, Declared, Inv;
    CorrectInv(w);
    AccessIdle(w, p, g);
    IdleSlots(w, Access(w, p), g);
    AccessCorrect(w, p);
    TopInside(Access(w, p));
    DeclaredIdle(Access(w, p), p, g);
  }

  /** A node that declares nothing, or stands in another function, leaves the slots of `g` as they are. */
  lemma {:induction false} VisitIdle(w: Walk, n: Node, g: Fid)
    requires Correct(w) && g in w.slots && Open(w) && (Declares(n) ==> Top(w).fid != g)
    ensures Idle(w, Visit(w, n), g) && (!Declares(n) ==> Visit(w, n).scopes == w.scopes)
    decreases n, 0
  {
    hide Correct, Idle, Access, Declared, Params, Inv, Extends, Left, Began;
    CorrectInv(w);
    match n
    case Declare(sym) =>
      OneMoreIdle(w, sym, g);
      DeclaredIdle(w, sym, g);
      IdleTrans(w, Access(w, sym), Declared(Access(w, sym), sym), g);
    case Use(sym) => UseIdle(w, sym, g);
    case Scope(body) =>
      var w1 := Entered(w, Top(w).fid);
      ScopeEntered(w);
      VisitAllIdle(w1, body, g);
      VisitAllCorrect(w1, body);
      ScopeIdle(w, VisitAll(w1, body), body, g);
    case Loop(body) =>
      VisitAllIdle(w, body, g);
      LoopedIdle(w, VisitAll(w, body), g);
    case Function(ps, needsArguments, body) => FunctionIdle(w, ps, needsArguments, body, g);
  }

  lemma UseIdle(w: Walk, sym: Symbol, g: Fid)
    requires Correct(w) && g in w.slots
    ensures Idle(w, Visit(w, Use(sym)), g) && Visit(w, Use(sym)).scopes == w.scopes
  {
    hide Inv, Access;
    AccessIdle(w, sym, g);
  }

  lemma LoopedIdle(w: Walk, w': Walk, g: Fid)
    requires Idle(w, w', g)
    ensures Idle(w, Looped(w, w'), g) && Looped(w, w').scopes == w'.scopes
  {
  }

  lemma ScopeIdle(w: Walk, w2: Walk, body: Nodes, g: Fid)
    requires Open(w) && var w1 := Entered(w, Top(w).fid);
      Idle(w1, w2, g) && Correct(w2) && SameStack(w1.scopes, w2.scopes) &&
      (!DeclaresAny(body) ==> w2.scopes == w1.scopes)
    requires DeclaresAny(body) ==> Top(w).fid != g
    ensures Idle(w, Left(w2), g) && (!DeclaresAny(body) ==> Left(w2).scopes == w.scopes)
  {
    hide Inv, Idle, FreedAll, SlotsOf, Closed;
    var w1 := Entered(w, Top(w).fid);
    StackOpen(w1, w2);
    IdleSlots(w1, w2, g);
    LeftIdle(w2, g);
    IdleTrans(w1, w2, Left(w2), g);
    SameIdle(w, w1, Left(w2), g);
    assert Left(w2).scopes == w2.scopes[..|w2.scopes| - 1];
    assert w1.scopes[..|w.scopes|] == w.scopes;
  }

  lemma SameIdle(w: Walk, w1: Walk, w': Walk, g: Fid)
    requires Idle(w1, w', g) && w1.slots == w.slots && w1.decls == w.decls
    ensures Idle(w, w', g)
  {
  }

  /** Inside a function only the function's own slots, and those of functions inside it, change. */
  lemma FunctionIdle(w: Walk, ps: seq<Symbol>, needsArguments: bool, body: Nodes, g: Fid)
    requires Correct(w) && g in w.slots
    ensures Idle(w, Visit(w, Function(ps, needsArguments, body)), g)
    ensures Visit(w, Function(ps, needsArguments, body)).scopes == w.scopes
    decreases body, 1
  {
    hide Correct, Idle, Declared, Params, Inv, Extends, Left;
    var w1 := Began(w, needsArguments);
    var w2 := Params(w1, ps);
    var w3 := VisitAll(w2, body);
    BeganIdle(w, needsArguments, g);
    BeganCorrect(w, needsArguments);
    IdleSlots(w, w1, g);
    ParamsIdle(w1, ps, g);
    ParamsCorrect(w1, ps);
    StackOpen(w1, w2);
    IdleSlots(w1, w2, g);
    VisitAllIdle(w2, body, g);
    VisitAllCorrect(w2, body);
    StackOpen(w2, w3);
    IdleSlots(w2, w3, g);
    LeftIdle(w3, g);
    IdleTrans(w, w1, w2, g);
    IdleTrans(w, w2, w3, g);
    IdleTrans(w, w3, Left(w3), g);
    FunctionBelow(w, ps, needsArguments, body);
  }

  lemma BeganIdle(w: Walk, needsArguments: bool, g: Fid)
    requires Correct(w) && g in w.slots
    ensures Idle(w, Began(w, needsArguments), g)
    ensures Open(Began(w, needsArguments)) && Top(Began(w, needsArguments)).fid != g
  {
    hide Table, Owned, Nested, ScopesOK, Addressed;
    assert g < w.next;
    var w0 := Entered(NewFunction(w), w.next);
    assert w0.slots[g] == w.slots[g];
    DeclaredIdle(w0, ARGUMENTS, g);
  }

  /** The scopes around the innermost one stay as they are. */
  ghost predicate Below(w: Walk, w': Walk) {
    |w'.scopes| == |w.scopes| && forall k :: 0 <= k < |w.scopes| - 1 ==> w'.scopes[k] == w.scopes[k]
  }

  lemma AccessBelow(w: Walk, sym: Symbol)
    ensures Access(w, sym).scopes == w.scopes
  {
  }

  lemma DeclaredBelow(w: Walk, sym: Symbol)
    ensures Below(w, Declared(w, sym))
  {
    hide Allocated;
  }

  lemma {:induction false} ParamsBelow(w: Walk, ps: seq<Symbol>)
    ensures Below(w, Params(w, ps))
    decreases |ps|
  {
    hide Access, Declared;
    ParamsUnfold(w, ps);
    if |ps| > 0 {
      var w1, p := Params(w, ps[..|ps| - 1]), ps[|ps| - 1];
      ParamsBelow(w, ps[..|ps| - 1]);
      AccessBelow(w1, p);
      DeclaredBelow(Access(w1, p), p);
    }
  }

  /** What a scope or function leaves is the stack it found. */
  lemma LeftBelow(w: Walk, w1: Walk, w2: Walk)
    requires Below(w1, w2) && Open(w2) && |w1.scopes| == |w.scopes| + 1 && w1.scopes[..|w.scopes|] == w.scopes
    ensures Left(w2).scopes == w.scopes
  {
    hide FreedAll, SlotsOf, Closed;
    forall k | 0 <= k < |w.scopes| ensures w2.scopes[k] == w.scopes[k] {
      assert w1.scopes[k] == w1.scopes[..|w.scopes|][k];
    }
  }

  lemma {:induction false} VisitBelow(w: Walk, n: Node)
    requires Correct(w) && Open(w)
    ensures Below(w, Visit(w, n)) && (n.Scope? || n.Function? ==> Visit(w, n).scopes == w.scopes)
    decreases n, 0
  {
    hide Correct, Access, Declared, Params, Inv, Extends, Left, Began, Looped, Below;
    match n
    case Declare(sym) =>
      AccessBelow(w, sym);
      DeclaredBelow(w, sym);
      DeclaredBelow(Access(w, sym), sym);
      SameBelow(w, Access(w, sym), Declared(Access(w, sym), sym));
    case Use(sym) => UseCorrect(w, sym); EqualBelow(w, Visit(w, n));
    case Scope(body) =>
      var w1 := Entered(w, Top(w).fid);
      ScopeEntered(w);
      VisitAllBelow(w1, body);
      VisitAllCorrect(w1, body);
      EnteredOpen(w, w1, VisitAll(w1, body));
      EqualBelow(w, Visit(w, n));
    case Loop(body) =>
      VisitAllBelow(w, body);
      LoopedBelow(w, VisitAll(w, body));
    case Function(ps, needsArguments, body) => FunctionBelow(w, ps, needsArguments, body); EqualBelow(w, Visit(w, n));
  }

  lemma SameBelow(w: Walk, w1: Walk, w': Walk)
    requires w1.scopes == w.scopes && Below(w1, w')
    ensures Below(w, w')
  {
  }

  lemma EqualBelow(w: Walk, w': Walk)
    ensures w'.scopes == w.scopes ==> Below(w, w')
  {
  }

  lemma LoopedBelow(w: Walk, w': Walk)
    requires Below(w, w')
    ensures Below(w, Looped(w, w'))
  {
  }

  lemma EnteredOpen(w: Walk, w1: Walk, w2: Walk)
    requires Open(w) && w1 == Entered(w, Top(w).fid) && Below(w1, w2) && Correct(w2)
    ensures Open(w2) && Left(w2).scopes == w.scopes
  {
    hide Inv;
    CorrectInv(w2);
    TopInside(w2);
    LeftBelow(w, w1, w2);
  }

  lemma FunctionBelow(w: Walk, ps: seq<Symbol>, needsArguments: bool, body: Nodes)
    requires Correct(w)
    ensures Visit(w, Function(ps, needsArguments, body)).scopes == w.scopes
    decreases body, 1
  {
    hide Correct, Params, Inv, Extends, Left, Began, Below;
    var w1 := Began(w, needsArguments);
    var w2 := Params(w1, ps);
    var w3 := VisitAll(w2, body);
    BeganCorrect(w, needsArguments);
    BeganScopes(w, needsArguments);
    ParamsBelow(w1, ps);
    ParamsCorrect(w1, ps);
    OpenNow(w2);
    VisitAllBelow(w2, body);
    VisitAllCorrect(w2, body);
    OpenNow(w3);
    BelowTrans(w1, w2, w3);
    LeftBelow(w, w1, w3);
  }

  lemma OpenNow(w: Walk)
    requires Correct(w)
    ensures |w.scopes| > 0 ==> Open(w)
  {
    hide Inv;
    CorrectInv(w);
    if |w.scopes| > 0 {
      TopInside(w);
    }
  }

  lemma BeganScopes(w: Walk, needsArguments: bool)
    ensures |Began(w, needsArguments).scopes| == |w.scopes| + 1
    ensures Began(w, needsArguments).scopes[..|w.scopes|] == w.scopes
  {
    hide Declared, Below;
    var w0 := Entered(NewFunction(w), w.next);
    DeclaredBelow(w0, ARGUMENTS);
    BelowPrefix(w, w0, Declared(w0, ARGUMENTS));
  }

  lemma BelowPrefix(w: Walk, w0: Walk, w': Walk)
    requires Below(w0, w') && |w0.scopes| == |w.scopes| + 1 && w0.scopes[..|w.scopes|] == w.scopes
    ensures |w'.scopes| == |w.scopes| + 1 && w'.scopes[..|w.scopes|] == w.scopes
  {
    forall k | 0 <= k < |w.scopes| ensures w'.scopes[k] == w.scopes[k] {
      assert w0.scopes[k] == w0.scopes[..|w.scopes|][k];
    }
  }

  lemma BelowTrans(a: Walk, b: Walk, c: Walk)
    requires Below(a, b) && Below(b, c)
    ensures Below(a, c) && (|c.scopes| > 0 ==> |b.scopes| > 0)
  {
  }

  lemma {:induction false} VisitAllBelow(w: Walk, ns: Nodes)
    requires Correct(w) && (|w.scopes| > 0 ==> Open(w))
    ensures |w.scopes| > 0 ==> Below(w, VisitAll(w, ns))
    decreases ns, 0
  {
    hide Correct, Extends, Below;
    match ns
    case Done => EqualBelow(w, w);
    case Then(n, rest) =>
      if |w.scopes| > 0 {
        VisitBelow(w, n);
        VisitCorrect(w, n);
        OpenNow(Visit(w, n));
        VisitAllBelow(Visit(w, n), rest);
        BelowTrans2(w, Visit(w, n), VisitAll(w, ns));
      }
  }

  lemma BelowTrans2(a: Walk, b: Walk, c: Walk)
    requires Below(a, b) && (|b.scopes| > 0 ==> Below(b, c)) && |a.scopes| > 0
    ensures Below(a, c)
  {
  }

  lemma {:induction false} VisitAllIdle(w: Walk, ns: Nodes, g: Fid)
    requires Correct(w) && g in w.slots && Open(w) && (DeclaresAny(ns) ==> Top(w).fid != g)
    ensures Idle(w, VisitAll(w, ns), g) && (!DeclaresAny(ns) ==> VisitAll(w, ns).scopes == w.scopes)
    decreases ns, 0
  {
    hide Correct, Extends, Idle;
    match ns
    case Done => IdleSame(w, g);
    case Then(n, rest) =>
      var w1 := Visit(w, n);
      VisitIdle(w, n, g);
      VisitCorrect(w, n);
      StackOpen(w, w1);
      IdleSlots(w, w1, g);
      VisitAllIdle(w1, rest, g);
      IdleTrans(w, w1, VisitAll(w, ns), g);
  }

  /** Between the two moments slot `k` of function `f` was given to some declaration. */
  ghost predicate HandedOut(w: Walk, w': Walk, f: Fid, k: nat) {
    exists j :: |w.decls| <= j < |w'.decls| && w'.decls[j].fid == f && w'.decls[j].slot == k
  }

  lemma HandedOutLater(w: Walk, w1: Walk, w2: Walk, f: Fid, k: nat)
    requires HandedOut(w, w1, f, k) && Extends(w1, w2)
    ensures HandedOut(w, w2, f, k)
  {
    var j :| |w.decls| <= j < |w1.decls| && w1.decls[j].fid == f && w1.decls[j].slot == k;
    assert Kept(w1.decls[j], w2.decls[j]);
  }

  lemma HandedOutEarlier(w: Walk, w0: Walk, w1: Walk, f: Fid, k: nat)
    requires HandedOut(w0, w1, f, k) && |w.decls| <= |w0.decls|
    ensures HandedOut(w, w1, f, k)
  {
    var j :| |w0.decls| <= j < |w1.decls| && w1.decls[j].fid == f && w1.decls[j].slot == k;
    assert w1.decls[j].fid == f;
  }

  lemma {:induction false} SameLast(a: seq<Slot>, b: seq<Slot>)
    requires SameActive(a, b)
    ensures LastInactive(a) == LastInactive(b)
    decreases |a|
  {
    if |a| > 0 && a[|a| - 1].active {
      SameLast(a[..|a| - 1], b[..|b| - 1]);
    }
  }

  /** Slot `k` is the next one to be recycled. */
  predicate NextIs(w: Walk, k: nat) {
    Open(w) && LastInactive(w.slots[Top(w).fid]) == Some(k)
  }

  lemma DeclareTakes(w: Walk, sym: Symbol, k: nat)
    requires Correct(w) && NextIs(w, k) && Top(w).names == map[]
    ensures HandedOut(w, Visit(w, Declare(sym)), Top(w).fid, k)
  {
    hide Table, SlotsOK, ScopesOK, Nested, Addressed, LastInactive;
    CorrectInv(w);
    AccessIdle(w, sym, Top(w).fid);
    var w1 := Access(w, sym);
    SameLast(w.slots[Top(w).fid], w1.slots[Top(w).fid]);
    var w2 := Declared(w1, sym);
    assert w2.decls[|w1.decls|].slot == k;
  }

  lemma {:induction false} VisitTakes(w: Walk, n: Node, k: nat)
    requires Correct(w) && NextIs(w, k) && Declares(n) && (n.Scope? || Top(w).names == map[])
    ensures HandedOut(w, Visit(w, n), Top(w).fid, k)
    decreases n
  {
    hide Correct, Extends, HandedOut, Left, Looped, LastInactive;
    var f := Top(w).fid;
    match n
    case Declare(sym) => DeclareTakes(w, sym, k);
    case Scope(body) =>
      var w1 := Entered(w, f);
      ScopeEntered(w);
      VisitAllTakes(w1, body, k);
      VisitAllCorrect(w1, body);
      var w2 := VisitAll(w1, body);
      LeftExtends(w2);
      HandedOutLater(w1, w2, Left(w2), f, k);
      HandedOutEarlier(w, w1, Left(w2), f, k);
    case Loop(body) =>
      VisitAllTakes(w, body, k);
      VisitAllCorrect(w, body);
      var w2 := VisitAll(w, body);
      LoopedCorrect(w, w2);
      HandedOutLater(w, w2, Looped(w, w2), f, k);
  }

  lemma {:induction false} VisitAllTakes(w: Walk, ns: Nodes, k: nat)
    requires Correct(w) && NextIs(w, k) && DeclaresAny(ns) && Top(w).names == map[]
    ensures HandedOut(w, VisitAll(w, ns), Top(w).fid, k)
    decreases ns
  {
    hide Correct, Extends, HandedOut, LastInactive, Idle;
    var f := Top(w).fid;
    var w1 := Visit(w, ns.head);
    VisitCorrect(w, ns.head);
    if Declares(ns.head) {
      VisitTakes(w, ns.head, k);
      VisitAllCorrect(w1, ns.tail);
      HandedOutLater(w, w1, VisitAll(w1, ns.tail), f, k);
    } else {
      VisitIdle(w, ns.head, f);
      StackOpen(w, w1);
      IdleLast(w, w1, f);
      VisitAllTakes(w1, ns.tail, k);
      HandedOutEarlier(w, w1, VisitAll(w1, ns.tail), f, k);
    }
  }

  lemma IdleLast(w: Walk, w': Walk, f: Fid)
    requires Idle(w, w', f)
    ensures f in w'.slots && LastInactive(w'.slots[f]) == LastInactive(w.slots[f]) && |w.decls| <= |w'.decls|
  {
    SameLast(w.slots[f], w'.slots[f]);
  }

  /** A `try` without handler keeps the exception in a scope of its own, which ends before the finally block. */
  function ExceptionScope(e: Symbol): Node {
    Scope(Then(Declare(e), Done))
  }

  /** The one declaration of a new scope gets the slot the allocation says. */
  lemma DeclaredOnly(w: Walk, e: Symbol) returns (k: nat)
    requires Correct(w) && Open(w) && Top(w).names == map[]
    ensures var w2 := Declared(w, e); var f := Top(w).fid;
      && Open(w2) && Top(w2).fid == f && Top(w2).names == map[e := |w.decls|] && |w2.decls| == |w.decls| + 1
      && w2.decls[|w.decls|].slot == k && w2.decls[|w.decls|].fid == f && k < |w2.slots[f]|
      && w2.slots[f][k].active && !w2.slots[f][k].leaked
      && forall i :: k < i < |w2.slots[f]| ==> w2.slots[f][i].active
  {
    hide Table, ScopesOK, Nested, Addressed, Owned;
    k := Allocated(w.slots[Top(w).fid], false, false).1;
    assert Pinned(w.slots[Top(w).fid]);
  }

  /** Leaving a scope with one declaration makes its slot the next one. */
  lemma LeftOnly(w: Walk, x: nat, e: Symbol, k: nat)
    requires Open(w) && Top(w).names == map[e := x] && x < |w.decls| && w.decls[x].slot == k
    requires k < |w.slots[Top(w).fid]| && !w.slots[Top(w).fid][k].leaked
    requires forall i :: k < i < |w.slots[Top(w).fid]| ==> w.slots[Top(w).fid][i].active
    ensures LastInactive(Left(w).slots[Top(w).fid]) == Some(k) && |Left(w).decls| == |w.decls|
    ensures Left(w).decls[x].slot == k && Left(w).decls[x].fid == w.decls[x].fid
  {
    hide SlotsOf, FreedAll, LastInactive;
    OneSlot(w.decls, Top(w).names, x, e);
    OneFreed(w.slots[Top(w).fid], k);
  }

  lemma OneSlot(decls: seq<Decl>, names: map<Symbol, nat>, x: nat, e: Symbol)
    requires names == map[e := x] && x < |decls|
    ensures SlotsOf(decls, names.Values) == {decls[x].slot}
  {
    assert e in names && names[e] == x;
    assert x in names.Values;
    assert names.Values == {x};
  }

  lemma OneFreed(slots: seq<Slot>, k: nat)
    requires k < |slots| && !slots[k].leaked && forall i :: k < i < |slots| ==> slots[i].active
    ensures LastInactive(FreedAll(slots, {k})) == Some(k)
  {
    var freed := FreedAll(slots, {k});
    assert |freed| == |slots| && !freed[k].active && forall i :: k < i < |freed| ==> freed[i].active;
  }

  /** When the exception's scope is left, its slot is the next one to be recycled. */
  lemma SlotIsNext(w: Walk, e: Symbol)
    requires Correct(w) && Open(w)
    ensures var w1 := Visit(w, ExceptionScope(e)); var x := |w.decls|;
      && Correct(w1) && w1.scopes == w.scopes && Open(w1) && |w1.decls| == x + 1 && w1.decls[x].fid == Top(w).fid
      && LastInactive(w1.slots[Top(w).fid]) == Some(w1.decls[x].slot)
  {
    hide Correct, LastInactive, Extends, Access, Declared, Left, Below;
    var f := Top(w).fid;
    var w0 := Entered(w, f);
    ScopeEntered(w);
    VisitCorrect(w, ExceptionScope(e));
    VisitBelow(w, ExceptionScope(e));
    AccessCorrect(w0, e);
    AccessSize(w0, e);
    var w1 := Access(w0, e);
    StackOpen(w0, w1);
    var k := DeclaredOnly(w1, e);
    var w2 := Declared(w1, e);
    assert Visit(w0, Declare(e)) == w2;
    assert VisitAll(w0, Then(Declare(e), Done)) == VisitAll(w2, Done) == w2;
    LeftOnly(w2, |w.decls|, e, k);
    assert Visit(w, ExceptionScope(e)) == Left(w2);
    OpenNow(Left(w2));
  }

  lemma AccessSize(w: Walk, sym: Symbol)
    ensures |Access(w, sym).decls| == |w.decls|
  {
  }

  /**
   * The finally block of a `try` without handler is given the exception's slot again exactly if it
   * declares a variable.
   */
  lemma ExceptionSlotReused(w: Walk, e: Symbol, fin: Nodes)
    requires Correct(w) && Open(w)
    ensures var w1 := Visit(w, ExceptionScope(e)); var exc := |w.decls|;
      (exc < |w1.decls| && w1.decls[exc].fid == Top(w).fid &&
       (HandedOut(w1, Visit(w1, Scope(fin)), Top(w).fid, w1.decls[exc].slot) <==> DeclaresAny(fin)))
  {
    hide Correct, LastInactive, Extends, Visit, VisitAll, HandedOut, Idle;
    var f := Top(w).fid;
    SlotIsNext(w, e);
    var w1 := Visit(w, ExceptionScope(e));
    var k := w1.decls[|w.decls|].slot;
    if DeclaresAny(fin) {
      VisitTakes(w1, Scope(fin), k);
    } else {
      VisitIdle(w1, Scope(fin), f);
      IdleHandsOutNothing(w1, Visit(w1, Scope(fin)), f, k);
    }
  }

  /** The first variable of the finally block has the exception's slot. */
  lemma FinallyLocalSlot(w: Walk, e: Symbol, x: Symbol)
    requires Correct(w) && Open(w)
    ensures var w2 := Visit(Visit(w, ExceptionScope(e)), ExceptionScope(x)); var exc := |w.decls|;
      (|w2.decls| == exc + 2 && w2.decls[exc].fid == w2.decls[exc + 1].fid == Top(w).fid &&
       w2.decls[exc + 1].slot == w2.decls[exc].slot)
  {
    hide Correct, LastInactive, Extends, Visit, VisitAll;
    SlotIsNext(w, e);
    var w1 := Visit(w, ExceptionScope(e));
    SlotIsNext(w1, x);
    var w2 := Visit(w1, ExceptionScope(x));
    VisitCorrect(w1, ExceptionScope(x));
    SameDecl(w1, w2, |w.decls|);
    assert Declares(ExceptionScope(x)) by {
      assert DeclaresAny(Then(Declare(x), Done));
    }
    VisitTakes(w1, ExceptionScope(x), w1.decls[|w.decls|].slot);
  }

  lemma SameDecl(w: Walk, w': Walk, i: nat)
    requires Extends(w, w') && i < |w.decls|
    ensures i < |w'.decls| && w'.decls[i].slot == w.decls[i].slot && w'.decls[i].fid == w.decls[i].fid
  {
    assert Kept(w.decls[i], w'.decls[i]);
  }

  lemma IdleHandsOutNothing(w: Walk, w': Walk, f: Fid, k: nat)
    requires Idle(w, w', f)
    ensures !HandedOut(w, w', f, k)
  {
  }

  // ----- the main results about the walk -----

  const START: Walk := Walk(map[], map[], [], [], [], [], 0, 1, 0)

  function Resolve(tree: Nodes): Walk {
    VisitAll(START, tree)
  }

  lemma ResolveCorrect(tree: Nodes)
    ensures Correct(Resolve(tree)) && Resolve(tree).scopes == []
  {
    assert Correct(START);
    VisitAllCorrect(START, tree);
  }

  /** The declaration is in scope at that moment of the walk. */
  predicate InScope(d: Decl, t: nat) {
    d.birth <= t && (d.death.Some? ==> t < d.death.value)
  }

  /** At every moment the declarations of a function that are in scope have slots of their own. */
  lemma InScopeDistinct(tree: Nodes, i: nat, j: nat, t: nat)
    requires var ds := Resolve(tree).decls;
      i < |ds| && j < |ds| && i != j && ds[i].fid == ds[j].fid && InScope(ds[i], t) && InScope(ds[j], t)
    ensures var w := Resolve(tree);
      w.decls[i].slot != w.decls[j].slot &&
      w.decls[i].fid in w.slots && w.decls[i].slot < |w.slots[w.decls[i].fid]|
  {
    hide Resolve;
    ResolveCorrect(tree);
    var w := Resolve(tree);
    assert Apart(w.decls[i], w.decls[j]) || Apart(w.decls[j], w.decls[i]);
    assert Held(w.slots, w.decls[i], w.time);
    if i < j {
      assert Apart(w.decls[i], w.decls[j]);
    } else {
      assert Apart(w.decls[j], w.decls[i]);
    }
  }

  /** The slot of a captured variable is never handed out again. */
  lemma CapturedSlotKept(tree: Nodes, i: nat, j: nat)
    requires var ds := Resolve(tree).decls; i < j < |ds| && ds[i].captured && ds[i].fid == ds[j].fid
    ensures var ds := Resolve(tree).decls; ds[i].slot != ds[j].slot
  {
    hide Resolve;
    ResolveCorrect(tree);
    assert Apart(Resolve(tree).decls[i], Resolve(tree).decls[j]);
  }

  /** An appended slot had no owner before; a recycled one had. */
  lemma AppendedIsFresh(tree: Nodes, j: nat)
    requires j < |Resolve(tree).decls|
    ensures var ds := Resolve(tree).decls;
      ds[j].appended <==> forall i :: 0 <= i < j ==> !SameSlot(ds[i], ds[j])
  {
    hide Resolve;
    ResolveCorrect(tree);
    var ds := Resolve(tree).decls;
    if ds[j].appended {
      forall i | 0 <= i < j ensures !SameSlot(ds[i], ds[j]) {
        assert Apart(ds[i], ds[j]);
      }
    } else {
      assert Recycled(ds, j);
    }
  }

  /**
   * A use is addressed by the slot of the declaration it refers to and by the number of
   * functions in between; across functions that declaration counts as captured.
   */
  lemma UsesAddressed(tree: Nodes, k: nat)
    requires k < |Resolve(tree).uses|
    ensures Addressed(Resolve(tree), Resolve(tree).uses[k])
  {
    hide Resolve;
    ResolveCorrect(tree);
  }

  /** The innermost function has given out its first `n` slots and freed none. */
  predicate Full(w: Walk, n: nat) {
    Open(w) && |w.slots[Top(w).fid]| == n && forall k :: 0 <= k < n ==> w.slots[Top(w).fid][k].active
  }

  predicate HasSlot(w: Walk, sym: Symbol, slot: nat) {
    Open(w) && sym in Top(w).names && Top(w).names[sym] < |w.decls| && w.decls[Top(w).names[sym]].slot == slot
  }

  lemma AccessFull(w: Walk, sym: Symbol, n: nat)
    requires Full(w, n)
    ensures Full(Access(w, sym), n) && Top(Access(w, sym)) == Top(w)
    ensures forall s, k :: HasSlot(w, s, k) ==> HasSlot(Access(w, sym), s, k)
  {
  }

  lemma DeclaredFull(w: Walk, sym: Symbol, n: nat)
    requires Full(w, n) && sym !in Top(w).names
    ensures var w' := Declared(w, sym);
      Full(w', n + 1) && HasSlot(w', sym, n) && Top(w').fid == Top(w).fid && Top(w').names.Keys ==
          Top(w).names.Keys + {sym}
    ensures forall s, k :: HasSlot(w, s, k) && s != sym ==> HasSlot(Declared(w, sym), s, k)
  {
  }

  /** One more parameter. */
  lemma ParamStep(w: Walk, p: Symbol, n: nat) returns (w': Walk)
    requires Full(w, n) && p !in Top(w).names
    ensures w' == Declared(Access(w, p), p) && Full(w', n + 1) && Top(w').fid == Top(w).fid && HasSlot(w', p, n)
    ensures forall s :: s in Top(w').names <==> s in Top(w).names || s == p
    ensures forall s, k :: HasSlot(w, s, k) && s != p ==> HasSlot(w', s, k)
  {
    hide Full, HasSlot, Access, Declared;
    AccessFull(w, p, n);
    FullOpen(Access(w, p), n);
    DeclaredFull(Access(w, p), p, n);
    w' := Declared(Access(w, p), p);
    FullOpen(w', n + 1);
  }

  lemma {:induction false} ParamsFull(w: Walk, ps: seq<Symbol>, n: nat)
    requires Full(w, n) && (forall a, b :: 0 <= a < b < |ps| ==> ps[a] != ps[b])
    requires forall a :: 0 <= a < |ps| ==> ps[a] !in Top(w).names
    ensures var w' := Params(w, ps);
      Full(w', n + |ps|) && Top(w').fid == Top(w).fid &&
          (forall s :: s in Top(w').names <==> s in Top(w).names || s in ps) &&
      forall a :: 0 <= a < |ps| ==> HasSlot(w', ps[a], a + n)
    decreases |ps|
  {
    hide Full, HasSlot, Access, Declared, Params;
    FullOpen(w, n);
    ParamsUnfold(w, ps);
    if |ps| > 0 {
      var qs, p := ps[..|ps| - 1], ps[|ps| - 1];
      ParamsFull(w, qs, n);
      var w1 := Params(w, qs);
      FullOpen(w1, n + |qs|);
      assert p !in qs;
      assert p in ps;
      assert p !in Top(w1).names;
      var w' := ParamStep(w1, p, n + |qs|);
      forall a | 0 <= a < |ps| ensures HasSlot(w', ps[a], a + n) {
        if a < |qs| {
          assert HasSlot(w1, qs[a], a + n);
        }
      }
      LastIn(ps);
    }
  }

  lemma LastIn(ps: seq<Symbol>)
    requires |ps| > 0
    ensures forall s :: s in ps <==> s in ps[..|ps| - 1] || s == ps[|ps| - 1]
  {
    assert ps == ps[..|ps| - 1] + [ps[|ps| - 1]];
  }

  lemma ParamsUnfold(w: Walk, ps: seq<Symbol>)
    ensures if |ps| == 0 then Params(w, ps) == w
            else var w1 := Params(w, ps[..|ps| - 1]); var p := ps[|ps| - 1];
              Params(w, ps) == if Open(w1) && p in Top(w1).names then Access(w1, p) else Declared(Access(w1, p), p)
  {
    hide Access, Declared;
  }

  lemma FullOpen(w: Walk, n: nat)
    requires Full(w, n)
    ensures Open(w)
  {
  }

  /** Distinct parameters take the first slots in order, behind `arguments` if there is one. */
  lemma ParameterSlots(w: Walk, needsArguments: bool, ps: seq<Symbol>)
    requires (forall a, b :: 0 <= a < b < |ps| ==> ps[a] != ps[b]) && ARGUMENTS !in ps
    ensures var w' := Params(Began(w, needsArguments), ps); var shift := if needsArguments then 1 else 0;
      Open(w') && Top(w').fid == w.next && |w'.slots[w.next]| == shift + |ps| &&
      (needsArguments ==> HasSlot(Began(w, needsArguments), ARGUMENTS, 0)) &&
      forall i :: 0 <= i < |ps| ==> HasSlot(w', ps[i], i + shift)
  {
    var w1 := Entered(NewFunction(w), w.next);
    assert Full(w1, 0);
    if needsArguments {
      DeclaredFull(w1, ARGUMENTS, 0);
    }
    ParamsFull(Began(w, needsArguments), ps, if needsArguments then 1 else 0);
  }
}
