/**
 * Which declaration a name refers to: the walk's search through its scopes against lexical scoping,
 * first by lifetimes, then against a resolver that carries an environment down the tree.
 */
module Scoping {
  import opened Values
  import opened SlotAllocation

  // ----- a use refers to the latest declaration of its name that is in scope -----

  /** At that moment of the walk the declaration is in scope. */
  predicate InScope(d: Decl, at: nat) {
    d.birth < at && (d.death.Some? ==> at < d.death.value)
  }

  /** The declaration has the use's name and is in scope where the use stands. */
  predicate Visible(d: Decl, u: Resolved) {
    d.sym == u.sym && InScope(d, u.time)
  }

  /** The use refers to a declaration of its name in scope there, and no later one of that name is. */
  ghost predicate RefersTo(w: Walk, u: Resolved) {
    u.time < w.time && u.decl < |w.decls| && Visible(w.decls[u.decl], u) &&
    forall d :: u.decl < d < |w.decls| ==> !Visible(w.decls[d], u)
  }

  predicate FiledIn(w: Walk, d: nat, k: int)
    requires d < |w.decls|
  {
    0 <= k < |w.scopes| && w.decls[d].sym in w.scopes[k].names && w.scopes[k].names[w.decls[d].sym] == d
  }

  /** Every open declaration is found under its name in some scope. */
  ghost predicate Filed(w: Walk) {
    forall d :: 0 <= d < |w.decls| && w.decls[d].death.None? ==> exists k :: FiledIn(w, d, k)
  }

  /** What inner scopes declare is younger. */
  ghost predicate Stacked(w: Walk) {
    forall k, k', sym, sym' :: 0 <= k < k' < |w.scopes| && sym in w.scopes[k].names && sym' in w.scopes[k'].names ==>
      w.scopes[k].names[sym] < w.scopes[k'].names[sym']
  }

  ghost predicate Scoped(w: Walk) {
    Filed(w) && Stacked(w) && forall i :: 0 <= i < |w.uses| ==> RefersTo(w, w.uses[i])
  }

  predicate Aged(a: Decl, b: Decl, time: nat) {
    b.sym == a.sym && b.birth == a.birth &&
    (b.death == a.death || (a.death.None? && b.death.Some? && b.death.value >= time))
  }

  /** A step of the walk closes and adds declarations only from now on. */
  ghost predicate Ages(w: Walk, w': Walk) {
    w.time <= w'.time && |w.decls| <= |w'.decls| &&
    (forall d :: 0 <= d < |w.decls| ==> Aged(w.decls[d], w'.decls[d], w.time)) &&
    (forall d :: |w.decls| <= d < |w'.decls| ==> w.time <= w'.decls[d].birth)
  }

  lemma StillRefers(w: Walk, w': Walk, u: Resolved)
    requires RefersTo(w, u) && Ages(w, w')
    ensures RefersTo(w', u)
  {
    assert Aged(w.decls[u.decl], w'.decls[u.decl], w.time);
    forall d | u.decl < d < |w'.decls| ensures !Visible(w'.decls[d], u) {
      if d < |w.decls| {
        assert Aged(w.decls[d], w'.decls[d], w.time) && !Visible(w.decls[d], u);
      }
    }
  }

  lemma StillScoped(w: Walk, w': Walk)
    requires Scoped(w) && Ages(w, w') && w'.uses == w.uses && Filed(w') && Stacked(w')
    ensures Scoped(w')
  {
    hide RefersTo, Ages;
    forall i | 0 <= i < |w'.uses| ensures RefersTo(w', w'.uses[i]) {
      StillRefers(w, w', w.uses[i]);
    }
  }

  lemma SameFiles(w: Walk, w': Walk)
    requires Filed(w) && w'.scopes == w.scopes && |w'.decls| == |w.decls|
    requires forall d :: 0 <= d < |w.decls| ==>
      w'.decls[d].sym == w.decls[d].sym && w'.decls[d].death == w.decls[d].death
    ensures Filed(w')
  {
    forall d | 0 <= d < |w'.decls| && w'.decls[d].death.None? ensures exists k :: FiledIn(w', d, k) {
      var k :| FiledIn(w, d, k);
      assert FiledIn(w', d, k);
    }
  }

  lemma AccessScoped(w: Walk, sym: Symbol)
    requires Inv(w) && Scoped(w)
    ensures Scoped(Access(w, sym))
  {
    hide Table, SlotsOK, Lookup;
    AccessKeeps(w, sym);
    SameFiles(w, Access(w, sym));
    StillScoped(w, Access(w, sym));
  }

  lemma DeclaredScoped(w: Walk, sym: Symbol)
    requires Inv(w) && Scoped(w)
    ensures Scoped(Declared(w, sym))
  {
    hide Table, SlotsOK, Allocated, Filed, Stacked, RefersTo;
    if Open(w) && sym !in Top(w).names {
      NewFiled(w, sym);
      NewStacked(w, sym);
    } else {
      UnchangedFiles(w, Declared(w, sym));
    }
    StillScoped(w, Declared(w, sym));
  }

  lemma UnchangedFiles(w: Walk, w': Walk)
    requires Filed(w) && Stacked(w) && w'.scopes == w.scopes && w'.decls == w.decls
    ensures Filed(w') && Stacked(w')
  {
    SameFiles(w, w');
  }

  lemma NewFiled(w: Walk, sym: Symbol)
    requires Filed(w) && Open(w) && sym !in Top(w).names
    ensures Filed(Declared(w, sym))
  {
    hide Allocated;
    var w' := Declared(w, sym);
    forall d | 0 <= d < |w'.decls| && w'.decls[d].death.None? ensures exists k :: FiledIn(w', d, k) {
      if d < |w.decls| {
        var k :| FiledIn(w, d, k);
        assert FiledIn(w', d, k);
      } else {
        assert FiledIn(w', d, |w.scopes| - 1);
      }
    }
  }

  lemma NewStacked(w: Walk, sym: Symbol)
    requires ScopesOK(w) && Stacked(w) && Open(w) && sym !in Top(w).names
    ensures Stacked(Declared(w, sym))
  {
    hide Allocated;
  }

  lemma LeftScoped(w: Walk)
    requires Inv(w) && Open(w) && Scoped(w)
    ensures Scoped(Left(w))
  {
    hide Table, SlotsOK, FreedAll, SlotsOf;
    var w', n := Left(w), |w.scopes| - 1;
    TopOpen(w);
    forall d | 0 <= d < |w'.decls| && w'.decls[d].death.None? ensures exists k :: FiledIn(w', d, k) {
      assert d !in Top(w).names.Values;
      var k :| FiledIn(w, d, k);
      assert k != n;
      assert FiledIn(w', d, k);
    }
    StillScoped(w, w');
  }

  lemma EnteredScoped(w: Walk, f: Fid)
    requires Scoped(w)
    ensures Scoped(Entered(w, f))
  {
    var w' := Entered(w, f);
    forall d | 0 <= d < |w'.decls| && w'.decls[d].death.None? ensures exists k :: FiledIn(w', d, k) {
      var k :| FiledIn(w, d, k);
      assert FiledIn(w', d, k);
    }
    StillScoped(w, w');
  }

  lemma NewFunctionScoped(w: Walk)
    requires Scoped(w)
    ensures Scoped(NewFunction(w))
  {
    SameFiles(w, NewFunction(w));
    StillScoped(w, NewFunction(w));
  }

  lemma LoopedScoped(w: Walk, w': Walk)
    requires Scoped(w')
    ensures Scoped(Looped(w, w'))
  {
    SameFiles(w', Looped(w, w'));
    StillScoped(w', Looped(w, w'));
  }

  /** What is found has the name and is in scope. */
  lemma FoundIsInScope(w: Walk, sym: Symbol)
    requires Inv(w) && Lookup(w.scopes, sym).Some?
    ensures var d := Lookup(w.scopes, sym).value.0;
      d < |w.decls| && w.decls[d].sym == sym && InScope(w.decls[d], w.time) && w.decls[d].death.None?
  {
    hide Table, Lookup;
    LookupInnermost(w.scopes, sym);
    var k :| Innermost(w.scopes, sym, k);
    var d := w.scopes[k].names[sym];
    assert Held(w.slots, w.decls[d], w.time);
  }

  /** Another declaration of the name that is in scope is older than the one found. */
  lemma FoundIsLatest(w: Walk, sym: Symbol, d: nat)
    requires Inv(w) && Filed(w) && Stacked(w) && d < |w.decls| && w.decls[d].sym == sym && InScope(w.decls[d], w.time)
    ensures Lookup(w.scopes, sym).Some?
    ensures d <= Lookup(w.scopes, sym).value.0 < |w.decls|
  {
    hide Inv, Lookup, InScope, Stacked;
    StillOpen(w, d);
    var k' :| FiledIn(w, d, k');
    LookupInnermost(w.scopes, sym);
    assert sym in w.scopes[k'].names;
    var k :| Innermost(w.scopes, sym, k);
    FoundIsInScope(w, sym);
    YoungerInside(w, k', k, sym);
  }

  lemma StillOpen(w: Walk, d: nat)
    requires Inv(w) && d < |w.decls| && InScope(w.decls[d], w.time)
    ensures w.decls[d].death.None?
  {
    hide Table, ScopesOK;
    assert Held(w.slots, w.decls[d], w.time);
  }

  lemma YoungerInside(w: Walk, k': int, k: int, sym: Symbol)
    requires Stacked(w) && 0 <= k' < |w.scopes| && 0 <= k < |w.scopes|
    requires sym in w.scopes[k'].names && Innermost(w.scopes, sym, k)
    ensures w.scopes[k'].names[sym] <= w.scopes[k].names[sym]
  {
    assert k' <= k;
  }

  lemma UseScoped(w: Walk, sym: Symbol)
    requires Inv(w) && Scoped(w)
    ensures Scoped(Visit(w, Use(sym)))
  {
    hide Access, Inv, RefersTo, Filed, Stacked, Lookup;
    var w1, w' := Access(w, sym), Visit(w, Use(sym));
    AccessKeeps(w, sym);
    AccessScoped(w, sym);
    AccessExtends(w, sym);
    LaterFiles(w1, w');
    forall i | 0 <= i < |w'.uses| ensures RefersTo(w', w'.uses[i]) {
      if i < |w.uses| {
        assert RefersTo(w1, w'.uses[i]);
        StillRefers(w1, w', w'.uses[i]);
      } else {
        UseRefers(w, sym);
      }
    }
  }

  lemma LaterFiles(w: Walk, w': Walk)
    requires Filed(w) && Stacked(w) && w'.scopes == w.scopes && w'.decls == w.decls && w.time <= w'.time
    ensures Filed(w') && Stacked(w') && Ages(w, w')
  {
    SameFiles(w, w');
  }

  lemma UseRefers(w: Walk, sym: Symbol)
    requires Inv(w) && Scoped(w) && |Visit(w, Use(sym)).uses| > |w.uses|
    ensures var w' := Visit(w, Use(sym)); |w'.uses| == |w.uses| + 1 && RefersTo(w', w'.uses[|w.uses|])
  {
    hide Table, SlotsOK, ScopesOK, Filed, Stacked, Lookup;
    var w' := Visit(w, Use(sym));
    AccessExtends(w, sym);
    FoundIsInScope(w, sym);
    var u := w'.uses[|w.uses|];
    assert w'.decls == Access(w, sym).decls;
    forall d | u.decl < d < |w'.decls| ensures !Visible(w'.decls[d], u) {
      if Visible(w'.decls[d], u) {
        FoundIsLatest(w, sym, d);
      }
    }
  }

  lemma {:induction false} ParamsScoped(w: Walk, ps: seq<Symbol>)
    requires Inv(w) && Scoped(w)
    ensures Scoped(Params(w, ps))
    decreases |ps|
  {
    hide Inv, Access, Declared, Scoped;
    ParamsUnfold(w, ps);
    if |ps| > 0 {
      var w1, p := Params(w, ps[..|ps| - 1]), ps[|ps| - 1];
      ParamsScoped(w, ps[..|ps| - 1]);
      ParamsKeep(w, ps[..|ps| - 1]);
      AccessScoped(w1, p);
      AccessKeeps(w1, p);
      DeclaredScoped(Access(w1, p), p);
    }
  }

  lemma BeganScoped(w: Walk, needsArguments: bool)
    requires Inv(w) && Scoped(w)
    ensures Scoped(Began(w, needsArguments))
  {
    hide Inv, Scoped, Declared, Entered;
    var w0 := NewFunction(w);
    NewFunctionScoped(w);
    NewFunctionKeeps(w);
    EnteredScoped(w0, w.next);
    EnteredKeeps(w0, w.next);
    DeclaredScoped(Entered(w0, w.next), ARGUMENTS);
  }

  /** Every step of the walk keeps it so. */
  lemma {:induction false} VisitScoped(w: Walk, n: Node)
    requires Correct(w) && Scoped(w)
    ensures Scoped(Visit(w, n))
    decreases n
  {
    hide Correct, Access, Declared, Params, Inv, Extends, Left, Scoped, Began, Looped;
    CorrectInv(w);
    match n
    case Declare(sym) =>
      AccessScoped(w, sym);
      AccessKeeps(w, sym);
      DeclaredScoped(w, sym);
      DeclaredScoped(Access(w, sym), sym);
    case Use(sym) => UseScoped(w, sym);
    case Scope(body) =>
      if Open(w) {
        var w1 := Entered(w, Top(w).fid);
        ScopeEntered(w);
        EnteredScoped(w, Top(w).fid);
        VisitAllScoped(w1, body);
        CloseScoped(w1, body);
      }
    case Loop(body) =>
      VisitAllScoped(w, body);
      LoopedScoped(w, VisitAll(w, body));
    case Function(ps, needsArguments, body) =>
      var w1 := Began(w, needsArguments);
      BeganScoped(w, needsArguments);
      BeganCorrect(w, needsArguments);
      CorrectInv(w1);
      ParamsScoped(w1, ps);
      ParamsCorrect(w1, ps);
      VisitAllScoped(Params(w1, ps), body);
      CloseScoped(Params(w1, ps), body);
  }

  lemma CloseScoped(w: Walk, body: Nodes)
    requires Correct(w) && |w.scopes| > 0 && Scoped(VisitAll(w, body))
    ensures Scoped(Left(VisitAll(w, body)))
  {
    hide Inv, Nested, Addressed, Scoped, VisitAll, Left;
    var w' := VisitAll(w, body);
    VisitAllCorrect(w, body);
    CorrectInv(w');
    TopInside(w');
    LeftScoped(w');
  }

  lemma {:induction false} VisitAllScoped(w: Walk, ns: Nodes)
    requires Correct(w) && Scoped(w)
    ensures Scoped(VisitAll(w, ns))
    decreases ns
  {
    hide Correct, Scoped, Extends;
    if ns.Then? {
      VisitScoped(w, ns.head);
      VisitCorrect(w, ns.head);
      VisitAllScoped(Visit(w, ns.head), ns.tail);
    }
  }

  /** Every use of the resolved tree refers to the latest declaration of its name in scope where it stands. */
  lemma UsesReferRightly(tree: Nodes)
    ensures forall u :: u in Resolve(tree).uses ==> RefersTo(Resolve(tree), u)
  {
    hide RefersTo, VisitAll;
    assert Correct(START) && Scoped(START);
    VisitAllScoped(START, tree);
  }

  /** A name is resolved wherever a declaration of it is in scope, and only there. */
  lemma ResolvedExactly(w: Walk, sym: Symbol)
    requires Correct(w) && Scoped(w) && Open(w)
    ensures |Visit(w, Use(sym)).uses| > |w.uses| <==>
            exists d :: 0 <= d < |w.decls| && w.decls[d].sym == sym && InScope(w.decls[d], w.time)
  {
    hide Inv, Nested, Addressed, Access, Lookup, InScope;
    CorrectInv(w);
    AccessExtends(w, sym);
    if Lookup(w.scopes, sym).Some? {
      FoundIsInScope(w, sym);
    } else if d :| 0 <= d < |w.decls| && w.decls[d].sym == sym && InScope(w.decls[d], w.time) {
      FoundIsLatest(w, sym, d);
    }
  }

  // ----- against a resolver that carries an environment down the tree -----

  /**
   * What names refer to at some place: the number of the declaration for each name in scope, the names the
   * innermost scope declares itself, how many declarations there are, the uses met so far, and how many
   * declarations have repeated a name of their scope.
   */
  datatype Env = Env(refers: map<Symbol, nat>, own: set<Symbol>, next: nat, uses: seq<(Symbol, nat)>, errors: nat)

  function Introduce(e: Env, sym: Symbol): Env {
    if sym in e.own then e else Env(e.refers[sym := e.next], e.own + {sym}, e.next + 1, e.uses, e.errors)
  }

  function IntroduceAll(e: Env, ps: seq<Symbol>): Env {
    if |ps| == 0 then e else Introduce(IntroduceAll(e, ps[..|ps| - 1]), ps[|ps| - 1])
  }

  /** A scope of its own, before and after. */
  function Inside(e: Env): Env {
    e.(own := {})
  }

  function Outside(e: Env, e': Env): Env {
    Env(e.refers, e.own, e'.next, e'.uses, e'.errors)
  }

  /** Lexical scoping: a scope and a function see what is around them, and nothing of theirs is seen outside. */
  function Bind(e: Env, n: Node): Env
    decreases n
  {
    match n
    case Declare(sym) => if sym in e.own then e.(errors := e.errors + 1) else Introduce(e, sym)
    case Use(sym) => if sym in e.refers then e.(uses := e.uses + [(sym, e.refers[sym])]) else e
    case Scope(body) => Outside(e, BindAll(Inside(e), body))
    case Loop(body) => BindAll(e, body)
    case Function(ps, needsArguments, body) =>
      var e0 := if needsArguments then Introduce(Inside(e), ARGUMENTS) else Inside(e);
      Outside(e, BindAll(IntroduceAll(e0, ps), body))
  }

  function BindAll(e: Env, ns: Nodes): Env
    decreases ns
  {
    match ns
    case Done => e
    case Then(n, rest) => BindAll(Bind(e, n), rest)
  }

  predicate SameMeaning(w: Walk, e: Env, sym: Symbol) {
    match Lookup(w.scopes, sym)
    case None => sym !in e.refers
    case Some((d, _)) => sym in e.refers && e.refers[sym] == d
  }

  function NamesOf(us: seq<Resolved>): (r: seq<(Symbol, nat)>)
    ensures |r| == |us|
  {
    seq(|us|, i requires 0 <= i < |us| => (us[i].sym, us[i].decl))
  }

  /** The walk's scopes and the environment agree on every name. */
  ghost predicate Agree(w: Walk, e: Env) {
    && e.next == |w.decls| && e.uses == NamesOf(w.uses) && e.errors == w.errors
    && e.own == (if |w.scopes| > 0 then w.scopes[|w.scopes| - 1].names.Keys else {})
    && forall sym :: SameMeaning(w, e, sym)
  }

  lemma EnteredMeans(scopes: seq<Local>, f: Fid, sym: Symbol)
    ensures var r, r' := Lookup(scopes, sym), Lookup(scopes + [Local(f, map[])], sym);
      r.Some? == r'.Some? && (r.Some? ==> r.value.0 == r'.value.0)
  {
    var scopes' := scopes + [Local(f, map[])];
    assert scopes'[..|scopes|] == scopes;
  }

  lemma EnteredAgrees(w: Walk, e: Env, w': Walk, f: Fid)
    requires Agree(w, e) && w'.scopes == w.scopes + [Local(f, map[])] && w'.decls == w.decls && w'.uses == w.uses
    requires w'.errors == w.errors
    ensures Agree(w', Inside(e))
  {
    hide Lookup;
    forall sym ensures SameMeaning(w', Inside(e), sym) {
      assert SameMeaning(w, e, sym);
      EnteredMeans(w.scopes, f, sym);
    }
    assert w'.scopes[|w'.scopes| - 1].names.Keys == {};
  }

  /** Looking a name up changes neither scopes nor uses. */
  lemma AccessAgrees(w: Walk, e: Env, sym: Symbol)
    requires Inv(w) && Agree(w, e)
    ensures Agree(Access(w, sym), e) && Access(w, sym).scopes == w.scopes
  {
    hide Inv, Lookup, Access;
    AccessKeeps(w, sym);
    AccessExtends(w, sym);
    AccessCounts(w, sym);
    assert forall s :: SameMeaning(w, e, s) ==> SameMeaning(Access(w, sym), e, s);
  }

  lemma AccessCounts(w: Walk, sym: Symbol)
    ensures |Access(w, sym).decls| == |w.decls| && Access(w, sym).errors == w.errors
  {
  }

  lemma DeclaredAgrees(w: Walk, e: Env, sym: Symbol)
    requires Open(w) && Agree(w, e)
    ensures Agree(Declared(w, sym), if sym in e.own then e.(errors := e.errors + 1) else Introduce(e, sym))
  {
    hide Lookup, Allocated;
    var w' := Declared(w, sym);
    var e' := if sym in e.own then e.(errors := e.errors + 1) else Introduce(e, sym);
    forall s ensures SameMeaning(w', e', s) {
      assert SameMeaning(w, e, s);
      if sym !in Top(w).names {
        DeclaredMeans(w, sym, s);
      }
    }
  }

  lemma DeclaredMeans(w: Walk, sym: Symbol, s: Symbol)
    requires Open(w) && sym !in Top(w).names
    ensures var r, r' := Lookup(w.scopes, s), Lookup(Declared(w, sym).scopes, s);
      if s == sym then r'.Some? && r'.value.0 == |w.decls|
      else r.Some? == r'.Some? && (r.Some? ==> r.value.0 == r'.value.0)
  {
    hide Allocated;
    var n := |w.scopes| - 1;
    assert Declared(w, sym).scopes[..n] == w.scopes[..n];
  }

  lemma UseAgrees(w: Walk, e: Env, sym: Symbol)
    requires Inv(w) && Open(w) && Agree(w, e)
    ensures Agree(Visit(w, Use(sym)), Bind(e, Use(sym)))
  {
    hide Inv, Lookup, Access;
    var w', e' := Visit(w, Use(sym)), Bind(e, Use(sym));
    assert SameMeaning(w, e, sym);
    AccessKeeps(w, sym);
    AccessExtends(w, sym);
    AccessCounts(w, sym);
    if Lookup(w.scopes, sym).Some? {
      LookupOpen(w.scopes, sym);
      FoundIsInScope(w, sym);
    }
    assert forall s :: SameMeaning(w, e, s) ==> SameMeaning(w', e', s);
  }

  /** Behind a scope or function all names mean what they meant in front of it. */
  lemma OutsideAgrees(w: Walk, e: Env, w': Walk, e': Env)
    requires Agree(w, e) && w'.scopes == w.scopes && |w'.decls| == e'.next && e'.uses == NamesOf(w'.uses)
    requires w'.errors == e'.errors
    ensures Agree(w', Outside(e, e'))
  {
    hide Lookup;
    forall s ensures SameMeaning(w', Outside(e, e'), s) {
      assert SameMeaning(w, e, s);
    }
  }

  lemma LeftCounts(w: Walk)
    ensures |Left(w).decls| == |w.decls| && Left(w).uses == w.uses && Left(w).errors == w.errors
  {
    hide FreedAll, SlotsOf;
  }

  lemma {:induction false} ParamsAgree(w: Walk, e: Env, ps: seq<Symbol>)
    requires Correct(w) && |w.scopes| > 0 && Agree(w, e)
    ensures Agree(Params(w, ps), IntroduceAll(e, ps))
    decreases |ps|
  {
    hide Correct, Access, Declared, Agree, Extends, Introduce;
    ParamsUnfold(w, ps);
    if |ps| > 0 {
      var w1, e1, p := Params(w, ps[..|ps| - 1]), IntroduceAll(e, ps[..|ps| - 1]), ps[|ps| - 1];
      ParamsAgree(w, e, ps[..|ps| - 1]);
      ParamsCorrect(w, ps[..|ps| - 1]);
      OneMoreAgrees(w1, e1, p);
    }
  }

  lemma OneMoreAgrees(w: Walk, e: Env, p: Symbol)
    requires Correct(w) && |w.scopes| > 0 && Agree(w, e)
    ensures Open(w)
    ensures Agree(if p in Top(w).names then Access(w, p) else Declared(Access(w, p), p), Introduce(e, p))
  {
    hide Inv, Nested, Addressed, Access, Declared, SameMeaning;
    CorrectInv(w);
    TopInside(w);
    AccessCorrect(w, p);
    AccessAgrees(w, e, p);
    CorrectInv(Access(w, p));
    TopInside(Access(w, p));
    DeclaredAgrees(Access(w, p), e, p);
  }

  lemma BeganAgrees(w: Walk, e: Env, needsArguments: bool)
    requires Correct(w) && Agree(w, e)
    ensures Agree(Began(w, needsArguments),
                  if needsArguments then Introduce(Inside(e), ARGUMENTS) else Inside(e))
  {
    hide Correct, Declared, Agree, Introduce;
    var w0 := Entered(NewFunction(w), w.next);
    EnteredAgrees(w, e, w0, w.next);
    DeclaredAgrees(w0, Inside(e), ARGUMENTS);
  }

  /** The walk resolves names as lexical scoping does, node by node. */
  lemma {:induction false} VisitAgrees(w: Walk, e: Env, n: Node)
    requires Correct(w) && Agree(w, e) && (|w.scopes| > 0 || n.Function?)
    ensures Agree(Visit(w, n), Bind(e, n))
    decreases n
  {
    hide Correct, Access, Declared, Params, Inv, Extends, Left, Agree, Began, Looped, Introduce;
    CorrectInv(w);
    OpenNow(w);
    match n
    case Declare(sym) => DeclareAgrees(w, e, sym);
    case Use(sym) => UseAgrees(w, e, sym);
    case Scope(body) =>
      var w1 := Entered(w, Top(w).fid);
      ScopeEntered(w);
      EnteredAgrees(w, e, w1, Top(w).fid);
      VisitAllAgrees(w1, Inside(e), body);
      VisitBelow(w, n);
      LeftAgrees(w, e, VisitAll(w1, body), BindAll(Inside(e), body));
    case Loop(body) =>
      VisitAllAgrees(w, e, body);
      LoopedAgrees(w, VisitAll(w, body), BindAll(e, body));
    case Function(ps, needsArguments, body) =>
      var w1 := Began(w, needsArguments);
      var e1 := if needsArguments then Introduce(Inside(e), ARGUMENTS) else Inside(e);
      BeganAgrees(w, e, needsArguments);
      BeganCorrect(w, needsArguments);
      ParamsAgree(w1, e1, ps);
      ParamsCorrect(w1, ps);
      VisitAllAgrees(Params(w1, ps), IntroduceAll(e1, ps), body);
      FunctionScopes(w, ps, needsArguments, body);
      LeftAgrees(w, e, VisitAll(Params(w1, ps), body), BindAll(IntroduceAll(e1, ps), body));
  }

  lemma DeclareAgrees(w: Walk, e: Env, sym: Symbol)
    requires Correct(w) && Open(w) && Agree(w, e)
    ensures Agree(Visit(w, Declare(sym)), Bind(e, Declare(sym)))
  {
    hide Inv, Nested, Addressed, Access, Declared, SameMeaning;
    CorrectInv(w);
    DeclaredAgrees(w, e, sym);
    AccessCorrect(w, sym);
    AccessAgrees(w, e, sym);
    CorrectInv(Access(w, sym));
    TopInside(Access(w, sym));
    DeclaredAgrees(Access(w, sym), e, sym);
  }

  lemma LoopedAgrees(w: Walk, w': Walk, e: Env)
    requires Agree(w', e)
    ensures Agree(Looped(w, w'), e)
  {
    assert forall s :: SameMeaning(w', e, s) ==> SameMeaning(Looped(w, w'), e, s);
  }

  lemma LeftAgrees(w: Walk, e: Env, w2: Walk, e2: Env)
    requires Agree(w, e) && Agree(w2, e2) && Left(w2).scopes == w.scopes
    ensures Agree(Left(w2), Outside(e, e2))
  {
    hide SameMeaning;
    LeftCounts(w2);
    OutsideAgrees(w, e, Left(w2), e2);
  }

  lemma {:induction false} VisitAllAgrees(w: Walk, e: Env, ns: Nodes)
    requires Correct(w) && Agree(w, e) && |w.scopes| > 0
    ensures Agree(VisitAll(w, ns), BindAll(e, ns))
    decreases ns
  {
    hide Correct, Agree, Extends;
    if ns.Then? {
      VisitAgrees(w, e, ns.head);
      VisitCorrect(w, ns.head);
      VisitAllAgrees(Visit(w, ns.head), Bind(e, ns.head), ns.tail);
    }
  }

  /** The scopes around a function are untouched by it, also where there are none. */
  lemma FunctionScopes(w: Walk, ps: seq<Symbol>, needsArguments: bool, body: Nodes)
    requires Correct(w)
    ensures Visit(w, Function(ps, needsArguments, body)).scopes == w.scopes
  {
    hide Correct, Params, Inv, Extends, Began;
    OpenNow(w);
    if |w.scopes| > 0 {
      VisitBelow(w, Function(ps, needsArguments, body));
    } else {
      VisitCorrect(w, Function(ps, needsArguments, body));
    }
  }

  /**
   * So every use in a unit's function is resolved to the declaration that lexical scoping gives its name, and
   * an error is counted for every declaration that repeats a name of its scope.
   */
  lemma NamesAreLexical(ps: seq<Symbol>, needsArguments: bool, body: Nodes)
    ensures var unit := Function(ps, needsArguments, body);
      && NamesOf(Resolve(Then(unit, Done)).uses) == Bind(Env(map[], {}, 0, [], 0), unit).uses
      && Resolve(Then(unit, Done)).errors == Bind(Env(map[], {}, 0, [], 0), unit).errors
  {
    hide Visit, Bind;
    var unit := Function(ps, needsArguments, body);
    var nothing := Env(map[], {}, 0, [], 0);
    assert Correct(START) && Agree(START, nothing);
    VisitAgrees(START, nothing, unit);
    assert Resolve(Then(unit, Done)) == VisitAll(Visit(START, unit), Done) == Visit(START, unit);
  }
}
