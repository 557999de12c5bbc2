/** Pauses end: from every reachable state every worker can get back to its own code. */
module PausingProgress {
  import opened Values
  import opened Pausing

  // ----- a worker that nothing holds back -----

  /** How many steps a worker needs back to its own code while there is no pause. */
  function OwnRank(pc: PC): nat {
    match pc
    case Own => 0
    case StoreWorking => 1
    case StoreRest(_) => 1
    case Resume => 1
    case Load(_) => 2
    case Unmark(_) => 3
    case Wait(_) => 4
    case Mark(_) => 5
    case _ => 6
  }

  /** The worker is not, and does not become, a collector. */
  predicate Plain(pc: PC) {
    OwnRank(pc) < 6
  }

  /** On its way back to its own code the worker will publish that it is working. */
  predicate WillWork(pc: PC) {
    pc.StoreWorking? || (InSync(pc) && pc.after.ThenWorking?)
  }

  /**
   * While there is no pause such a worker gets back to its own code by running alone, and publishes that
   * it is working on the way exactly if it asked to.
   */
  lemma {:induction false} GoesAlone(s0: State, x: seq<(Tid, Choice)>, w: Tid) returns (y: seq<(Tid, Choice)>)
    requires Known(s0) && w in Run(s0, x).ws && !Run(s0, x).paused && Plain(Run(s0, x).ws[w].pc)
    ensures Moved(Run(s0, x), Run(s0, y), w) && w in Run(s0, y).ws && Run(s0, y).ws[w].pc.Own?
    ensures WillWork(Run(s0, x).ws[w].pc) ==> Run(s0, y).ws[w].state.Working?
    ensures Run(s0, x).ws[w].pc.Own? || (InSync(Run(s0, x).ws[w].pc) && !WillWork(Run(s0, x).ws[w].pc)) ==>
      Run(s0, y).ws[w].state == Run(s0, x).ws[w].state
    decreases OwnRank(Run(s0, x).ws[w].pc)
  {
    var s := Run(s0, x);
    StillKnown(s0, x);
    hide Run, Next, OwnRank;
    if s.ws[w].pc.Own? {
      y := x;
    } else {
      AloneStep(s, s.ws[w]);
      var z := RunMore(s0, x, w, Sync);
      y := GoesAlone(s0, z, w);
      MovedTrans(s, Run(s0, z), Run(s0, y), w);
    }
  }

  lemma AloneStep(s: State, w: Worker)
    requires Known(s) && !s.paused && Plain(w.pc) && !w.pc.Own?
    ensures var w' := Next(s, w, Sync);
      && OwnRank(w'.pc) < OwnRank(w.pc) && !w.pc.Claim? && !w.pc.Collecting?
      && (WillWork(w.pc) ==> WillWork(w'.pc) || (w'.pc.Own? && w'.state.Working?))
      && (InSync(w.pc) && !WillWork(w.pc) ==>
            w'.state == w.state && !WillWork(w'.pc) && (InSync(w'.pc) || w'.pc.Own?))
  {
  }

  // ----- a collector that nobody keeps waiting -----

  /** The collector looks at worker `i` only after it has found that this is not itself. */
  predicate LooksAtOthers(s: State, t: Tid) {
    t in s.ws ==>
      var pc := s.ws[t].pc;
      (pc.IsWaiting? || pc.WatchState? || pc.WatchGC?) && pc.i < |s.order| ==> s.order[pc.i] != t
  }

  ghost predicate AllLookAtOthers(s: State) {
    forall t :: t in s.ws ==> LooksAtOthers(s, t)
  }

  lemma LooksKept(s: State, t: Tid, choice: Choice)
    requires Known(s) && Flags(s) && AllLookAtOthers(s) && t in s.ws
    ensures AllLookAtOthers(Act(s, t, choice))
  {
    hide Run;
    var s' := Act(s, t, choice);
    forall u | u in s'.ws ensures LooksAtOthers(s', u) {
      assert LooksAtOthers(s, u) && FlagOK(s.ws[u]);
    }
  }

  lemma {:induction false} AlwaysLook(order: seq<Tid>, schedule: seq<(Tid, Choice)>)
    ensures AllLookAtOthers(Run(Start(order), schedule))
  {
    hide Act, OneCollector, Flags, Stopped;
    if |schedule| > 0 {
      var s := Run(Start(order), schedule[..|schedule| - 1]);
      var (t, choice) := schedule[|schedule| - 1];
      AlwaysLook(order, schedule[..|schedule| - 1]);
      AlwaysInv(order, schedule[..|schedule| - 1]);
      if t in s.ws {
        LooksKept(s, t, choice);
      }
    }
  }

  /** How many steps the collector is from its collection when everybody waits for it. */
  function ScanRank(pc: PC, n: nat): int {
    match pc
    case Announce => 5 * n + 5
    case IsSelf(i) => 5 * (n - i) + 4
    case IsWaiting(i) => 5 * (n - i) + 3
    case WatchState(i) => 5 * (n - i) + 2
    case WatchGC(i) => 5 * (n - i) + 1
    case Begin => 1
    case _ => 0
  }

  /** Everybody but `t` waits, and `t` is the collector. */
  ghost predicate AllWaitFor(s: State, t: Tid) {
    && Known(s) && s.paused && t in s.ws && Collector(s.ws[t].pc) && FlagOK(s.ws[t]) && LooksAtOthers(s, t)
    && (Scanning(s.ws[t].pc) ==> s.ws[t].pc.i < |s.order|)
    && forall u :: u in s.ws && u != t ==> s.ws[u].gc.WaitingForGC?
  }

  lemma ScanStep(s: State, t: Tid)
    requires AllWaitFor(s, t) && !s.ws[t].pc.Collecting?
    ensures var s' := Act(s, t, Sync); var pc := s'.ws[t].pc;
      && AllWaitFor(s', t) && 0 <= ScanRank(pc, |s'.order|) < ScanRank(s.ws[t].pc, |s.order|)
  {
    hide Run;
    var w := s.ws[t];
    assert Watched(s, if Scanning(w.pc) then w.pc.i else 0) in s.ws.Values || |s.order| == 0;
  }

  /** The collector comes to its collection by running alone. */
  lemma {:induction false} ScansAlone(s0: State, x: seq<(Tid, Choice)>, t: Tid) returns (y: seq<(Tid, Choice)>)
    requires Known(s0) && AllWaitFor(Run(s0, x), t)
    ensures AllWaitFor(Run(s0, y), t) && Run(s0, y).ws[t].pc.Collecting?
    ensures Moved(Run(s0, x), Run(s0, y), t)
    decreases ScanRank(Run(s0, x).ws[t].pc, |Run(s0, x).order|)
  {
    var s := Run(s0, x);
    hide Run, Next, ScanRank, AllWaitFor;
    WaitedFor(s, t);
    if s.ws[t].pc.Collecting? {
      y := x;
    } else {
      ScanStep(s, t);
      var z := RunMore(s0, x, t, Sync);
      y := ScansAlone(s0, z, t);
      MovedTrans(s, Run(s0, z), Run(s0, y), t);
    }
  }

  lemma WaitedFor(s: State, t: Tid)
    requires AllWaitFor(s, t)
    ensures t in s.ws && Known(s) && s.paused && Collector(s.ws[t].pc) && !s.ws[t].pc.Claim?
  {
  }

  // ----- pauses end -----

  /** From any paused state all workers but the collector can come to wait, and the collector can lift the pause. */
  lemma Lifts(order: seq<Tid>, x: seq<(Tid, Choice)>, c: Tid) returns (y: seq<(Tid, Choice)>)
    requires var s := Run(Start(order), x); s.paused && c in s.ws && Collector(s.ws[c].pc)
    ensures var s' := Run(Start(order), y);
      && !s'.paused && s'.ws.Keys == Run(Start(order), x).ws.Keys && c in s'.ws && s'.ws[c].pc.Resume?
      && forall u :: u in s'.ws && u != c ==> s'.ws[u].pc.Wait? || s'.ws[u].pc.Unmark?
  {
    hide Run, Act, Start, FlagOK, Collector, LooksAtOthers;
    StartKnown(order);
    var s0, s := Start(order), Run(Start(order), x);
    AlwaysInv(order, x);
    OnlyCollector(s, c);
    y := ParkAll(s0, x, s.ws.Keys - {c});
    var s1 := Run(s0, y);
    StillKnown(s0, y);
    AlwaysInv(order, y);
    AlwaysLook(order, y);
    ReadyToScan(s1, c);
    y := ScansAlone(s0, y, c);
    var s2 := Run(s0, y);
    AlwaysInv(order, y);
    StillKnown(s0, y);
    y := RunMore(s0, y, c, Sync);
    Lifted(s2, c);
  }

  lemma StartKnown(order: seq<Tid>)
    ensures Known(Start(order))
  {
  }

  lemma OnlyCollector(s: State, c: Tid)
    requires Inv(s) && c in s.ws && Collector(s.ws[c].pc)
    ensures Known(s) && forall u :: u in s.ws && u != c ==> FlagOK(s.ws[u]) && !Collector(s.ws[u].pc)
  {
  }

  lemma ReadyToScan(s: State, c: Tid)
    requires Inv(s) && AllLookAtOthers(s) && s.paused && c in s.ws && Collector(s.ws[c].pc)
    requires forall u :: u in s.ws && u != c ==> s.ws[u].gc.WaitingForGC?
    ensures AllWaitFor(s, c)
  {
    hide OneCollector, Stopped;
  }

  lemma Lifted(s: State, c: Tid)
    requires Inv(s) && AllWaitFor(s, c) && s.ws[c].pc.Collecting?
    ensures var s' := Act(s, c, Sync);
      && !s'.paused && s'.ws.Keys == s.ws.Keys && s'.ws[c].pc.Resume?
      && forall u :: u in s'.ws && u != c ==> s'.ws[u].pc.Wait? || s'.ws[u].pc.Unmark?
  {
    hide Run, OneCollector, Stopped;
    assert forall u :: u in s.ws ==> FlagOK(s.ws[u]);
  }

  // ----- the main results -----

  /**
   * Once the pause is lifted a worker that was held gets back to its own code by running alone, and publishes
   * that it is working exactly if that is what it had asked for.
   */
  lemma ReleasedGoesOn(order: seq<Tid>, x: seq<(Tid, Choice)>, w: Tid) returns (y: seq<(Tid, Choice)>)
    requires var s := Run(Start(order), x); !s.paused && w in s.ws && InSync(s.ws[w].pc)
    ensures var s, s' := Run(Start(order), x), Run(Start(order), y);
      && Moved(s, s', w) && w in s'.ws && s'.ws[w].pc.Own?
      && s'.ws[w].state == if s.ws[w].pc.after.ThenWorking? then Working else s.ws[w].state
  {
    hide Run, Start;
    StartKnown(order);
    y := GoesAlone(Start(order), x, w);
  }

  /** Nobody is held for ever: from every reachable state every worker can get back to its own code. */
  lemma EverybodyGoesOn(order: seq<Tid>, x: seq<(Tid, Choice)>, w: Tid) returns (y: seq<(Tid, Choice)>)
    requires w in Run(Start(order), x).ws
    ensures var s' := Run(Start(order), y); w in s'.ws && s'.ws[w].pc.Own?
  {
    hide Run, Act, Start, OneCollector, Flags, Stopped, Collector;
    StartKnown(order);
    var s := Run(Start(order), x);
    AlwaysInv(order, x);
    StillKnown(Start(order), x);
    y := x;
    if !s.paused && s.ws[w].pc.Claim? {
      y := RunMore(Start(order), x, w, Sync);
      Claims(s, w);
    }
    var s1 := Run(Start(order), y);
    AlwaysInv(order, y);
    if s1.paused {
      var c := CollectorThere(s1);
      y := Lifts(order, y, c);
    } else {
      NoCollector(s1, w);
    }
    y := GoesAlone(Start(order), y, w);
  }

  lemma Claims(s: State, w: Tid)
    requires Known(s) && w in s.ws && s.ws[w].pc.Claim? && !s.paused
    ensures Act(s, w, Sync).paused && w in Act(s, w, Sync).ws
  {
  }

  lemma CollectorThere(s: State) returns (c: Tid)
    requires OneCollector(s) && s.paused
    ensures c in s.ws && Collector(s.ws[c].pc)
  {
    c :| c in s.ws && Collector(s.ws[c].pc);
  }

  lemma NoCollector(s: State, w: Tid)
    requires OneCollector(s) && !s.paused && w in s.ws && !s.ws[w].pc.Claim?
    ensures Plain(s.ws[w].pc)
  {
    assert !Collector(s.ws[w].pc);
  }

  /** And a request that claims the pause can come to its collection. */
  lemma RequestCanCollect(order: seq<Tid>, x: seq<(Tid, Choice)>, t: Tid) returns (y: seq<(Tid, Choice)>)
    requires var s := Run(Start(order), x); !s.paused && t in s.ws && s.ws[t].pc.Claim?
    ensures var s' := Run(Start(order), y); t in s'.ws && s'.ws[t].pc.Collecting?
  {
    hide Run, Act, Start, FlagOK, Collector, LooksAtOthers;
    StartKnown(order);
    var s0, s := Start(order), Run(Start(order), x);
    StillKnown(s0, x);
    y := RunMore(s0, x, t, Sync);
    Announces(s, t);
    var s1 := Run(s0, y);
    AlwaysInv(order, y);
    OnlyCollector(s1, t);
    y := ParkAll(s0, y, s1.ws.Keys - {t});
    var s2 := Run(s0, y);
    StillKnown(s0, y);
    AlwaysInv(order, y);
    AlwaysLook(order, y);
    ReadyToScan(s2, t);
    y := ScansAlone(s0, y, t);
  }

  lemma Announces(s: State, t: Tid)
    requires Known(s) && t in s.ws && s.ws[t].pc.Claim? && !s.paused
    ensures var s' := Act(s, t, Sync); s'.paused && t in s'.ws && Collector(s'.ws[t].pc)
  {
  }
}
