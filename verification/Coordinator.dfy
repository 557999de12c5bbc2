/**
 * The stop-the-world coordinator: one thread claims a pause and waits until every other
 * worker has parked or is not working. Each step below is one access to shared memory.
 */
module Pausing {
  import opened Values

  type Tid = nat

  datatype Work = Idle | Working | Untracked

  datatype GCState = NoGC | RequestGC | WaitingForGC | ExecutingGC

  /** What a running worker does next. */
  datatype Choice = Sync | Request | Change(to: Work)

  /** What follows a sync: back to the worker's own code, or publishing `Working`. */
  datatype After = Return | ThenWorking

  datatype PC =
    | Own                        // the worker's own code
    | Load(after: After)         // sync: while (m_state == GarbageCollection)
    | Mark(after: After)         // sync: gc_state = WaitingForGC
    | Wait(after: After)         // sync: wait for m_state == Working
    | Unmark(after: After)       // sync: gc_state = None
    | StoreWorking               // request_state_change: state = Working
    | StoreRest(to: Work)        // request_state_change: state = Idle or Untracked
    | Claim                      // request_gc: CAS Working -> GarbageCollection
    | Announce                   // request_gc: gc_state = RequestGC
    | IsSelf(i: nat)             // request_gc: is worker i the current thread
    | IsWaiting(i: nat)          // request_gc: is worker i already waiting
    | WatchState(i: nat)         // request_gc: is worker i still working
    | WatchGC(i: nat)            // request_gc: is worker i waiting by now
    | Begin                      // request_gc: gc_state = ExecutingGC
    | Collecting                 // between request_gc returning true and finish_gc
    | Resume                     // finish_gc: gc_state = None

  datatype Worker = Worker(state: Work, gc: GCState, pc: PC)

  /**
   * `paused` is m_state == GarbageCollection. `order` lists the registered workers.
   * `sure` records the workers that were not slipping when the pause was claimed.
   */
  datatype State = State(paused: bool, order: seq<Tid>, ws: map<Tid, Worker>, sure: set<Tid>)

  /** The worker has passed the pause check on its way to `Working` but not published it yet. */
  predicate Slipping(w: Worker) {
    w.pc.StoreWorking? && !w.state.Working?
  }

  predicate Known(s: State) {
    forall i :: 0 <= i < |s.order| ==> s.order[i] in s.ws
  }

  function Leave(after: After): PC {
    if after.Return? then Own else StoreWorking
  }

  /** The collector's next place once worker `i` needs no more waiting. */
  function NextScan(s: State, i: nat): PC {
    if i + 1 < |s.order| then IsSelf(i + 1) else Begin
  }

  /** The worker a collector looks at. */
  function Watched(s: State, i: nat): Worker
    requires Known(s)
  {
    if i < |s.order| then s.ws[s.order[i]] else Worker(Idle, NoGC, Own)
  }

  /** What worker `w` becomes by its next step; `choice` decides what its own code does. */
  function Next(s: State, w: Worker, choice: Choice): Worker
    requires Known(s)
  {
    match w.pc
    case Own =>
      w.(pc := match choice
               case Sync => Load(Return)
               case Request => Claim
               case Change(to) => if to.Working? then Load(ThenWorking) else StoreRest(to))
    case Load(a) => w.(pc := if s.paused then Mark(a) else Leave(a))
    case Mark(a) => w.(gc := WaitingForGC, pc := Wait(a))
    case Wait(a) => w.(pc := if s.paused then w.pc else Unmark(a))
    case Unmark(a) => w.(gc := NoGC, pc := Load(a))
    case StoreWorking => w.(state := Working, pc := Own)
    case StoreRest(to) => w.(state := to, pc := Own)
    case Claim => w.(pc := if s.paused then Load(Return) else Announce)
    case Announce => w.(gc := RequestGC, pc := if |s.order| > 0 then IsSelf(0) else Begin)
    case IsSelf(i) => w.(pc := if Watched(s, i).gc.RequestGC? then NextScan(s, i) else IsWaiting(i))
    case IsWaiting(i) => w.(pc := if Watched(s, i).gc.WaitingForGC? then NextScan(s, i) else WatchState(i))
    case WatchState(i) => w.(pc := if !Watched(s, i).state.Working? then NextScan(s, i) else WatchGC(i))
    case WatchGC(i) => w.(pc := if Watched(s, i).gc.WaitingForGC? then NextScan(s, i) else WatchState(i))
    case Begin => w.(gc := ExecutingGC, pc := Collecting)
    case Collecting => w.(pc := Resume)
    case Resume => w.(gc := NoGC, pc := Own)
  }

  /** One step of worker `t`: a successful claim starts a pause, the end of a collection lifts it. */
  function Act(s: State, t: Tid, choice: Choice): State
    requires t in s.ws && Known(s)
  {
    var w, w' := s.ws[t], Next(s, s.ws[t], choice);
    State(if w.pc.Claim? then true else if w.pc.Collecting? then false else s.paused,
          s.order,
          s.ws[t := w'],
          if w.pc.Claim? && !s.paused then set u | u in s.ws && !Slipping(s.ws[u]) else s.sure)
  }

  function Run(s: State, schedule: seq<(Tid, Choice)>): (r: State)
    requires Known(s)
    ensures r.order == s.order && r.ws.Keys == s.ws.Keys
  {
    if |schedule| == 0 then s
    else
      var s1 := Run(s, schedule[..|schedule| - 1]);
      var (t, c) := schedule[|schedule| - 1];
      if t in s1.ws then Act(s1, t, c) else s1
  }

  /** All workers idle, in some registration order. */
  function Start(order: seq<Tid>): State {
    State(false, order, map t | t in order :: Worker(Idle, NoGC, Own), {})
  }

  // ----- what the places mean -----

  predicate InSync(pc: PC) {
    pc.Load? || pc.Mark? || pc.Wait? || pc.Unmark?
  }

  /** From the successful claim until the pause is lifted. */
  predicate Collector(pc: PC) {
    pc.Announce? || Scanning(pc) || pc.Begin? || pc.Collecting?
  }

  predicate Scanning(pc: PC) {
    pc.IsSelf? || pc.IsWaiting? || pc.WatchState? || pc.WatchGC?
  }

  /** How many of the registered workers the collector has already checked. */
  function Checked(s: State, pc: PC): nat {
    if Scanning(pc) then pc.i else if pc.Begin? || pc.Collecting? then |s.order| else 0
  }

  /** A worker that runs its own code in the working state. */
  predicate Mutating(w: Worker) {
    w.state.Working? && !InSync(w.pc)
  }

  /** Held in sync, or not working and not about to be. */
  predicate Quiet(w: Worker) {
    InSync(w.pc) || (!w.state.Working? && !w.pc.StoreWorking?)
  }

  /** A worker's gc flag says where it is: the flag of one pause outlives it only inside sync. */
  predicate FlagOK(w: Worker) {
    (w.gc.WaitingForGC? <==> w.pc.Wait? || w.pc.Unmark?) &&
    (w.gc.RequestGC? <==> Scanning(w.pc) || w.pc.Begin?) &&
    (w.gc.ExecutingGC? <==> w.pc.Collecting? || w.pc.Resume?) &&
    (w.pc.StoreRest? ==> !w.pc.to.Working?)
  }

  ghost predicate OneCollector(s: State) {
    (forall t, u :: t in s.ws && u in s.ws && Collector(s.ws[t].pc) && Collector(s.ws[u].pc) ==> t == u) &&
    (s.paused <==> exists t :: t in s.ws && Collector(s.ws[t].pc))
  }

  ghost predicate Flags(s: State) {
    forall t :: t in s.ws ==> FlagOK(s.ws[t]) && (Scanning(s.ws[t].pc) ==> s.ws[t].pc.i < |s.order|)
  }

  /** While the pause lasts no sure worker slips, and every checked one is quiet. */
  ghost predicate Stopped(s: State) {
    (s.paused ==> forall t :: t in s.sure && t in s.ws ==> !Slipping(s.ws[t])) &&
    (forall c, i :: c in s.ws && Collector(s.ws[c].pc) && 0 <= i < Checked(s, s.ws[c].pc) && i < |s.order| ==>
       s.order[i] == c || s.order[i] !in s.sure || (s.order[i] in s.ws && Quiet(s.ws[s.order[i]])))
  }

  ghost predicate Inv(s: State) {
    Known(s) && OneCollector(s) && Flags(s) && Stopped(s)
  }

  lemma StartInv(order: seq<Tid>)
    ensures Inv(Start(order))
  {
  }

  /** What a step does to the acting worker's flag and role. */
  lemma StepHere(s: State, w: Worker, choice: Choice)
    requires Known(s) && FlagOK(w) && (Scanning(w.pc) ==> w.pc.i < |s.order|) && (w.pc.Collecting? ==> s.paused)
    ensures var w' := Next(s, w, choice);
      FlagOK(w') && (Scanning(w'.pc) ==> w'.pc.i < |s.order|) &&
      (if w.pc.Claim? && !s.paused then w'.pc.Announce?
       else if w.pc.Collecting? then w'.pc.Resume?
       else Collector(w'.pc) == Collector(w.pc))
  {
  }

  lemma FlagsKept(s: State, t: Tid, choice: Choice)
    requires Inv(s) && t in s.ws
    ensures Flags(Act(s, t, choice))
  {
    hide Run, Next, Stopped, FlagOK, Scanning;
    StepHere(s, s.ws[t], choice) by { CollectingPaused(s, t); }
  }

  lemma CollectingPaused(s: State, t: Tid)
    requires OneCollector(s) && t in s.ws
    ensures Collector(s.ws[t].pc) ==> s.paused
    ensures s.ws[t].pc.Collecting? ==> s.paused
  {
  }

  lemma OneCollectorKept(s: State, t: Tid, choice: Choice)
    requires Inv(s) && t in s.ws
    ensures OneCollector(Act(s, t, choice))
  {
    hide Run, Next, Stopped, FlagOK, Collector;
    StepHere(s, s.ws[t], choice) by { CollectingPaused(s, t); }
    var s' := Act(s, t, choice);
    assert t in s'.ws;
    CollectorPlaces();
    if u :| u in s.ws && u != t && Collector(s.ws[u].pc) {
      assert u in s'.ws && Collector(s'.ws[u].pc);
    }
  }

  lemma CollectorPlaces()
    ensures Collector(Announce) && Collector(Collecting) && !Collector(Resume) && !Collector(Claim)
  {
  }

  /** A quiet worker stays quiet, and one that is not slipping does not start to, while the pause lasts. */
  lemma QuietStays(s: State, w: Worker, choice: Choice)
    requires Known(s) && s.paused && FlagOK(w)
    ensures Quiet(w) ==> Quiet(Next(s, w, choice))
    ensures !Slipping(w) ==> !Slipping(Next(s, w, choice))
  {
  }

  /** The collector only moves past a worker that is itself, not sure, or quiet. */
  lemma PassedQuiet(s: State, t: Tid, choice: Choice)
    requires Inv(s) && t in s.ws && Collector(s.ws[t].pc)
    ensures var pc, pc' := s.ws[t].pc, Next(s, s.ws[t], choice).pc; var i := Checked(s, pc);
      pc'.Resume? || Checked(s, pc') == i ||
      (Checked(s, pc') == i + 1 && i < |s.order| &&
       (s.order[i] == t || s.order[i] !in s.sure || Quiet(s.ws[s.order[i]]))) ||
      |s.order| == 0
  {
    hide Run;
    var i := Checked(s, s.ws[t].pc);
    assert FlagOK(s.ws[t]) && s.paused;
    if Scanning(s.ws[t].pc) {
      var u := s.order[i];
      assert u in s.ws && FlagOK(s.ws[u]);
      assert s.ws[u].gc.RequestGC? ==> Collector(s.ws[u].pc);
      assert u in s.sure ==> !Slipping(s.ws[u]);
    }
  }

  lemma StoppedKept(s: State, t: Tid, choice: Choice)
    requires Inv(s) && t in s.ws
    ensures Stopped(Act(s, t, choice))
  {
    hide Run, Next, Slipping, Quiet, FlagOK, Collector;
    var s' := Act(s, t, choice);
    StepHere(s, s.ws[t], choice) by { CollectingPaused(s, t); }
    CollectorPlaces();
    if s.ws[t].pc.Claim? && !s.paused {
      JustClaimed(s, t, choice);
    } else if s.ws[t].pc.Collecting? {
      assert Collector(s.ws[t].pc);
    } else {
      if s.paused {
        QuietStays(s, s.ws[t], choice);
      }
      forall c, i | c in s'.ws && Collector(s'.ws[c].pc) && 0 <= i < Checked(s', s'.ws[c].pc) && i < |s'.order|
        ensures s'.order[i] == c || s'.order[i] !in s'.sure || (s'.order[i] in s'.ws && Quiet(s'.ws[s'.order[i]]))
      {
        CollectingPaused(s, c);
        if c == t {
          PassedQuiet(s, t, choice);
        }
      }
    }
  }

  /** Right after a claim nothing has been checked, and nobody sure slips. */
  lemma JustClaimed(s: State, t: Tid, choice: Choice)
    requires OneCollector(s) && Known(s) && t in s.ws && s.ws[t].pc.Claim? && !s.paused
    ensures Stopped(Act(s, t, choice))
  {
    hide Run, Quiet;
    var s' := Act(s, t, choice);
    forall c | c in s'.ws && c != t ensures !Collector(s'.ws[c].pc) {
      assert c in s.ws;
    }
  }

  // ----- the main results -----

  lemma {:induction false} AlwaysInv(order: seq<Tid>, schedule: seq<(Tid, Choice)>)
    ensures Inv(Run(Start(order), schedule))
  {
    hide Act, OneCollector, Flags, Stopped, Start;
    StartInv(order);
    if |schedule| > 0 {
      var s := Run(Start(order), schedule[..|schedule| - 1]);
      var (t, choice) := schedule[|schedule| - 1];
      AlwaysInv(order, schedule[..|schedule| - 1]);
      if t in s.ws {
        OneCollectorKept(s, t, choice);
        FlagsKept(s, t, choice);
        StoppedKept(s, t, choice);
      }
    }
  }

  /** Between a request that returns true and the end of its collection no other one does. */
  lemma OneCollectorAtATime(order: seq<Tid>, schedule: seq<(Tid, Choice)>, t: Tid, u: Tid)
    requires var s := Run(Start(order), schedule);
      t in s.ws && u in s.ws && s.ws[t].pc.Collecting? && Collector(s.ws[u].pc)
    ensures t == u && Run(Start(order), schedule).paused
  {
    hide Run, Act, Flags, Stopped, Start;
    AlwaysInv(order, schedule);
    assert Collector(Run(Start(order), schedule).ws[t].pc);
  }

  /**
   * While a collector collects, every other registered worker that was not slipping when
   * the pause was claimed is held in sync, or is not working and not about to be. This is
   * for every run, stale WaitingForGC flags of earlier pauses included.
   */
  lemma WorldStopped(order: seq<Tid>, schedule: seq<(Tid, Choice)>, c: Tid, w: Tid)
    requires var s := Run(Start(order), schedule);
      c in s.ws && s.ws[c].pc.Collecting? && w in s.order && w in s.sure && w != c
    ensures var s := Run(Start(order), schedule); Quiet(s.ws[w]) && !Mutating(s.ws[w])
  {
    hide Run, Act, Flags, Start;
    AlwaysInv(order, schedule);
    var s := Run(Start(order), schedule);
    var i :| 0 <= i < |s.order| && s.order[i] == w;
    assert Collector(s.ws[c].pc) && i < Checked(s, s.ws[c].pc);
  }

  /**
   * Who is sure: claiming a pause makes exactly the workers sure that are not slipping, so
   * every worker whose state was `Working` is. Until the pause is lifted this stays so.
   */
  lemma WorkingIsSure(s: State, t: Tid, choice: Choice, w: Tid)
    requires Known(s) && t in s.ws && w in s.ws && s.ws[t].pc.Claim? && !s.paused
    ensures w in Act(s, t, choice).sure <==> !Slipping(s.ws[w])
    ensures s.ws[w].state.Working? ==> w in Act(s, t, choice).sure
  {
  }

  // ----- the worker that slips through -----

  lemma RunMore(s0: State, x: seq<(Tid, Choice)>, t: Tid, choice: Choice) returns (y: seq<(Tid, Choice)>)
    requires Known(s0) && t in Run(s0, x).ws && Known(Run(s0, x))
    ensures Run(s0, y) == Act(Run(s0, x), t, choice)
  {
    hide Act;
    y := x + [(t, choice)];
    assert y[..|x|] == x;
  }

  /** Only worker `u` has moved. */
  ghost predicate Moved(s: State, s': State, u: Tid) {
    && s'.paused == s.paused && s'.order == s.order && s'.sure == s.sure && s'.ws.Keys == s.ws.Keys
    && forall v :: v in s.ws && v != u ==> s'.ws[v] == s.ws[v]
  }

  lemma StillKnown(s0: State, x: seq<(Tid, Choice)>)
    requires Known(s0)
    ensures Known(Run(s0, x))
  {
    hide Act;
  }

  /** One step of a worker that neither claims nor lifts a pause. */
  lemma Move(s0: State, x: seq<(Tid, Choice)>, u: Tid, choice: Choice) returns (y: seq<(Tid, Choice)>)
    requires Known(s0) && u in Run(s0, x).ws && Run(s0, x).paused && !Run(s0, x).ws[u].pc.Collecting?
    ensures Known(Run(s0, x)) && Moved(Run(s0, x), Run(s0, y), u)
    ensures u in Run(s0, y).ws && Run(s0, y).ws[u] == Next(Run(s0, x), Run(s0, x).ws[u], choice)
  {
    hide Run, Next;
    StillKnown(s0, x);
    y := RunMore(s0, x, u, choice);
  }

  lemma MovedTrans(a: State, b: State, c: State, u: Tid)
    requires Moved(a, b, u) && Moved(b, c, u)
    ensures Moved(a, c, u)
  {
  }

  /** How far a worker is from waiting for the end of the pause. */
  function Distance(pc: PC): nat {
    match pc
    case Wait(_) => 0
    case Mark(_) => 1
    case Load(_) => 2
    case Own => 3
    case Unmark(_) => 3
    case Claim => 3
    case _ => 4
  }

  lemma CloserByOne(s: State, w: Worker)
    requires Known(s) && s.paused && FlagOK(w) && !Collector(w.pc) && !w.pc.Wait?
    ensures var w' := Next(s, w, Sync); FlagOK(w') && !Collector(w'.pc) && Distance(w'.pc) < Distance(w.pc)
  {
  }

  /** Any worker but the collector can come to wait. */
  lemma {:induction false} Park(s0: State, x: seq<(Tid, Choice)>, u: Tid) returns (y: seq<(Tid, Choice)>)
    requires Known(s0) && u in Run(s0, x).ws && Run(s0, x).paused
    requires FlagOK(Run(s0, x).ws[u]) && !Collector(Run(s0, x).ws[u].pc)
    ensures Moved(Run(s0, x), Run(s0, y), u) && u in Run(s0, y).ws && Run(s0, y).ws[u].gc.WaitingForGC?
    decreases Distance(Run(s0, x).ws[u].pc)
  {
    var s := Run(s0, x);
    StillKnown(s0, x);
    hide Run, Next, Distance;
    if s.ws[u].pc.Wait? {
      y := x;
    } else {
      CloserByOne(s, s.ws[u]);
      NotCollecting(s.ws[u].pc);
      var z := Move(s0, x, u, Sync);
      y := Park(s0, z, u);
      MovedTrans(s, Run(s0, z), Run(s0, y), u);
    }
  }

  lemma NotCollecting(pc: PC)
    requires !Collector(pc)
    ensures !pc.Collecting?
  {
  }

  /** Only workers of `us` have moved. */
  ghost predicate MovedSome(s: State, s': State, us: set<Tid>) {
    && s'.paused == s.paused && s'.order == s.order && s'.sure == s.sure && s'.ws.Keys == s.ws.Keys
    && forall v :: v in s.ws && v !in us ==> s'.ws[v] == s.ws[v]
  }

  /** So all of them can come to wait. */
  lemma {:induction false} ParkAll(s0: State, x: seq<(Tid, Choice)>, us: set<Tid>) returns (y: seq<(Tid, Choice)>)
    requires Known(s0) && us <= Run(s0, x).ws.Keys && Run(s0, x).paused
    requires forall u :: u in us ==> FlagOK(Run(s0, x).ws[u]) && !Collector(Run(s0, x).ws[u].pc)
    ensures MovedSome(Run(s0, x), Run(s0, y), us)
    ensures forall u :: u in us ==> u in Run(s0, y).ws && Run(s0, y).ws[u].gc.WaitingForGC?
    decreases |us|
  {
    hide Run, FlagOK, Collector;
    if us == {} {
      y := x;
    } else {
      var u :| u in us;
      var z := Park(s0, x, u);
      y := ParkAll(s0, z, us - {u});
      assert Run(s0, y).ws[u] == Run(s0, z).ws[u];
    }
  }

  /** The collector need not wait for this worker. */
  predicate Passes(w: Worker) {
    w.gc.WaitingForGC? || (w.gc.NoGC? && !w.state.Working?)
  }

  /** What the collector does at each place where it looks at worker `i`. */
  lemma Looks(s: State, w: Worker, i: nat)
    requires Known(s) && i < |s.order| && w.gc.RequestGC?
    ensures var v := s.ws[s.order[i]];
      && Next(s, w.(pc := IsSelf(i)), Sync) == w.(pc := if v.gc.RequestGC? then NextScan(s, i) else IsWaiting(i))
      && Next(s, w.(pc := IsWaiting(i)), Sync) == w.(pc := if v.gc.WaitingForGC? then NextScan(s, i) else WatchState(i))
      && (!v.state.Working? ==> Next(s, w.(pc := WatchState(i)), Sync) == w.(pc := NextScan(s, i)))
  {
  }

  /** The collector passes a worker that it need not wait for. */
  lemma ScanOne(s0: State, x: seq<(Tid, Choice)>, t: Tid, i: nat) returns (y: seq<(Tid, Choice)>)
    requires Known(s0) && t in Run(s0, x).ws && Run(s0, x).paused && Known(Run(s0, x))
    requires Run(s0, x).ws[t].pc == IsSelf(i) && Run(s0, x).ws[t].gc.RequestGC? && i < |Run(s0, x).order|
    requires Run(s0, x).order[i] == t || Passes(Run(s0, x).ws[Run(s0, x).order[i]])
    ensures Moved(Run(s0, x), Run(s0, y), t)
    ensures t in Run(s0, y).ws && Run(s0, y).ws[t] == Run(s0, x).ws[t].(pc := NextScan(Run(s0, x), i))
  {
    var s := Run(s0, x);
    var u := s.order[i];
    Looks(s, s.ws[t], i);
    hide Run, Next, NextScan;
    y := Move(s0, x, t, Sync);
    if u != t {
      var s1 := Run(s0, y);
      SameLook(s, s1, i);
      Looks(s1, s1.ws[t], i);
      var z := Move(s0, y, t, Sync);
      MovedTrans(s, s1, Run(s0, z), t);
      y := z;
      if !s.ws[u].gc.WaitingForGC? {
        var s2 := Run(s0, z);
        SameLook(s, s2, i);
        Looks(s2, s2.ws[t], i);
        y := Move(s0, z, t, Sync);
        MovedTrans(s, s2, Run(s0, y), t);
      }
    }
  }

  lemma SameLook(s: State, s': State, i: nat)
    requires Known(s) && s'.order == s.order && s'.ws.Keys == s.ws.Keys
    ensures Known(s') && NextScan(s', i) == NextScan(s, i)
  {
  }

  /** The collector checks the workers from `i` on and finds none to wait for. */
  lemma {:induction false} Scan(s0: State, x: seq<(Tid, Choice)>, t: Tid, i: nat) returns (y: seq<(Tid, Choice)>)
    requires Known(s0) && t in Run(s0, x).ws && Run(s0, x).paused && Known(Run(s0, x))
    requires Run(s0, x).ws[t].pc == IsSelf(i) && Run(s0, x).ws[t].gc.RequestGC? && i < |Run(s0, x).order|
    requires forall u :: u in Run(s0, x).order ==> u == t || Passes(Run(s0, x).ws[u])
    ensures Moved(Run(s0, x), Run(s0, y), t) && t in Run(s0, y).ws && Run(s0, y).ws[t].pc.Begin?
    decreases |Run(s0, x).order| - i
  {
    var s := Run(s0, x);
    hide Run;
    y := ScanOne(s0, x, t, i);
    if i + 1 < |s.order| {
      var s1 := Run(s0, y);
      StillKnown(s0, y);
      forall u | u in s1.order ensures u == t || Passes(s1.ws[u]) {
        assert u in s.order;
      }
      var z := Scan(s0, y, t, i + 1);
      MovedTrans(s, s1, Run(s0, z), t);
      y := z;
    }
  }

  /** From right after the claim the collector gets to its collection, while `w` stays where it was. */
  lemma Collects(s0: State, x: seq<(Tid, Choice)>, t: Tid, w: Tid) returns (y: seq<(Tid, Choice)>)
    requires Known(s0) && Known(Run(s0, x))
    requires var s1 := Run(s0, x);
      && s1.paused && t in s1.ws && w in s1.ws && w != t && s1.ws[t].pc.Announce? && Passes(s1.ws[w])
      && (forall u :: u in s1.ws && u != t ==> FlagOK(s1.ws[u]) && !Collector(s1.ws[u].pc))
    ensures var s1, s4 := Run(s0, x), Run(s0, y);
      && s4.paused && t in s4.ws && w in s4.ws && s4.ws[t].pc.Collecting? && s4.ws[w] == s1.ws[w]
  {
    var s1 := Run(s0, x);
    hide Run, Next, FlagOK, Collector;
    var us := s1.ws.Keys - {t, w};
    y := ParkAll(s0, x, us);
    var s2 := Run(s0, y);
    StillKnown(s0, y);
    Announced(s2, s2.ws[t]);
    var z := Move(s0, y, t, Sync);
    var s3 := Run(s0, z);
    StillKnown(s0, z);
    forall u | u in s3.order ensures u == t || Passes(s3.ws[u]) {
      assert u in s3.ws;
      if u != t && u != w {
        assert u in us;
      }
    }
    if |s3.order| > 0 {
      y := Scan(s0, z, t, 0);
      MovedTrans(s2, s3, Run(s0, y), t);
    } else {
      y := z;
    }
    var s := Run(s0, y);
    StillKnown(s0, y);
    Begins(s, s.ws[t]);
    z := Move(s0, y, t, Sync);
    MovedTrans(s2, s, Run(s0, z), t);
    y := z;
  }

  lemma Announced(s: State, w: Worker)
    requires Known(s) && w.pc.Announce?
    ensures var w' := Next(s, w, Sync); w'.gc.RequestGC? && w'.pc == if |s.order| > 0 then IsSelf(0) else Begin
  {
  }

  lemma Begins(s: State, w: Worker)
    requires Known(s) && w.pc.Begin?
    ensures Next(s, w, Sync).pc.Collecting?
  {
  }

  /**
   * The exclusion is exact: from every reachable state in which a pause is claimed while a worker is slipping,
   * some continuation reaches the collection with that worker running its own code.
   */
  lemma SlippingWorkerWorks(order: seq<Tid>, schedule: seq<(Tid, Choice)>, t: Tid, w: Tid)
    returns (more: seq<(Tid, Choice)>)
    requires var s := Run(Start(order), schedule);
      t in s.ws && w in s.ws && w != t && s.ws[t].pc.Claim? && !s.paused && Slipping(s.ws[w])
    ensures Known(Run(Start(order), schedule))
    ensures var s' := Run(Run(Start(order), schedule), more);
      t in s'.ws && w in s'.ws && s'.ws[t].pc.Collecting? && Mutating(s'.ws[w])
  {
    AlwaysInv(order, schedule);
    var s := Run(Start(order), schedule);
    hide Run, Start, Act, Next, FlagOK, Collector;
    assert Run(s, []) == s by { NoSteps(s); }
    more := RunMore(s, [], t, Sync);
    Claimed(s, t, w);
    StillKnown(s, more);
    var x := Collects(s, more, t, w);
    Slips(Run(s, x), Run(s, x).ws[w]);
    more := Move(s, x, w, Sync);
  }

  lemma Slips(s: State, w: Worker)
    requires Known(s) && w.pc.StoreWorking?
    ensures Mutating(Next(s, w, Sync)) && !w.pc.Collecting?
  {
  }

  lemma NoSteps(s: State)
    requires Known(s)
    ensures Run(s, []) == s
  {
  }

  /** Right after the claim. */
  lemma Claimed(s: State, t: Tid, w: Tid)
    requires Inv(s) && t in s.ws && w in s.ws && w != t && s.ws[t].pc.Claim? && !s.paused && Slipping(s.ws[w])
    ensures var s1 := Act(s, t, Sync);
      && s1.paused && s1.ws.Keys == s.ws.Keys && s1.order == s.order && s1.ws[t].pc.Announce?
      && s1.ws[w] == s.ws[w] && s1.ws[w].pc.StoreWorking? && Passes(s1.ws[w])
      && (forall u :: u in s1.ws && u != t ==> FlagOK(s1.ws[u]) && !Collector(s1.ws[u].pc))
  {
    hide Run, Stopped;
    assert FlagOK(s.ws[w]);
  }
}
