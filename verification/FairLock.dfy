/**
 * The fair lock: `unlock` hands the lock over to the thread at the head of the queue. The
 * lock word is written only after the hand-over, so a late store can outlive it.
 */
module Fair {
  import opened Values

  type Tid = nat

  datatype PC =
    | Outside
    | Grab                                        // CAS 0 -> is_locked
    | SetParked                                   // CAS is_locked -> is_locked | has_parked
    | ParkEnter                                   // lock the table mutex
    | Validate                                    // the validation callback
    | Flag                                        // me.should_park = true
    | Push
    | ParkLeave                                   // unlock the table mutex
    | Sleep                                       // while (me.should_park) wait
    | Critical
    | Release                                     // CAS is_locked -> 0
    | UnparkEnter                                 // lock the table mutex
    | Pop
    | UnparkLeave(woken: Option<Tid>, empty: bool)  // unlock the table mutex
    | Wake(who: Tid, empty: bool)                 // who.should_park = false, notify
    | Store(value: nat)                           // the late store of the lock word

  /**
   * What threads share; `holder` records who was given the lock: by the compare-and-swap
   * from 0, or by being taken off the queue.
   */
  datatype Shared = Shared(word: nat, mutex: Option<Tid>, queue: seq<Tid>, should: set<Tid>, holder: Option<Tid>)

  datatype State = State(sh: Shared, pc: map<Tid, PC>)

  function Step(s: Shared, t: Tid, at: PC, fail: bool): (Shared, PC) {
    match at
    case Outside => (s, Grab)
    case Grab => if !fail && s.word == 0 then (s.(word := 1, holder := Some(t)), Critical) else (s, SetParked)
    case SetParked => (if !fail && s.word == 1 then s.(word := 3) else s, ParkEnter)
    case ParkEnter => if s.mutex.None? then (s.(mutex := Some(t)), Validate) else (s, at)
    case Validate => if s.word == 3 then (s, Flag) else (s.(mutex := None), Grab)
    case Flag => (s.(should := s.should + {t}), Push)
    case Push => (s.(queue := s.queue + [t]), ParkLeave)
    case ParkLeave => (s.(mutex := None), Sleep)
    case Sleep => (s, if t in s.should then at else Critical)
    case Critical => (s, Release)
    case Release =>
      if !fail && s.word == 1 then (s.(word := 0, holder := None), Outside) else (s, UnparkEnter)
    case UnparkEnter => if s.mutex.None? then (s.(mutex := Some(t)), Pop) else (s, at)
    case Pop =>
      if |s.queue| == 0 then (s, UnparkLeave(None, true))
      else (s.(queue := s.queue[1..], holder := Some(s.queue[0])), UnparkLeave(Some(s.queue[0]), |s.queue| == 1))
    case UnparkLeave(u, empty) => (s.(mutex := None), if u.Some? then Wake(u.value, empty) else Store(0))
    case Wake(u, empty) => (s.(should := s.should - {u}), Store(if empty then 1 else 3))
    case Store(v) => (s.(word := v, holder := if v == 0 then None else s.holder), Outside)
  }

  function Act(s: State, t: Tid, fail: bool): State
    requires t in s.pc
  {
    var (sh, at) := Step(s.sh, t, s.pc[t], fail);
    State(sh, s.pc[t := at])
  }

  function Run(s: State, schedule: seq<(Tid, bool)>): State {
    if |schedule| == 0 then s
    else
      var s1 := Run(s, schedule[..|schedule| - 1]);
      var (t, fail) := schedule[|schedule| - 1];
      if t in s1.pc then Act(s1, t, fail) else s1
  }

  function Start(threads: set<Tid>): State {
    State(Shared(0, None, [], {}, None), map t | t in threads :: Outside)
  }

  /** Places of a thread that has the lock and has not given it away. */
  predicate Owns(at: PC) {
    at.Critical? || at.Release? || at.UnparkEnter? || at.Pop? || (at.UnparkLeave? && at.woken.None?) ||
        (at.Store? && at.value == 0)
  }

  predicate HoldsMutex(at: PC) {
    at.Validate? || at.Flag? || at.Push? || at.ParkLeave? || at.Pop? || at.UnparkLeave?
  }

  function Carried(at: PC): Option<Tid> {
    match at
    case UnparkLeave(u, _) => u
    case Wake(u, _) => Some(u)
    case _ => None
  }

  /** Whoever owns the lock, was handed the lock, or woke up with it, is the holder. */
  predicate Entitled(s: Shared, t: Tid, at: PC) {
    (Owns(at) ==> s.holder == Some(t)) &&
    (at.Sleep? && t !in s.should ==> s.holder == Some(t)) &&
    (Carried(at).Some? ==> s.holder == Carried(at)) &&
    (at.Push? || at.ParkLeave? ==> t in s.should)
  }

  ghost predicate AllEntitled(s: State) {
    (s.sh.word == 0 ==> s.sh.holder.None?) && forall t :: t in s.pc ==> Entitled(s.sh, t, s.pc[t])
  }

  ghost predicate OneMutex(s: State) {
    (s.sh.mutex.Some? ==> s.sh.mutex.value in s.pc) &&
    forall t :: t in s.pc ==> (HoldsMutex(s.pc[t]) <==> s.sh.mutex == Some(t))
  }

  ghost predicate Queued(s: State) {
    (forall i, j :: 0 <= i < j < |s.sh.queue| ==> s.sh.queue[i] != s.sh.queue[j]) &&
    (forall t :: t in s.sh.queue ==> t in s.pc && t in s.sh.should && (s.pc[t].Sleep? || s.pc[t].ParkLeave?))
  }

  predicate Sleeping(s: State, u: Tid) {
    u in s.pc && s.pc[u].Sleep? && u in s.sh.should && u !in s.sh.queue
  }

  /** A thread that is being handed the lock sleeps outside the queue, and is handed it once. */
  ghost predicate Carrying(s: State) {
    (forall t :: t in s.pc && Carried(s.pc[t]).Some? ==> Sleeping(s, Carried(s.pc[t]).value)) &&
    (forall t, t' :: t in s.pc && t' in s.pc && Carried(s.pc[t]).Some? && Carried(s.pc[t']).Some? ==> t == t')
  }

  ghost predicate Inv(s: State) {
    AllEntitled(s) && OneMutex(s) && Queued(s) && Carrying(s)
  }

  lemma StartInv(threads: set<Tid>)
    ensures Inv(Start(threads))
  {
  }

  /** The holder changes only where nobody holds, or at the hand of an owner. */
  lemma HolderChange(s: Shared, t: Tid, at: PC, fail: bool)
    requires Entitled(s, t, at) && (s.word == 0 ==> s.holder.None?)
    ensures var (s', at') := Step(s, t, at, fail);
      (s'.word == 0 ==> s'.holder.None?) &&
      (s'.holder != s.holder ==> s.holder.None? || (Owns(at) && s.holder == Some(t)))
  {
  }

  lemma EntitledHere(s: Shared, t: Tid, at: PC, fail: bool)
    requires Entitled(s, t, at) && (s.word == 0 ==> s.holder.None?) && Carried(at) != Some(t)
    ensures var (s', at') := Step(s, t, at, fail); Entitled(s', t, at')
  {
  }

  lemma EntitledThere(s: State, t: Tid, u: Tid, fail: bool)
    requires AllEntitled(s) && Carrying(s) && OneMutex(s) && t in s.pc && u in s.pc && u != t
    ensures Entitled(Act(s, t, fail).sh, u, s.pc[u])
  {
    hide Run;
    HolderChange(s.sh, t, s.pc[t], fail);
    assert Entitled(s.sh, u, s.pc[u]) && Entitled(s.sh, t, s.pc[t]);
  }

  lemma AllEntitledKept(s: State, t: Tid, fail: bool)
    requires Inv(s) && t in s.pc
    ensures AllEntitled(Act(s, t, fail))
  {
    hide Run, Step, Entitled, Queued, OneMutex;
    HolderChange(s.sh, t, s.pc[t], fail);
    EntitledHere(s.sh, t, s.pc[t], fail);
    var s' := Act(s, t, fail);
    forall u | u in s'.pc ensures Entitled(s'.sh, u, s'.pc[u]) {
      if u != t {
        EntitledThere(s, t, u, fail);
      }
    }
  }

  lemma OneMutexKept(s: State, t: Tid, fail: bool)
    requires OneMutex(s) && t in s.pc
    ensures OneMutex(Act(s, t, fail))
  {
    hide HoldsMutex, Run, Step;
    MutexChange(s.sh, t, s.pc[t], fail);
  }

  lemma MutexChange(s: Shared, t: Tid, at: PC, fail: bool)
    ensures var (s', at') := Step(s, t, at, fail);
      if HoldsMutex(at) == HoldsMutex(at') then s'.mutex == s.mutex
      else if HoldsMutex(at') then s.mutex == None && s'.mutex == Some(t)
      else s'.mutex == None
  {
  }

  lemma QueuedKept(s: State, t: Tid, fail: bool)
    requires Inv(s) && t in s.pc
    ensures Queued(Act(s, t, fail))
  {
    hide Run, Owns, OneMutex;
    assert Entitled(s.sh, t, s.pc[t]);
    assert s.pc[t].Wake? ==> Sleeping(s, s.pc[t].who);
  }

  lemma CarryingKept(s: State, t: Tid, fail: bool)
    requires Inv(s) && t in s.pc
    ensures Carrying(Act(s, t, fail))
  {
    hide Run;
    assert Entitled(s.sh, t, s.pc[t]);
    var s' := Act(s, t, fail);
    forall c | c in s'.pc && Carried(s'.pc[c]).Some? ensures Sleeping(s', Carried(s'.pc[c]).value) {
      CarrierKept(s, t, fail, c);
    }
    forall c, c' | c in s'.pc && c' in s'.pc && Carried(s'.pc[c]).Some? && Carried(s'.pc[c']).Some? ensures c == c' {
      CarrierKept(s, t, fail, c);
      CarrierKept(s, t, fail, c');
    }
  }

  /** While a thread pops, nobody else is being handed the lock: the popping thread holds it. */
  lemma CarrierKept(s: State, t: Tid, fail: bool, c: Tid)
    requires Inv(s) && t in s.pc && c in s.pc && Carried(Act(s, t, fail).pc[c]).Some?
    ensures var s' := Act(s, t, fail); Sleeping(s', Carried(s'.pc[c]).value)
    ensures c != t ==> Carried(s.pc[c]).Some? && !s.pc[t].Pop?
    ensures c == t ==> Carried(s.pc[t]).Some? || s.pc[t].Pop?
  {
    hide Run;
    assert Entitled(s.sh, t, s.pc[t]) && Entitled(s.sh, c, s.pc[c]);
    if c != t {
      assert Sleeping(s, Carried(s.pc[c]).value);
    }
  }

  // ----- over every run -----

  lemma InvKept(s: State, t: Tid, fail: bool)
    requires Inv(s) && t in s.pc
    ensures Inv(Act(s, t, fail))
  {
    hide Act, AllEntitled, OneMutex, Queued, Carrying, Run;
    AllEntitledKept(s, t, fail);
    OneMutexKept(s, t, fail);
    QueuedKept(s, t, fail);
    CarryingKept(s, t, fail);
  }

  lemma {:induction false} AlwaysInv(s: State, schedule: seq<(Tid, bool)>)
    requires Inv(s)
    ensures Inv(Run(s, schedule))
  {
    hide Act, Inv;
    if |schedule| > 0 {
      var s1 := Run(s, schedule[..|schedule| - 1]);
      var (t, fail) := schedule[|schedule| - 1];
      AlwaysInv(s, schedule[..|schedule| - 1]);
      if t in s1.pc {
        InvKept(s1, t, fail);
      }
    }
  }

  /**
   * At most one thread has the lock, however late the lock word is written: whether it got
   * it by compare-and-swap or by being taken off the queue.
   */
  lemma MutualExclusion(threads: set<Tid>, schedule: seq<(Tid, bool)>, t: Tid, u: Tid)
    requires var s := Run(Start(threads), schedule); t in s.pc && u in s.pc && Owns(s.pc[t]) && Owns(s.pc[u])
    ensures t == u
  {
    hide Run, Act, OneMutex, Queued, Carrying;
    StartInv(threads);
    AlwaysInv(Start(threads), schedule);
    var s := Run(Start(threads), schedule);
    assert Entitled(s.sh, t, s.pc[t]) && Entitled(s.sh, u, s.pc[u]);
  }

  /** A thread that is being handed the lock excludes owners, too. */
  lemma HandOverExclusive(threads: set<Tid>, schedule: seq<(Tid, bool)>, t: Tid, c: Tid)
    requires var s := Run(Start(threads), schedule); t in s.pc && c in s.pc && Owns(s.pc[t])
    ensures Carried(Run(Start(threads), schedule).pc[c]).None?
  {
    hide Run, Act, OneMutex, Queued;
    StartInv(threads);
    AlwaysInv(Start(threads), schedule);
    var s := Run(Start(threads), schedule);
    assert Entitled(s.sh, t, s.pc[t]) && Entitled(s.sh, c, s.pc[c]);
    assert Carried(s.pc[c]).Some? ==> Sleeping(s, Carried(s.pc[c]).value);
  }

  // ----- what the late store breaks -----

  /** The lock word says locked although nobody has the lock. */
  predicate Stranded(s: State) {
    s.sh.word != 0 && s.sh.holder.None?
  }

  /** From a stranded state no thread ever gets the lock again, whatever the schedule. */
  lemma {:induction false} StrandedForever(s: State, schedule: seq<(Tid, bool)>)
    requires Inv(s) && Stranded(s)
    ensures Stranded(Run(s, schedule))
    ensures forall t :: t in Run(s, schedule).pc ==> !Run(s, schedule).pc[t].Critical?
  {
    hide Act, OneMutex, Queued, Carrying;
    AlwaysInv(s, schedule);
    var s' := Run(s, schedule);
    if |schedule| > 0 {
      var s1 := Run(s, schedule[..|schedule| - 1]);
      var (t, fail) := schedule[|schedule| - 1];
      StrandedForever(s, schedule[..|schedule| - 1]);
      AlwaysInv(s, schedule[..|schedule| - 1]);
      if t in s1.pc {
        StrandedStep(s1, t, fail);
      }
    }
    forall t | t in s'.pc ensures !s'.pc[t].Critical? {
      assert Entitled(s'.sh, t, s'.pc[t]);
    }
  }

  /** The step strands the lock: it stores `is_locked` when the lock has been freed already. */
  predicate Strands(s: State, t: Tid) {
    t in s.pc && s.pc[t].Store? && s.pc[t].value != 0 && s.sh.holder.None?
  }

  lemma StrandedStep(s: State, t: Tid, fail: bool)
    requires AllEntitled(s) && t in s.pc
    ensures Stranded(Act(s, t, fail)) <==> Stranded(s) || Strands(s, t)
  {
    assert Entitled(s.sh, t, s.pc[t]);
  }

  /** Step `n` of the schedule strands the lock. */
  predicate StrandsAt(threads: set<Tid>, schedule: seq<(Tid, bool)>, n: int) {
    0 <= n < |schedule| && Strands(Run(Start(threads), schedule[..n]), schedule[n].0)
  }

  /**
   * A run ends stranded exactly if at some step of it a thread that handed the lock over stores
   * `is_locked` after the thread it woke, or a later owner, has freed the lock.
   */
  lemma {:induction false} StrandedExactly(threads: set<Tid>, schedule: seq<(Tid, bool)>)
    ensures Stranded(Run(Start(threads), schedule)) <==> exists n :: StrandsAt(threads, schedule, n)
    decreases |schedule|
  {
    hide Act, OneMutex, Queued, Carrying, Strands, Stranded;
    if |schedule| == 0 {
      NotStrandedFirst(threads);
    } else {
      var most, last := schedule[..|schedule| - 1], |schedule| - 1;
      var s1 := Run(Start(threads), most);
      var (t, fail) := schedule[last];
      StrandedExactly(threads, most);
      StartInv(threads);
      AlwaysInv(Start(threads), most);
      forall n | 0 <= n < last ensures schedule[..n] == most[..n] && schedule[n] == most[n] {
      }
      assert StrandsAt(threads, schedule, last) <==> Strands(s1, t);
      assert forall n :: 0 <= n < last ==> (StrandsAt(threads, schedule, n) <==> StrandsAt(threads, most, n));
      if t in s1.pc {
        StrandedStep(s1, t, fail);
      } else {
        NoStrands(s1, t);
      }
    }
  }

  lemma NoStrands(s: State, t: Tid)
    requires t !in s.pc
    ensures !Strands(s, t)
  {
  }

  lemma NotStrandedFirst(threads: set<Tid>)
    ensures !Stranded(Start(threads))
  {
  }

  function Two(sh: Shared, a: PC, b: PC): State {
    State(sh, map[0 := a, 1 := b])
  }

  lemma RunMore(s0: State, x: seq<(Tid, bool)>, t: Tid) returns (y: seq<(Tid, bool)>)
    requires t in Run(s0, x).pc
    ensures Run(s0, y) == Act(Run(s0, x), t, false)
  {
    hide Act;
    y := x + [(t, false)];
    assert y[..|x|] == x;
  }

  /** A step of thread 0 that no compare-and-swap failure disturbs. */
  lemma Move0(s0: State, x: seq<(Tid, bool)>, sh: Shared, a: PC, b: PC, sh': Shared, a': PC)
    returns (y: seq<(Tid, bool)>)
    requires Run(s0, x) == Two(sh, a, b) && Step(sh, 0, a, false) == (sh', a')
    ensures Run(s0, y) == Two(sh', a', b)
  {
    hide Step, Run;
    y := RunMore(s0, x, 0);
    assert map[0 := a, 1 := b][0 := a'] == map[0 := a', 1 := b];
  }

  lemma Move1(s0: State, x: seq<(Tid, bool)>, sh: Shared, a: PC, b: PC, sh': Shared, b': PC)
    returns (y: seq<(Tid, bool)>)
    requires Run(s0, x) == Two(sh, a, b) && Step(sh, 1, b, false) == (sh', b')
    ensures Run(s0, y) == Two(sh', a, b')
  {
    hide Step, Run;
    y := RunMore(s0, x, 1);
    assert map[0 := a, 1 := b][1 := b'] == map[0 := a, 1 := b'];
  }

  lemma Ones()
    ensures var none: set<Tid>, one: set<Tid> := {}, {1}; none + {1} == one && one - {1} == none
    ensures var none: seq<Tid>, one: seq<Tid> := [], [1]; none + [1] == one && one[1..] == none
  {
  }

  /** Thread 0 takes the lock; thread 1 sets the parked bit, queues itself and sleeps. */
  lemma OneParks(s0: State, x: seq<(Tid, bool)>) returns (y: seq<(Tid, bool)>)
    requires Run(s0, x) == Two(Shared(0, None, [], {}, None), Outside, Outside)
    ensures Run(s0, y) == Two(Shared(3, None, [1], {1}, Some(0)), Critical, Sleep)
  {
    hide Run, Act, Two;
    Ones();
    y := x;
    y := Move0(s0, y, Shared(0, None, [], {}, None), Outside, Outside, Shared(0, None, [], {}, None), Grab);
    y := Move0(s0, y, Shared(0, None, [], {}, None), Grab, Outside, Shared(1, None, [], {}, Some(0)), Critical);
    y := Move1(s0, y, Shared(1, None, [], {}, Some(0)), Critical, Outside, Shared(1, None, [], {}, Some(0)), Grab);
    y := Move1(s0, y, Shared(1, None, [], {}, Some(0)), Critical, Grab, Shared(1, None, [], {}, Some(0)), SetParked);
    y := Move1(s0, y, Shared(1, None, [], {}, Some(0)), Critical, SetParked, Shared(3, None, [], {}, Some(0)),
        ParkEnter);
    y := Move1(s0, y, Shared(3, None, [], {}, Some(0)), Critical, ParkEnter, Shared(3, Some(1), [], {}, Some(0)),
        Validate);
    y := Move1(s0, y, Shared(3, Some(1), [], {}, Some(0)), Critical, Validate, Shared(3, Some(1), [], {}, Some(0)),
        Flag);
    y := Move1(s0, y, Shared(3, Some(1), [], {}, Some(0)), Critical, Flag, Shared(3, Some(1), [], {1}, Some(0)), Push);
    y := Move1(s0, y, Shared(3, Some(1), [], {1}, Some(0)), Critical, Push, Shared(3, Some(1), [1], {1}, Some(0)),
        ParkLeave);
    y := Move1(s0, y, Shared(3, Some(1), [1], {1}, Some(0)), Critical, ParkLeave, Shared(3, None, [1], {1}, Some(0)),
        Sleep);
  }

  /** Thread 0 hands the lock over; its store of the lock word is still to come. */
  lemma ZeroHandsOver(s0: State, x: seq<(Tid, bool)>) returns (y: seq<(Tid, bool)>)
    requires Run(s0, x) == Two(Shared(3, None, [1], {1}, Some(0)), Critical, Sleep)
    ensures Run(s0, y) == Two(Shared(3, None, [], {}, Some(1)), Store(1), Sleep)
  {
    hide Run, Act, Two;
    Ones();
    y := x;
    y := Move0(s0, y, Shared(3, None, [1], {1}, Some(0)), Critical, Sleep, Shared(3, None, [1], {1}, Some(0)), Release);
    y := Move0(s0, y, Shared(3, None, [1], {1}, Some(0)), Release, Sleep, Shared(3, None, [1], {1}, Some(0)),
        UnparkEnter);
    y := Move0(s0, y, Shared(3, None, [1], {1}, Some(0)), UnparkEnter, Sleep, Shared(3, Some(0), [1], {1}, Some(0)),
        Pop);
    y := Move0(s0, y, Shared(3, Some(0), [1], {1}, Some(0)), Pop, Sleep, Shared(3, Some(0), [], {1}, Some(1)),
        UnparkLeave(Some(1), true));
    y := Move0(s0, y, Shared(3, Some(0), [], {1}, Some(1)), UnparkLeave(Some(1), true), Sleep,
        Shared(3, None, [], {1}, Some(1)), Wake(1, true));
    y := Move0(s0, y, Shared(3, None, [], {1}, Some(1)), Wake(1, true), Sleep, Shared(3, None, [], {}, Some(1)),
        Store(1));
  }

  /** Thread 1 runs and frees the lock; then the late store arrives. */
  lemma OneFrees(s0: State, x: seq<(Tid, bool)>) returns (y: seq<(Tid, bool)>)
    requires Run(s0, x) == Two(Shared(3, None, [], {}, Some(1)), Store(1), Sleep)
    ensures Run(s0, y) == Two(Shared(1, None, [], {}, None), Outside, Outside)
  {
    hide Run, Act, Two;
    Ones();
    y := x;
    y := Move1(s0, y, Shared(3, None, [], {}, Some(1)), Store(1), Sleep, Shared(3, None, [], {}, Some(1)), Critical);
    y := Move1(s0, y, Shared(3, None, [], {}, Some(1)), Store(1), Critical, Shared(3, None, [], {}, Some(1)), Release);
    y := Move1(s0, y, Shared(3, None, [], {}, Some(1)), Store(1), Release, Shared(3, None, [], {}, Some(1)),
        UnparkEnter);
    y := Move1(s0, y, Shared(3, None, [], {}, Some(1)), Store(1), UnparkEnter, Shared(3, Some(1), [], {}, Some(1)),
        Pop);
    y := Move1(s0, y, Shared(3, Some(1), [], {}, Some(1)), Store(1), Pop, Shared(3, Some(1), [], {}, Some(1)),
        UnparkLeave(None, true));
    y := Move1(s0, y, Shared(3, Some(1), [], {}, Some(1)), Store(1), UnparkLeave(None, true),
        Shared(3, None, [], {}, Some(1)), Store(0));
    y := Move1(s0, y, Shared(3, None, [], {}, Some(1)), Store(1), Store(0), Shared(0, None, [], {}, None), Outside);
    y := Move0(s0, y, Shared(0, None, [], {}, None), Store(1), Outside, Shared(1, None, [], {}, None), Outside);
  }

  lemma AtStart()
    ensures Run(Start({0, 1}), []) == Two(Shared(0, None, [], {}, None), Outside, Outside)
  {
  }

  /**
   * Stranding happens: thread 0 has the lock, thread 1 parks, 0 hands the lock over, 1 runs
   * and frees the lock, and only then does 0 store its stale `is_locked`.
   */
  lemma LateStoreStrands() returns (schedule: seq<(Tid, bool)>)
    ensures var s := Run(Start({0, 1}), schedule);
      Stranded(s) && s.pc == map[0 := Outside, 1 := Outside]
  {
    hide Run, Act, Start;
    var s0 := Start({0, 1});
    AtStart();
    schedule := OneParks(s0, []);
    schedule := ZeroHandsOver(s0, schedule);
    schedule := OneFrees(s0, schedule);
  }

  // ----- waiting threads and the parked bit -----

  /** The thread is about to queue itself: its validation has succeeded. */
  predicate Committed(at: PC) {
    at.Flag? || at.Push?
  }

  /** Somebody is queued or about to be. */
  ghost predicate Waiting(s: State) {
    |s.sh.queue| > 0 || exists t :: t in s.pc && Committed(s.pc[t])
  }

  /** Somebody waits and the lock word does not say so: an unlock by compare-and-swap would miss them. */
  ghost predicate Unmarked(s: State) {
    Waiting(s) && s.sh.word != 3
  }

  /** The step takes the parked bit away from threads that wait. */
  ghost predicate Erases(s: State, t: Tid) {
    t in s.pc && s.pc[t].Store? && s.pc[t].value != 3 && Waiting(s)
  }

  lemma ErasingStep(s: State, t: Tid, fail: bool)
    requires t in s.pc && Erases(s, t)
    ensures Unmarked(Act(s, t, fail))
  {
    if |s.sh.queue| == 0 {
      var u :| u in s.pc && Committed(s.pc[u]);
      assert u in Act(s, t, fail).pc && Committed(Act(s, t, fail).pc[u]);
    }
  }

  lemma MarkedStep(s: State, t: Tid, fail: bool)
    requires t in s.pc && !Unmarked(s) && !Erases(s, t)
    ensures !Unmarked(Act(s, t, fail))
  {
    var s' := Act(s, t, fail);
    if Waiting(s') && s'.sh.word != 3 {
      WaitedBefore(s, t, fail);
    }
  }

  /** Only a thread that has seen the parked bit begins to wait. */
  lemma WaitedBefore(s: State, t: Tid, fail: bool)
    requires t in s.pc && Waiting(Act(s, t, fail)) && Act(s, t, fail).sh.word != 3
    ensures Waiting(s)
  {
    var s' := Act(s, t, fail);
    if |s'.sh.queue| > 0 {
      assert |s.sh.queue| > 0 || Committed(s.pc[t]);
    } else {
      var u :| u in s'.pc && Committed(s'.pc[u]);
      assert Committed(s.pc[u]);
    }
  }

  ghost predicate ErasesAt(threads: set<Tid>, schedule: seq<(Tid, bool)>, n: int) {
    0 <= n < |schedule| && Erases(Run(Start(threads), schedule[..n]), schedule[n].0)
  }

  /**
   * Throughout a run waiting threads are marked in the lock word exactly if no store of the lock word
   * ever takes the mark away from a thread that queued itself since the queue was looked at.
   */
  lemma {:induction false} MarkedExactly(threads: set<Tid>, schedule: seq<(Tid, bool)>)
    ensures (forall n :: 0 <= n <= |schedule| ==> !Unmarked(Run(Start(threads), schedule[..n]))) <==>
            (forall n :: !ErasesAt(threads, schedule, n))
    decreases |schedule|
  {
    hide Act, Erases, Unmarked, Start;
    if |schedule| == 0 {
      NobodyWaits(threads);
      assert schedule[..0] == schedule == [];
    } else {
      var most, last := schedule[..|schedule| - 1], |schedule| - 1;
      MarkedExactly(threads, most);
      assert forall n :: 0 <= n <= last ==> schedule[..n] == most[..n];
      assert forall n :: 0 <= n < last ==> (ErasesAt(threads, schedule, n) <==> ErasesAt(threads, most, n));
      assert most[..last] == most && schedule[..last + 1] == schedule;
      LastMarked(threads, schedule);
    }
  }

  lemma LastMarked(threads: set<Tid>, schedule: seq<(Tid, bool)>)
    requires |schedule| > 0
    ensures var s1 := Run(Start(threads), schedule[..|schedule| - 1]); var s' := Run(Start(threads), schedule);
      (ErasesAt(threads, schedule, |schedule| - 1) ==> Unmarked(s')) &&
      (!Unmarked(s1) && !ErasesAt(threads, schedule, |schedule| - 1) ==> !Unmarked(s'))
  {
    hide Act, Unmarked, Start;
    var s1 := Run(Start(threads), schedule[..|schedule| - 1]);
    var (t, fail) := schedule[|schedule| - 1];
    if t in s1.pc {
      if Erases(s1, t) {
        ErasingStep(s1, t, fail);
      } else if !Unmarked(s1) {
        MarkedStep(s1, t, fail);
      }
    }
  }

  lemma NobodyWaits(threads: set<Tid>)
    ensures !Unmarked(Run(Start(threads), []))
  {
  }

  /**
   * So as long as no store comes late in either way, no wake-up is lost: whenever a thread is queued, the
   * parked bit is set and somebody has the lock or is being handed it.
   */
  lemma NoLostWakeUp(threads: set<Tid>, schedule: seq<(Tid, bool)>)
    requires forall n :: !StrandsAt(threads, schedule, n) && !ErasesAt(threads, schedule, n)
    ensures var s := Run(Start(threads), schedule); |s.sh.queue| > 0 ==> s.sh.word == 3 && s.sh.holder.Some?
  {
    hide Run, Act, Start, StrandsAt, ErasesAt;
    StrandedExactly(threads, schedule);
    MarkedExactly(threads, schedule);
    assert schedule[..|schedule|] == schedule;
    var s := Run(Start(threads), schedule);
    assert !Unmarked(s) && !Stranded(s);
  }

  function Three(sh: Shared, a: PC, b: PC, c: PC): State {
    State(sh, map[0 := a, 1 := b, 2 := c])
  }

  function Put(t: Tid, u: Tid, at: PC, other: PC): PC {
    if t == u then at else other
  }

  lemma Move3(s0: State, x: seq<(Tid, bool)>, sh: Shared, a: PC, b: PC, c: PC, t: Tid, sh': Shared, at: PC)
    returns (y: seq<(Tid, bool)>)
    requires Run(s0, x) == Three(sh, a, b, c) && t <= 2
    requires Step(sh, t, if t == 0 then a else if t == 1 then b else c, false) == (sh', at)
    ensures Run(s0, y) == Three(sh', Put(t, 0, at, a), Put(t, 1, at, b), Put(t, 2, at, c))
  {
    hide Step, Run;
    y := RunMore(s0, x, t);
    PutThree(a, b, c, t, at);
  }

  lemma PutThree(a: PC, b: PC, c: PC, t: Tid, at: PC)
    requires t <= 2
    ensures map[0 := a, 1 := b, 2 := c][t := at] ==
            map[0 := Put(t, 0, at, a), 1 := Put(t, 1, at, b), 2 := Put(t, 2, at, c)]
  {
  }

  lemma Sets()
    ensures var none: set<Tid>, one: set<Tid>, two: set<Tid> := {}, {1}, {2};
      none + {1} == one && one - {1} == none && none + {2} == two
    ensures var none: seq<Tid>, one: seq<Tid>, two: seq<Tid> := [], [1], [2];
      none + [1] == one && one[1..] == none && none + [2] == two
  {
  }

  /** Thread 0 has the lock, thread 1 sleeps in the queue, and thread 2 has seen the lock taken. */
  lemma TwoArrive(s0: State, x: seq<(Tid, bool)>) returns (y: seq<(Tid, bool)>)
    requires Run(s0, x) == Three(Shared(0, None, [], {}, None), Outside, Outside, Outside)
    ensures Run(s0, y) == Three(Shared(3, None, [1], {1}, Some(0)), Critical, Sleep, ParkEnter)
  {
    hide Run, Act, Three;
    Sets();
    y := x;
    var f, l := Shared(0, None, [], {}, None), Shared(1, None, [], {}, Some(0));
    var p := Shared(3, None, [], {}, Some(0));
    y := Move3(s0, y, f, Outside, Outside, Outside, 0, f, Grab);
    y := Move3(s0, y, f, Grab, Outside, Outside, 0, l, Critical);
    y := Move3(s0, y, l, Critical, Outside, Outside, 1, l, Grab);
    y := Move3(s0, y, l, Critical, Grab, Outside, 1, l, SetParked);
    y := Move3(s0, y, l, Critical, SetParked, Outside, 1, p, ParkEnter);
    y := Move3(s0, y, p, Critical, ParkEnter, Outside, 1, p.(mutex := Some(1)), Validate);
    y := Move3(s0, y, p.(mutex := Some(1)), Critical, Validate, Outside, 1, p.(mutex := Some(1)), Flag);
    y := Move3(s0, y, p.(mutex := Some(1)), Critical, Flag, Outside, 1, Shared(3, Some(1), [], {1}, Some(0)), Push);
    y := Move3(s0, y, Shared(3, Some(1), [], {1}, Some(0)), Critical, Push, Outside, 1,
      Shared(3, Some(1), [1], {1}, Some(0)), ParkLeave);
    var q := Shared(3, None, [1], {1}, Some(0));
    y := Move3(s0, y, Shared(3, Some(1), [1], {1}, Some(0)), Critical, ParkLeave, Outside, 1, q, Sleep);
    y := Move3(s0, y, q, Critical, Sleep, Outside, 2, q, Grab);
    y := Move3(s0, y, q, Critical, Sleep, Grab, 2, q, SetParked);
    y := Move3(s0, y, q, Critical, Sleep, SetParked, 2, q, ParkEnter);
  }

  /** Thread 0 hands the lock to thread 1; its store is still to come. */
  lemma OneWoken(s0: State, x: seq<(Tid, bool)>) returns (y: seq<(Tid, bool)>)
    requires Run(s0, x) == Three(Shared(3, None, [1], {1}, Some(0)), Critical, Sleep, ParkEnter)
    ensures Run(s0, y) == Three(Shared(3, None, [], {}, Some(1)), Store(1), Sleep, ParkEnter)
  {
    HandOver();
    hide Run, Act, Three, Step;
    y := x;
    var q, m := Shared(3, None, [1], {1}, Some(0)), Shared(3, Some(0), [1], {1}, Some(0));
    var o, u := Shared(3, Some(0), [], {1}, Some(1)), Shared(3, None, [], {1}, Some(1));
    y := Move3(s0, y, q, Critical, Sleep, ParkEnter, 0, q, Release);
    y := Move3(s0, y, q, Release, Sleep, ParkEnter, 0, q, UnparkEnter);
    y := Move3(s0, y, q, UnparkEnter, Sleep, ParkEnter, 0, m, Pop);
    y := Move3(s0, y, m, Pop, Sleep, ParkEnter, 0, o, UnparkLeave(Some(1), true));
    y := Move3(s0, y, o, UnparkLeave(Some(1), true), Sleep, ParkEnter, 0, u, Wake(1, true));
    y := Move3(s0, y, u, Wake(1, true), Sleep, ParkEnter, 0, Shared(3, None, [], {}, Some(1)), Store(1));
  }

  /** The steps of an unlock that hands the lock to the only thread in the queue. */
  lemma HandOver()
    ensures var q, m := Shared(3, None, [1], {1}, Some(0)), Shared(3, Some(0), [1], {1}, Some(0));
      var o, u := Shared(3, Some(0), [], {1}, Some(1)), Shared(3, None, [], {1}, Some(1));
      && Step(q, 0, Critical, false) == (q, Release) && Step(q, 0, Release, false) == (q, UnparkEnter)
      && Step(q, 0, UnparkEnter, false) == (m, Pop) && Step(m, 0, Pop, false) == (o, UnparkLeave(Some(1), true))
      && Step(o, 0, UnparkLeave(Some(1), true), false) == (u, Wake(1, true))
      && Step(u, 0, Wake(1, true), false) == (Shared(3, None, [], {}, Some(1)), Store(1))
  {
    Ones();
  }

  /** Before the store thread 2 queues itself. */
  lemma TwoQueues(s0: State, x: seq<(Tid, bool)>) returns (y: seq<(Tid, bool)>)
    requires Run(s0, x) == Three(Shared(3, None, [], {}, Some(1)), Store(1), Sleep, ParkEnter)
    ensures Run(s0, y) == Three(Shared(3, None, [2], {2}, Some(1)), Store(1), Sleep, Sleep)
  {
    hide Run, Act, Three;
    Sets();
    y := x;
    var p := Shared(3, None, [], {}, Some(1));
    y := Move3(s0, y, p, Store(1), Sleep, ParkEnter, 2, p.(mutex := Some(2)), Validate);
    y := Move3(s0, y, p.(mutex := Some(2)), Store(1), Sleep, Validate, 2, p.(mutex := Some(2)), Flag);
    y := Move3(s0, y, p.(mutex := Some(2)), Store(1), Sleep, Flag, 2, Shared(3, Some(2), [], {2}, Some(1)), Push);
    y := Move3(s0, y, Shared(3, Some(2), [], {2}, Some(1)), Store(1), Sleep, Push, 2,
      Shared(3, Some(2), [2], {2}, Some(1)), ParkLeave);
    y := Move3(s0, y, Shared(3, Some(2), [2], {2}, Some(1)), Store(1), Sleep, ParkLeave, 2,
      Shared(3, None, [2], {2}, Some(1)), Sleep);
  }

  lemma ThreeStart()
    ensures Run(Start({0, 1, 2}), []) == Three(Shared(0, None, [], {}, None), Outside, Outside, Outside)
  {
  }

  /**
   * A late store can lose a sleeper although the lock is free in the end: it erases the parked bit, thread 1
   * frees the lock without looking at the queue, and thread 2 sleeps on with everybody else outside.
   */
  lemma LateStoreLosesSleeper() returns (schedule: seq<(Tid, bool)>)
    ensures Run(Start({0, 1, 2}), schedule) == Three(Shared(0, None, [2], {2}, None), Outside, Outside, Sleep)
  {
    hide Run, Act, Start, Three;
    var s0 := Start({0, 1, 2});
    ThreeStart();
    schedule := TwoArrive(s0, []);
    schedule := OneWoken(s0, schedule);
    schedule := TwoQueues(s0, schedule);
    var q := Shared(3, None, [2], {2}, Some(1));
    schedule := Move3(s0, schedule, q, Store(1), Sleep, Sleep, 0, q.(word := 1), Outside);
    schedule := Move3(s0, schedule, q.(word := 1), Outside, Sleep, Sleep, 1, q.(word := 1), Critical);
    schedule := Move3(s0, schedule, q.(word := 1), Outside, Critical, Sleep, 1, q.(word := 1), Release);
    var lost := Shared(0, None, [2], {2}, None);
    schedule := Move3(s0, schedule, q.(word := 1), Outside, Release, Sleep, 1, lost, Outside);
  }
}
