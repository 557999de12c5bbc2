/**
 * A lock over a parking lot, as interleaved atomic steps of arbitrarily many threads. A
 * new thread may barge in while parked threads wait.
 */
module Barging {
  import opened Values

  type Tid = nat

  /** Where a thread stands inside `lock` or `unlock`; each step is one shared access. */
  datatype PC =
    | Outside
    | Load                                        // m_state.load()
    | Grab(seen: nat)                             // CAS seen -> seen | is_locked
    | SetParked                                   // CAS is_locked -> is_locked | has_parked
    | ParkEnter                                   // lock the table mutex
    | Validate                                    // the validation callback
    | Flag                                        // me.should_park = true
    | Push
    | ParkLeave                                   // unlock the table mutex
    | Sleep                                       // while (me.should_park) wait
    | Critical
    | Release                                     // CAS is_locked -> 0
    | UnparkEnter                                 // lock the table mutex
    | Pop
    | Store(woken: Option<Tid>, empty: bool)      // the unpark callback
    | UnparkLeave(woken: Option<Tid>)             // unlock the table mutex
    | Wake(who: Tid)                              // who.should_park = false, notify

  /**
   * What threads share: the lock word (1: locked, 2: threads parked), the table mutex, the
   * queue of the lock's address and the raised `should_park` flags. `dequeued` records the
   * threads inside `lock` that were taken off the queue and not put back.
   */
  datatype Shared = Shared(word: nat, mutex: Option<Tid>, queue: seq<Tid>, should: set<Tid>, dequeued: set<Tid>)

  datatype State = State(sh: Shared, pc: map<Tid, PC>)

  /**
   * One step of thread `t` standing at `at`. A blocked thread stays where it is; `fail`
   * makes a compare-and-swap fail spuriously.
   */
  function Step(s: Shared, t: Tid, at: PC, fail: bool): (Shared, PC) {
    match at
    case Outside => (s, Load)
    case Load => (s, if s.word % 2 == 1 then SetParked else Grab(s.word))
    case Grab(seen) =>
      if !fail && s.word == seen then (s.(word := seen + 1, dequeued := s.dequeued - {t}), Critical)
      else (s, SetParked)
    case SetParked => (if !fail && s.word == 1 then s.(word := 3) else s, ParkEnter)
    case ParkEnter => if s.mutex.None? then (s.(mutex := Some(t)), Validate) else (s, at)
    case Validate => if s.word == 3 then (s, Flag) else (s.(mutex := None), Load)
    case Flag => (s.(should := s.should + {t}), Push)
    case Push => (s.(queue := s.queue + [t], dequeued := s.dequeued - {t}), ParkLeave)
    case ParkLeave => (s.(mutex := None), Sleep)
    case Sleep => (s, if t in s.should then at else Load)
    case Critical => (s, Release)
    case Release => if !fail && s.word == 1 then (s.(word := 0), Outside) else (s, UnparkEnter)
    case UnparkEnter => if s.mutex.None? then (s.(mutex := Some(t)), Pop) else (s, at)
    case Pop =>
      if |s.queue| == 0 then (s, Store(None, true))
      else
        var u := s.queue[0];
        (s.(queue := s.queue[1..], dequeued := s.dequeued + {u}), Store(Some(u), |s.queue| == 1))
    case Store(u, empty) => (s.(word := if empty then 0 else 2), UnparkLeave(u))
    case UnparkLeave(u) => (s.(mutex := None), if u.Some? then Wake(u.value) else Outside)
    case Wake(u) => (s.(should := s.should - {u}), Outside)
  }

  function Act(s: State, t: Tid, fail: bool): State
    requires t in s.pc
  {
    var (sh, at) := Step(s.sh, t, s.pc[t], fail);
    State(sh, s.pc[t := at])
  }

  /** The state after a schedule of thread steps and spurious failures. */
  function Run(s: State, schedule: seq<(Tid, bool)>): State {
    if |schedule| == 0 then s
    else
      var s1 := Run(s, schedule[..|schedule| - 1]);
      var (t, fail) := schedule[|schedule| - 1];
      if t in s1.pc then Act(s1, t, fail) else s1
  }

  function Start(threads: set<Tid>): State {
    State(Shared(0, None, [], {}, {}), map t | t in threads :: Outside)
  }

  // ----- what the places mean -----

  /** From `lock` returning until the release in `unlock`. */
  predicate Owns(at: PC) {
    at.Critical? || at.Release? || at.UnparkEnter? || at.Pop? || at.Store?
  }

  predicate HoldsMutex(at: PC) {
    at.Validate? || at.Flag? || at.Push? || at.ParkLeave? || at.Pop? || at.Store? || at.UnparkLeave?
  }

  /** Between the call of `lock` and its return. */
  predicate InLock(at: PC) {
    at.Load? || at.Grab? || at.SetParked? || at.ParkEnter? || at.Validate? || at.Flag? || at.Push? ||
        at.ParkLeave? || at.Sleep?
  }

  /** The thread that `at` is about to wake. */
  function Carried(at: PC): Option<Tid> {
    match at
    case Store(u, _) => u
    case UnparkLeave(u) => u
    case Wake(u) => Some(u)
    case _ => None
  }

  predicate CarriedBy(s: State, u: Tid, t: Tid) {
    t in s.pc && Carried(s.pc[t]) == Some(u)
  }

  /** At most one owner; the locked bit is set exactly while there is one. */
  ghost predicate Exclusive(s: State) {
    (forall t, u :: t in s.pc && u in s.pc && Owns(s.pc[t]) && Owns(s.pc[u]) ==> t == u) &&
    (s.sh.word % 2 == 1 <==> exists t :: t in s.pc && Owns(s.pc[t]))
  }

  ghost predicate OneHolder(s: State) {
    (s.sh.mutex.Some? ==> s.sh.mutex.value in s.pc) &&
    forall t :: t in s.pc ==> (HoldsMutex(s.pc[t]) <==> s.sh.mutex == Some(t))
  }

  /** What a thread may rely on where it stands. */
  predicate Sure(s: Shared, at: PC) {
    match at
    case Grab(seen) => seen == 0 || seen == 2
    case Flag => s.word == 3
    case Push => s.word == 3
    case Store(u, empty) => (empty <==> |s.queue| == 0) && (|s.queue| > 0 ==> u.Some?) &&
        (u.Some? ==> u.value in s.dequeued)
    case _ => true
  }

  ghost predicate AllSure(s: State) {
    s.sh.word <= 3 && forall t :: t in s.pc ==> Sure(s.sh, s.pc[t])
  }

  /** The queue holds sleepers with raised flags, each once. */
  ghost predicate Queued(s: State) {
    (forall i, j :: 0 <= i < j < |s.sh.queue| ==> s.sh.queue[i] != s.sh.queue[j]) &&
    (forall t :: t in s.sh.queue ==> t in s.pc && t in s.sh.should && (s.pc[t].Sleep? || s.pc[t].ParkLeave?)) &&
    (forall t :: t in s.pc && s.pc[t].Push? ==> t in s.sh.should)
  }

  /** A carried thread sleeps outside the queue, and is carried once. */
  ghost predicate Carrying(s: State) {
    (forall u, t :: CarriedBy(s, u, t) ==> u in s.pc && s.pc[u].Sleep? && u in s.sh.should && u !in s.sh.queue) &&
    (forall u, t, t' :: CarriedBy(s, u, t) && CarriedBy(s, u, t') ==> t == t')
  }

  /** A raised flag will be lowered: its thread is queued, carried, or about to be queued. */
  ghost predicate Remembered(s: State) {
    forall t :: t in s.sh.should ==>
      t in s.pc && (s.pc[t].Push? || s.pc[t].ParkLeave? || s.pc[t].Sleep?) &&
      (s.pc[t].Push? || t in s.sh.queue || exists u :: CarriedBy(s, t, u))
  }

  /** No wake-up is lost. */
  ghost predicate NotLost(s: State) {
    (|s.sh.queue| > 0 ==> s.sh.word >= 2) &&
    (|s.sh.queue| > 0 && s.sh.word % 2 == 0 ==> exists t :: t in s.sh.dequeued) &&
    (forall t :: t in s.sh.dequeued ==> t in s.pc && InLock(s.pc[t]) && t !in s.sh.queue)
  }

  ghost predicate Inv(s: State) {
    Exclusive(s) && OneHolder(s) && AllSure(s) && Queued(s) && Carrying(s) && Remembered(s) && NotLost(s)
  }

  lemma StartInv(threads: set<Tid>)
    ensures Inv(Start(threads))
  {
  }

  // ----- every step keeps the invariant -----

  lemma ExclusiveKept(s: State, t: Tid, fail: bool)
    requires Exclusive(s) && AllSure(s) && t in s.pc
    ensures Exclusive(Act(s, t, fail))
  {
    hide Owns, Run;
    var s' := Act(s, t, fail);
    assert t in s'.pc;
    assert Sure(s.sh, s.pc[t]);
    OwnersChange(s.sh, t, s.pc[t], fail);
    if u :| u in s.pc && u != t && Owns(s.pc[u]) {
      assert u in s'.pc && Owns(s'.pc[u]);
    }
  }

  /** The locked bit changes exactly when the thread becomes or stops being an owner. */
  lemma OwnersChange(s: Shared, t: Tid, at: PC, fail: bool)
    requires Sure(s, at)
    ensures var (s', at') := Step(s, t, at, fail);
      if !Owns(at) && Owns(at') then s.word % 2 == 0 && s'.word % 2 == 1
      else if Owns(at) && !Owns(at') then s'.word % 2 == 0
      else s'.word % 2 == s.word % 2
  {
  }

  lemma OneHolderKept(s: State, t: Tid, fail: bool)
    requires OneHolder(s) && t in s.pc
    ensures OneHolder(Act(s, t, fail))
  {
    hide HoldsMutex, Run, Step;
    HolderChange(s.sh, t, s.pc[t], fail);
  }

  lemma HolderChange(s: Shared, t: Tid, at: PC, fail: bool)
    ensures var (s', at') := Step(s, t, at, fail);
      if HoldsMutex(at) == HoldsMutex(at') then s'.mutex == s.mutex
      else if HoldsMutex(at') then s.mutex == None && s'.mutex == Some(t)
      else s'.mutex == None
  {
  }

  lemma AllSureKept(s: State, t: Tid, fail: bool)
    requires Exclusive(s) && OneHolder(s) && AllSure(s) && NotLost(s) && t in s.pc
    ensures AllSure(Act(s, t, fail))
  {
    hide Run, Step, Sure;
    var s' := Act(s, t, fail);
    SureHere(s.sh, t, s.pc[t], fail);
    forall u | u in s'.pc ensures Sure(s'.sh, s'.pc[u]) {
      if u != t {
        SureThere(s, t, u, fail);
      }
    }
  }

  lemma SureHere(s: Shared, t: Tid, at: PC, fail: bool)
    requires Sure(s, at) && s.word <= 3
    ensures var (s', at') := Step(s, t, at, fail); Sure(s', at') && s'.word <= 3
  {
  }

  /** Another thread cannot invalidate what the mutex or the locked bit protects. */
  lemma SureThere(s: State, t: Tid, u: Tid, fail: bool)
    requires Exclusive(s) && OneHolder(s) && AllSure(s) && t in s.pc && u in s.pc && u != t
    ensures Sure(Act(s, t, fail).sh, s.pc[u])
  {
    hide Run;
    assert Sure(s.sh, s.pc[u]) && Sure(s.sh, s.pc[t]);
    assert HoldsMutex(s.pc[u]) ==> !HoldsMutex(s.pc[t]);
    assert Owns(s.pc[u]) ==> !Owns(s.pc[t]);
  }

  lemma QueuedKept(s: State, t: Tid, fail: bool)
    requires Queued(s) && Carrying(s) && t in s.pc
    ensures Queued(Act(s, t, fail))
  {
    hide Run, Owns, InLock, Sure;
    if s.pc[t].Wake? {
      assert CarriedBy(s, s.pc[t].who, t);
    }
  }

  lemma CarryingKept(s: State, t: Tid, fail: bool)
    requires Queued(s) && Carrying(s) && OneHolder(s) && t in s.pc
    ensures Carrying(Act(s, t, fail))
  {
    hide Run, Owns, InLock, Sure, Step, OneHolder, Queued, CarriedBy;
    var s' := Act(s, t, fail);
    forall u, c | CarriedBy(s', u, c)
      ensures u in s'.pc && s'.pc[u].Sleep? && u in s'.sh.should && u !in s'.sh.queue
    {
      CarrierKept(s, t, fail, u, c);
    }
    forall u, c, c' | CarriedBy(s', u, c) && CarriedBy(s', u, c') ensures c == c' {
      CarrierKept(s, t, fail, u, c);
      CarrierKept(s, t, fail, u, c');
    }
  }

  lemma CarrierKept(s: State, t: Tid, fail: bool, u: Tid, c: Tid)
    requires Queued(s) && Carrying(s) && OneHolder(s) && t in s.pc && CarriedBy(Act(s, t, fail), u, c)
    ensures var s' := Act(s, t, fail); u in s'.pc && s'.pc[u].Sleep? && u in s'.sh.should && u !in s'.sh.queue
    ensures CarriedBy(s, u, c) || (c == t && u in s.sh.queue)
  {
    hide Run, Owns, InLock, Sure;
    if s.pc[t].Wake? {
      assert CarriedBy(s, s.pc[t].who, t);
    }
    if c == t && Carried(s.pc[t]) != Some(u) {
      assert s.sh.queue[0] == u;
    } else {
      assert CarriedBy(s, u, c);
    }
  }

  /** A thread carries on what it carries, or takes the head of the queue, or lets go. */
  lemma CarriedChange(s: Shared, t: Tid, at: PC, fail: bool)
    ensures var (s', at') := Step(s, t, at, fail);
      Carried(at') == Carried(at) ||
      (at.Pop? && |s.queue| > 0 && Carried(at') == Some(s.queue[0]) && s'.queue == s.queue[1..]) ||
      (at.Wake? && Carried(at) == Some(at.who) && Carried(at') == None && s'.should == s.should - {at.who})
  {
  }

  lemma RememberedKept(s: State, t: Tid, fail: bool)
    requires Queued(s) && Carrying(s) && OneHolder(s) && Remembered(s) && t in s.pc
    ensures Remembered(Act(s, t, fail))
  {
    hide Run, Owns, InLock, Sure, HoldsMutex, Step, Queued;
    var s' := Act(s, t, fail);
    CarriedChange(s.sh, t, s.pc[t], fail);
    FlagsChange(s.sh, t, s.pc[t], fail);
    forall x | x in s'.sh.should
      ensures x in s'.pc && (s'.pc[x].Push? || s'.pc[x].ParkLeave? || s'.pc[x].Sleep?)
      ensures s'.pc[x].Push? || x in s'.sh.queue || exists u :: CarriedBy(s', x, u)
    {
      if x in s.sh.should {
        if u :| CarriedBy(s, x, u) {
          assert CarriedBy(s', x, u);
        } else if x in s.sh.queue && x !in s'.sh.queue {
          assert CarriedBy(s', x, t);
        }
      }
    }
  }

  /** How flags are raised and lowered, and who leaves the queue. */
  lemma FlagsChange(s: Shared, t: Tid, at: PC, fail: bool)
    ensures var (s', at') := Step(s, t, at, fail);
      (s'.should == s.should || (at.Flag? && at'.Push? && s'.should == s.should + {t}) ||
          (at.Wake? && s'.should == s.should - {at.who})) &&
      (at.Push? ==> t in s'.queue) && (at.Push? || at.ParkLeave? ==> at'.ParkLeave? || at'.Sleep?) &&
      (at.Sleep? && t in s.should ==> at' == at) &&
      (forall x :: x in s.queue ==> x in s'.queue || Carried(at') == Some(x))
  {
  }

  lemma NotLostKept(s: State, t: Tid, fail: bool)
    requires OneHolder(s) && AllSure(s) && Queued(s) && NotLost(s) && t in s.pc
    ensures NotLost(Act(s, t, fail))
  {
    hide Run, Owns, HoldsMutex, Carried, OneHolder;
    assert Sure(s.sh, s.pc[t]);
  }

  // ----- the main results, over every run of every set of threads -----

  lemma InvKept(s: State, t: Tid, fail: bool)
    requires Inv(s) && t in s.pc
    ensures Inv(Act(s, t, fail))
  {
    hide Act, Exclusive, OneHolder, AllSure, Queued, Carrying, Remembered, NotLost, Run;
    ExclusiveKept(s, t, fail);
    OneHolderKept(s, t, fail);
    AllSureKept(s, t, fail);
    QueuedKept(s, t, fail);
    CarryingKept(s, t, fail);
    RememberedKept(s, t, fail);
    NotLostKept(s, t, fail);
  }

  lemma {:induction false} AlwaysInv(threads: set<Tid>, schedule: seq<(Tid, bool)>)
    ensures Inv(Run(Start(threads), schedule))
  {
    hide Act, Inv, Start;
    if |schedule| == 0 {
      StartInv(threads);
    } else {
      var s := Run(Start(threads), schedule[..|schedule| - 1]);
      var (t, fail) := schedule[|schedule| - 1];
      AlwaysInv(threads, schedule[..|schedule| - 1]);
      if t in s.pc {
        InvKept(s, t, fail);
      }
    }
  }

  /** At most one thread owns the lock, and the locked bit says whether one does. */
  lemma MutualExclusion(threads: set<Tid>, schedule: seq<(Tid, bool)>)
    ensures var s := Run(Start(threads), schedule);
      (forall t, u :: t in s.pc && u in s.pc && Owns(s.pc[t]) && Owns(s.pc[u]) ==> t == u) &&
      (s.sh.word % 2 == 1 <==> exists t :: t in s.pc && Owns(s.pc[t]))
  {
    AlwaysInv(threads, schedule);
  }

  /**
   * Threads are queued only under the parked bit; and while threads are queued and nobody
   * owns the lock, some thread inside `lock` has been taken off the queue.
   */
  lemma NoLostWakeUp(threads: set<Tid>, schedule: seq<(Tid, bool)>)
    ensures var s := Run(Start(threads), schedule);
      |s.sh.queue| > 0 ==>
        (s.sh.word >= 2 &&
         ((exists t :: t in s.pc && Owns(s.pc[t])) ||
          exists t :: t in s.sh.dequeued && t in s.pc && InLock(s.pc[t]) && t !in s.sh.queue))
  {
    AlwaysInv(threads, schedule);
  }

  /**
   * A sleeping thread that is not free to go on is in the queue, exactly once and not
   * carried, or carried by exactly one unlocking thread and not in the queue.
   */
  lemma SleepersAccountedFor(threads: set<Tid>, schedule: seq<(Tid, bool)>, t: Tid)
    requires var s := Run(Start(threads), schedule); t in s.pc && s.pc[t].Sleep? && t in s.sh.should
    ensures var s := Run(Start(threads), schedule);
      (multiset(s.sh.queue)[t] == 1 && forall u :: !CarriedBy(s, t, u)) ||
      (multiset(s.sh.queue)[t] == 0 && exists u :: CarriedBy(s, t, u) && forall v :: CarriedBy(s, t, v) ==> v == u)
  {
    hide Act, Start, Run, Exclusive, OneHolder, AllSure, NotLost;
    AlwaysInv(threads, schedule);
    var s := Run(Start(threads), schedule);
    if t in s.sh.queue {
      OnceInQueue(s.sh.queue, t);
    } else {
      var u :| CarriedBy(s, t, u);
      assert forall v :: CarriedBy(s, t, v) ==> v == u;
    }
  }

  lemma {:induction false} OnceInQueue(q: seq<Tid>, t: Tid)
    requires t in q && forall i, j :: 0 <= i < j < |q| ==> q[i] != q[j]
    ensures multiset(q)[t] == 1
  {
    var i :| 0 <= i < |q| && q[i] == t;
    assert q == q[..i] + [t] + q[i + 1..];
    assert t !in q[..i] && t !in q[i + 1..];
  }

  /** Threads that cannot move until another one does. */
  predicate Blocked(s: State, t: Tid)
    requires t in s.pc
  {
    ((s.pc[t].ParkEnter? || s.pc[t].UnparkEnter?) && s.sh.mutex.Some?) || (s.pc[t].Sleep? && t in s.sh.should)
  }

  /** No deadlock: while a thread waits inside `lock`, some thread that is inside can move. */
  lemma NeverStuck(threads: set<Tid>, schedule: seq<(Tid, bool)>, t: Tid)
    requires var s := Run(Start(threads), schedule); t in s.pc && InLock(s.pc[t])
    ensures var s := Run(Start(threads), schedule);
      exists u :: u in s.pc && !s.pc[u].Outside? && !Blocked(s, u)
  {
    hide Act, Start, Run;
    AlwaysInv(threads, schedule);
    var s := Run(Start(threads), schedule);
    var u := Mover(s, t);
    assert u in s.pc && !s.pc[u].Outside? && !Blocked(s, u);
  }

  /** A thread that can move: the mutex holder, a waker, the owner, or a dequeued thread. */
  lemma Mover(s: State, t: Tid) returns (u: Tid)
    requires Inv(s) && t in s.pc && InLock(s.pc[t])
    ensures u in s.pc && !s.pc[u].Outside? && !Blocked(s, u)
  {
    hide Act, Start, Run, Step;
    if s.sh.mutex.Some? {
      u := s.sh.mutex.value;
    } else if !Blocked(s, t) {
      u := t;
    } else if t !in s.sh.queue {
      u :| CarriedBy(s, t, u);
    } else if v :| v in s.pc && Owns(s.pc[v]) {
      u := v;
    } else {
      var d :| d in s.sh.dequeued;
      u := d;
      if Blocked(s, d) {
        u :| CarriedBy(s, d, u);
      }
    }
  }
}
