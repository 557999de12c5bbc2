/** Getting the barging lock: from every reachable state every thread inside `lock` can still get it. */
module BargingProgress {
  import opened Values
  import opened Barging

  // ----- continuations -----

  /** Some schedule leads from `s` to `s'`. */
  ghost predicate Leads(s: State, s': State) {
    exists more :: Run(s, more) == s'
  }

  lemma LeadsHere(s: State)
    ensures Leads(s, s)
  {
    assert Run(s, []) == s;
  }

  lemma {:induction false} RunBoth(s: State, a: seq<(Tid, bool)>, b: seq<(Tid, bool)>)
    ensures Run(s, a + b) == Run(Run(s, a), b)
    decreases |b|
  {
    hide Act;
    if |b| == 0 {
      assert a + b == a;
    } else {
      RunBoth(s, a, b[..|b| - 1]);
      assert (a + b)[..|a + b| - 1] == a + b[..|b| - 1];
    }
  }

  lemma LeadsOn(s: State, s1: State, s2: State)
    requires Leads(s, s1) && Leads(s1, s2)
    ensures Leads(s, s2)
  {
    var a :| Run(s, a) == s1;
    var b :| Run(s1, b) == s2;
    RunBoth(s, a, b);
    assert Run(s, a + b) == s2;
  }

  /** One step of thread `t`, without a spurious failure. */
  lemma Moves(s: State, t: Tid)
    requires Inv(s) && t in s.pc
    ensures var s' := Act(s, t, false);
      Leads(s, s') && Inv(s') && s'.pc == s.pc[t := Step(s.sh, t, s.pc[t], false).1]
  {
    hide Inv, Step;
    InvKept(s, t, false);
    assert [(t, false)][..0] == [];
    assert Run(s, [(t, false)]) == Act(s, t, false);
  }

  // ----- the shared state comes to rest -----

  /** How many steps the holder of the table mutex needs to give it back. */
  function HolderRank(at: PC): nat {
    match at
    case Validate => 4
    case Flag => 3
    case Push => 2
    case ParkLeave => 1
    case Pop => 3
    case Store(_, _) => 2
    case UnparkLeave(_) => 1
    case _ => 0
  }

  /** The mutex can be given back; a thread inside `lock` stays inside, one that does not hold it stays put. */
  lemma {:induction false} MutexFreed(s: State, t: Tid) returns (s': State)
    requires Inv(s) && t in s.pc
    ensures Leads(s, s') && Inv(s') && t in s'.pc && s'.sh.mutex.None?
    ensures InLock(s.pc[t]) ==> InLock(s'.pc[t])
    ensures s.sh.mutex != Some(t) ==> s'.pc[t] == s.pc[t]
    decreases if s.sh.mutex.Some? && s.sh.mutex.value in s.pc then HolderRank(s.pc[s.sh.mutex.value]) else 0
  {
    hide Leads, Inv, Run, Act, Sure, Step;
    LeadsHere(s);
    s' := s;
    if s.sh.mutex.Some? {
      var h := s.sh.mutex.value;
      HolderThere(s, h);
      var s1 := Act(s, h, false);
      Moves(s, h);
      HolderSteps(s, h);
      s' := MutexFreed(s1, t);
      LeadsOn(s, s1, s');
    }
  }

  lemma HolderThere(s: State, h: Tid)
    requires Inv(s) && s.sh.mutex == Some(h)
    ensures h in s.pc && HoldsMutex(s.pc[h])
  {
    hide Exclusive, AllSure, Queued, Carrying, Remembered, NotLost;
  }

  /** A step of the mutex's holder brings it nearer to giving the mutex back. */
  lemma HolderSteps(s: State, h: Tid)
    requires h in s.pc && HoldsMutex(s.pc[h]) && s.sh.mutex == Some(h)
    ensures var s' := Act(s, h, false);
      (s'.sh.mutex == Some(h) && HolderRank(s'.pc[h]) < HolderRank(s.pc[h])) || s'.sh.mutex.None?
    ensures InLock(s.pc[h]) ==> InLock(Act(s, h, false).pc[h])
  {
  }

  /** How many steps an owner needs to let go of the lock and the mutex. */
  function OwnerRank(at: PC): nat {
    match at
    case Critical => 6
    case Release => 5
    case UnparkEnter => 4
    case Pop => 3
    case Store(_, _) => 2
    case UnparkLeave(_) => 1
    case _ => 0
  }

  /** Nobody owns the lock and nobody holds the mutex. */
  predicate Quiet(s: State) {
    s.sh.mutex.None? && s.sh.word % 2 == 0
  }

  /**
   * The owner can leave: then nobody owns the lock, other threads stand where they stood, and if
   * threads were parked the first of them is off the queue.
   */
  lemma {:induction false} OwnerLeaves(s: State, o: Tid) returns (s': State)
    requires Inv(s) && o in s.pc && (Owns(s.pc[o]) || (s.pc[o].UnparkLeave? && s.sh.word % 2 == 0))
    requires s.sh.mutex.None? || s.sh.mutex == Some(o)
    ensures Leads(s, s') && Inv(s') && Quiet(s') && s'.pc.Keys == s.pc.Keys
    ensures s'.pc[o].Outside? || s'.pc[o].Wake?
    ensures forall u :: u in s.pc && u != o ==> s'.pc[u] == s.pc[u]
    ensures |s'.sh.queue| <= |s.sh.queue|
    ensures s.sh.word == 3 && |s.sh.queue| > 0 && OwnerRank(s.pc[o]) >= 3 ==> |s'.sh.queue| < |s.sh.queue|
    decreases OwnerRank(s.pc[o])
  {
    hide Leads, Inv, Run, Act, Sure, Step, Owns, HoldsMutex;
    var s1 := Act(s, o, false);
    Moves(s, o);
    OwnerSteps(s, o);
    if OwnerRank(s1.pc[o]) == 0 {
      s' := s1;
    } else {
      s' := OwnerLeaves(s1, o);
      LeadsOn(s, s1, s');
    }
  }

  lemma OwnerSteps(s: State, o: Tid)
    requires Inv(s) && o in s.pc && (Owns(s.pc[o]) || (s.pc[o].UnparkLeave? && s.sh.word % 2 == 0))
    requires s.sh.mutex.None? || s.sh.mutex == Some(o)
    ensures var s' := Act(s, o, false);
      && OwnerRank(s'.pc[o]) < OwnerRank(s.pc[o]) && (s'.sh.mutex.None? || s'.sh.mutex == Some(o))
      && (OwnerRank(s'.pc[o]) > 0 ==> Owns(s'.pc[o]) || (s'.pc[o].UnparkLeave? && s'.sh.word % 2 == 0))
      && (OwnerRank(s'.pc[o]) == 0 ==> Quiet(s') && (s'.pc[o].Outside? || s'.pc[o].Wake?))
      && (if s.pc[o].Pop? && |s.sh.queue| > 0 then |s'.sh.queue| < |s.sh.queue| else s'.sh.queue == s.sh.queue)
      && (s.sh.word == 3 && OwnerRank(s.pc[o]) > 3 ==> s'.sh.word == 3 && OwnerRank(s'.pc[o]) >= 3)
  {
    hide Carrying, Remembered, Queued, NotLost;
    assert Sure(s.sh, s.pc[o]);
  }

  /** The lock can be let go and the mutex given back while thread `t` stays inside `lock`. */
  lemma Quieted(s: State, t: Tid) returns (s': State)
    requires Inv(s) && t in s.pc && InLock(s.pc[t])
    ensures Leads(s, s') && Inv(s') && Quiet(s') && t in s'.pc && InLock(s'.pc[t])
  {
    hide Leads, Inv, Run, Act, Step, Owns, HoldsMutex;
    var s1 := MutexFreed(s, t);
    s' := s1;
    if s1.sh.word % 2 == 1 {
      var o := OwnerThere(s1);
      NotBoth(s1, o, t);
      s' := OwnerLeaves(s1, o);
      LeadsOn(s, s1, s');
    }
  }

  lemma OwnerThere(s: State) returns (o: Tid)
    requires Inv(s) && s.sh.word % 2 == 1
    ensures o in s.pc && Owns(s.pc[o])
  {
    hide OneHolder, AllSure, Queued, Carrying, Remembered, NotLost;
    o :| o in s.pc && Owns(s.pc[o]);
  }

  lemma NotBoth(s: State, o: Tid, t: Tid)
    requires o in s.pc && t in s.pc && Owns(s.pc[o]) && InLock(s.pc[t])
    ensures o != t
  {
  }

  // ----- from rest, a thread that is not queued gets the lock -----

  /** How far a thread that is awake is from `Load`. */
  function EntryRank(at: PC): nat {
    match at
    case Grab(_) => 4
    case SetParked => 3
    case ParkEnter => 2
    case Sleep => 2
    case Validate => 1
    case _ => 0
  }

  /** The thread is inside `lock`, and awake or free to wake up. */
  predicate Awake(s: State, t: Tid) {
    t in s.pc && (s.pc[t].Load? || EntryRank(s.pc[t]) > 0) && (s.pc[t].Sleep? ==> t !in s.sh.should)
  }

  /** At rest such a thread gets the lock by running alone; the queue and all other threads stay as they are. */
  lemma {:induction false} GetsAlone(s: State, t: Tid) returns (s': State)
    requires Inv(s) && Awake(s, t) && s.sh.word % 2 == 0
    requires if s.pc[t].Validate? then s.sh.mutex == Some(t) else s.sh.mutex.None?
    ensures Leads(s, s') && Inv(s') && s'.pc.Keys == s.pc.Keys && s'.pc[t].Critical? && s'.sh.mutex.None?
    ensures forall u :: u in s.pc && u != t ==> s'.pc[u] == s.pc[u]
    ensures s'.sh.queue == s.sh.queue && s'.sh.word == s.sh.word + 1
    decreases EntryRank(s.pc[t])
  {
    hide Leads, Inv, Run, Act, Sure, Step, Owns, HoldsMutex;
    var s1 := Act(s, t, false);
    Moves(s, t);
    AloneSteps(s, t);
    if s1.pc[t].Critical? {
      s' := s1;
    } else if s.pc[t].Load? {
      s' := Act(s1, t, false);
      Moves(s1, t);
      GrabSteps(s1, t);
      LeadsOn(s, s1, s');
    } else {
      s' := GetsAlone(s1, t);
      LeadsOn(s, s1, s');
    }
  }

  lemma AloneSteps(s: State, t: Tid)
    requires Inv(s) && Awake(s, t) && s.sh.word % 2 == 0
    requires if s.pc[t].Validate? then s.sh.mutex == Some(t) else s.sh.mutex.None?
    ensures var s' := Act(s, t, false); var at := s'.pc[t];
      && s'.sh.queue == s.sh.queue
      && (at.Critical? ==> s.pc[t].Grab? && s'.sh.word == s.sh.word + 1 && s'.sh.mutex.None?)
      && (!at.Critical? ==>
            s'.sh.word == s.sh.word && (if at.Validate? then s'.sh.mutex == Some(t) else s'.sh.mutex.None?))
      && (s.pc[t].Load? ==> at == Grab(s.sh.word))
      && (!at.Critical? && !s.pc[t].Load? ==> Awake(s', t) && EntryRank(at) < EntryRank(s.pc[t]))
  {
    hide Exclusive, OneHolder, Queued, Carrying, Remembered, NotLost;
    assert Sure(s.sh, s.pc[t]);
  }

  lemma GrabSteps(s: State, t: Tid)
    requires t in s.pc && s.pc[t] == Grab(s.sh.word)
    ensures var s' := Act(s, t, false);
      s'.pc[t].Critical? && s'.sh.word == s.sh.word + 1 && s'.sh.queue == s.sh.queue && s'.sh.mutex == s.sh.mutex
  {
  }

  /** A thread inside `lock` that is not queued gets the lock, perhaps after the one carrying it wakes it. */
  lemma GetsIt(s: State, t: Tid) returns (s': State)
    requires Inv(s) && Quiet(s) && t in s.pc && InLock(s.pc[t]) && t !in s.sh.queue
    ensures Leads(s, s') && Inv(s') && s'.pc.Keys == s.pc.Keys && s'.pc[t].Critical? && s'.sh.mutex.None?
    ensures forall u :: u in s.pc && u != t && InLock(s.pc[u]) ==> s'.pc[u] == s.pc[u]
    ensures s'.sh.queue == s.sh.queue && s'.sh.word == s.sh.word + 1
  {
    hide Leads, Inv, Run, Act, Step, Owns;
    if s.pc[t].Sleep? && t in s.sh.should {
      var u := Carrier(s, t);
      var s1 := Act(s, u, false);
      Moves(s, u);
      WakeSteps(s, u, t);
      s' := GetsAlone(s1, t);
      LeadsOn(s, s1, s');
    } else {
      NotHolding(s, t);
      s' := GetsAlone(s, t);
    }
  }

  lemma NotHolding(s: State, t: Tid)
    requires Inv(s) && s.sh.mutex.None? && t in s.pc && InLock(s.pc[t]) && !(s.pc[t].Sleep? && t in s.sh.should)
    ensures Awake(s, t) && !s.pc[t].Validate?
  {
    hide Exclusive, AllSure, Queued, Carrying, Remembered, NotLost;
  }

  /** At rest a sleeper that is not queued is about to be woken. */
  lemma Carrier(s: State, t: Tid) returns (u: Tid)
    requires Inv(s) && Quiet(s) && t in s.pc && s.pc[t].Sleep? && t in s.sh.should && t !in s.sh.queue
    ensures u in s.pc && s.pc[u] == Wake(t) && u != t
  {
    hide AllSure, Queued, NotLost;
    u :| CarriedBy(s, t, u);
  }

  lemma WakeSteps(s: State, u: Tid, t: Tid)
    requires u in s.pc && s.pc[u] == Wake(t) && t in s.pc && s.pc[t].Sleep? && Quiet(s)
    ensures var s' := Act(s, u, false);
      s'.sh.queue == s.sh.queue && s'.sh.word == s.sh.word && s'.sh.mutex.None? && Awake(s', t) && s'.pc[t].Sleep? &&
      !InLock(s.pc[u])
  {
  }

  // ----- from rest, a queued thread comes off the queue -----

  /**
   * At rest every thread inside `lock` can get it: if it is queued, some dequeued thread can get the lock
   * first and take the head off the queue when it leaves.
   */
  lemma {:induction false} GetsItInTurn(s: State, t: Tid) returns (s': State)
    requires Inv(s) && Quiet(s) && t in s.pc && InLock(s.pc[t])
    ensures Leads(s, s') && Inv(s') && t in s'.pc && s'.pc[t].Critical? && s'.sh.mutex.None?
    decreases |s.sh.queue|
  {
    hide Leads, Inv, Run, Act, Step, Owns;
    if t !in s.sh.queue {
      s' := GetsIt(s, t);
    } else {
      var d := Dequeued(s);
      var s1 := GetsIt(s, d);
      Owning(s1, d);
      var s2 := OwnerLeaves(s1, d);
      var s3 := GetsItInTurn(s2, t);
      LeadsOn(s, s1, s2);
      LeadsOn(s, s2, s3);
      s' := s3;
    }
  }

  lemma Owning(s: State, t: Tid)
    requires t in s.pc && s.pc[t].Critical?
    ensures Owns(s.pc[t]) && OwnerRank(s.pc[t]) >= 3
  {
  }

  lemma Dequeued(s: State) returns (d: Tid)
    requires Inv(s) && Quiet(s) && |s.sh.queue| > 0
    ensures d in s.pc && InLock(s.pc[d]) && d !in s.sh.queue && s.sh.word == 2
  {
    hide Exclusive, OneHolder, Queued, Carrying, Remembered;
    d :| d in s.sh.dequeued;
  }

  // ----- the main results -----

  /**
   * The fast path: whenever nobody owns the lock, a thread that has just called `lock` and runs on without a
   * spurious failure has it after two steps.
   */
  lemma FastPath(threads: set<Tid>, schedule: seq<(Tid, bool)>, t: Tid)
    requires var s := Run(Start(threads), schedule);
      t in s.pc && s.pc[t].Load? && forall u :: u in s.pc ==> !Owns(s.pc[u])
    ensures var s' := Run(Run(Start(threads), schedule), [(t, false), (t, false)]);
      t in s'.pc && s'.pc[t].Critical?
  {
    hide Start, Act;
    MutualExclusion(threads, schedule);
    TwoSteps(Run(Start(threads), schedule), t);
  }

  lemma TwoSteps(s: State, t: Tid)
    requires t in s.pc && s.pc[t].Load? && s.sh.word % 2 == 0
    ensures var s' := Run(s, [(t, false), (t, false)]); t in s'.pc && s'.pc[t].Critical?
  {
    assert [(t, false), (t, false)][..1] == [(t, false)];
    assert [(t, false)][..0] == [];
    assert Run(s, [(t, false)]) == Act(s, t, false);
  }

  /** And freeing it takes one step if nobody has asked for it. */
  lemma FastUnlock(s: State, t: Tid)
    requires t in s.pc && s.pc[t].Release? && s.sh.word == 1
    ensures var s' := Run(s, [(t, false)]); t in s'.pc && s'.pc[t].Outside? && s'.sh == s.sh.(word := 0)
  {
    assert [(t, false)][..0] == [];
  }

  /**
   * Nobody is ever locked out: from every reachable state with a thread inside `lock` some continuation
   * gives that thread the lock.
   */
  lemma EverybodyCanGetIt(threads: set<Tid>, schedule: seq<(Tid, bool)>, t: Tid)
    requires var s := Run(Start(threads), schedule); t in s.pc && InLock(s.pc[t])
    ensures exists more :: Gets(Run(Start(threads), schedule), t, more)
  {
    hide Inv, Run, Start, Act, Step, Quiet;
    AlwaysInv(threads, schedule);
    var s := Run(Start(threads), schedule);
    var s1 := Quieted(s, t);
    var s2 := GetsItInTurn(s1, t);
    LeadsOn(s, s1, s2);
    var more :| Run(s, more) == s2;
    assert Gets(s, t, more);
  }

  /** And every thread inside `unlock`, or about to call it, can come out. */
  lemma EverybodyCanLeave(threads: set<Tid>, schedule: seq<(Tid, bool)>, t: Tid)
    requires var s := Run(Start(threads), schedule); t in s.pc && !InLock(s.pc[t])
    ensures exists more :: Leaves(Run(Start(threads), schedule), t, more)
  {
    hide Inv, Run, Start, Act, Step, Quiet;
    AlwaysInv(threads, schedule);
    var s := Run(Start(threads), schedule);
    var s' := ComesOut(s, t);
    var more :| Run(s, more) == s';
    assert Leaves(s, t, more);
  }

  predicate Leaves(s: State, t: Tid, more: seq<(Tid, bool)>) {
    var s' := Run(s, more); t in s'.pc && s'.pc[t].Outside?
  }

  lemma ComesOut(s: State, t: Tid) returns (s': State)
    requires Inv(s) && t in s.pc && !InLock(s.pc[t])
    ensures Leads(s, s') && t in s'.pc && s'.pc[t].Outside?
  {
    hide Leads, Inv, Run, Act, Step;
    LeadsHere(s);
    s' := s;
    if Owns(s.pc[t]) {
      var s1 := s;
      if s.sh.mutex.Some? && s.sh.mutex != Some(t) {
        s1 := MutexFreed(s, t);
      }
      var s2 := OwnerLeaves(s1, t);
      var s3 := Wakes(s2, t);
      LeadsOn(s, s1, s2);
      LeadsOn(s, s2, s3);
      s' := s3;
    } else if s.pc[t].UnparkLeave? {
      var s1 := Act(s, t, false);
      Moves(s, t);
      UnparkSteps(s, t);
      var s2 := Wakes(s1, t);
      LeadsOn(s, s1, s2);
      s' := s2;
    } else {
      s' := Wakes(s, t);
    }
  }

  lemma UnparkSteps(s: State, t: Tid)
    requires t in s.pc && s.pc[t].UnparkLeave?
    ensures var at := Act(s, t, false).pc[t]; at.Outside? || at.Wake?
  {
  }

  lemma Wakes(s: State, t: Tid) returns (s': State)
    requires Inv(s) && t in s.pc && (s.pc[t].Outside? || s.pc[t].Wake?)
    ensures Leads(s, s') && t in s'.pc && s'.pc[t].Outside?
  {
    hide Leads, Inv, Run;
    LeadsHere(s);
    s' := s;
    if s.pc[t].Wake? {
      Moves(s, t);
      s' := Act(s, t, false);
    }
  }

  predicate Gets(s: State, t: Tid, more: seq<(Tid, bool)>) {
    var s' := Run(s, more); t in s'.pc && s'.pc[t].Critical?
  }
}
