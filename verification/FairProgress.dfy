/**
 * Getting the fair lock: as long as no late store has done damage, or is bound to, every thread inside
 * `lock` can still get it.
 */
module FairProgress {
  import opened Values
  import opened Fair

  // ----- continuations -----

  /** Some schedule leads from `s` to `s'`. */
  ghost predicate Leads(s: State, s': State) {
    exists more :: Run(s, more) == s'
  }

  lemma LeadsHere(s: State)
    ensures Leads(s, s)
  {
    assert Run(s, []) == s;
  }

  lemma {:induction false} RunBoth(s: State, a: seq<(Tid, bool)>, b: seq<(Tid, bool)>)
    ensures Run(s, a + b) == Run(Run(s, a), b)
    decreases |b|
  {
    hide Act;
    if |b| == 0 {
      assert a + b == a;
    } else {
      RunBoth(s, a, b[..|b| - 1]);
      assert (a + b)[..|a + b| - 1] == a + b[..|b| - 1];
    }
  }

  lemma LeadsOn(s: State, s1: State, s2: State)
    requires Leads(s, s1) && Leads(s1, s2)
    ensures Leads(s, s2)
  {
    var a :| Run(s, a) == s1;
    var b :| Run(s1, b) == s2;
    RunBoth(s, a, b);
    assert Run(s, a + b) == s2;
  }

  // ----- where the holder is -----

  /** The holder owns the lock, or has been woken with it, or is being handed it. */
  ghost predicate HolderThere(s: State) {
    s.sh.holder.Some? ==>
      var h := s.sh.holder.value;
      h in s.pc && (Owns(s.pc[h]) || (s.pc[h].Sleep? && (h !in s.sh.should || exists c :: Hands(s, c, h))))
  }

  predicate Hands(s: State, c: Tid, h: Tid) {
    c in s.pc && Carried(s.pc[c]) == Some(h)
  }

  lemma HolderKept(s: State, t: Tid, fail: bool)
    requires Inv(s) && HolderThere(s) && t in s.pc
    ensures HolderThere(Act(s, t, fail))
  {
    hide Run, Carrying;
    var s' := Act(s, t, fail);
    assert Entitled(s.sh, t, s.pc[t]);
    if s'.sh.holder.Some? {
      var h := s'.sh.holder.value;
      if s.pc[t].Pop? && |s.sh.queue| > 0 {
        assert s.sh.queue[0] in s.sh.queue && h == s.sh.queue[0];
        assert HoldsMutex(s.pc[t]) && (HoldsMutex(s.pc[h]) ==> h == t);
        assert Hands(s', t, h);
      } else if s.sh.holder == Some(h) && s.pc[h].Sleep? && h in s.sh.should {
        var c :| Hands(s, c, h);
        assert h in s'.sh.should ==> Hands(s', c, h);
      }
    }
  }

  /** A sleeper that may not go on is queued or being handed the lock. */
  ghost predicate Remembered(s: State) {
    forall u :: u in s.pc && u in s.sh.should && (s.pc[u].Sleep? || s.pc[u].ParkLeave?) ==>
      u in s.sh.queue || exists c :: Hands(s, c, u)
  }

  lemma RememberedKept(s: State, t: Tid, fail: bool)
    requires Remembered(s) && t in s.pc
    ensures Remembered(Act(s, t, fail))
  {
    hide Run;
    var s' := Act(s, t, fail);
    forall u | u in s'.pc && u in s'.sh.should && (s'.pc[u].Sleep? || s'.pc[u].ParkLeave?)
      ensures u in s'.sh.queue || exists c :: Hands(s', c, u)
    {
      if c :| Hands(s, c, u) {
        assert Hands(s', c, u);
      } else if u !in s'.sh.queue {
        assert Hands(s', t, u);
      }
    }
  }

  lemma {:induction false} AlwaysThere(threads: set<Tid>, schedule: seq<(Tid, bool)>)
    ensures var s := Run(Start(threads), schedule); Inv(s) && HolderThere(s) && Remembered(s)
  {
    hide Act, Inv;
    StartInv(threads);
    AlwaysInv(Start(threads), schedule);
    if |schedule| > 0 {
      var most := schedule[..|schedule| - 1];
      var s1 := Run(Start(threads), most);
      var (t, fail) := schedule[|schedule| - 1];
      AlwaysThere(threads, most);
      if t in s1.pc {
        HolderKept(s1, t, fail);
        RememberedKept(s1, t, fail);
      }
    }
  }

  // ----- states from which the lock can be had -----

  /** An owner that found nobody in the queue and has yet to store so. */
  predicate Past(at: PC) {
    (at.UnparkLeave? && at.woken.None?) || (at.Store? && at.value == 0)
  }

  ghost predicate NobodyPast(s: State) {
    forall o :: o in s.pc ==> !Past(s.pc[o])
  }

  /** Somebody has queued itself behind the back of an owner that has looked at the queue already. */
  ghost predicate Missed(s: State) {
    !NobodyPast(s) && Waiting(s)
  }

  /** No late store has stranded the lock or taken a mark away, and none is bound to take one away. */
  ghost predicate Intact(s: State) {
    !Stranded(s) && !Unmarked(s) && !Missed(s)
  }

  ghost predicate Fine(s: State) {
    Inv(s) && HolderThere(s) && Remembered(s) && Intact(s)
  }

  /** What thread `t` may do next without doing damage. */
  ghost predicate Harmless(s: State, t: Tid) {
    t in s.pc && (s.pc[t].Store? ==> s.pc[t].value == 0) && (s.pc[t].Validate? ==> NobodyPast(s))
  }

  lemma Moves(s: State, t: Tid)
    requires Fine(s) && Harmless(s, t)
    ensures var s' := Act(s, t, false);
      Leads(s, s') && Fine(s') && s'.pc == s.pc[t := Step(s.sh, t, s.pc[t], false).1]
  {
    hide Inv, Step, HolderThere, Remembered, Stranded, Unmarked, Waiting, Run, Missed;
    InvKept(s, t, false);
    HolderKept(s, t, false);
    RememberedKept(s, t, false);
    StaysIntact(s, t);
    OneStep(s, t);
  }

  lemma OneStep(s: State, t: Tid)
    requires t in s.pc
    ensures Leads(s, Act(s, t, false))
  {
    hide Act;
    assert [(t, false)][..0] == [];
    assert Run(s, [(t, false)]) == Act(s, t, false);
  }

  lemma StaysIntact(s: State, t: Tid)
    requires Fine(s) && Harmless(s, t)
    ensures Intact(Act(s, t, false))
  {
    hide Run, Step, OneMutex, Queued, Carrying, Entitled, HolderThere, Remembered;
    StrandedStep(s, t, false);
    assert s.pc[t].Store? ==> Past(s.pc[t]);
    MarkedStep(s, t, false);
    NotMissed(s, t);
  }

  lemma NotMissed(s: State, t: Tid)
    requires Inv(s) && !Missed(s) && Harmless(s, t)
    ensures !Missed(Act(s, t, false))
  {
    hide Run, Queued, Carrying;
    if Missed(Act(s, t, false)) {
      MissedBefore(s, t);
    }
  }

  lemma MissedBefore(s: State, t: Tid)
    requires Inv(s) && Harmless(s, t) && Missed(Act(s, t, false))
    ensures Missed(s)
  {
    hide Run, Queued, Carrying, AllEntitled, Waiting;
    var s' := Act(s, t, false);
    var o :| o in s'.pc && Past(s'.pc[o]);
    assert o != t ==> Past(s.pc[o]);
    assert !s.pc[t].Validate?;
    WaitedOn(s, t);
    if s.pc[t].Pop? {
      WaitingInQueue(s, t);
    }
    assert o == t ==> Past(s.pc[t]);
  }

  /** Only a thread at `Validate` begins to wait. */
  lemma WaitedOn(s: State, t: Tid)
    requires t in s.pc && Waiting(Act(s, t, false)) && !s.pc[t].Validate?
    ensures Waiting(s)
  {
    var s' := Act(s, t, false);
    if |s'.sh.queue| > 0 {
      assert |s.sh.queue| > 0 || Committed(s.pc[t]);
    } else {
      var u :| u in s'.pc && Committed(s'.pc[u]);
      assert Committed(s.pc[u]) || Committed(s.pc[t]);
    }
  }

  /** Under the mutex of a thread that pops, whoever waits is in the queue. */
  lemma WaitingInQueue(s: State, t: Tid)
    requires OneMutex(s) && t in s.pc && s.pc[t].Pop? && Waiting(s)
    ensures |s.sh.queue| > 0
  {
    assert HoldsMutex(s.pc[t]);
    assert forall u :: u in s.pc && Committed(s.pc[u]) ==> HoldsMutex(s.pc[u]);
  }

  // ----- the shared state comes to rest -----

  /** Between the call of `lock` and its return. */
  predicate InLock(at: PC) {
    at.Grab? || at.SetParked? || at.ParkEnter? || at.Validate? || at.Flag? || at.Push? || at.ParkLeave? || at.Sleep?
  }

  /** Nobody holds the mutex or is past the queue. */
  ghost predicate Rested(s: State) {
    Fine(s) && NobodyPast(s) && s.sh.mutex.None?
  }

  /** How many steps the thread needs to be done with `unlock`, the late store apart. */
  function LeaveRank(at: PC): nat {
    match at
    case Critical => 6
    case Release => 5
    case UnparkEnter => 4
    case Pop => 3
    case UnparkLeave(_, _) => 2
    case Wake(_, _) => 1
    case Store(v) => if v == 0 then 1 else 0
    case _ => 0
  }

  /**
   * A thread inside `unlock` can come to its late store, or out: then the mutex is free, nobody is past the
   * queue, other threads stand where they stood, and the lock is free or a thread is off the queue.
   */
  lemma {:induction false} Leaves(s: State, o: Tid) returns (s': State)
    requires Fine(s) && o in s.pc && LeaveRank(s.pc[o]) > 0
    requires s.sh.mutex.None? || s.sh.mutex == Some(o)
    requires forall p :: p in s.pc && p != o ==> !Past(s.pc[p])
    ensures Leads(s, s') && Rested(s') && s'.pc.Keys == s.pc.Keys && LeaveRank(s'.pc[o]) == 0 && !InLock(s'.pc[o])
    ensures forall u :: u in s.pc && u != o ==> s'.pc[u] == s.pc[u]
    ensures |s'.sh.queue| <= |s.sh.queue|
    ensures LeaveRank(s.pc[o]) >= 3 ==> s'.sh.holder.None? || |s'.sh.queue| < |s.sh.queue|
    ensures Past(s.pc[o]) ==> s'.sh.holder.None?
    decreases LeaveRank(s.pc[o])
  {
    hide Leads, Fine, Run, Act, Step, Past, HoldsMutex;
    var s1 := Act(s, o, false);
    CanLeave(s, o);
    Moves(s, o);
    LeaveSteps(s, o);
    if LeaveRank(s1.pc[o]) == 0 {
      s' := s1;
    } else {
      s' := Leaves(s1, o);
      LeadsOn(s, s1, s');
    }
  }

  lemma CanLeave(s: State, o: Tid)
    requires o in s.pc && LeaveRank(s.pc[o]) > 0
    ensures Harmless(s, o)
  {
  }

  lemma LeaveSteps(s: State, o: Tid)
    requires Fine(s) && o in s.pc && LeaveRank(s.pc[o]) > 0 && (s.sh.mutex.None? || s.sh.mutex == Some(o))
    ensures var s' := Act(s, o, false); var at := s'.pc[o];
      && LeaveRank(at) < LeaveRank(s.pc[o]) && (s'.sh.mutex.None? || s'.sh.mutex == Some(o))
      && (LeaveRank(at) == 0 ==> s'.sh.mutex.None? && !InLock(at) && !Past(at))
      && |s'.sh.queue| <= |s.sh.queue|
      && (s.pc[o].Pop? ==> Past(at) || |s'.sh.queue| < |s.sh.queue|)
      && (Past(s.pc[o]) ==> if LeaveRank(at) == 0 then s'.sh.holder.None? else Past(at))
      && (LeaveRank(s.pc[o]) >= 4 ==> LeaveRank(at) >= 3 || (LeaveRank(at) == 0 && s'.sh.holder.None?))
  {
    hide Intact, HolderThere, Remembered, Queued, Carrying, AllEntitled;
    assert HoldsMutex(s.pc[o]) <==> s.sh.mutex == Some(o);
    var s' := Act(s, o, false);
    var at := s'.pc[o];
    assert LeaveRank(at) < LeaveRank(s.pc[o]);
    assert s.pc[o].Pop? ==> Past(at) || |s'.sh.queue| < |s.sh.queue|;
  }

  /** How many steps a thread that queues itself needs to give back the mutex. */
  function QueueRank(at: PC): nat {
    match at
    case Validate => 4
    case Flag => 3
    case Push => 2
    case ParkLeave => 1
    case _ => 0
  }

  /** A thread that queues itself, or finds that it need not, can give back the mutex. */
  lemma {:induction false} Queues(s: State, m: Tid) returns (s': State)
    requires Fine(s) && NobodyPast(s) && m in s.pc && QueueRank(s.pc[m]) > 0 && s.sh.mutex == Some(m)
    ensures Leads(s, s') && Rested(s') && s'.pc.Keys == s.pc.Keys && InLock(s'.pc[m])
    ensures forall u :: u in s.pc && u != m ==> s'.pc[u] == s.pc[u]
    decreases QueueRank(s.pc[m])
  {
    hide Leads, Fine, Run, Act, Step, Past, HoldsMutex;
    var s1 := Act(s, m, false);
    CanQueue(s, m);
    Moves(s, m);
    QueueSteps(s, m);
    if QueueRank(s1.pc[m]) == 0 {
      s' := s1;
    } else {
      s' := Queues(s1, m);
      LeadsOn(s, s1, s');
    }
  }

  lemma CanQueue(s: State, m: Tid)
    requires m in s.pc && QueueRank(s.pc[m]) > 0 && NobodyPast(s)
    ensures Harmless(s, m)
  {
  }

  lemma QueueSteps(s: State, m: Tid)
    requires m in s.pc && QueueRank(s.pc[m]) > 0 && s.sh.mutex == Some(m)
    ensures var s' := Act(s, m, false); var at := s'.pc[m];
      && QueueRank(at) < QueueRank(s.pc[m]) && InLock(at) && !Past(at)
      && (if QueueRank(at) == 0 then s'.sh.mutex.None? else s'.sh.mutex == Some(m))
  {
  }

  /** Who is past the queue is the holder, so there is at most one. */
  lemma OnePast(s: State, o: Tid)
    requires Fine(s) && o in s.pc && Past(s.pc[o])
    ensures forall p :: p in s.pc && p != o ==> !Past(s.pc[p])
    ensures LeaveRank(s.pc[o]) > 0
  {
    hide Intact, HolderThere, Remembered, Queued, Carrying;
    assert Entitled(s.sh, o, s.pc[o]);
    assert forall p :: p in s.pc && Past(s.pc[p]) ==> Entitled(s.sh, p, s.pc[p]);
  }

  /** The mutex can be given back and the queue settled while thread `t` stays inside `lock`. */
  lemma Settles(s: State, t: Tid) returns (s': State)
    requires Fine(s) && t in s.pc && InLock(s.pc[t])
    ensures Leads(s, s') && Rested(s') && t in s'.pc && InLock(s'.pc[t])
  {
    hide Leads, Fine, Run, Act, Step;
    var s1 := NonePast(s, t);
    LeadsHere(s1);
    s' := s1;
    if s1.sh.mutex.Some? {
      var m := s1.sh.mutex.value;
      MutexThere(s1, m);
      if QueueRank(s1.pc[m]) > 0 {
        s' := Queues(s1, m);
      } else {
        s' := Leaves(s1, m);
      }
      LeadsOn(s, s1, s');
    }
  }

  lemma MutexThere(s: State, m: Tid)
    requires Fine(s) && s.sh.mutex == Some(m)
    ensures m in s.pc && (QueueRank(s.pc[m]) > 0 || (LeaveRank(s.pc[m]) > 0 && !InLock(s.pc[m])))
  {
    hide Intact, HolderThere, Remembered, Queued, Carrying, AllEntitled;
    assert HoldsMutex(s.pc[m]);
  }

  lemma NonePast(s: State, t: Tid) returns (s': State)
    requires Fine(s) && t in s.pc && InLock(s.pc[t])
    ensures Leads(s, s') && Fine(s') && NobodyPast(s') && t in s'.pc && InLock(s'.pc[t])
  {
    hide Leads, Fine, Run, Act, Step;
    LeadsHere(s);
    s' := s;
    if o :| o in s.pc && Past(s.pc[o]) {
      OnePast(s, o);
      if s.pc[o].Store? {
        s' := Act(s, o, false);
        Moves(s, o);
        StoreSteps(s, o);
      } else {
        PastHolds(s, o);
        s' := Leaves(s, o);
      }
    }
  }

  lemma StoreSteps(s: State, o: Tid)
    requires o in s.pc && s.pc[o].Store?
    ensures !Past(Act(s, o, false).pc[o])
  {
  }

  lemma PastHolds(s: State, o: Tid)
    requires Fine(s) && o in s.pc && s.pc[o].UnparkLeave?
    ensures s.sh.mutex == Some(o)
  {
    hide Intact, HolderThere, Remembered, Queued, Carrying, AllEntitled;
    assert HoldsMutex(s.pc[o]);
  }

  // ----- from rest, the lock passes on until it reaches the thread -----

  function EntryRank(at: PC): nat {
    match at
    case SetParked => 3
    case ParkEnter => 2
    case Validate => 1
    case _ => 0
  }

  /** While the lock is free a thread that runs alone gets it. */
  lemma {:induction false} GetsAlone(s: State, t: Tid) returns (s': State)
    requires Fine(s) && NobodyPast(s) && t in s.pc && (s.pc[t].Grab? || EntryRank(s.pc[t]) > 0) && s.sh.word == 0
    requires if s.pc[t].Validate? then s.sh.mutex == Some(t) else s.sh.mutex.None?
    ensures Leads(s, s') && t in s'.pc && s'.pc[t].Critical?
    decreases EntryRank(s.pc[t])
  {
    hide Leads, Fine, Run, Act, Step, Past;
    var s1 := Act(s, t, false);
    Moves(s, t);
    AloneSteps(s, t);
    s' := s1;
    if !s1.pc[t].Critical? {
      s' := GetsAlone(s1, t);
      LeadsOn(s, s1, s');
    }
  }

  lemma AloneSteps(s: State, t: Tid)
    requires t in s.pc && (s.pc[t].Grab? || EntryRank(s.pc[t]) > 0) && s.sh.word == 0
    requires if s.pc[t].Validate? then s.sh.mutex == Some(t) else s.sh.mutex.None?
    ensures var s' := Act(s, t, false); var at := s'.pc[t];
      && !Past(at) && (s.pc[t].Grab? ==> at.Critical?)
      && (!at.Critical? ==> s'.sh.word == 0 && (at.Grab? || EntryRank(at) > 0) && EntryRank(at) < EntryRank(s.pc[t]) &&
                            if at.Validate? then s'.sh.mutex == Some(t) else s'.sh.mutex.None?)
  {
  }

  /** At rest the holder can be brought to owning the lock; other threads inside `lock` stay where they are. */
  lemma HolderOwns(s: State, h: Tid) returns (s': State)
    requires Rested(s) && s.sh.holder == Some(h)
    ensures Leads(s, s') && Rested(s') && h in s.pc && s'.pc.Keys == s.pc.Keys && LeaveRank(s'.pc[h]) >= 4
    ensures s'.sh.holder == Some(h) && s'.sh.queue == s.sh.queue && (s.pc[h].Sleep? ==> s'.pc[h].Critical?)
    ensures forall u :: u in s.pc && u != h && InLock(s.pc[u]) ==> s'.pc[u] == s.pc[u]
  {
    hide Leads, Fine, Run, Act, Step;
    HolderStands(s, h);
    LeadsHere(s);
    var s1 := s;
    if s.pc[h].Sleep? && h in s.sh.should {
      var c := Hander(s, h);
      s1 := Act(s, c, false);
      Moves(s, c);
      WakeSteps(s, c, h);
    }
    s' := s1;
    if s1.pc[h].Sleep? {
      s' := Act(s1, h, false);
      Moves(s1, h);
      RiseSteps(s1, h);
      LeadsOn(s, s1, s');
    }
  }

  lemma HolderStands(s: State, h: Tid)
    requires Rested(s) && s.sh.holder == Some(h)
    ensures h in s.pc && (s.pc[h].Sleep? || LeaveRank(s.pc[h]) >= 4)
  {
    hide Intact, Remembered, Queued, Carrying, AllEntitled;
    assert !HoldsMutex(s.pc[h]);
  }

  lemma Hander(s: State, h: Tid) returns (c: Tid)
    requires Rested(s) && s.sh.holder == Some(h) && h in s.pc && s.pc[h].Sleep? && h in s.sh.should
    ensures c in s.pc && s.pc[c].Wake? && s.pc[c].who == h && c != h
  {
    hide Intact, Remembered, Queued, Carrying, AllEntitled;
    c :| Hands(s, c, h);
    assert !HoldsMutex(s.pc[c]);
  }

  lemma WakeSteps(s: State, c: Tid, h: Tid)
    requires c in s.pc && s.pc[c].Wake? && s.pc[c].who == h && h in s.pc && h != c
    ensures var s' := Act(s, c, false);
      && h !in s'.sh.should && s'.sh.holder == s.sh.holder && s'.sh.queue == s.sh.queue && s'.sh.mutex == s.sh.mutex
      && !Past(s'.pc[c]) && !InLock(s.pc[c])
  {
  }

  lemma RiseSteps(s: State, h: Tid)
    requires h in s.pc && s.pc[h].Sleep? && h !in s.sh.should
    ensures var s' := Act(s, h, false); s'.pc[h].Critical? && s'.sh == s.sh
  {
  }

  /** At rest every thread inside `lock` can get it: the lock is handed on until it is that thread's turn. */
  lemma {:induction false} GetsItInTurn(s: State, t: Tid) returns (s': State)
    requires Rested(s) && t in s.pc && InLock(s.pc[t])
    ensures Leads(s, s') && t in s'.pc && s'.pc[t].Critical?
    decreases |s.sh.queue|, if s.sh.holder.Some? then 1 else 0
  {
    hide Leads, Fine, Run, Act, Step;
    if s.sh.holder.None? {
      FreeMeansZero(s, t);
      s' := GetsAlone(s, t);
    } else {
      var h := s.sh.holder.value;
      var s1 := HolderOwns(s, h);
      if h == t {
        AsleepOrOut(s, t);
        s' := s1;
      } else {
        var s2 := Leaves(s1, h);
        s' := GetsItInTurn(s2, t);
        LeadsOn(s, s1, s2);
        LeadsOn(s, s2, s');
      }
    }
  }

  lemma AsleepOrOut(s: State, t: Tid)
    requires Rested(s) && s.sh.holder == Some(t) && t in s.pc && InLock(s.pc[t])
    ensures s.pc[t].Sleep?
  {
    hide Intact, Remembered, Queued, Carrying, AllEntitled, OneMutex;
  }

  /** A free lock at rest: the word says so, and nobody sleeps. */
  lemma FreeMeansZero(s: State, t: Tid)
    requires Rested(s) && s.sh.holder.None? && t in s.pc && InLock(s.pc[t])
    ensures s.sh.word == 0 && (s.pc[t].Grab? || EntryRank(s.pc[t]) > 0) && !s.pc[t].Validate?
  {
    assert !HoldsMutex(s.pc[t]);
    assert Entitled(s.sh, t, s.pc[t]);
  }

  // ----- the main results -----

  /**
   * The fast path: while the lock word is 0, a thread that calls `lock` and runs on without a spurious failure
   * has it after two steps.
   */
  lemma FastPath(s: State, t: Tid)
    requires t in s.pc && s.pc[t].Outside? && s.sh.word == 0
    ensures var s' := Run(s, [(t, false), (t, false)]); t in s'.pc && s'.pc[t].Critical? && s'.sh.holder == Some(t)
  {
    assert [(t, false), (t, false)][..1] == [(t, false)];
    assert [(t, false)][..0] == [];
    assert Run(s, [(t, false)]) == Act(s, t, false);
  }

  /**
   * From every reachable state in which no late store has done damage or is bound to, some continuation gives
   * any thread inside `lock` the lock.
   */
  lemma EverybodyCanGetIt(threads: set<Tid>, schedule: seq<(Tid, bool)>, t: Tid)
    requires var s := Run(Start(threads), schedule); Intact(s) && t in s.pc && InLock(s.pc[t])
    ensures exists more :: Gets(Run(Start(threads), schedule), t, more)
  {
    hide Inv, Intact, HolderThere, Remembered, Run, Start, Act, Step;
    AlwaysThere(threads, schedule);
    var s := Run(Start(threads), schedule);
    var s1 := Settles(s, t);
    var s2 := GetsItInTurn(s1, t);
    LeadsOn(s, s1, s2);
    var more :| Run(s, more) == s2;
    assert Gets(s, t, more);
  }

  predicate Gets(s: State, t: Tid, more: seq<(Tid, bool)>) {
    var s' := Run(s, more); t in s'.pc && s'.pc[t].Critical?
  }
}
