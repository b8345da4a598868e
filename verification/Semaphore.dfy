/**
 The counting semaphore with a lock-free fast path, as an interleaving of atomic steps of
 any number of threads. One step is one atomic load, one compare-exchange, one access to
 `waited`, or one operation on the mutex or the condition variable. The weak
 compare-exchange may fail spuriously and a sleeping thread may wake up spuriously.
 */
module Semaphore {
  import opened Basics
  import opened Sums

  /** Where a thread stands, with the local `expected` of the two compare-exchange loops. */
  datatype Pc =
    | Idle
    // acquire()
    | AcqLoad
    | AcqCas(expected: int)
    | AcqLock
    | AcqInc
    | AcqTest
    | AcqBlock
    | Sleeping
    | AcqRelock
    | AcqDec
    | AcqUnlock
    | Acquired
    // release()
    | RelLoad
    | RelCas(expected: int)
    | RelTest
    | RelLock
    | RelNotify
    | RelUnlock
    | Released(ok: bool)

  /** `acquires` and `releases` record the successful operations so far. */
  datatype State = State(
    capacity: int,
    remaining: int,
    waited: int,
    holder: Option<nat>,
    pcs: seq<Pc>,
    acquires: nat,
    releases: nat)

  /** `weak` makes a compare-exchange fail spuriously; `wakee` is the sleeper a notify picks. */
  datatype Label =
    | CallAcquire(t: nat)
    | CallRelease(t: nat)
    | Return(t: nat)
    | Step(t: nat, weak: bool, wakee: nat)
    | SpuriousWake(t: nat)

  function Start(capacity: nat, threads: nat): State
  {
    State(capacity, capacity, 0, None, seq(threads, _ => Idle), 0, 0)
  }

  predicate NeedsMutex(pc: Pc) { pc.AcqLock? || pc.AcqRelock? || pc.RelLock? }

  predicate HasMutex(pc: Pc)
  {
    pc.AcqInc? || pc.AcqTest? || pc.AcqBlock? || pc.AcqDec? || pc.AcqUnlock? ||
    pc.RelNotify? || pc.RelUnlock?
  }

  predicate InFlight(pc: Pc)
  {
    !pc.Idle? && !pc.Sleeping? && !pc.Acquired? && !pc.Released?
  }

  predicate Asleep(s: State, t: nat) { t < |s.pcs| && s.pcs[t].Sleeping? }

  predicate NobodySleeps(s: State) { forall j :: 0 <= j < |s.pcs| ==> !s.pcs[j].Sleeping? }

  predicate Enabled(s: State, l: Label)
  {
    l.t < |s.pcs| &&
    match l
    case CallAcquire(t) => s.pcs[t].Idle?
    case CallRelease(t) => s.pcs[t].Idle?
    case Return(t) => s.pcs[t].Acquired? || s.pcs[t].Released?
    case SpuriousWake(t) => s.pcs[t].Sleeping?
    case Step(t, _, wakee) =>
      && InFlight(s.pcs[t])
      && (NeedsMutex(s.pcs[t]) ==> s.holder.None?)
      && (s.pcs[t].RelNotify? ==> Asleep(s, wakee) || NobodySleeps(s))
  }

  function Goto(s: State, t: nat, pc: Pc): State
    requires t < |s.pcs|
  {
    s.(pcs := s.pcs[t := pc])
  }

  /** One atomic step; a label that is not enabled leaves the state alone. */
  function Next(s: State, l: Label): (r: State)
    ensures |r.pcs| == |s.pcs|
  {
    if !Enabled(s, l) then s else
    match l
    case CallAcquire(t) => Goto(s, t, AcqLoad)
    case CallRelease(t) => Goto(s, t, RelLoad)
    case Return(t) => Goto(s, t, Idle)
    case SpuriousWake(t) => Goto(s, t, AcqRelock)
    case Step(t, weak, wakee) =>
      if s.pcs[t].RelNotify? then Goto(Notify(s, wakee), t, RelUnlock)
      else StepThread(s, t, weak)
  }

  function Notify(s: State, wakee: nat): State
  {
    if Asleep(s, wakee) then Goto(s, wakee, AcqRelock) else s
  }

  function StepThread(s: State, t: nat, weak: bool): State
    requires t < |s.pcs| && InFlight(s.pcs[t]) && !s.pcs[t].RelNotify?
  {
    match s.pcs[t]
    case AcqLoad => Goto(s, t, AcqCas(s.remaining))
    case AcqCas(e) =>
      if e > 0 then
        if s.remaining == e && !weak
        then Goto(s.(remaining := e - 1, acquires := s.acquires + 1), t, Acquired)
        else Goto(s, t, AcqCas(s.remaining))
      else if e == 0 then Goto(s, t, AcqLock)
      else Goto(s, t, Acquired)
    case AcqLock => Goto(s.(holder := Some(t)), t, AcqInc)
    case AcqInc => Goto(s.(waited := s.waited + 1), t, AcqTest)
    case AcqTest => Goto(s, t, if s.remaining > 0 then AcqDec else AcqBlock)
    case AcqBlock => Goto(s.(holder := None), t, Sleeping)
    case AcqRelock => Goto(s.(holder := Some(t)), t, AcqTest)
    case AcqDec => Goto(s.(waited := s.waited - 1), t, AcqUnlock)
    case AcqUnlock => Goto(s.(holder := None), t, AcqLoad)
    case RelLoad => Goto(s, t, RelCas(s.remaining))
    case RelCas(e) =>
      if e < s.capacity then
        if s.remaining == e && !weak
        then Goto(s.(remaining := e + 1, releases := s.releases + 1), t, RelTest)
        else Goto(s, t, RelCas(s.remaining))
      else if e == s.capacity then Goto(s, t, Released(false))
      else Goto(s, t, RelTest)
    case RelTest => Goto(s, t, if s.waited > 0 then RelLock else Released(true))
    case RelLock => Goto(s.(holder := Some(t)), t, RelNotify)
    case RelUnlock => Goto(s.(holder := None), t, Released(true))
  }

  /** The state after a schedule: every interleaving is some schedule. */
  function Exec(s: State, schedule: seq<Label>): State
  {
    if schedule == [] then s
    else Next(Exec(s, schedule[..|schedule| - 1]), schedule[|schedule| - 1])
  }

  // ----- head counts

  /** Acquirers that `waited` counts. */
  function CountedAsWaiting(pc: Pc): nat
  {
    if pc.AcqTest? || pc.AcqBlock? || pc.Sleeping? || pc.AcqRelock? || pc.AcqDec? then 1 else 0
  }

  /** Acquirers that sleep or have already decided to. */
  function GoingToSleep(pc: Pc): nat { if pc.AcqBlock? || pc.Sleeping? then 1 else 0 }

  /** Acquirers inside acquire() that will look at `remaining` again before sleeping. */
  function Awake(pc: Pc): nat
  {
    if pc.AcqLoad? || pc.AcqCas? || pc.AcqLock? || pc.AcqInc? || pc.AcqTest? ||
       pc.AcqRelock? || pc.AcqDec? || pc.AcqUnlock? then 1 else 0
  }

  /** Releasers that have incremented `remaining` and have not notified yet. */
  function OwesNotify(pc: Pc): nat { if pc.RelTest? || pc.RelLock? || pc.RelNotify? then 1 else 0 }

  predicate LocalsInRange(s: State, pc: Pc)
  {
    (pc.AcqCas? ==> 0 <= pc.expected <= s.capacity) && (pc.RelCas? ==> 0 <= pc.expected <= s.capacity)
  }

  /** The four head counts, and how one thread's move changes them. */
  datatype Counts = Counts(waiting: int, sleepers: int, owing: int, awake: int)

  function CountsOf(pcs: seq<Pc>): Counts
  {
    Counts(Sum(pcs, CountedAsWaiting), Sum(pcs, GoingToSleep), Sum(pcs, OwesNotify), Sum(pcs, Awake))
  }

  function Moved(c: Counts, p: Pc, q: Pc): Counts
  {
    Counts(
      c.waiting - CountedAsWaiting(p) + CountedAsWaiting(q),
      c.sleepers - GoingToSleep(p) + GoingToSleep(q),
      c.owing - OwesNotify(p) + OwesNotify(q),
      c.awake - Awake(p) + Awake(q))
  }

  lemma GotoCounts(s: State, t: nat, pc: Pc)
    requires t < |s.pcs|
    ensures CountsOf(Goto(s, t, pc).pcs) == Moved(CountsOf(s.pcs), s.pcs[t], pc)
  {
    SumUpdate(s.pcs, t, pc, CountedAsWaiting);
    SumUpdate(s.pcs, t, pc, GoingToSleep);
    SumUpdate(s.pcs, t, pc, Awake);
    SumUpdate(s.pcs, t, pc, OwesNotify);
  }

  ghost predicate MutexInv(s: State)
  {
    && (forall i :: 0 <= i < |s.pcs| ==> (HasMutex(s.pcs[i]) <==> s.holder == Some(i)))
    && (s.holder.Some? ==> s.holder.value < |s.pcs|)
  }

  ghost predicate CountInv(s: State, c: Counts)
  {
    && 0 <= s.remaining <= s.capacity
    && s.acquires - s.releases == s.capacity - s.remaining
    && s.waited == c.waiting
    && (c.sleepers > 0 ==> s.remaining <= c.owing + c.awake)
  }

  ghost predicate Inv(s: State)
  {
    && MutexInv(s)
    && (forall i :: 0 <= i < |s.pcs| ==> LocalsInRange(s, s.pcs[i]))
    && CountInv(s, CountsOf(s.pcs))
  }

  lemma StartInv(capacity: nat, threads: nat)
    ensures Inv(Start(capacity, threads))
  {
    var s := Start(capacity, threads);
    SumZero(s.pcs, CountedAsWaiting);
    SumZero(s.pcs, GoingToSleep);
  }

  /** The arithmetic of one step, for any head counts in which sleepers are counted by `waited`. */
  lemma StepThreadCounts(s: State, c: Counts, t: nat, weak: bool)
    requires Enabled(s, Step(t, weak, 0)) && !s.pcs[t].RelNotify?
    requires CountInv(s, c) && LocalsInRange(s, s.pcs[t])
    requires 0 <= c.sleepers <= c.waiting && 0 <= c.owing && Awake(s.pcs[t]) <= c.awake
    ensures CountInv(StepThread(s, t, weak), Moved(c, s.pcs[t], StepThread(s, t, weak).pcs[t]))
    ensures LocalsInRange(s, StepThread(s, t, weak).pcs[t])
  {
  }

  lemma StepThreadMutex(s: State, t: nat, weak: bool)
    requires Enabled(s, Step(t, weak, 0)) && !s.pcs[t].RelNotify? && MutexInv(s)
    ensures MutexInv(StepThread(s, t, weak))
  {
    assert HasMutex(s.pcs[t]) <==> s.holder == Some(t);
  }

  lemma StepThreadFrame(s: State, t: nat, weak: bool)
    requires t < |s.pcs| && InFlight(s.pcs[t]) && !s.pcs[t].RelNotify?
    ensures var r := StepThread(s, t, weak); r.pcs == s.pcs[t := r.pcs[t]] && r.capacity == s.capacity
  {
  }

  lemma LocalsKept(s: State, r: State, t: nat)
    requires forall i :: 0 <= i < |s.pcs| ==> LocalsInRange(s, s.pcs[i])
    requires t < |s.pcs| == |r.pcs| && r.pcs == s.pcs[t := r.pcs[t]] && r.capacity == s.capacity
    requires LocalsInRange(s, r.pcs[t])
    ensures forall i :: 0 <= i < |r.pcs| ==> LocalsInRange(r, r.pcs[i])
  {
    forall i | 0 <= i < |r.pcs|
      ensures LocalsInRange(r, r.pcs[i])
    {
      assert i != t ==> LocalsInRange(s, s.pcs[i]);
    }
  }

  lemma StepThreadKeepsInv(s: State, t: nat, weak: bool)
    requires Inv(s) && Enabled(s, Step(t, weak, 0)) && !s.pcs[t].RelNotify?
    ensures Inv(StepThread(s, t, weak))
  {
    var r := StepThread(s, t, weak);
    StepThreadFrame(s, t, weak);
    GotoCounts(s, t, r.pcs[t]);
    SumMonotone(s.pcs, GoingToSleep, CountedAsWaiting);
    SumAtLeast(s.pcs, t, Awake);
    StepThreadCounts(s, CountsOf(s.pcs), t, weak);
    StepThreadMutex(s, t, weak);
    LocalsKept(s, r, t);
  }

  lemma NotifyMutex(s: State, t: nat, wakee: nat)
    requires MutexInv(s) && t < |s.pcs| && s.pcs[t].RelNotify?
    requires forall i :: 0 <= i < |s.pcs| ==> LocalsInRange(s, s.pcs[i])
    ensures var r := Goto(Notify(s, wakee), t, RelUnlock);
            MutexInv(r) && forall i :: 0 <= i < |r.pcs| ==> LocalsInRange(r, r.pcs[i])
  {
    var r := Goto(Notify(s, wakee), t, RelUnlock);
    forall i | 0 <= i < |s.pcs|
      ensures (HasMutex(r.pcs[i]) <==> r.holder == Some(i)) && LocalsInRange(r, r.pcs[i])
    {
      assert HasMutex(s.pcs[i]) <==> s.holder == Some(i);
      assert LocalsInRange(s, s.pcs[i]);
    }
  }

  /** A notify that wakes a sleeper, or finds nobody who sleeps or is about to. */
  lemma NotifyCounts(s: State, t: nat, wakee: nat)
    requires t < |s.pcs| && s.pcs[t].RelNotify?
    requires Asleep(s, wakee) || CountsOf(s.pcs).sleepers == 0
    ensures var c := CountsOf(s.pcs); var d := CountsOf(Goto(Notify(s, wakee), t, RelUnlock).pcs);
            && d.waiting == c.waiting
            && (d.sleepers > 0 ==> c.sleepers > 0 && d.owing + d.awake == c.owing + c.awake)
  {
    GotoCounts(Notify(s, wakee), t, RelUnlock);
    if Asleep(s, wakee) {
      GotoCounts(s, wakee, AcqRelock);
    }
  }

  lemma NotifyKeepsInv(s: State, t: nat, wakee: nat)
    requires Inv(s) && t < |s.pcs| && s.pcs[t].RelNotify?
    requires Asleep(s, wakee) || NobodySleeps(s)
    ensures Inv(Goto(Notify(s, wakee), t, RelUnlock))
  {
    if !Asleep(s, wakee) {
      NobodyGoesToSleep(s, t);
    }
    NotifyCounts(s, t, wakee);
    NotifyMutex(s, t, wakee);
  }

  /** While `t` holds the mutex to notify, no other thread stands between its test and its sleep. */
  lemma NobodyGoesToSleep(s: State, t: nat)
    requires MutexInv(s) && t < |s.pcs| && s.pcs[t].RelNotify? && NobodySleeps(s)
    ensures CountsOf(s.pcs).sleepers == 0
  {
    assert HasMutex(s.pcs[t]);
    SumZero(s.pcs, GoingToSleep);
  }

  lemma MoveKeepsInv(s: State, t: nat, pc: Pc)
    requires Inv(s) && t < |s.pcs| && !HasMutex(s.pcs[t]) && !HasMutex(pc) && LocalsInRange(s, pc)
    requires CountInv(s, Moved(CountsOf(s.pcs), s.pcs[t], pc))
    ensures Inv(Goto(s, t, pc))
  {
    GotoCounts(s, t, pc);
  }

  /** Every atomic step of every thread keeps the invariant. */
  lemma NextKeepsInv(s: State, l: Label)
    requires Inv(s)
    ensures Inv(Next(s, l))
  {
    if Enabled(s, l) {
      match l
      case CallAcquire(t) => MoveKeepsInv(s, t, AcqLoad);
      case CallRelease(t) => MoveKeepsInv(s, t, RelLoad);
      case Return(t) => MoveKeepsInv(s, t, Idle);
      case SpuriousWake(t) => MoveKeepsInv(s, t, AcqRelock);
      case Step(t, weak, wakee) =>
        if s.pcs[t].RelNotify? {
          NotifyKeepsInv(s, t, wakee);
        } else {
          StepThreadKeepsInv(s, t, weak);
        }
    }
  }

  lemma {:induction false} ExecKeepsInv(s: State, schedule: seq<Label>)
    requires Inv(s)
    ensures Inv(Exec(s, schedule))
  {
    if schedule != [] {
      var n := |schedule| - 1;
      ExecKeepsInv(s, schedule[..n]);
      NextKeepsInv(Exec(s, schedule[..n]), schedule[n]);
    }
  }

  // ----- main results

  /**
   No lost wakeup: in every interleaving, while somebody sleeps, each free permit is matched by
   a releaser that still owes a notify or by an acquirer that is awake. Permits are conserved.
   */
  lemma NoLostWakeup(capacity: nat, threads: nat, schedule: seq<Label>)
    ensures var s := Exec(Start(capacity, threads), schedule);
            && 0 <= s.remaining <= s.capacity
            && s.acquires - s.releases == s.capacity - s.remaining
            && (!NobodySleeps(s) ==> s.remaining <= Sum(s.pcs, OwesNotify) + Sum(s.pcs, Awake))
  {
    StartInv(capacity, threads);
    ExecKeepsInv(Start(capacity, threads), schedule);
    var s := Exec(Start(capacity, threads), schedule);
    if !NobodySleeps(s) {
      var j :| 0 <= j < |s.pcs| && s.pcs[j].Sleeping?;
      SumAtLeast(s.pcs, j, GoingToSleep);
    }
  }

  ghost predicate Quiet(s: State)
  {
    forall i :: 0 <= i < |s.pcs| ==> !InFlight(s.pcs[i])
  }

  /** When nothing is in flight, a sleeping acquirer means that no permit is left. */
  lemma QuietSleepersHaveNoPermit(s: State)
    requires Inv(s) && Quiet(s) && !NobodySleeps(s)
    ensures s.remaining == 0
  {
    var j :| 0 <= j < |s.pcs| && s.pcs[j].Sleeping?;
    SumAtLeast(s.pcs, j, GoingToSleep);
    SumZero(s.pcs, OwesNotify);
    SumZero(s.pcs, Awake);
  }

  /** The mutex never blocks everybody: unless the system is quiet, some thread can step. */
  lemma SomeThreadCanStep(s: State) returns (l: Label)
    requires Inv(s) && !Quiet(s)
    ensures l.Step? && !l.weak && Enabled(s, l)
  {
    var t: nat :| t < |s.pcs| && InFlight(s.pcs[t]);
    if s.holder.Some? {
      t := s.holder.value;
    }
    var wakee: nat := 0;
    if !NobodySleeps(s) {
      wakee :| wakee < |s.pcs| && s.pcs[wakee].Sleeping?;
    }
    l := Step(t, false, wakee);
  }

  /** Safety of blocking over whole runs: a free permit and a sleeper mean a step is possible. */
  lemma FreePermitIsNeverStranded(capacity: nat, threads: nat, schedule: seq<Label>) returns (l: Label)
    requires var s := Exec(Start(capacity, threads), schedule); s.remaining > 0 && !NobodySleeps(s)
    ensures l.Step? && Enabled(Exec(Start(capacity, threads), schedule), l)
  {
    var s := Exec(Start(capacity, threads), schedule);
    StartInv(capacity, threads);
    ExecKeepsInv(Start(capacity, threads), schedule);
    if Quiet(s) {
      QuietSleepersHaveNoPermit(s);
    }
    l := SomeThreadCanStep(s);
  }

  /** What release() returns, for a thread that goes from `p` to `q` in the step from `s` to `r`. */
  predicate ReturnsRightly(s: State, r: State, p: Pc, q: Pc)
  {
    && (q == Released(false) ==> p == RelCas(s.capacity) && r.remaining == s.remaining && r.releases == s.releases)
    && (q.RelTest? ==> p == RelCas(s.remaining) && r.remaining == s.remaining + 1 && r.releases == s.releases + 1)
    && (q == Released(true) ==> p.RelTest? || p.RelUnlock?)
    && (q.RelLock? || q.RelNotify? || q.RelUnlock? ==> p.RelTest? || p.RelLock? || p.RelNotify?)
  }

  lemma StepReturnsRightly(s: State, t: nat, weak: bool)
    requires t < |s.pcs| && InFlight(s.pcs[t]) && !s.pcs[t].RelNotify? && LocalsInRange(s, s.pcs[t])
    ensures ReturnsRightly(s, StepThread(s, t, weak), s.pcs[t], StepThread(s, t, weak).pcs[t])
  {
  }

  /**
   release() returns false only where its compare-exchange loop has seen a full semaphore, with nothing
   changed; true only on the way behind the step that raised `remaining` by one.
   */
  lemma ReleaseReturns(s: State, l: Label, t: nat)
    requires Inv(s) && t < |s.pcs| && Next(s, l).pcs[t] != s.pcs[t]
    ensures ReturnsRightly(s, Next(s, l), s.pcs[t], Next(s, l).pcs[t])
  {
    if l.Step? && !s.pcs[l.t].RelNotify? {
      StepThreadFrame(s, l.t, l.weak);
      assert LocalsInRange(s, s.pcs[t]);
      StepReturnsRightly(s, l.t, l.weak);
    }
  }

  lemma StepReadsRemaining(s: State, t: nat, weak: bool)
    requires t < |s.pcs| && InFlight(s.pcs[t]) && !s.pcs[t].RelNotify?
    ensures var r := StepThread(s, t, weak);
            r.pcs[t].RelCas? || r.pcs[t].AcqCas? ==> r.pcs[t].expected == s.remaining == r.remaining
  {
  }

  /** Where a compare-exchange loop knows the value of `remaining`, it has just read it. */
  lemma LoadsReadRemaining(s: State, l: Label, t: nat)
    requires t < |s.pcs| && Next(s, l).pcs[t] != s.pcs[t]
    ensures var r := Next(s, l);
            r.pcs[t].RelCas? || r.pcs[t].AcqCas? ==> r.pcs[t].expected == s.remaining == r.remaining
  {
    if Enabled(s, l) && l.Step? && !s.pcs[l.t].RelNotify? {
      StepThreadFrame(s, l.t, l.weak);
      StepReadsRemaining(s, l.t, l.weak);
    }
  }

  /** A thread leaves acquire() only with a permit: no other step reaches `Acquired`. */
  lemma AcquiredMeansPermitTaken(s: State, l: Label, t: nat)
    requires Inv(s) && t < |s.pcs| && !s.pcs[t].Acquired? && Next(s, l).pcs[t].Acquired?
    ensures Next(s, l).remaining == s.remaining - 1 && Next(s, l).acquires == s.acquires + 1
  {
    assert LocalsInRange(s, s.pcs[t]);
  }
}
