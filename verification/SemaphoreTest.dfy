/**
 The stress program TestA over the semaphore: acquirer threads reserve one of `count` acquires
 and raise `number` after each; releaser threads reserve one of `count - sn` releases, lower
 `number`, and call release() until it takes effect.
 */
module SemaphoreTest {
  import opened Sums
  import opened Semaphore

  /** Where a thread stands while it is not inside the semaphore. */
  datatype Client =
    // acquirer
    | AcqStart
    | AcqReserve(ac: int)
    | InAcquire
    | AcqExit
    // releaser
    | RelStart
    | RelLoaded(ac: int)
    | RelReserve(ac: int, rc: int)
    | RelLower
    | InRelease
    | RelExit

  datatype Test = Test(
    sem: State,
    clients: seq<Client>,
    sn: int,
    count: int,
    number: int,
    acquireCount: int,
    releaseCount: int,
    error: bool)

  /** A client step of thread `t`, or a step `l` inside the semaphore. */
  datatype Move = ClientMove(t: nat, weak: bool) | SemMove(l: Label)

  function Begin(sn: nat, acquirers: nat, releasers: nat, count: nat): Test
  {
    Test(Start(sn, acquirers + releasers),
         seq(acquirers, _ => AcqStart) + seq(releasers, _ => RelStart), sn, count, 0, 0, 0, false)
  }

  function At(s: Test, t: nat, c: Client): Test
    requires t < |s.clients|
  {
    s.(clients := s.clients[t := c])
  }

  function ClientStep(s: Test, t: nat, weak: bool): (r: Test)
    requires t < |s.clients| == |s.sem.pcs|
    ensures |r.clients| == |r.sem.pcs| == |s.clients|
  {
    match s.clients[t]
    case AcqStart => At(s, t, AcqReserve(s.acquireCount))
    case AcqReserve(ac) =>
      if ac < s.count then
        if s.acquireCount == ac && !weak
        then At(s.(acquireCount := ac + 1, sem := Goto(s.sem, t, AcqLoad)), t, InAcquire)
        else At(s, t, AcqReserve(s.acquireCount))
      else if ac == s.count then At(s, t, AcqExit)
      else At(s.(sem := Goto(s.sem, t, AcqLoad)), t, InAcquire)
    case InAcquire =>
      if s.sem.pcs[t].Acquired?
      then At(s.(number := s.number + 1, error := s.error || s.number >= s.sn,
                 sem := Goto(s.sem, t, Idle)), t, AcqStart)
      else s
    case RelStart => At(s, t, RelLoaded(s.acquireCount))
    case RelLoaded(ac) => At(s, t, RelReserve(ac, s.releaseCount))
    case RelReserve(ac, rc) =>
      if rc < ac - s.sn then
        if s.releaseCount == rc && !weak
        then At(s.(releaseCount := rc + 1), t, if rc == s.count - s.sn then RelExit else RelLower)
        else At(s, t, RelReserve(ac, s.releaseCount))
      else if rc == s.count - s.sn then At(s, t, RelExit)
      else At(s, t, RelStart)
    case RelLower => At(s.(number := s.number - 1, sem := Goto(s.sem, t, RelLoad)), t, InRelease)
    case InRelease =>
      if s.sem.pcs[t] == Released(true) then At(s.(sem := Goto(s.sem, t, Idle)), t, RelStart)
      else if s.sem.pcs[t] == Released(false)
      then s.(sem := Goto(s.sem, t, RelLoad))
      else s
    case AcqExit => s
    case RelExit => s
  }

  function NextTest(s: Test, m: Move): (r: Test)
    requires |s.clients| == |s.sem.pcs|
    ensures |r.clients| == |r.sem.pcs|
  {
    match m
    case ClientMove(t, weak) => if t < |s.clients| then ClientStep(s, t, weak) else s
    case SemMove(l) => if l.Step? || l.SpuriousWake? then s.(sem := Next(s.sem, l)) else s
  }

  function ExecTest(s: Test, schedule: seq<Move>): (r: Test)
    requires |s.clients| == |s.sem.pcs|
    ensures |r.clients| == |r.sem.pcs|
  {
    if schedule == [] then s
    else NextTest(ExecTest(s, schedule[..|schedule| - 1]), schedule[|schedule| - 1])
  }

  // ----- head counts

  /** Acquirers whose reservation has not yet taken a permit. */
  function Acquiring(pc: Pc): nat
  {
    if Awake(pc) == 1 || pc.AcqBlock? || pc.Sleeping? then 1 else 0
  }

  /** Acquirers that took a permit and have not raised `number` yet. */
  function ToRaise(pc: Pc): nat { if pc.Acquired? then 1 else 0 }

  /** Releasers that lowered `number` and whose release has not taken effect yet. */
  function ToRelease(pc: Pc): nat
  {
    if pc.RelLoad? || pc.RelCas? || pc == Released(false) then 1 else 0
  }

  function ToLower(c: Client): nat { if c.RelLower? then 1 else 0 }

  predicate InAcquirePc(pc: Pc) { Acquiring(pc) == 1 || pc.Acquired? }

  predicate InReleasePc(pc: Pc) { !InAcquirePc(pc) && !pc.Idle? }

  predicate Matches(s: Test, c: Client, pc: Pc)
  {
    && (c.InAcquire? <==> InAcquirePc(pc))
    && (c.InRelease? <==> InReleasePc(pc))
    && (c.AcqReserve? ==> c.ac <= s.acquireCount)
    && (c.RelLoaded? ==> c.ac <= s.acquireCount)
    && (c.RelReserve? ==> c.ac <= s.acquireCount && 0 <= c.rc <= s.releaseCount)
    && (c.RelExit? ==> s.releaseCount == s.count - s.sn)
  }

  datatype Tally = Tally(acquiring: int, toRaise: int, toRelease: int, toLower: int)

  function TallyOf(s: Test): Tally
  {
    Tally(Sum(s.sem.pcs, Acquiring), Sum(s.sem.pcs, ToRaise), Sum(s.sem.pcs, ToRelease), Sum(s.clients, ToLower))
  }

  ghost predicate TallyInv(s: Test, y: Tally)
  {
    && s.acquireCount <= s.count
    && 0 <= s.releaseCount
    && (s.releaseCount <= s.acquireCount - s.sn || s.releaseCount == 0)
    && s.sem.acquires == s.acquireCount - y.acquiring
    && s.sem.releases == s.releaseCount - y.toRelease - y.toLower
    && s.number == s.sem.acquires - s.sem.releases - y.toRaise - y.toRelease
    && s.sem.capacity == s.sn
    && !s.error
  }

  ghost predicate TestInv(s: Test)
  {
    && |s.clients| == |s.sem.pcs|
    && Inv(s.sem)
    && TallyInv(s, TallyOf(s))
    && (forall i :: 0 <= i < |s.clients| ==> Matches(s, s.clients[i], s.sem.pcs[i]))
  }

  function Shift(y: Tally, p: Pc, p': Pc, c: Client, c': Client): Tally
  {
    Tally(y.acquiring - Acquiring(p) + Acquiring(p'),
          y.toRaise - ToRaise(p) + ToRaise(p'),
          y.toRelease - ToRelease(p) + ToRelease(p'),
          y.toLower - ToLower(c) + ToLower(c'))
  }

  /** Only thread `t` changed its place, the counters only grew, and a full `releaseCount` stayed. */
  ghost predicate OnlyMoved(s: Test, s': Test, t: nat)
  {
    && t < |s.clients| == |s.sem.pcs| == |s'.clients| == |s'.sem.pcs|
    && s'.sem.pcs == s.sem.pcs[t := s'.sem.pcs[t]] && s'.clients == s.clients[t := s'.clients[t]]
    && s'.count == s.count && s'.sn == s.sn
    && s.acquireCount <= s'.acquireCount && s.releaseCount <= s'.releaseCount
    && (s.releaseCount == s.count - s.sn ==> s'.releaseCount == s.releaseCount)
  }

  /** How the tally changes when one thread changes its place. */
  lemma ShiftTally(s: Test, s': Test, t: nat)
    requires OnlyMoved(s, s', t)
    ensures TallyOf(s') == Shift(TallyOf(s), s.sem.pcs[t], s'.sem.pcs[t], s.clients[t], s'.clients[t])
  {
    SumUpdate(s.sem.pcs, t, s'.sem.pcs[t], Acquiring);
    SumUpdate(s.sem.pcs, t, s'.sem.pcs[t], ToRaise);
    SumUpdate(s.sem.pcs, t, s'.sem.pcs[t], ToRelease);
    SumUpdate(s.clients, t, s'.clients[t], ToLower);
  }

  predicate IsAcquirer(c: Client) { c.AcqStart? || c.AcqReserve? || c.InAcquire? || c.AcqExit? }

  /** The arithmetic of one client step; a raise finds `number` below the capacity. */
  lemma AcquirerTally(s: Test, y: Tally, t: nat, weak: bool)
    requires t < |s.clients| == |s.sem.pcs| && TallyInv(s, y) && IsAcquirer(s.clients[t])
    requires Matches(s, s.clients[t], s.sem.pcs[t])
    requires s.sem.acquires - s.sem.releases <= s.sem.capacity
    requires ToRaise(s.sem.pcs[t]) <= y.toRaise && 0 <= y.toRelease
    ensures var s' := ClientStep(s, t, weak);
            TallyInv(s', Shift(y, s.sem.pcs[t], s'.sem.pcs[t], s.clients[t], s'.clients[t]))
  {
  }

  lemma ReleaserTally(s: Test, y: Tally, t: nat, weak: bool)
    requires t < |s.clients| == |s.sem.pcs| && TallyInv(s, y) && !IsAcquirer(s.clients[t])
    requires Matches(s, s.clients[t], s.sem.pcs[t])
    ensures var s' := ClientStep(s, t, weak);
            TallyInv(s', Shift(y, s.sem.pcs[t], s'.sem.pcs[t], s.clients[t], s'.clients[t]))
  {
  }

  lemma AcquirerMatches(s: Test, t: nat, weak: bool)
    requires t < |s.clients| == |s.sem.pcs| && s.acquireCount <= s.count && IsAcquirer(s.clients[t])
    requires Matches(s, s.clients[t], s.sem.pcs[t])
    ensures OnlyMoved(s, ClientStep(s, t, weak), t)
    ensures var s' := ClientStep(s, t, weak); Matches(s', s'.clients[t], s'.sem.pcs[t])
  {
  }

  lemma ReleaserMoves(s: Test, t: nat, weak: bool)
    requires t < |s.clients| == |s.sem.pcs| && s.acquireCount <= s.count && !IsAcquirer(s.clients[t])
    requires Matches(s, s.clients[t], s.sem.pcs[t])
    ensures OnlyMoved(s, ClientStep(s, t, weak), t)
  {
  }

  lemma ReleaserMatches(s: Test, t: nat, weak: bool)
    requires t < |s.clients| == |s.sem.pcs| && s.acquireCount <= s.count && !IsAcquirer(s.clients[t])
    requires 0 <= s.releaseCount && (s.releaseCount <= s.acquireCount - s.sn || s.releaseCount == 0)
    requires Matches(s, s.clients[t], s.sem.pcs[t])
    ensures var s' := ClientStep(s, t, weak); Matches(s', s'.clients[t], s'.sem.pcs[t])
  {
  }

  lemma ClientStepSem(s: Test, t: nat, weak: bool)
    requires t < |s.clients| == |s.sem.pcs| && Inv(s.sem) && Matches(s, s.clients[t], s.sem.pcs[t])
    ensures Inv(ClientStep(s, t, weak).sem)
  {
    var pc := ClientStep(s, t, weak).sem.pcs[t];
    if ClientStep(s, t, weak).sem != s.sem {
      MoveKeepsInv(s.sem, t, pc);
    }
  }

  lemma ClientStepKeepsInv(s: Test, t: nat, weak: bool)
    requires TestInv(s) && t < |s.clients|
    ensures TestInv(ClientStep(s, t, weak))
  {
    var s' := ClientStep(s, t, weak);
    if IsAcquirer(s.clients[t]) {
      SumAtLeast(s.sem.pcs, t, ToRaise);
      AcquirerTally(s, TallyOf(s), t, weak);
      AcquirerMatches(s, t, weak);
    } else {
      ReleaserTally(s, TallyOf(s), t, weak);
      ReleaserMoves(s, t, weak);
      ReleaserMatches(s, t, weak);
    }
    ClientStepSem(s, t, weak);
    Assemble(s, s', t);
  }

  /** The counters only grow, and a full `releaseCount` stays, so other threads stay consistent. */
  lemma OthersStillMatch(s: Test, s': Test, t: nat)
    requires OnlyMoved(s, s', t)
    requires forall i :: 0 <= i < |s.clients| ==> Matches(s, s.clients[i], s.sem.pcs[i])
    ensures forall i :: 0 <= i < |s.clients| && i != t ==> Matches(s', s'.clients[i], s'.sem.pcs[i])
  {
    forall i | 0 <= i < |s.clients| && i != t
      ensures Matches(s', s'.clients[i], s'.sem.pcs[i])
    {
      assert Matches(s, s.clients[i], s.sem.pcs[i]);
    }
  }

  lemma Assemble(s: Test, s': Test, t: nat)
    requires OnlyMoved(s, s', t) && TestInv(s) && Inv(s'.sem) && Matches(s', s'.clients[t], s'.sem.pcs[t])
    requires TallyInv(s', Shift(TallyOf(s), s.sem.pcs[t], s'.sem.pcs[t], s.clients[t], s'.clients[t]))
    ensures TestInv(s')
  {
    ShiftTally(s, s', t);
    OthersStillMatch(s, s', t);
  }

  lemma SemStepTally(s: Test, y: Tally, t: nat, weak: bool)
    requires Enabled(s.sem, Step(t, weak, 0)) && !s.sem.pcs[t].RelNotify? && t < |s.clients| == |s.sem.pcs|
    requires TallyInv(s, y) && LocalsInRange(s.sem, s.sem.pcs[t]) && Matches(s, s.clients[t], s.sem.pcs[t])
    ensures var s' := s.(sem := StepThread(s.sem, t, weak));
            && TallyInv(s', Shift(y, s.sem.pcs[t], s'.sem.pcs[t], s.clients[t], s.clients[t]))
            && Matches(s', s'.clients[t], s'.sem.pcs[t])
            && OnlyMoved(s, s', t)
  {
  }

  lemma SemStepKeepsInv(s: Test, t: nat, weak: bool)
    requires TestInv(s) && Enabled(s.sem, Step(t, weak, 0)) && !s.sem.pcs[t].RelNotify?
    ensures TestInv(s.(sem := StepThread(s.sem, t, weak)))
  {
    var s' := s.(sem := StepThread(s.sem, t, weak));
    StepThreadKeepsInv(s.sem, t, weak);
    SemStepTally(s, TallyOf(s), t, weak);
    Assemble(s, s', t);
  }

  lemma WakeKeepsInv(s: Test, t: nat)
    requires TestInv(s) && t < |s.clients| && s.sem.pcs[t].Sleeping?
    ensures TestInv(s.(sem := Goto(s.sem, t, AcqRelock)))
  {
    var s' := s.(sem := Goto(s.sem, t, AcqRelock));
    MoveKeepsInv(s.sem, t, AcqRelock);
    assert Matches(s, s.clients[t], s.sem.pcs[t]);
    Assemble(s, s', t);
  }

  lemma NotifyKeepsTestInv(s: Test, t: nat, wakee: nat)
    requires TestInv(s) && t < |s.clients| && s.sem.pcs[t].RelNotify?
    requires Asleep(s.sem, wakee) || NobodySleeps(s.sem)
    ensures TestInv(s.(sem := Goto(Notify(s.sem, wakee), t, RelUnlock)))
  {
    var woken := s.(sem := Notify(s.sem, wakee));
    if Asleep(s.sem, wakee) {
      WakeKeepsInv(s, wakee);
    }
    var s' := s.(sem := Goto(woken.sem, t, RelUnlock));
    NotifyKeepsInv(s.sem, t, wakee);
    assert Matches(woken, woken.clients[t], woken.sem.pcs[t]);
    Assemble(woken, s', t);
  }

  lemma SemMoveKeepsInv(s: Test, l: Label)
    requires TestInv(s) && (l.Step? || l.SpuriousWake?) && Enabled(s.sem, l)
    ensures TestInv(s.(sem := Next(s.sem, l)))
  {
    if l.SpuriousWake? {
      WakeKeepsInv(s, l.t);
    } else if s.sem.pcs[l.t].RelNotify? {
      NotifyKeepsTestInv(s, l.t, l.wakee);
    } else {
      SemStepKeepsInv(s, l.t, l.weak);
    }
  }

  lemma NextTestKeepsInv(s: Test, m: Move)
    requires TestInv(s)
    ensures TestInv(NextTest(s, m))
  {
    match m
    case ClientMove(t, weak) =>
      if t < |s.clients| {
        ClientStepKeepsInv(s, t, weak);
      }
    case SemMove(l) =>
      if (l.Step? || l.SpuriousWake?) && Enabled(s.sem, l) {
        SemMoveKeepsInv(s, l);
      }
  }

  lemma BeginTally(sn: nat, acquirers: nat, releasers: nat, count: nat)
    ensures TallyOf(Begin(sn, acquirers, releasers, count)) == Tally(0, 0, 0, 0)
  {
    var s := Begin(sn, acquirers, releasers, count);
    assert forall i :: 0 <= i < |s.sem.pcs| ==> s.sem.pcs[i] == Idle;
    assert forall i :: 0 <= i < |s.clients| ==> s.clients[i].AcqStart? || s.clients[i].RelStart?;
    SumZero(s.sem.pcs, Acquiring);
    SumZero(s.sem.pcs, ToRaise);
    SumZero(s.sem.pcs, ToRelease);
    SumZero(s.clients, ToLower);
  }

  lemma BeginInv(sn: nat, acquirers: nat, releasers: nat, count: nat)
    ensures TestInv(Begin(sn, acquirers, releasers, count))
  {
    StartInv(sn, acquirers + releasers);
    BeginTally(sn, acquirers, releasers, count);
  }

  lemma {:induction false} ExecTestInv(sn: nat, acquirers: nat, releasers: nat, count: nat, schedule: seq<Move>)
    ensures TestInv(ExecTest(Begin(sn, acquirers, releasers, count), schedule))
  {
    if schedule == [] {
      BeginInv(sn, acquirers, releasers, count);
    } else {
      var n := |schedule| - 1;
      ExecTestInv(sn, acquirers, releasers, count, schedule[..n]);
      NextTestKeepsInv(ExecTest(Begin(sn, acquirers, releasers, count), schedule[..n]), schedule[n]);
    }
  }

  // ----- main results

  /**
   The "error, acquire" check of the program fires in no interleaving, for any thread counts: it never
   has, and whoever is about to raise `number` finds it below `sn`.
   */
  lemma ErrorCheckNeverFires(sn: nat, acquirers: nat, releasers: nat, count: nat, schedule: seq<Move>)
    ensures var s := ExecTest(Begin(sn, acquirers, releasers, count), schedule);
            && !s.error
            && forall i :: 0 <= i < |s.sem.pcs| && s.sem.pcs[i].Acquired? ==> s.number < s.sn
  {
    ExecTestInv(sn, acquirers, releasers, count, schedule);
    var s := ExecTest(Begin(sn, acquirers, releasers, count), schedule);
    forall i | 0 <= i < |s.sem.pcs| && s.sem.pcs[i].Acquired?
      ensures s.number < s.sn
    {
      SumAtLeast(s.sem.pcs, i, ToRaise);
    }
  }

  /** A thread that leaves acquire() raises `number` by one, and one that reserves a release lowers it by one. */
  lemma NumberCounts(s: Test, t: nat, weak: bool)
    requires t < |s.clients| == |s.sem.pcs|
    ensures var r := ClientStep(s, t, weak);
            && (s.clients[t].InAcquire? && s.sem.pcs[t].Acquired? ==>
                  r.number == s.number + 1 && (r.error <==> s.error || s.number >= s.sn))
            && (s.clients[t].RelLower? ==> r.number == s.number - 1)
            && (!(s.clients[t].InAcquire? && s.sem.pcs[t].Acquired?) && !s.clients[t].RelLower? ==>
                  r.number == s.number && r.error == s.error)
  {
  }

  // ----- a sleeping acquirer is always owed a release

  /** Threads keep their roles: the first `acquirers` threads acquire, the others release. */
  ghost predicate RolesKept(s: Test, acquirers: nat, releasers: nat)
  {
    && |s.clients| == |s.sem.pcs| == acquirers + releasers
    && forall i :: 0 <= i < |s.clients| ==> (IsAcquirer(s.clients[i]) <==> i < acquirers)
  }

  lemma {:induction false} ExecTestRoles(sn: nat, acquirers: nat, releasers: nat, count: nat, schedule: seq<Move>)
    ensures RolesKept(ExecTest(Begin(sn, acquirers, releasers, count), schedule), acquirers, releasers)
  {
    if schedule != [] {
      var n := |schedule| - 1;
      ExecTestRoles(sn, acquirers, releasers, count, schedule[..n]);
      NextTestRoles(ExecTest(Begin(sn, acquirers, releasers, count), schedule[..n]), acquirers, releasers, schedule[n]);
    }
  }

  lemma ClientStepRole(s: Test, t: nat, weak: bool)
    requires t < |s.clients| == |s.sem.pcs|
    ensures var r := ClientStep(s, t, weak);
            r.clients == s.clients[t := r.clients[t]] && (IsAcquirer(r.clients[t]) <==> IsAcquirer(s.clients[t]))
  {
  }

  lemma NextTestRoles(s: Test, acquirers: nat, releasers: nat, m: Move)
    requires RolesKept(s, acquirers, releasers)
    ensures RolesKept(NextTest(s, m), acquirers, releasers)
  {
    if m.ClientMove? && m.t < |s.clients| {
      ClientStepRole(s, m.t, m.weak);
    }
  }

  /** Reserving, before a release. */
  predicate Reserving(c: Client) { c.RelStart? || c.RelLoaded? || c.RelReserve? }

  /** Lowering `number` or inside release(), after a reservation. */
  predicate Releasing(c: Client) { c.RelLower? || c.InRelease? }

  /** Thread `t` takes `steps` client steps by itself. */
  function Alone(s: Test, t: nat, steps: nat): (r: Test)
    requires t < |s.clients| == |s.sem.pcs|
    ensures |r.clients| == |r.sem.pcs| == |s.clients|
    decreases steps
  {
    if steps == 0 then s else Alone(ClientStep(s, t, false), t, steps - 1)
  }

  lemma AloneOne(s: Test, t: nat)
    requires t < |s.clients| == |s.sem.pcs|
    ensures Alone(s, t, 1) == ClientStep(s, t, false)
  {
    assert Alone(ClientStep(s, t, false), t, 0) == ClientStep(s, t, false);
  }

  predicate ReleaseIsDue(s: Test) { 0 <= s.releaseCount < s.acquireCount - s.sn && s.acquireCount <= s.count }

  lemma ReservesFromStart(s: Test, t: nat)
    requires t < |s.clients| == |s.sem.pcs| && ReleaseIsDue(s) && s.clients[t].RelStart?
    ensures Alone(s, t, 3).clients[t].RelLower?
  {
    var s1 := ClientStep(s, t, false);
    var s2 := ClientStep(s1, t, false);
    assert s2.clients[t] == RelReserve(s.acquireCount, s.releaseCount);
    AloneOne(s2, t);
    assert Alone(s, t, 3) == Alone(s1, t, 2) == Alone(s2, t, 1);
  }

  /** An acquirer that runs by itself reserves an acquire and calls acquire(), or exits when all are reserved. */
  lemma AcquirerReserves(s: Test, t: nat)
    requires t < |s.clients| == |s.sem.pcs| && s.clients[t].AcqStart? && s.acquireCount <= s.count
    ensures var r := Alone(s, t, 2);
            if s.acquireCount < s.count
            then r.clients[t].InAcquire? && r.sem.pcs[t].AcqLoad? && r.acquireCount == s.acquireCount + 1
            else r.clients[t].AcqExit? && r.acquireCount == s.acquireCount
  {
    var s1 := ClientStep(s, t, false);
    assert s1.clients[t] == AcqReserve(s.acquireCount);
    AloneOne(s1, t);
    assert Alone(s, t, 2) == Alone(s1, t, 1);
  }

  /** With the count it has just read, a releaser reserves at once or starts afresh. */
  lemma ReservesWithCount(s: Test, t: nat) returns (steps: nat)
    requires t < |s.clients| == |s.sem.pcs| && ReleaseIsDue(s)
    requires s.clients[t].RelReserve? && s.clients[t].rc <= s.releaseCount
    requires s.clients[t].rc == s.releaseCount || s.clients[t].rc >= s.clients[t].ac - s.sn
    ensures Alone(s, t, steps).clients[t].RelLower?
  {
    var s1 := ClientStep(s, t, false);
    if s.clients[t].rc < s.clients[t].ac - s.sn {
      AloneOne(s, t);
      steps := 1;
    } else {
      ReservesFromStart(s1, t);
      steps := 4;
    }
  }

  /** A releaser that runs by itself while a release is due reserves it. */
  lemma ReleaserReserves(s: Test, t: nat) returns (steps: nat)
    requires TestInv(s) && ReleaseIsDue(s) && t < |s.clients| && Reserving(s.clients[t])
    ensures Alone(s, t, steps).clients[t].RelLower?
  {
    assert Matches(s, s.clients[t], s.sem.pcs[t]);
    match s.clients[t] {
      case RelStart =>
        ReservesFromStart(s, t);
        steps := 3;
      case RelLoaded(ac) =>
        var more := ReservesWithCount(ClientStep(s, t, false), t);
        steps := more + 1;
      case RelReserve(ac, rc) =>
        if rc < ac - s.sn && rc != s.releaseCount {
          var more := ReservesWithCount(ClientStep(s, t, false), t);
          steps := more + 1;
        } else {
          steps := ReservesWithCount(s, t);
        }
    }
  }

  /** While the semaphore is at rest with a sleeper, a release is reserved and on its way, or one is due. */
  lemma SleeperMeansReleaseDue(s: Test)
    requires TestInv(s) && Quiet(s.sem) && !NobodySleeps(s.sem)
    ensures (exists i :: 0 <= i < |s.clients| && Releasing(s.clients[i])) || ReleaseIsDue(s)
  {
    QuietSleepersHaveNoPermit(s.sem);
    var j :| 0 <= j < |s.sem.pcs| && s.sem.pcs[j].Sleeping?;
    SumAtLeast(s.sem.pcs, j, Acquiring);
    if !exists i :: 0 <= i < |s.clients| && Releasing(s.clients[i]) {
      NothingToRelease(s);
    }
  }

  lemma NothingToRelease(s: Test)
    requires TestInv(s) && forall i :: 0 <= i < |s.clients| ==> !Releasing(s.clients[i])
    ensures Sum(s.sem.pcs, ToRelease) == 0 && Sum(s.clients, ToLower) == 0
  {
    forall i | 0 <= i < |s.clients|
      ensures ToRelease(s.sem.pcs[i]) == 0
    {
      assert Matches(s, s.clients[i], s.sem.pcs[i]);
    }
    SumZero(s.sem.pcs, ToRelease);
    SumZero(s.clients, ToLower);
  }

  lemma NobodyLeftEarly(s: Test)
    requires TestInv(s) && ReleaseIsDue(s)
    ensures forall i :: 0 <= i < |s.clients| ==> !s.clients[i].RelExit?
  {
    forall i | 0 <= i < |s.clients|
      ensures !s.clients[i].RelExit?
    {
      assert Matches(s, s.clients[i], s.sem.pcs[i]);
    }
  }

  /** Run by itself, thread `t` reserves a release. */
  ghost predicate CanReserve(s: Test, t: nat)
    requires t < |s.clients| == |s.sem.pcs|
  {
    Reserving(s.clients[t]) && exists steps: nat :: Alone(s, t, steps).clients[t].RelLower?
  }

  /** Some releaser has reserved a release, or every one is still in its loop and can. */
  ghost predicate ReleaseIsNear(s: Test, acquirers: nat)
    requires |s.clients| == |s.sem.pcs|
  {
    || (exists i :: acquirers <= i < |s.clients| && Releasing(s.clients[i]))
    || (forall i :: acquirers <= i < |s.clients| ==> CanReserve(s, i))
  }

  lemma DueReleaseIsNear(s: Test, acquirers: nat, releasers: nat)
    requires TestInv(s) && RolesKept(s, acquirers, releasers) && ReleaseIsDue(s)
    ensures ReleaseIsNear(s, acquirers)
  {
    NobodyLeftEarly(s);
    if !exists i :: acquirers <= i < |s.clients| && Releasing(s.clients[i]) {
      forall i | acquirers <= i < |s.clients|
        ensures CanReserve(s, i)
      {
        var steps := ReleaserReserves(s, i);
      }
    }
  }

  /**
   The program never hangs on a sleeping acquirer, as long as it has a releaser: when the semaphore is
   at rest and somebody sleeps, some releaser has reserved a release and is on its way to it, or every
   releaser is still in its loop and, run by itself, reserves one.
   */
  lemma NoAcquirerSleepsForever(sn: nat, acquirers: nat, releasers: nat, count: nat, schedule: seq<Move>)
    requires var s := ExecTest(Begin(sn, acquirers, releasers, count), schedule); Quiet(s.sem) && !NobodySleeps(s.sem)
    ensures var s := ExecTest(Begin(sn, acquirers, releasers, count), schedule);
            |s.clients| == acquirers + releasers && ReleaseIsNear(s, acquirers)
  {
    var s := ExecTest(Begin(sn, acquirers, releasers, count), schedule);
    ExecTestInv(sn, acquirers, releasers, count, schedule);
    ExecTestRoles(sn, acquirers, releasers, count, schedule);
    SleeperMeansReleaseDue(s);
    if ReleaseIsDue(s) {
      DueReleaseIsNear(s, acquirers, releasers);
    } else {
      var i :| 0 <= i < |s.clients| && Releasing(s.clients[i]);
      assert !IsAcquirer(s.clients[i]);
    }
  }
}
