/** What holds over whole runs of the ConnectionManager machine, for any numbers of threads. */
module WorkQueueRuns {
  import opened Sums
  import opened WorkQueue

  lemma StartInv(side: Side, producers: nat, workers: nat)
    ensures Inv(Start(side, producers, workers), workers)
  {
    var pcs := Start(side, producers, workers).pcs;
    SumZero(pcs, Sleeping);
    WorkersAtStart(producers, workers);
  }

  lemma {:induction false} WorkersAtStart(producers: nat, workers: nat)
    ensures Sum(seq(producers, _ => Idle) + seq(workers, _ => Outer), IsWorker) == workers
  {
    var pcs := seq(producers, _ => Idle) + seq(workers, _ => Outer);
    if workers == 0 {
      SumZero(pcs, IsWorker);
    } else {
      assert pcs[..|pcs| - 1] == seq(producers, _ => Idle) + seq(workers - 1, _ => Outer);
      WorkersAtStart(producers, workers - 1);
    }
  }

  function Run(side: Side, producers: nat, workers: nat, schedule: seq<Label>): State
  {
    Exec(Start(side, producers, workers), schedule)
  }

  lemma NextSide(s: State, l: Label)
    ensures Next(s, l).side == s.side
  {
  }

  lemma {:induction false} RunSide(side: Side, producers: nat, workers: nat, schedule: seq<Label>)
    ensures Run(side, producers, workers, schedule).side == side
  {
    if schedule != [] {
      var n := |schedule| - 1;
      RunSide(side, producers, workers, schedule[..n]);
      NextSide(Run(side, producers, workers, schedule[..n]), schedule[n]);
    }
  }

  lemma {:induction false} RunInv(side: Side, producers: nat, workers: nat, schedule: seq<Label>)
    ensures Inv(Run(side, producers, workers, schedule), workers)
    ensures Run(side, producers, workers, schedule).side == side
  {
    RunSide(side, producers, workers, schedule);
    if schedule == [] {
      StartInv(side, producers, workers);
    } else {
      var n := |schedule| - 1;
      RunInv(side, producers, workers, schedule[..n]);
      NextKeepsInv(Run(side, producers, workers, schedule[..n]), workers, schedule[n]);
    }
  }

  /**
   Single ownership: in every run a connection's flag is set exactly when it has exactly one token
   (a thread that holds it, or one queue slot), two threads never hold the same connection, the
   counter never goes negative, and whoever rechecks or takes finds the flag and the counter set.
   */
  lemma SingleOwnership(side: Side, producers: nat, workers: nat, schedule: seq<Label>, c: Id)
    requires c in Run(side, producers, workers, schedule).conns
    ensures var s := Run(side, producers, workers, schedule); var x := s.conns[c];
            && Sum(s.pcs, Holds(c)) + multiset(s.queue)[c] == (if x.busy then 1 else 0)
            && 0 <= x.ready
            && (forall i, j | 0 <= i < |s.pcs| && 0 <= j < |s.pcs| ::
                  Held(s.pcs[i], c) == 1 && Held(s.pcs[j], c) == 1 ==> i == j)
            && (On(c, Recheck) in s.pcs ==> x.busy)
            && (On(c, Take) in s.pcs ==> 1 <= x.ready)
  {
    var s := Run(side, producers, workers, schedule);
    RunInv(side, producers, workers, schedule);
    assert TokenOk(s.side, s.conns[c], c in s.live, HandsOf(s, c));
    forall i, j | 0 <= i < |s.pcs| && 0 <= j < |s.pcs| && Held(s.pcs[i], c) == 1 && Held(s.pcs[j], c) == 1
      ensures i == j
    {
      SingleHolder(s, i, j, c);
    }
    if On(c, Recheck) in s.pcs {
      var i :| 0 <= i < |s.pcs| && s.pcs[i] == On(c, Recheck);
      HandsInclude(s, i, c);
    }
    if On(c, Take) in s.pcs {
      var i :| 0 <= i < |s.pcs| && s.pcs[i] == On(c, Take);
      assert Carries(s, s.pcs[i]);
    }
  }

  /**
   Write-stream conservation: bytes sent, the stored response, the content a write worker carries
   and the cached bytes are, in this order, everything ever passed to AddToWriteCache.
   */
  lemma WriteStreamConservation(producers: nat, workers: nat, schedule: seq<Label>, c: Id)
    requires c in Run(Writing, producers, workers, schedule).conns
    ensures var s := Run(Writing, producers, workers, schedule); var x := s.conns[c];
            || (exists i :: 0 <= i < |s.pcs| && s.pcs[i].On? && s.pcs[i].c == c && s.pcs[i].stage.Append? &&
                  x.sent + x.response + s.pcs[i].stage.content + x.cache == x.appended)
            || ((forall i :: 0 <= i < |s.pcs| ==> Carried(s.pcs[i], c) == 0) &&
                  x.sent + x.response + x.cache == x.appended)
  {
    var s := Run(Writing, producers, workers, schedule);
    RunInv(Writing, producers, workers, schedule);
    assert TokenOk(s.side, s.conns[c], c in s.live, HandsOf(s, c));
    SumZero(s.pcs, Appends(c));
    if HandsOf(s, c).appending != 0 {
      var i :| 0 <= i < |s.pcs| && Appends(c)(s.pcs[i]) != 0;
      assert Carries(s, s.pcs[i]);
    } else {
      assert forall i :: 0 <= i < |s.pcs| ==> Carried(s.pcs[i], c) == Appends(c)(s.pcs[i]);
    }
  }

  /** What was sent is always a prefix of what was passed to AddToWriteCache. */
  lemma SentIsPrefixOfAppended(producers: nat, workers: nat, schedule: seq<Label>, c: Id)
    requires c in Run(Writing, producers, workers, schedule).conns
    ensures var x := Run(Writing, producers, workers, schedule).conns[c]; x.sent <= x.appended
  {
    WriteStreamConservation(producers, workers, schedule, c);
  }

  ghost predicate Quiet(s: State)
  {
    forall i :: 0 <= i < |s.pcs| ==> !Runnable(s.pcs[i])
  }

  /**
   No stranded event: a pending connection has its token, a thread about to check it, or (write side
   only) was released.
   */
  lemma WorkIsInHands(side: Side, producers: nat, workers: nat, schedule: seq<Label>, c: Id)
    requires var s := Run(side, producers, workers, schedule); c in s.conns && Pending(side, s.conns[c])
    ensures var s := Run(side, producers, workers, schedule);
            || Sum(s.pcs, Holds(c)) + multiset(s.queue)[c] == 1
            || Sum(s.pcs, Checks(c)) > 0
            || (side.Writing? && c !in s.live)
  {
    var s := Run(side, producers, workers, schedule);
    RunInv(side, producers, workers, schedule);
    assert TokenOk(s.side, s.conns[c], c in s.live, HandsOf(s, c));
  }

  /** No stranded queue: until closing, a non-empty queue has a signal, a setter or a draining worker. */
  lemma QueueIsAttended(side: Side, producers: nat, workers: nat, schedule: seq<Label>)
    requires var s := Run(side, producers, workers, schedule); !s.closed && s.queue != []
    ensures var s := Run(side, producers, workers, schedule);
            s.signaled || Sum(s.pcs, Setting) > 0 || Sum(s.pcs, Draining) > 0
  {
    RunInv(side, producers, workers, schedule);
  }

  lemma QuietMeansNoneHeld(s: State, c: Id)
    requires Quiet(s)
    ensures Sum(s.pcs, Holds(c)) == 0 && Sum(s.pcs, Checks(c)) == 0
  {
    SumZero(s.pcs, Holds(c));
    SumZero(s.pcs, Checks(c));
  }

  lemma QuietCounts(s: State)
    requires Quiet(s)
    ensures Sum(s.pcs, Setting) == 0 && Sum(s.pcs, Draining) == 0 && Sum(s.pcs, OnItsWayOut) == 0
    ensures Sum(s.pcs, Attending) == 0
    ensures Sum(s.pcs, Waiting) == Sum(s.pcs, Sleeping)
  {
    SumZero(s.pcs, Setting);
    SumZero(s.pcs, Draining);
    SumZero(s.pcs, OnItsWayOut);
    SumZero(s.pcs, Attending);
    SumMonotone(s.pcs, Waiting, Sleeping);
    SumMonotone(s.pcs, Sleeping, Waiting);
  }

  predicate Leaving(pc: Pc) { pc.ExitSet? || pc.ExitNotify? || pc.Exited? }

  /** Once closed, workers exit; before, none does. */
  ghost predicate OpenHasNoExits(s: State)
  {
    !s.closed ==> forall i :: 0 <= i < |s.pcs| ==> !Leaving(s.pcs[i])
  }

  lemma StepThreadStays(s: State, t: nat, ch: Choice)
    requires !s.closed && t < |s.pcs| && Runnable(s.pcs[t]) && !Notifies(s.pcs[t]) && !Leaving(s.pcs[t])
    ensures var s' := StepThread(s, t, ch); s'.pcs == s.pcs[t := s'.pcs[t]] && !Leaving(s'.pcs[t]) && !s'.closed
  {
  }

  lemma NextKeepsOpen(s: State, l: Label)
    requires OpenHasNoExits(s)
    ensures OpenHasNoExits(Next(s, l))
  {
    if Enabled(s, l) && l.Step? && !s.closed && !Notifies(s.pcs[l.t]) {
      StepThreadStays(s, l.t, l.choice);
    }
  }

  lemma ClosedStays(s: State, l: Label)
    ensures s.closed ==> Next(s, l).closed
  {
  }

  lemma {:induction false} RunKeepsOpen(side: Side, producers: nat, workers: nat, schedule: seq<Label>)
    ensures OpenHasNoExits(Run(side, producers, workers, schedule))
  {
    if schedule != [] {
      var n := |schedule| - 1;
      RunKeepsOpen(side, producers, workers, schedule[..n]);
      NextKeepsOpen(Run(side, producers, workers, schedule[..n]), schedule[n]);
    }
  }

  /** What rest means for any state that satisfies the invariants. */
  lemma RestState(s: State, workers: nat)
    requires Inv(s, workers) && OpenHasNoExits(s) && workers > 0 && Quiet(s) && !s.closed
    ensures s.queue == []
    ensures forall c :: c in s.conns ==> !s.conns[c].busy
    ensures forall c :: c in s.conns && Pending(s.side, s.conns[c]) ==> s.side.Writing? && c !in s.live
  {
    QuietCounts(s);
    SumMonotone(s.pcs, IsWorker, Sleeping);
    forall c | c in s.conns
      ensures !s.conns[c].busy
      ensures Pending(s.side, s.conns[c]) ==> s.side.Writing? && c !in s.live
    {
      QuietMeansNoneHeld(s, c);
      assert TokenOk(s.side, s.conns[c], c in s.live, HandsOf(s, c));
    }
  }

  /**
   When an open manager with at least one worker comes to rest, the queue is empty, no flag is set
   and no connection (that the map still knows) has a pending event.
   */
  lemma RestMeansNothingPending(side: Side, producers: nat, workers: nat, schedule: seq<Label>)
    requires workers > 0
    requires var s := Run(side, producers, workers, schedule); Quiet(s) && !s.closed
    ensures var s := Run(side, producers, workers, schedule);
            && s.queue == []
            && (forall c :: c in s.conns ==> !s.conns[c].busy)
            && (forall c :: c in s.conns && Pending(side, s.conns[c]) ==> side.Writing? && c !in s.live)
  {
    RunInv(side, producers, workers, schedule);
    RunKeepsOpen(side, producers, workers, schedule);
    RestState(Run(side, producers, workers, schedule), workers);
  }

  // ----- shutdown

  /** The positions a thread still has to pass once `closed` is set. */
  function Distance(pc: Pc): nat
  {
    match pc
    case Idle => 0
    case Exited => 0
    case NotifyEvent => 2
    case SetEvent => 3
    case ExitNotify => 2
    case ExitSet => 3
    case Outer => 4
    case Inner => 5
    case On(_, stage) => StageDistance(stage)
    case Dequeue => 14
    case Asleep => 15
    case Wait => 16
  }

  function StageDistance(g: Stage): nat
  {
    match g
    case Enqueue => 4
    case Check => 5
    case Lookup => 6
    case Requeue => 6
    case Recheck => 7
    case Transfer => 8
    case Take => 9
    case Test => 10
    case Work => 11
    case Append(_) => 12
    case Fetch => 13
  }

  lemma StepThreadNearer(s: State, t: nat, ch: Choice)
    requires s.closed && t < |s.pcs| && Runnable(s.pcs[t]) && !Notifies(s.pcs[t])
    requires s.pcs[t].On? ==> s.pcs[t].c in s.conns
    ensures var s' := StepThread(s, t, ch);
            s'.pcs == s.pcs[t := s'.pcs[t]] && Distance(s'.pcs[t]) < Distance(s.pcs[t])
  {
  }

  lemma NotifyNearer(s: State, t: nat, wakee: nat, pc: Pc)
    requires t < |s.pcs| && Notifies(s.pcs[t]) && Distance(pc) == 0
    ensures Sum(Goto(Notify(s, wakee), t, pc).pcs, Distance) < Sum(s.pcs, Distance)
  {
    SumUpdate(Notify(s, wakee).pcs, t, pc, Distance);
    if SleepsAt(s, wakee) {
      SumUpdate(s.pcs, wakee, Wait, Distance);
    }
  }

  /** After closing, every step that is not a new report brings the threads nearer to their end. */
  lemma ShutdownMeasure(s: State, workers: nat, l: Label)
    requires Inv(s, workers) && s.closed && Internal(l) && Enabled(s, l)
    ensures Sum(Next(s, l).pcs, Distance) < Sum(s.pcs, Distance)
  {
    if l.SpuriousWake? {
      SumUpdate(s.pcs, l.t, Inner, Distance);
    } else if Notifies(s.pcs[l.t]) {
      NotifyNearer(s, l.t, l.choice.wakee, Next(s, l).pcs[l.t]);
    } else {
      assert Carries(s, s.pcs[l.t]);
      StepThreadNearer(s, l.t, l.choice);
      SumUpdate(s.pcs, l.t, StepThread(s, l.t, l.choice).pcs[l.t], Distance);
    }
  }

  ghost predicate AllInternal(s: State, schedule: seq<Label>)
  {
    schedule != [] ==>
      var n := |schedule| - 1;
      AllInternal(s, schedule[..n]) && Internal(schedule[n]) && Enabled(Exec(s, schedule[..n]), schedule[n])
  }

  lemma {:induction false} ShutdownIsBounded(s: State, workers: nat, schedule: seq<Label>)
    requires Inv(s, workers) && s.closed && AllInternal(s, schedule)
    ensures |schedule| + Sum(Exec(s, schedule).pcs, Distance) <= Sum(s.pcs, Distance)
    ensures Inv(Exec(s, schedule), workers) && Exec(s, schedule).closed
  {
    if schedule != [] {
      var n := |schedule| - 1;
      ShutdownIsBounded(s, workers, schedule[..n]);
      var e := Exec(s, schedule[..n]);
      NextKeepsInv(e, workers, schedule[n]);
      ClosedStays(e, schedule[n]);
      ShutdownMeasure(e, workers, schedule[n]);
      assert Exec(s, schedule) == Next(e, schedule[n]);
    }
  }

  /** After closing, a waiting worker always has a signal, a setter or a worker on its way out. */
  lemma WaitingWorkerIsReached(side: Side, producers: nat, workers: nat, schedule: seq<Label>)
    requires Run(side, producers, workers, schedule).closed
    ensures var s := Run(side, producers, workers, schedule);
            Sum(s.pcs, Waiting) > 0 ==> s.signaled || Sum(s.pcs, Setting) > 0 || Sum(s.pcs, OnItsWayOut) > 0
  {
    RunInv(side, producers, workers, schedule);
  }

  ghost predicate Maximal(s: State) { forall l :: Internal(l) ==> !Enabled(s, l) }

  lemma StuckIsQuiet(s: State)
    requires Maximal(s)
    ensures Quiet(s)
  {
    forall i | 0 <= i < |s.pcs|
      ensures !Runnable(s.pcs[i])
    {
      var wakee: nat := 0;
      if !NobodySleeps(s) {
        wakee :| wakee < |s.pcs| && s.pcs[wakee].Asleep?;
      }
      assert !Enabled(s, Step(i, Choice(0, false, wakee)));
    }
  }

  /**
   Chained shutdown: from any reachable closed state, the run continues for at most `Distance`
   steps, and where it cannot continue every worker has exited, whatever their number.
   */
  lemma ShutdownEndsAllWorkers(
    side: Side, producers: nat, workers: nat, before: seq<Label>, after: seq<Label>)
    requires var s := Run(side, producers, workers, before); s.closed && AllInternal(s, after)
    ensures var s := Run(side, producers, workers, before);
            && |after| <= Sum(s.pcs, Distance)
            && (Maximal(Exec(s, after)) ==>
                  forall i :: 0 <= i < |Exec(s, after).pcs| ==>
                    Exec(s, after).pcs[i].Exited? || Exec(s, after).pcs[i].Idle?)
  {
    var s := Run(side, producers, workers, before);
    RunInv(side, producers, workers, before);
    ShutdownIsBounded(s, workers, after);
    var e := Exec(s, after);
    if Maximal(e) {
      StuckIsQuiet(e);
      QuietCounts(e);
      NobodyWaits(e, workers);
    }
  }

  lemma NobodyWaits(e: State, workers: nat)
    requires Inv(e, workers) && e.closed && Quiet(e)
    requires Sum(e.pcs, Setting) == 0 && Sum(e.pcs, OnItsWayOut) == 0 && Sum(e.pcs, Attending) == 0
    requires Sum(e.pcs, Waiting) == Sum(e.pcs, Sleeping)
    ensures forall i :: 0 <= i < |e.pcs| ==> e.pcs[i].Exited? || e.pcs[i].Idle?
  {
    SumZero(e.pcs, Sleeping);
    assert forall i :: 0 <= i < |e.pcs| ==> Sleeping(e.pcs[i]) == 0;
  }
}
