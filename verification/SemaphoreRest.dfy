/**
 The semaphore comes to rest: without new calls, and when neither a compare-exchange fails nor a
 sleeper wakes without reason, every run is bounded. A failed compare-exchange means that another
 thread succeeded, and each call succeeds at most once.
 */
module SemaphoreRest {
  import opened Sums
  import opened Semaphore

  const TOP := 12

  /** Steps that a thread takes by itself while `remaining` does not change; the notifier pays for the thread it wakes. */
  function Rank(pc: Pc, remaining: int): nat
  {
    match pc
    case AcqCas(e) => if remaining > 0 then (if e == remaining then 1 else if e > 0 then 2 else 9) else if e == 0 then 5 else 6
    case AcqLoad => if remaining > 0 then 3 else 7
    case AcqUnlock => if remaining > 0 then 4 else 8
    case AcqDec => if remaining > 0 then 5 else 9
    case AcqTest => if remaining > 0 then 6 else 2
    case AcqInc => if remaining > 0 then 7 else 3
    case AcqRelock => if remaining > 0 then 7 else 3
    case AcqLock => if remaining > 0 then 8 else 4
    case AcqBlock => 1
    case RelLoad => 3
    case RelCas(e) => if e == remaining then 1 else 2
    case RelTest => TOP
    case RelLock => TOP - 1
    case RelNotify => TOP - 2
    case RelUnlock => 1
    case _ => 0
  }

  /** Calls that have not changed `remaining` yet. */
  function Pending(pc: Pc): nat
  {
    if Awake(pc) == 1 || GoingToSleep(pc) == 1 || pc.RelLoad? || pc.RelCas? then 1 else 0
  }

  function RankAt(remaining: int): Pc -> nat { pc => Rank(pc, remaining) }

  function Measure(s: State): nat
  {
    Sum(s.pcs, Pending) * (TOP * |s.pcs| + 1) + Sum(s.pcs, RankAt(s.remaining))
  }

  /** A step that is neither a spurious failure nor a spurious wakeup nor a call. */
  predicate Plain(s: State, l: Label) { l.Step? && !l.weak && Enabled(s, l) }

  lemma {:induction false} RanksAreBounded(pcs: seq<Pc>, remaining: int)
    ensures Sum(pcs, RankAt(remaining)) <= TOP * |pcs|
  {
    if pcs != [] {
      RanksAreBounded(pcs[..|pcs| - 1], remaining);
    }
  }

  /** What one step of one thread does to its own rank, if it leaves `remaining` alone, or to its being pending. */
  lemma StepRank(s: State, t: nat)
    requires Plain(s, Step(t, false, 0)) && !s.pcs[t].RelNotify? && LocalsInRange(s, s.pcs[t]) && 0 <= s.remaining <= s.capacity
    ensures var s' := StepThread(s, t, false);
            && Pending(s'.pcs[t]) <= Pending(s.pcs[t])
            && (s'.remaining == s.remaining ==> Rank(s'.pcs[t], s.remaining) < Rank(s.pcs[t], s.remaining))
            && (s'.remaining != s.remaining ==> Pending(s'.pcs[t]) < Pending(s.pcs[t]))
            && s'.pcs == s.pcs[t := s'.pcs[t]]
  {
  }

  /** Fewer pending calls outweigh any change of ranks. */
  lemma Outweighs(p: int, p': int, r: int, r': int, top: int)
    requires p' < p && 0 <= r && 0 <= r' <= top
    ensures p' * (top + 1) + r' < p * (top + 1) + r
  {
    assert (p - p' - 1) * (top + 1) >= 0;
    assert p * (top + 1) - p' * (top + 1) == (p - p' - 1) * (top + 1) + (top + 1);
  }

  lemma NotMoreAndLower(p: int, p': int, r: int, r': int, top: int)
    requires p' <= p && r' < r && 0 <= top
    ensures p' * (top + 1) + r' < p * (top + 1) + r
  {
    assert (p - p') * (top + 1) >= 0;
    assert p * (top + 1) - p' * (top + 1) == (p - p') * (top + 1);
  }

  lemma StepLowersMeasure(s: State, t: nat)
    requires Inv(s) && Plain(s, Step(t, false, 0)) && !s.pcs[t].RelNotify?
    ensures Measure(StepThread(s, t, false)) < Measure(s)
  {
    var s' := StepThread(s, t, false);
    StepRank(s, t);
    SumUpdate(s.pcs, t, s'.pcs[t], Pending);
    SumUpdate(s.pcs, t, s'.pcs[t], RankAt(s.remaining));
    if s'.remaining == s.remaining {
      NotMoreAndLower(Sum(s.pcs, Pending), Sum(s'.pcs, Pending), Sum(s.pcs, RankAt(s.remaining)),
                      Sum(s'.pcs, RankAt(s.remaining)), TOP * |s.pcs|);
    } else {
      RanksAreBounded(s'.pcs, s'.remaining);
      Outweighs(Sum(s.pcs, Pending), Sum(s'.pcs, Pending), Sum(s.pcs, RankAt(s.remaining)),
                Sum(s'.pcs, RankAt(s'.remaining)), TOP * |s.pcs|);
    }
  }

  lemma WakeSums(s: State, wakee: nat)
    ensures var n := Notify(s, wakee);
            && Sum(n.pcs, Pending) == Sum(s.pcs, Pending)
            && Sum(n.pcs, RankAt(s.remaining)) <= Sum(s.pcs, RankAt(s.remaining)) + 7
  {
    if Asleep(s, wakee) {
      SumUpdate(s.pcs, wakee, AcqRelock, Pending);
      SumUpdate(s.pcs, wakee, AcqRelock, RankAt(s.remaining));
    }
  }

  lemma UnlockSums(n: State, t: nat)
    requires t < |n.pcs| && n.pcs[t].RelNotify?
    ensures Sum(n.pcs[t := RelUnlock], Pending) == Sum(n.pcs, Pending)
    ensures Sum(n.pcs[t := RelUnlock], RankAt(n.remaining)) == Sum(n.pcs, RankAt(n.remaining)) - 9
  {
    SumUpdate(n.pcs, t, RelUnlock, Pending);
    SumUpdate(n.pcs, t, RelUnlock, RankAt(n.remaining));
  }

  lemma NotifyLowersMeasure(s: State, t: nat, wakee: nat)
    requires t < |s.pcs| && s.pcs[t].RelNotify?
    ensures Measure(Goto(Notify(s, wakee), t, RelUnlock)) < Measure(s)
  {
    WakeSums(s, wakee);
    UnlockSums(Notify(s, wakee), t);
  }

  /** Every plain step lowers the measure. */
  lemma PlainStepLowersMeasure(s: State, l: Label)
    requires Inv(s) && Plain(s, l)
    ensures Measure(Next(s, l)) < Measure(s)
  {
    if s.pcs[l.t].RelNotify? {
      NotifyLowersMeasure(s, l.t, l.wakee);
    } else {
      StepLowersMeasure(s, l.t);
    }
  }

  ghost predicate AllPlain(s: State, schedule: seq<Label>)
  {
    schedule != [] ==>
      var n := |schedule| - 1;
      AllPlain(s, schedule[..n]) && Plain(Exec(s, schedule[..n]), schedule[n])
  }

  lemma {:induction false} PlainRunIsBounded(s: State, schedule: seq<Label>)
    requires Inv(s) && AllPlain(s, schedule)
    ensures |schedule| + Measure(Exec(s, schedule)) <= Measure(s)
  {
    if schedule != [] {
      var n := |schedule| - 1;
      PlainRunIsBounded(s, schedule[..n]);
      ExecKeepsInv(s, schedule[..n]);
      PlainStepLowersMeasure(Exec(s, schedule[..n]), schedule[n]);
    }
  }

  /**
   From every reachable state the calls in progress come to rest after a bounded number of steps: each
   has returned, or sleeps in acquire() while no permit is left.
   */
  lemma CallsComeToRest(capacity: nat, threads: nat, before: seq<Label>, after: seq<Label>)
    requires AllPlain(Exec(Start(capacity, threads), before), after)
    ensures var s := Exec(Start(capacity, threads), before); var e := Exec(s, after);
            && |after| <= Measure(s)
            && ((forall l :: !Plain(e, l)) ==> Quiet(e) && (NobodySleeps(e) || e.remaining == 0))
  {
    var s := Exec(Start(capacity, threads), before);
    var e := Exec(s, after);
    StartInv(capacity, threads);
    ExecKeepsInv(Start(capacity, threads), before);
    ExecKeepsInv(s, after);
    PlainRunIsBounded(s, after);
    if forall l :: !Plain(e, l) {
      if !Quiet(e) {
        var l := SomeThreadCanStep(e);
        assert Plain(e, l);
      }
      if !NobodySleeps(e) {
        QuietSleepersHaveNoPermit(e);
      }
    }
  }
}
