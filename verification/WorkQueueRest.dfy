/**
 An open manager comes to rest: without new reports, the work in hand is finished after a bounded number
 of steps. On the read side this holds exactly while no connection is in error; a connection in error
 keeps its token for ever.
 */
module WorkQueueRest {
  import opened Sums
  import opened WorkQueue
  import opened WorkQueueRuns

  const TURN := 12
  const SLOT := 8
  const SIGNAL := 5

  /** Turns that the connection can still cause: one per event to read, or one for its cached content. */
  function Turns(side: Side, x: Conn): nat
  {
    if side.Reading? then (if x.ready > 0 then x.ready else 0) else if x.cache != "" then 1 else 0
  }

  /** The stages of a turn before it spends an event or fetches the content. */
  predicate Early(side: Side, g: Stage)
  {
    g.Lookup? || g.Check? || g.Enqueue? || g.Fetch? || (side.Reading? && (g.Append? || g.Work? || g.Test? || g.Take?))
  }

  function StageRank(g: Stage): nat
  {
    match g
    case Requeue => 1
    case Recheck => 2
    case Transfer => 3
    case Take => 4
    case Test => 5
    case Work => 6
    case Append(_) => 7
    case Fetch => 8
    case Enqueue => 17
    case Check => 18
    case Lookup => 19
  }

  function AtLeastOne(n: nat): nat { if n == 0 then 1 else n }

  /** Turns that a thread in stage `g` still has to pay for. */
  function Owed(side: Side, x: Conn, g: Stage): nat
  {
    if Early(side, g) then AtLeastOne(Turns(side, x))
    else if g.Requeue? then AtLeastOne(Turns(side, x)) + 1
    else Turns(side, x) + 1
  }

  function ThreadWeight(side: Side, conns: map<Id, Conn>, pc: Pc): nat
  {
    match pc
    case On(c, g) => if c in conns then TURN * Owed(side, conns[c], g) + StageRank(g) else 0
    case Wait => 1
    case Outer => 2
    case Dequeue => 3
    case Inner => 4
    case NotifyEvent => 2
    case SetEvent => 8
    case _ => 0
  }

  function SlotWeight(side: Side, conns: map<Id, Conn>, c: Id): nat
  {
    if c in conns then TURN * AtLeastOne(Turns(side, conns[c])) + SLOT else 0
  }

  function Threads(side: Side, conns: map<Id, Conn>): Pc -> nat { pc => ThreadWeight(side, conns, pc) }

  function Slotted(side: Side, conns: map<Id, Conn>): Id -> nat { c => SlotWeight(side, conns, c) }

  function SignalWeight(signaled: bool): nat { if signaled then SIGNAL else 0 }

  function InHand(s: State): nat
  {
    Sum(s.pcs, Threads(s.side, s.conns)) + Sum(s.queue, Slotted(s.side, s.conns)) + SignalWeight(s.signaled)
  }

  /** On the read side a connection in error is requeued for ever. */
  ghost predicate CanRest(s: State) { s.side.Reading? ==> forall c :: c in s.conns ==> !s.conns[c].error }

  // ----- one thread on one connection

  /** What a stage weighs afterwards: the thread, with the queue slot that it may have filled. */
  function EffectWeight(side: Side, e: Effect): nat
  {
    (if e.next.On? then TURN * Owed(side, e.x, e.next.stage) + StageRank(e.next.stage) else ThreadWeight(side, map[], e.next)) +
    (if e.enqueue then TURN * AtLeastOne(Turns(side, e.x)) + SLOT else 0)
  }

  lemma ActKeepsTurns(side: Side, x: Conn, live: bool, c: Id, g: Stage, ch: Choice)
    requires 0 <= x.ready
    ensures var e := Act(side, x, live, c, g, ch);
            Turns(side, e.x) <= Turns(side, x) && e.x.error == x.error && About(e.next, c)
  {
  }

  lemma ReadActLowers(x: Conn, live: bool, c: Id, g: Stage, ch: Choice)
    requires 0 <= x.ready && !x.error && (g.Take? ==> 1 <= x.ready)
    ensures EffectWeight(Reading, Act(Reading, x, live, c, g, ch)) < TURN * Owed(Reading, x, g) + StageRank(g)
  {
  }

  lemma WriteActLowers(x: Conn, live: bool, c: Id, g: Stage, ch: Choice)
    ensures EffectWeight(Writing, Act(Writing, x, live, c, g, ch)) < TURN * Owed(Writing, x, g) + StageRank(g)
  {
  }

  /** The connection never owes more turns, and the effect weighs less than the stage. */
  lemma ActLowers(side: Side, x: Conn, live: bool, c: Id, g: Stage, ch: Choice)
    requires 0 <= x.ready && (side.Reading? ==> !x.error) && (g.Take? ==> 1 <= x.ready)
    ensures var e := Act(side, x, live, c, g, ch);
            && Turns(side, e.x) <= Turns(side, x) && e.x.error == x.error && About(e.next, c)
            && EffectWeight(side, e) < TURN * Owed(side, x, g) + StageRank(g)
  {
    ActKeepsTurns(side, x, live, c, g, ch);
    match side
    case Reading => ReadActLowers(x, live, c, g, ch);
    case Writing => WriteActLowers(x, live, c, g, ch);
  }

  /** Other threads and slots weigh no more when one connection owes no more turns. */
  lemma OthersNotHeavier(side: Side, conns: map<Id, Conn>, c: Id, x: Conn, pcs: seq<Pc>, queue: seq<Id>)
    requires c in conns && Turns(side, x) <= Turns(side, conns[c])
    ensures Sum(pcs, Threads(side, conns[c := x])) <= Sum(pcs, Threads(side, conns))
    ensures Sum(queue, Slotted(side, conns[c := x])) <= Sum(queue, Slotted(side, conns))
  {
    forall pc: Pc
      ensures ThreadWeight(side, conns[c := x], pc) <= ThreadWeight(side, conns, pc)
    {
    }
    SumMonotone(pcs, Threads(side, conns[c := x]), Threads(side, conns));
    SumMonotone(queue, Slotted(side, conns[c := x]), Slotted(side, conns));
  }

  /** The weight of all threads when one of them moves. */
  lemma ThreadMoves(pcs: seq<Pc>, t: nat, next: Pc, w: Pc -> nat, w': Pc -> nat)
    requires t < |pcs| && w(Idle) == 0 == w'(Idle)
    requires Sum(pcs[t := Idle], w') <= Sum(pcs[t := Idle], w)
    ensures Sum(pcs[t := next], w') - w'(next) <= Sum(pcs, w) - w(pcs[t])
  {
    SumUpdate(pcs, t, Idle, w);
    SumUpdate(pcs[t := Idle], t, next, w');
    assert pcs[t := Idle][t := next] == pcs[t := next];
  }

  lemma SumAppend(queue: seq<Id>, c: Id, w: Id -> nat)
    ensures Sum(queue + [c], w) == Sum(queue, w) + w(c)
  {
    assert (queue + [c])[..|queue|] == queue;
  }

  lemma {:induction false} SumHead(queue: seq<Id>, w: Id -> nat)
    requires queue != []
    ensures Sum(queue, w) == w(queue[0]) + Sum(queue[1..], w)
  {
    if |queue| > 1 {
      SumHead(queue[..|queue| - 1], w);
      assert queue[..|queue| - 1][1..] == queue[1..][..|queue| - 2];
    }
  }

  lemma EffectLowersWork(s: State, s': State, t: nat, c: Id, g: Stage, e: Effect)
    requires t < |s.pcs| && s.pcs[t] == On(c, g) && c in s.conns && About(e.next, c)
    requires s' == s.(conns := s.conns[c := e.x], pcs := s.pcs[t := e.next], live := s'.live,
                      queue := if e.enqueue then s.queue + [c] else s.queue)
    requires Turns(s.side, e.x) <= Turns(s.side, s.conns[c])
    requires EffectWeight(s.side, e) < TURN * Owed(s.side, s.conns[c], g) + StageRank(g)
    ensures InHand(s') < InHand(s)
  {
    var w, w' := Threads(s.side, s.conns), Threads(s.side, s'.conns);
    OthersNotHeavier(s.side, s.conns, c, e.x, s.pcs[t := Idle], s.queue);
    ThreadMoves(s.pcs, t, e.next, w, w');
    SumAppend(s.queue, c, Slotted(s.side, s'.conns));
    assert w'(e.next) + (if e.enqueue then SlotWeight(s.side, s'.conns, c) else 0) == EffectWeight(s.side, e);
    assert w(s.pcs[t]) == TURN * Owed(s.side, s.conns[c], g) + StageRank(g);
  }

  lemma ReadyFits(s: State, t: nat, c: Id, g: Stage)
    requires ConnInv(s) && t < |s.pcs| && s.pcs[t] == On(c, g) && c in s.conns
    ensures 0 <= s.conns[c].ready && (g.Take? ==> 1 <= s.conns[c].ready)
  {
    assert Carries(s, s.pcs[t]);
    assert TokenOk(s.side, s.conns[c], c in s.live, HandsOf(s, c));
  }

  lemma StepConnLowers(s: State, t: nat, ch: Choice, c: Id, g: Stage)
    requires ConnInv(s) && t < |s.pcs| && s.pcs[t] == On(c, g) && c in s.conns && CanRest(s)
    ensures InHand(StepConn(s, t, ch, c, g)) < InHand(s) && CanRest(StepConn(s, t, ch, c, g))
  {
    var e := Act(s.side, s.conns[c], c in s.live, c, g, ch);
    ReadyFits(s, t, c, g);
    ActLowers(s.side, s.conns[c], c in s.live, c, g, ch);
    EffectLowersWork(s, StepConn(s, t, ch, c, g), t, c, g, e);
    EffectKeepsCanRest(s, StepConn(s, t, ch, c, g), c, e);
  }

  lemma EffectKeepsCanRest(s: State, s': State, c: Id, e: Effect)
    requires CanRest(s) && c in s.conns && e.x.error == s.conns[c].error
    requires s'.side == s.side && s'.conns == s.conns[c := e.x]
    ensures CanRest(s')
  {
  }

  // ----- one step

  lemma DequeueLowers(s: State, t: nat, ch: Choice)
    requires ConnInv(s) && t < |s.pcs| && s.pcs[t].Dequeue? && s.queue != []
    ensures InHand(StepThread(s, t, ch)) < InHand(s)
  {
    var next := StepThread(s, t, ch).pcs[t];
    assert s.queue[0] in s.queue;
    SumHead(s.queue, Slotted(s.side, s.conns));
    SumUpdate(s.pcs, t, next, Threads(s.side, s.conns));
    DequeuedWeight(s.side, s.conns, s.queue[0]);
  }

  /** A dequeued connection weighs less in the worker's hands than in its slot with the worker about to dequeue. */
  lemma DequeuedWeight(side: Side, conns: map<Id, Conn>, c: Id)
    requires c in conns
    ensures ThreadWeight(side, conns, On(c, if side.Writing? then Fetch else Stage.Work)) <
            ThreadWeight(side, conns, Dequeue) + SlotWeight(side, conns, c)
  {
  }

  lemma PlainLowers(s: State, t: nat, ch: Choice)
    requires t < |s.pcs| && Runnable(s.pcs[t]) && !Notifies(s.pcs[t]) && !s.pcs[t].On? && !s.closed && !Leaving(s.pcs[t])
    requires s.pcs[t].Dequeue? ==> s.queue == []
    ensures InHand(StepThread(s, t, ch)) < InHand(s)
  {
    SumUpdate(s.pcs, t, StepThread(s, t, ch).pcs[t], Threads(s.side, s.conns));
  }

  lemma NotifyLowers(s: State, t: nat, wakee: nat)
    requires t < |s.pcs| && s.pcs[t].NotifyEvent?
    ensures InHand(Goto(Notify(s, wakee), t, Idle)) < InHand(s)
  {
    SumUpdate(Notify(s, wakee).pcs, t, Idle, Threads(s.side, s.conns));
    if SleepsAt(s, wakee) {
      SumUpdate(s.pcs, wakee, Wait, Threads(s.side, s.conns));
    }
  }

  ghost predicate Open(s: State, workers: nat)
  {
    Inv(s, workers) && OpenHasNoExits(s) && !s.closed
  }

  lemma ThreadLowers(s: State, workers: nat, t: nat, ch: Choice)
    requires Open(s, workers) && CanRest(s) && t < |s.pcs| && Runnable(s.pcs[t]) && !Notifies(s.pcs[t])
    ensures InHand(StepThread(s, t, ch)) < InHand(s) && CanRest(StepThread(s, t, ch))
  {
    if s.pcs[t].On? {
      assert Carries(s, s.pcs[t]);
      StepConnLowers(s, t, ch, s.pcs[t].c, s.pcs[t].stage);
    } else if s.pcs[t].Dequeue? && s.queue != [] {
      DequeueLowers(s, t, ch);
    } else {
      PlainLowers(s, t, ch);
    }
  }

  /** Every step that is not a new report lowers the work in hand. */
  lemma StepLowersWork(s: State, workers: nat, l: Label)
    requires Open(s, workers) && CanRest(s) && Internal(l) && Enabled(s, l)
    ensures InHand(Next(s, l)) < InHand(s) && CanRest(Next(s, l))
  {
    if l.SpuriousWake? {
      SumUpdate(s.pcs, l.t, Inner, Threads(s.side, s.conns));
    } else if Notifies(s.pcs[l.t]) {
      NotifyLowers(s, l.t, l.choice.wakee);
    } else {
      ThreadLowers(s, workers, l.t, l.choice);
    }
  }

  lemma InternalStaysOpen(s: State, workers: nat, l: Label)
    requires Open(s, workers) && Internal(l)
    ensures Open(Next(s, l), workers) && Next(s, l).side == s.side
  {
    NextKeepsInv(s, workers, l);
    NextKeepsOpen(s, l);
    NextSide(s, l);
  }

  // ----- whole runs

  lemma {:induction false} WorkIsBounded(s: State, workers: nat, schedule: seq<Label>)
    requires Open(s, workers) && CanRest(s) && AllInternal(s, schedule)
    ensures |schedule| + InHand(Exec(s, schedule)) <= InHand(s)
    ensures Open(Exec(s, schedule), workers) && CanRest(Exec(s, schedule))
  {
    if schedule != [] {
      var n := |schedule| - 1;
      WorkIsBounded(s, workers, schedule[..n]);
      var e := Exec(s, schedule[..n]);
      InternalStaysOpen(e, workers, schedule[n]);
      StepLowersWork(e, workers, schedule[n]);
      assert Exec(s, schedule) == Next(e, schedule[n]);
    }
  }

  /** A state in which some thread can act lets the run go on. */
  lemma GoesOn(s: State) returns (l: Label)
    requires !Quiet(s)
    ensures Internal(l) && Enabled(s, l)
  {
    if Maximal(s) {
      StuckIsQuiet(s);
    }
    l :| Internal(l) && Enabled(s, l);
  }

  /** Going on for as long as possible leads to rest. */
  lemma {:induction false} ReachesRest(s: State, workers: nat, schedule: seq<Label>) returns (after: seq<Label>)
    requires Open(s, workers) && CanRest(s) && AllInternal(s, schedule)
    ensures AllInternal(s, after) && Quiet(Exec(s, after))
    decreases InHand(Exec(s, schedule))
  {
    WorkIsBounded(s, workers, schedule);
    var e := Exec(s, schedule);
    if Quiet(e) {
      after := schedule;
    } else {
      var l := GoesOn(e);
      StepLowersWork(e, workers, l);
      assert (schedule + [l])[..|schedule|] == schedule;
      after := ReachesRest(s, workers, schedule + [l]);
    }
  }

  lemma ErrorsStay(s: State, l: Label)
    requires Internal(l)
    ensures forall c :: c in s.conns && s.conns[c].error ==> c in Next(s, l).conns && Next(s, l).conns[c].error
  {
    if Enabled(s, l) && l.Step? && s.pcs[l.t].On? && s.pcs[l.t].c in s.conns {
      var c := s.pcs[l.t].c;
      ActKeepsError(s.side, s.conns[c], c in s.live, c, s.pcs[l.t].stage, l.choice);
    }
  }

  lemma ActKeepsError(side: Side, x: Conn, live: bool, c: Id, g: Stage, ch: Choice)
    ensures Act(side, x, live, c, g, ch).x.error == x.error
  {
  }

  /** A read connection in error is never given up, so no run of steps ends at rest. */
  lemma {:induction false} ErrorNeverRests(s: State, workers: nat, schedule: seq<Label>, c: Id)
    requires Open(s, workers) && workers > 0 && s.side.Reading? && c in s.conns && s.conns[c].error
    requires AllInternal(s, schedule)
    ensures var e := Exec(s, schedule);
            Open(e, workers) && e.side.Reading? && c in e.conns && e.conns[c].error && !Quiet(e)
  {
    if schedule != [] {
      var n := |schedule| - 1;
      ErrorNeverRests(s, workers, schedule[..n], c);
      InternalStaysOpen(Exec(s, schedule[..n]), workers, schedule[n]);
      ErrorsStay(Exec(s, schedule[..n]), schedule[n]);
      assert Exec(s, schedule) == Next(Exec(s, schedule[..n]), schedule[n]);
    }
    var e := Exec(s, schedule);
    if Quiet(e) {
      RestState(e, workers);
    }
  }

  /**
   From any reachable open state: on the write side, and on the read side while no connection is in
   error, every run without new reports is bounded and, where it cannot go on, at rest with nothing
   queued, no flag set and nothing pending on a known connection.
   */
  lemma OpenManagerComesToRest(side: Side, producers: nat, workers: nat, before: seq<Label>, after: seq<Label>)
    requires workers > 0
    requires var s := Run(side, producers, workers, before); !s.closed && CanRest(s) && AllInternal(s, after)
    ensures var s := Run(side, producers, workers, before); var e := Exec(s, after);
            && |after| <= InHand(s)
            && (Maximal(e) ==>
                  && e.queue == []
                  && (forall c :: c in e.conns ==> !e.conns[c].busy)
                  && (forall c :: c in e.conns && Pending(e.side, e.conns[c]) ==> e.side.Writing? && c !in e.live))
  {
    var s := Run(side, producers, workers, before);
    RunInv(side, producers, workers, before);
    RunKeepsOpen(side, producers, workers, before);
    WorkIsBounded(s, workers, after);
    if Maximal(Exec(s, after)) {
      StuckIsQuiet(Exec(s, after));
      RestState(Exec(s, after), workers);
    }
  }

  /** Some continuation without new reports ends with no thread able to act. */
  ghost predicate ComesToRest(s: State) { exists after :: AllInternal(s, after) && Quiet(Exec(s, after)) }

  /** Exactly then: with a read connection in error no continuation, however long, comes to rest. */
  lemma RestsExactly(side: Side, producers: nat, workers: nat, before: seq<Label>)
    requires workers > 0 && !Run(side, producers, workers, before).closed
    ensures var s := Run(side, producers, workers, before);
            CanRest(s) <==> ComesToRest(s)
  {
    var s := Run(side, producers, workers, before);
    RunInv(side, producers, workers, before);
    RunKeepsOpen(side, producers, workers, before);
    if CanRest(s) {
      var after := ReachesRest(s, workers, []);
      assert AllInternal(s, after) && Quiet(Exec(s, after));
    } else {
      var c :| c in s.conns && s.conns[c].error;
      forall after | AllInternal(s, after)
        ensures !Quiet(Exec(s, after))
      {
        ErrorNeverRests(s, workers, after, c);
      }
    }
  }
}
