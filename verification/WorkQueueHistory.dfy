/**
 What the state of the ConnectionManager machine says about the run behind it: events reported and spent,
 content passed in, failures, closes and the order of the queue are read off the steps that took place.
 */
module WorkQueueHistory {
  import opened WorkQueue
  import opened WorkQueueRuns

  // ----- what one step is, for one connection

  predicate Reports(s: State, l: Label, c: Id) { l.Ready? && l.id == c && Enabled(s, l) }

  predicate Fails(s: State, l: Label, c: Id) { l.Failure? && l.id == c && Enabled(s, l) }

  function Content(s: State, l: Label, c: Id): string
  {
    if l.AddToCache? && l.id == c && Enabled(s, l) then l.content else ""
  }

  /** A step of a thread that stands at stage `g` with connection `c`. */
  predicate StepsAt(s: State, l: Label, c: Id, g: Stage) { l.Step? && Enabled(s, l) && s.pcs[l.t] == On(c, g) }

  predicate Spends(s: State, l: Label, c: Id) { StepsAt(s, l, c, Take) }

  /** The other side closes it, a worker finds it in error, or its handler is done after a transfer. */
  predicate Closes(s: State, l: Label, c: Id)
  {
    || (l.Released? && l.id == c && Enabled(s, l))
    || (StepsAt(s, l, c, Work) && c in s.conns && s.conns[c].error)
    || (StepsAt(s, l, c, Transfer) && c in s.conns && l.choice.done && (s.side.Reading? || s.conns[c].response != ""))
  }

  function Queues(s: State, l: Label): seq<Id>
  {
    if l.Step? && Enabled(s, l) && s.pcs[l.t].On? && s.pcs[l.t].c in s.conns &&
       (s.pcs[l.t].stage.Enqueue? || s.pcs[l.t].stage.Requeue?)
    then [s.pcs[l.t].c] else []
  }

  /** The connection with which a worker leaves the dequeue. */
  function Dequeues(s: State, l: Label): seq<Id>
  {
    if l.Step? && Enabled(s, l) && s.pcs[l.t].Dequeue? && Next(s, l).pcs[l.t].On? then [Next(s, l).pcs[l.t].c] else []
  }

  // ----- over the whole run

  function Reported(side: Side, producers: nat, workers: nat, schedule: seq<Label>, c: Id): int
  {
    if schedule == [] then 0 else
    var n := |schedule| - 1;
    Reported(side, producers, workers, schedule[..n], c) +
    (if Reports(Run(side, producers, workers, schedule[..n]), schedule[n], c) then 1 else 0)
  }

  function Spent(side: Side, producers: nat, workers: nat, schedule: seq<Label>, c: Id): int
  {
    if schedule == [] then 0 else
    var n := |schedule| - 1;
    Spent(side, producers, workers, schedule[..n], c) +
    (if Spends(Run(side, producers, workers, schedule[..n]), schedule[n], c) then 1 else 0)
  }

  function Passed(side: Side, producers: nat, workers: nat, schedule: seq<Label>, c: Id): string
  {
    if schedule == [] then "" else
    var n := |schedule| - 1;
    Passed(side, producers, workers, schedule[..n], c) +
    Content(Run(side, producers, workers, schedule[..n]), schedule[n], c)
  }

  predicate HasFailed(side: Side, producers: nat, workers: nat, schedule: seq<Label>, c: Id)
  {
    schedule != [] &&
    var n := |schedule| - 1;
    || HasFailed(side, producers, workers, schedule[..n], c)
    || Fails(Run(side, producers, workers, schedule[..n]), schedule[n], c)
  }

  predicate WasClosed(side: Side, producers: nat, workers: nat, schedule: seq<Label>, c: Id)
  {
    schedule != [] &&
    var n := |schedule| - 1;
    || WasClosed(side, producers, workers, schedule[..n], c)
    || Closes(Run(side, producers, workers, schedule[..n]), schedule[n], c)
  }

  function Enqueued(side: Side, producers: nat, workers: nat, schedule: seq<Label>): seq<Id>
  {
    if schedule == [] then [] else
    var n := |schedule| - 1;
    Enqueued(side, producers, workers, schedule[..n]) + Queues(Run(side, producers, workers, schedule[..n]), schedule[n])
  }

  function Dequeued(side: Side, producers: nat, workers: nat, schedule: seq<Label>): seq<Id>
  {
    if schedule == [] then [] else
    var n := |schedule| - 1;
    Dequeued(side, producers, workers, schedule[..n]) + Dequeues(Run(side, producers, workers, schedule[..n]), schedule[n])
  }

  // ----- one step

  /** What a step at a stage does to the fields that only events, content and failures change. */
  lemma ActEffects(side: Side, x: Conn, live: bool, c: Id, g: Stage, ch: Choice)
    ensures var e := Act(side, x, live, c, g, ch);
            && e.x.ready == x.ready - (if g.Take? then 1 else 0)
            && e.x.error == x.error && e.x.appended == x.appended
            && e.enqueue == (g.Enqueue? || g.Requeue?)
            && e.live == (live && !(g.Work? && x.error) &&
                          !(g.Transfer? && ch.done && (side.Reading? || x.response != "")))
  {
  }

  /** The effects, for any state that follows. */
  ghost predicate HasEffects(s: State, l: Label, r: State, c: Id)
    requires c in s.conns
  {
    && c in r.conns
    && r.conns[c].ready == s.conns[c].ready + (if Reports(s, l, c) then 1 else 0) - (if Spends(s, l, c) then 1 else 0)
    && r.conns[c].appended == s.conns[c].appended + Content(s, l, c)
    && r.conns[c].error == (s.conns[c].error || Fails(s, l, c))
    && (c in r.live <==> c in s.live && !Closes(s, l, c))
  }

  /** A thread that carries a connection. */
  predicate CarriesOne(s: State, l: Label) { l.Step? && Enabled(s, l) && s.pcs[l.t].On? && s.pcs[l.t].c in s.conns }

  lemma ConnStepEffects(s: State, l: Label, c: Id, d: Id, g: Stage)
    requires c in s.conns && CarriesOne(s, l) && s.pcs[l.t] == On(d, g)
    ensures HasEffects(s, l, StepConn(s, l.t, l.choice, d, g), c)
  {
    ActEffects(s.side, s.conns[d], d in s.live, d, g, l.choice);
  }

  lemma PlainStepLeavesConns(s: State, l: Label)
    requires !CarriesOne(s, l) && (l.Step? || l.SpuriousWake? || l.Close?)
    ensures Next(s, l).conns == s.conns && Next(s, l).live == s.live
  {
  }

  lemma OtherStepEffects(s: State, l: Label, c: Id)
    requires c in s.conns && !CarriesOne(s, l)
    ensures HasEffects(s, l, Next(s, l), c)
  {
    if l.Step? || l.SpuriousWake? || l.Close? {
      PlainStepLeavesConns(s, l);
      assert !StepsAt(s, l, c, Take) && !StepsAt(s, l, c, Work) && !StepsAt(s, l, c, Transfer);
    } else {
      ReportEffects(s, l, c);
    }
  }

  lemma ReportEffects(s: State, l: Label, c: Id)
    requires c in s.conns && !l.Step? && !l.SpuriousWake? && !l.Close?
    ensures HasEffects(s, l, Next(s, l), c)
  {
  }

  lemma StepEffects(s: State, l: Label, c: Id)
    requires c in s.conns
    ensures HasEffects(s, l, Next(s, l), c)
  {
    if CarriesOne(s, l) {
      ConnStepEffects(s, l, c, s.pcs[l.t].c, s.pcs[l.t].stage);
    } else {
      OtherStepEffects(s, l, c);
    }
  }

  lemma NotThereYet(s: State, l: Label, c: Id)
    requires ConnInv(s) && c !in s.conns && c !in s.live
    ensures !Reports(s, l, c) && !Spends(s, l, c) && !Fails(s, l, c) && Content(s, l, c) == "" && !Closes(s, l, c)
    ensures var r := Next(s, l);
            if c in r.conns then r.conns[c] == Conn(0, false, false, "", "", "", "") && c in r.live else c !in r.live
  {
    if l.Step? && Enabled(s, l) {
      assert Carries(s, s.pcs[l.t]);
    }
  }

  // ----- the state is its history

  /** The fields of `c` are what the run did: nothing yet, or events, content, failures and closes added up. */
  ghost predicate IsHistory(s: State, c: Id, reported: int, spent: int, passed: string, failed: bool, closed: bool)
  {
    if c in s.conns
    then
      && s.conns[c].ready == reported - spent && s.conns[c].appended == passed && s.conns[c].error == failed
      && (c in s.live <==> !closed)
    else reported == 0 == spent && passed == "" && !failed && !closed && c !in s.live
  }

  lemma StepHistory(s: State, l: Label, c: Id, reported: int, spent: int, passed: string, failed: bool, closed: bool)
    requires ConnInv(s) && IsHistory(s, c, reported, spent, passed, failed, closed)
    ensures IsHistory(Next(s, l), c, reported + (if Reports(s, l, c) then 1 else 0),
                      spent + (if Spends(s, l, c) then 1 else 0), passed + Content(s, l, c),
                      failed || Fails(s, l, c), closed || Closes(s, l, c))
  {
    if c in s.conns {
      StepEffects(s, l, c);
    } else {
      NotThereYet(s, l, c);
    }
  }

  lemma {:induction false} RunIsHistory(side: Side, producers: nat, workers: nat, schedule: seq<Label>, c: Id)
    ensures IsHistory(Run(side, producers, workers, schedule), c,
                      Reported(side, producers, workers, schedule, c), Spent(side, producers, workers, schedule, c),
                      Passed(side, producers, workers, schedule, c), HasFailed(side, producers, workers, schedule, c),
                      WasClosed(side, producers, workers, schedule, c))
  {
    if schedule != [] {
      var n := |schedule| - 1;
      RunIsHistory(side, producers, workers, schedule[..n], c);
      RunInv(side, producers, workers, schedule[..n]);
      StepHistory(Run(side, producers, workers, schedule[..n]), schedule[n], c,
                  Reported(side, producers, workers, schedule[..n], c), Spent(side, producers, workers, schedule[..n], c),
                  Passed(side, producers, workers, schedule[..n], c), HasFailed(side, producers, workers, schedule[..n], c),
                  WasClosed(side, producers, workers, schedule[..n], c));
    }
  }

  /**
   Events are conserved: what is left of a connection's counter is the reports less the reads or writes
   that spent one; it is in error exactly when a failure was reported, and the map has forgotten it exactly
   when somebody closed it.
   */
  lemma EventsAreConserved(side: Side, producers: nat, workers: nat, schedule: seq<Label>, c: Id)
    requires c in Run(side, producers, workers, schedule).conns
    ensures var s := Run(side, producers, workers, schedule);
            && s.conns[c].ready == Reported(side, producers, workers, schedule, c) - Spent(side, producers, workers, schedule, c)
            && Spent(side, producers, workers, schedule, c) <= Reported(side, producers, workers, schedule, c)
            && (s.conns[c].error <==> HasFailed(side, producers, workers, schedule, c))
            && (c !in s.live <==> WasClosed(side, producers, workers, schedule, c))
  {
    RunIsHistory(side, producers, workers, schedule, c);
    SingleOwnership(side, producers, workers, schedule, c);
  }

  /**
   Content is conserved: the bytes sent, the response, what a worker carries and the cache are, in this
   order, the contents of the AddToWriteCache calls of the run, one after the other.
   */
  lemma PassedIsConserved(producers: nat, workers: nat, schedule: seq<Label>, c: Id)
    requires c in Run(Writing, producers, workers, schedule).conns
    ensures var s := Run(Writing, producers, workers, schedule); var x := s.conns[c];
            var passed := Passed(Writing, producers, workers, schedule, c);
            || (exists i :: 0 <= i < |s.pcs| && s.pcs[i].On? && s.pcs[i].c == c && s.pcs[i].stage.Append? &&
                  x.sent + x.response + s.pcs[i].stage.content + x.cache == passed)
            || x.sent + x.response + x.cache == passed
  {
    RunIsHistory(Writing, producers, workers, schedule, c);
    WriteStreamConservation(producers, workers, schedule, c);
  }

  predicate CloseCalled(side: Side, producers: nat, workers: nat, schedule: seq<Label>)
  {
    schedule != [] &&
    var n := |schedule| - 1;
    || CloseCalled(side, producers, workers, schedule[..n])
    || (schedule[n].Close? && Enabled(Run(side, producers, workers, schedule[..n]), schedule[n]))
  }

  lemma StepCloses(s: State, l: Label)
    ensures Next(s, l).closed <==> s.closed || (l.Close? && Enabled(s, l))
    ensures l.Close? && Enabled(s, l) ==> Next(s, l).pcs[l.t] == SetEvent
  {
  }

  /** The manager is closed exactly when somebody has called Close. */
  lemma {:induction false} ClosedExactly(side: Side, producers: nat, workers: nat, schedule: seq<Label>)
    ensures Run(side, producers, workers, schedule).closed <==> CloseCalled(side, producers, workers, schedule)
  {
    if schedule != [] {
      var n := |schedule| - 1;
      ClosedExactly(side, producers, workers, schedule[..n]);
      StepCloses(Run(side, producers, workers, schedule[..n]), schedule[n]);
    }
  }

  // ----- first in, first out

  lemma ConnStepQueue(s: State, l: Label, d: Id, g: Stage)
    requires CarriesOne(s, l) && s.pcs[l.t] == On(d, g)
    ensures Dequeues(s, l) == [] && StepConn(s, l.t, l.choice, d, g).queue == s.queue + Queues(s, l)
  {
    ActEffects(s.side, s.conns[d], d in s.live, d, g, l.choice);
    assert s.queue + [] == s.queue;
  }

  lemma DequeueStepQueue(s: State, l: Label)
    requires l.Step? && Enabled(s, l) && s.pcs[l.t].Dequeue?
    ensures Dequeues(s, l) + Next(s, l).queue == s.queue && Queues(s, l) == []
  {
  }

  lemma OtherStepQueue(s: State, l: Label)
    requires !CarriesOne(s, l) && !(l.Step? && Enabled(s, l) && (s.pcs[l.t].Dequeue? || s.pcs[l.t].On?))
    ensures Next(s, l).queue == s.queue && Dequeues(s, l) == [] == Queues(s, l)
  {
  }

  lemma StepQueue(s: State, l: Label)
    requires ConnInv(s)
    ensures Dequeues(s, l) + Next(s, l).queue == s.queue + Queues(s, l)
  {
    if l.Step? && Enabled(s, l) && s.pcs[l.t].On? {
      assert Carries(s, s.pcs[l.t]);
      ConnStepQueue(s, l, s.pcs[l.t].c, s.pcs[l.t].stage);
    } else if l.Step? && Enabled(s, l) && s.pcs[l.t].Dequeue? {
      DequeueStepQueue(s, l);
    } else {
      OtherStepQueue(s, l);
    }
  }

  /** Workers take the connections in the order in which they were enqueued, and leave none out. */
  lemma {:induction false} QueueIsFifo(side: Side, producers: nat, workers: nat, schedule: seq<Label>)
    ensures Dequeued(side, producers, workers, schedule) + Run(side, producers, workers, schedule).queue ==
            Enqueued(side, producers, workers, schedule)
  {
    if schedule != [] {
      var n := |schedule| - 1;
      var s := Run(side, producers, workers, schedule[..n]);
      QueueIsFifo(side, producers, workers, schedule[..n]);
      RunInv(side, producers, workers, schedule[..n]);
      StepQueue(s, schedule[n]);
      Shuffle(Dequeued(side, producers, workers, schedule[..n]), s.queue, Enqueued(side, producers, workers, schedule[..n]),
              Dequeues(s, schedule[n]), Next(s, schedule[n]).queue, Queues(s, schedule[n]));
    }
  }

  lemma Shuffle(out: seq<Id>, queue: seq<Id>, into: seq<Id>, d: seq<Id>, queue': seq<Id>, q: seq<Id>)
    requires out + queue == into && d + queue' == queue + q
    ensures (out + d) + queue' == into + q
  {
    assert (out + d) + queue' == out + (d + queue');
    assert out + (queue + q) == (out + queue) + q;
  }

  // ----- what a claim and a write are

  /** A check claims the connection exactly when it is free and has something to do: an event, on the write side
      with content to write, or on the write side a handler that is done. */
  lemma CheckClaimsExactly(s: State, t: nat, ch: Choice, c: Id)
    requires t < |s.pcs| && s.pcs[t] == On(c, Check) && c in s.conns
    ensures var x := s.conns[c]; var r := Next(s, Step(t, ch));
            (r.pcs[t] == On(c, Enqueue) && r.conns[c].busy) <==>
            && !x.busy
            && (((x.ready != 0 || x.error) && (s.side.Reading? || x.cache != "")) || (s.side.Writing? && ch.done))
  {
  }

  /** A transfer sends as many bytes of the response as the socket takes, and no others. */
  lemma TransferSends(s: State, t: nat, ch: Choice, c: Id)
    requires s.side.Writing? && t < |s.pcs| && s.pcs[t] == On(c, Transfer) && c in s.conns
    ensures var x := s.conns[c]; var y := Next(s, Step(t, ch)).conns[c];
            var k := if |x.response| <= ch.taken then |x.response| else ch.taken;
            y.sent == x.sent + x.response[..k] && y.response == x.response[k..] && y.cache == x.cache
  {
  }
}
