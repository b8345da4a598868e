/**
 The scheduler of ConnectionManager: threads hand connections to workers through an
 isReading/isWriting flag, a FIFO queue and an auto-reset event. One machine describes both
 halves; `Side` selects the read or the write one. A step is one critical section, one access
 to an atomic, or one operation of the event; any number of threads and connections take part.
 */
module WorkQueue {
  import opened Sums

  type Id = nat

  datatype Side = Reading | Writing

  /** `ready` is isReadable/isWritable, `busy` is isReading/isWriting; `appended` is all content ever cached. */
  datatype Conn = Conn(
    ready: int, error: bool, busy: bool,
    cache: string, response: string, sent: string, appended: string)

  /** What a thread is about to do with the connection it carries. */
  datatype Stage =
    // a thread that reported an event or added content
    | Lookup
    | Check
    | Enqueue
    // a worker
    | Fetch
    | Append(content: string)
    | Work
    | Test
    | Take
    | Transfer
    | Recheck
    | Requeue

  datatype Pc =
    | On(c: Id, stage: Stage)
    // a thread that reports events, adds content or closes the manager
    | Idle
    | SetEvent
    | NotifyEvent
    // a worker in ProcessRead or ProcessWrite
    | Outer
    | Wait
    | Asleep
    | Inner
    | Dequeue
    | ExitSet
    | ExitNotify
    | Exited

  datatype State = State(
    side: Side, conns: map<Id, Conn>, live: set<Id>, queue: seq<Id>,
    signaled: bool, closed: bool, pcs: seq<Pc>)

  /** What a step leaves open: bytes the socket takes, whether the handler is done, which sleeper is notified. */
  datatype Choice = Choice(taken: nat, done: bool, wakee: nat)

  datatype Label =
    | NewConnection(id: Id)
    // a worker of the other side closes the connection, so that the map forgets it
    | Released(id: Id)
    | Ready(t: nat, id: Id)
    | Failure(t: nat, id: Id)
    | AddToCache(t: nat, id: Id, content: string)
    | Close(t: nat)
    | Step(t: nat, choice: Choice)
    | SpuriousWake(t: nat)

  function Start(side: Side, producers: nat, workers: nat): State
  {
    State(side, map[], {}, [], false, false, seq(producers, _ => Idle) + seq(workers, _ => Outer))
  }

  predicate EventHappened(x: Conn) { x.ready != 0 || x.error }

  /** The condition of NeedReInQueueRead / NeedReInQueueWrite for keeping the token. */
  predicate Pending(side: Side, x: Conn)
  {
    EventHappened(x) && (side.Writing? ==> x.cache != "")
  }

  /** The condition of NeedInQueueRead / NeedInQueueWrite apart from the flag. */
  predicate NeedIn(side: Side, x: Conn, done: bool)
  {
    Pending(side, x) || (side.Writing? && done)
  }

  predicate NobodySleeps(s: State) { forall j :: 0 <= j < |s.pcs| ==> !s.pcs[j].Asleep? }

  predicate SleepsAt(s: State, t: nat) { t < |s.pcs| && s.pcs[t].Asleep? }

  predicate Notifies(pc: Pc) { pc.NotifyEvent? || pc.ExitNotify? }

  predicate Runnable(pc: Pc) { !pc.Idle? && !pc.Asleep? && !pc.Exited? }

  /** No thread of this side takes the step. */
  predicate Outside(l: Label) { l.NewConnection? || l.Released? }

  predicate Internal(l: Label) { l.Step? || l.SpuriousWake? }

  predicate Enabled(s: State, l: Label)
  {
    match l
    case NewConnection(id) => id !in s.conns
    case Released(id) => id in s.live
    case Ready(t, id) => t < |s.pcs| && s.pcs[t].Idle? && id in s.conns
    case Failure(t, id) => t < |s.pcs| && s.pcs[t].Idle? && id in s.conns
    case AddToCache(t, id, _) => s.side.Writing? && t < |s.pcs| && s.pcs[t].Idle? && id in s.conns
    case Close(t) => t < |s.pcs| && s.pcs[t].Idle? && !s.closed
    case SpuriousWake(t) => t < |s.pcs| && s.pcs[t].Asleep? && s.signaled
    case Step(t, ch) =>
      && t < |s.pcs| && Runnable(s.pcs[t])
      && (Notifies(s.pcs[t]) ==> SleepsAt(s, ch.wakee) || NobodySleeps(s))
  }

  function Goto(s: State, t: nat, pc: Pc): State
    requires t < |s.pcs|
  {
    s.(pcs := s.pcs[t := pc])
  }

  function Update(s: State, c: Id, x: Conn): State { s.(conns := s.conns[c := x]) }

  /** One step; a label that is not enabled leaves the state alone. */
  function Next(s: State, l: Label): State
  {
    if !Enabled(s, l) then s else
    match l
    case NewConnection(id) =>
      Update(s, id, Conn(0, false, false, "", "", "", "")).(live := s.live + {id})
    case Released(id) => s.(live := s.live - {id})
    case Ready(t, id) => Goto(Update(s, id, s.conns[id].(ready := s.conns[id].ready + 1)), t, On(id, Check))
    case Failure(t, id) => Goto(Update(s, id, s.conns[id].(error := true)), t, On(id, Check))
    case AddToCache(t, id, content) =>
      var x := s.conns[id];
      Goto(Update(s, id, x.(cache := x.cache + content, appended := x.appended + content)), t, On(id, Lookup))
    case Close(t) => Goto(s.(closed := true), t, SetEvent)
    case SpuriousWake(t) => Goto(s.(signaled := false), t, Inner)
    case Step(t, ch) =>
      if Notifies(s.pcs[t])
      then Goto(Notify(s, ch.wakee), t, if s.pcs[t].NotifyEvent? then Idle else Exited)
      else StepThread(s, t, ch)
  }

  function Notify(s: State, wakee: nat): State
  {
    if SleepsAt(s, wakee) then Goto(s, wakee, Wait) else s
  }

  function StepThread(s: State, t: nat, ch: Choice): State
    requires t < |s.pcs| && Runnable(s.pcs[t]) && !Notifies(s.pcs[t])
  {
    match s.pcs[t]
    case SetEvent => Goto(s.(signaled := true), t, NotifyEvent)
    case Outer => Goto(s, t, if s.closed then ExitSet else Wait)
    case Wait => if s.signaled then Goto(s.(signaled := false), t, Inner) else Goto(s, t, Asleep)
    case Inner => Goto(s, t, if s.closed then Outer else Dequeue)
    case Dequeue =>
      if s.queue == [] then Goto(s, t, Outer)
      else Goto(s.(queue := s.queue[1..]), t, On(s.queue[0], if s.side.Writing? then Fetch else Work))
    case ExitSet => Goto(s.(signaled := true), t, ExitNotify)
    case On(c, stage) => if c in s.conns then StepConn(s, t, ch, c, stage) else s
    case _ => s
  }

  /** What a step does to its connection, to the membership in the map, to the queue, and where it leads. */
  datatype Effect = Effect(x: Conn, live: bool, enqueue: bool, next: Pc)

  function Act(side: Side, x: Conn, live: bool, c: Id, stage: Stage, ch: Choice): Effect
  {
    match stage
    case Lookup => Effect(x, live, false, if live then On(c, Check) else Idle)
    case Check =>
      if NeedIn(side, x, ch.done) && !x.busy
      then Effect(x.(busy := true), live, false, On(c, Enqueue))
      else Effect(x, live, false, Idle)
    case Enqueue => Effect(x, live, true, SetEvent)
    case Fetch => Effect(x.(cache := ""), live, false, On(c, Append(x.cache)))
    case Append(content) => Effect(x.(response := x.response + content), live, false, On(c, Work))
    case Work => Effect(x, live && !x.error, false, On(c, Test))
    case Test => Effect(x, live, false, On(c, if x.ready == 0 then Recheck else Take))
    case Take => Effect(x.(ready := x.ready - 1), live, false, On(c, Transfer))
    case Transfer =>
      if side.Reading? then Effect(x, live && !ch.done, false, On(c, Recheck))
      else if x.response == "" then Effect(x, live, false, On(c, Recheck))
      else
        var n := if ch.taken <= |x.response| then ch.taken else |x.response|;
        Effect(x.(sent := x.sent + x.response[..n], response := x.response[n..]),
               live && !ch.done, false, On(c, Recheck))
    case Recheck =>
      if Pending(side, x) then Effect(x, live, false, On(c, Requeue))
      else Effect(x.(busy := false), live, false, Inner)
    case Requeue => Effect(x, live, true, Inner)
  }

  function StepConn(s: State, t: nat, ch: Choice, c: Id, stage: Stage): State
    requires t < |s.pcs| && c in s.conns
  {
    var e := Act(s.side, s.conns[c], c in s.live, c, stage, ch);
    s.(conns := s.conns[c := e.x],
       live := if e.live then s.live else s.live - {c},
       queue := if e.enqueue then s.queue + [c] else s.queue,
       pcs := s.pcs[t := e.next])
  }

  function Exec(s: State, schedule: seq<Label>): State
  {
    if schedule == [] then s
    else Next(Exec(s, schedule[..|schedule| - 1]), schedule[|schedule| - 1])
  }

  // ----- one connection: single ownership, counters, conservation, no stranded event

  /** `pc` holds the token of `c`: it is to be enqueued, worked on, or given up. */
  function Held(pc: Pc, c: Id): nat
  {
    if pc.On? && pc.c == c && !pc.stage.Lookup? && !pc.stage.Check? then 1 else 0
  }

  function Checked(pc: Pc, c: Id): nat
  {
    if pc.On? && pc.c == c && (pc.stage.Lookup? || pc.stage.Check?) then 1 else 0
  }

  function Carried(pc: Pc, c: Id): nat { if pc.On? && pc.c == c && pc.stage.Append? then 1 else 0 }

  function Holds(c: Id): Pc -> nat { pc => Held(pc, c) }

  function Checks(c: Id): Pc -> nat { pc => Checked(pc, c) }

  function Appends(c: Id): Pc -> nat { pc => Carried(pc, c) }

  /** Threads holding the token of `c`, its queue slots, threads about to check it, workers carrying its content. */
  datatype Hands = Hands(holding: int, queued: int, checking: int, appending: int)

  function Slots(s: State, c: Id): int { multiset(s.queue)[c] }

  function HandsOf(s: State, c: Id): Hands
  {
    Hands(Sum(s.pcs, Holds(c)), Slots(s, c), Sum(s.pcs, Checks(c)), Sum(s.pcs, Appends(c)))
  }

  function MovedHands(h: Hands, c: Id, p: Pc, q: Pc, slots: int): Hands
  {
    Hands(h.holding - Held(p, c) + Held(q, c),
          h.queued + slots,
          h.checking - Checked(p, c) + Checked(q, c),
          h.appending - Carried(p, c) + Carried(q, c))
  }

  lemma GotoHands(s: State, s': State, t: nat, c: Id)
    requires t < |s.pcs| == |s'.pcs| && s'.pcs == s.pcs[t := s'.pcs[t]]
    ensures HandsOf(s', c) ==
            MovedHands(HandsOf(s, c), c, s.pcs[t], s'.pcs[t], Slots(s', c) - Slots(s, c))
  {
    SumUpdate(s.pcs, t, s'.pcs[t], Holds(c));
    SumUpdate(s.pcs, t, s'.pcs[t], Checks(c));
    SumUpdate(s.pcs, t, s'.pcs[t], Appends(c));
  }

  /** The hands include those of thread `t`, and content is carried by token holders only. */
  predicate Includes(h: Hands, pc: Pc, c: Id)
  {
    && Held(pc, c) <= h.holding && Checked(pc, c) <= h.checking && Carried(pc, c) <= h.appending
    && h.appending - Carried(pc, c) <= h.holding - Held(pc, c)
  }

  lemma HandsInclude(s: State, t: nat, c: Id)
    requires t < |s.pcs|
    ensures Includes(HandsOf(s, c), s.pcs[t], c)
  {
    SumAtLeast(s.pcs, t, Holds(c));
    SumAtLeast(s.pcs, t, Checks(c));
    SumAtLeast(s.pcs, t, Appends(c));
    SumUpdate(s.pcs, t, Idle, Holds(c));
    SumUpdate(s.pcs, t, Idle, Appends(c));
    SumMonotone(s.pcs[t := Idle], Appends(c), Holds(c));
  }

  /** `busy` means exactly one token; an event that no thread holds or is about to check means a released connection. */
  ghost predicate TokenOk(side: Side, x: Conn, live: bool, h: Hands)
  {
    && h.holding + h.queued == (if x.busy then 1 else 0)
    && 0 <= h.queued
    && 0 <= x.ready
    && (Pending(side, x) && !x.busy && h.checking == 0 ==> side.Writing? && !live)
    && (h.appending == 0 ==> x.sent + x.response + x.cache == x.appended)
  }

  /** What a thread that carries the connection may rely on. */
  ghost predicate CarryOk(side: Side, x: Conn, stage: Stage)
  {
    && (stage.Lookup? ==> side.Writing?)
    && (stage.Take? ==> 1 <= x.ready)
    && (stage.Append? ==> x.sent + x.response + stage.content + x.cache == x.appended)
  }

  ghost predicate ActOk(side: Side, live: bool, c: Id, stage: Stage, h: Hands, e: Effect)
  {
    && TokenOk(side, e.x, e.live, MovedHands(h, c, On(c, stage), e.next, if e.enqueue then 1 else 0))
    && (e.next.On? ==> e.next.c == c && CarryOk(side, e.x, e.next.stage))
  }

  lemma SplitKeeps(sent: string, response: string, cache: string, n: nat)
    requires n <= |response|
    ensures (sent + response[..n]) + response[n..] + cache == sent + response + cache
  {
    assert response == response[..n] + response[n..];
    assert (sent + response[..n]) + response[n..] == sent + response;
  }

  lemma TransferKeepsToken(side: Side, x: Conn, live: bool, c: Id, ch: Choice, h: Hands)
    requires TokenOk(side, x, live, h) && Includes(h, On(c, Transfer), c)
    ensures ActOk(side, live, c, Transfer, h, Act(side, x, live, c, Transfer, ch))
  {
    var e := Act(side, x, live, c, Transfer, ch);
    SplitKeeps(x.sent, x.response, x.cache, if ch.taken <= |x.response| then ch.taken else |x.response|);
    assert e.x.sent + e.x.response + e.x.cache == x.sent + x.response + x.cache;
    assert MovedHands(h, c, On(c, Transfer), e.next, 0) == h;
  }

  /** The stages that move content between cache, worker, response and socket. */
  lemma ContentActKeepsToken(side: Side, x: Conn, live: bool, c: Id, stage: Stage, ch: Choice, h: Hands)
    requires stage.Fetch? || stage.Append?
    requires TokenOk(side, x, live, h) && CarryOk(side, x, stage) && Includes(h, On(c, stage), c)
    ensures ActOk(side, live, c, stage, h, Act(side, x, live, c, stage, ch))
  {
    if stage.Append? {
      assert x.sent + (x.response + stage.content) == x.sent + x.response + stage.content;
    }
  }

  lemma ActKeepsToken(side: Side, x: Conn, live: bool, c: Id, stage: Stage, ch: Choice, h: Hands)
    requires TokenOk(side, x, live, h) && CarryOk(side, x, stage) && Includes(h, On(c, stage), c)
    ensures ActOk(side, live, c, stage, h, Act(side, x, live, c, stage, ch))
  {
    if stage.Transfer? {
      TransferKeepsToken(side, x, live, c, ch, h);
    } else if stage.Fetch? || stage.Append? {
      ContentActKeepsToken(side, x, live, c, stage, ch, h);
    }
  }

  ghost predicate Carries(s: State, pc: Pc)
  {
    pc.On? ==> pc.c in s.conns && CarryOk(s.side, s.conns[pc.c], pc.stage)
  }

  ghost predicate ConnInv(s: State)
  {
    && (forall i :: 0 <= i < |s.pcs| ==> Carries(s, s.pcs[i]))
    && (forall c :: c in s.queue ==> c in s.conns)
    && (forall c :: c in s.conns ==> TokenOk(s.side, s.conns[c], c in s.live, HandsOf(s, c)))
  }

  /** Two threads never hold the token of the same connection. */
  lemma SingleHolder(s: State, i: nat, j: nat, c: Id)
    requires ConnInv(s) && i < |s.pcs| && j < |s.pcs| && c in s.conns
    requires Held(s.pcs[i], c) == 1 && Held(s.pcs[j], c) == 1
    ensures i == j
  {
    if i < j {
      SumAtLeastTwo(s.pcs, i, j, Holds(c));
    } else if j < i {
      SumAtLeastTwo(s.pcs, j, i, Holds(c));
    }
  }

  predicate About(pc: Pc, d: Id) { pc.On? ==> pc.c == d }

  /** Thread `t` moves and at most connection `d` changes. */
  ghost predicate MovesOn(s: State, s': State, t: nat, d: Id)
  {
    && t < |s.pcs| == |s'.pcs| && s'.pcs == s.pcs[t := s'.pcs[t]]
    && s'.side == s.side && s'.conns.Keys == s.conns.Keys
    && About(s.pcs[t], d) && About(s'.pcs[t], d)
    && (forall c :: c in s.conns && c != d ==>
          s'.conns[c] == s.conns[c] && (c in s'.live <==> c in s.live) && Slots(s', c) == Slots(s, c))
    && (forall c :: c in s'.queue ==> c in s.conns)
  }

  lemma MoveKeepsTokens(s: State, s': State, t: nat, d: Id)
    requires ConnInv(s) && MovesOn(s, s', t, d)
    requires d in s.conns ==>
               TokenOk(s'.side, s'.conns[d], d in s'.live,
                       MovedHands(HandsOf(s, d), d, s.pcs[t], s'.pcs[t], Slots(s', d) - Slots(s, d)))
    ensures forall c :: c in s'.conns ==> TokenOk(s'.side, s'.conns[c], c in s'.live, HandsOf(s', c))
  {
    forall c | c in s'.conns
      ensures TokenOk(s'.side, s'.conns[c], c in s'.live, HandsOf(s', c))
    {
      GotoHands(s, s', t, c);
      assert TokenOk(s.side, s.conns[c], c in s.live, HandsOf(s, c));
    }
  }

  /** Only a token holder changes what other threads rely on, and no other thread holds that token. */
  lemma MoveKeepsCarries(s: State, s': State, t: nat, d: Id, i: nat)
    requires ConnInv(s) && MovesOn(s, s', t, d) && i < |s.pcs| && i != t
    requires d in s.conns && Held(s.pcs[t], d) == 0 ==>
               forall g :: CarryOk(s.side, s.conns[d], g) ==> CarryOk(s.side, s'.conns[d], g)
    ensures Carries(s', s'.pcs[i])
  {
    assert Carries(s, s.pcs[i]) && s'.pcs[i] == s.pcs[i];
    if s.pcs[i].On? && s.pcs[i].c == d && Held(s.pcs[t], d) == 1 && Held(s.pcs[i], d) == 1 {
      SingleHolder(s, t, i, d);
    }
  }

  lemma MoveKeepsConnInv(s: State, s': State, t: nat, d: Id)
    requires ConnInv(s) && MovesOn(s, s', t, d) && Carries(s', s'.pcs[t])
    requires d in s.conns ==>
               && TokenOk(s'.side, s'.conns[d], d in s'.live,
                          MovedHands(HandsOf(s, d), d, s.pcs[t], s'.pcs[t], Slots(s', d) - Slots(s, d)))
               && (Held(s.pcs[t], d) == 0 ==>
                     forall g :: CarryOk(s.side, s.conns[d], g) ==> CarryOk(s.side, s'.conns[d], g))
    ensures ConnInv(s')
  {
    MoveKeepsTokens(s, s', t, d);
    forall i | 0 <= i < |s.pcs| && i != t
      ensures Carries(s', s'.pcs[i])
    {
      MoveKeepsCarries(s, s', t, d, i);
    }
  }

  /** A step that touches no connection. */
  lemma PlainMoveKeepsConnInv(s: State, s': State, t: nat)
    requires ConnInv(s) && t < |s.pcs| == |s'.pcs| && !s.pcs[t].On? && !s'.pcs[t].On?
    requires s' == s.(pcs := s.pcs[t := s'.pcs[t]], signaled := s'.signaled, closed := s'.closed)
    ensures ConnInv(s')
  {
    assert 0 in s.conns ==> TokenOk(s.side, s.conns[0], 0 in s.live, HandsOf(s, 0));
    MoveKeepsConnInv(s, s', t, 0);
  }

  lemma StepConnMoves(s: State, t: nat, ch: Choice)
    requires t < |s.pcs| && s.pcs[t].On? && s.pcs[t].c in s.conns && forall c :: c in s.queue ==> c in s.conns
    ensures var c := s.pcs[t].c; var e := Act(s.side, s.conns[c], c in s.live, c, s.pcs[t].stage, ch);
            var s' := StepConn(s, t, ch, c, s.pcs[t].stage);
            && MovesOn(s, s', t, c)
            && Slots(s', c) - Slots(s, c) == (if e.enqueue then 1 else 0)
            && (c in s'.live <==> e.live)
            && s'.conns[c] == e.x
  {
    var c := s.pcs[t].c;
    var e := Act(s.side, s.conns[c], c in s.live, c, s.pcs[t].stage, ch);
    ActStaysWith(s.side, s.conns[c], c in s.live, c, s.pcs[t].stage, ch);
    EffectMoves(s, StepConn(s, t, ch, c, s.pcs[t].stage), t, c, e);
  }

  lemma ActStaysWith(side: Side, x: Conn, live: bool, c: Id, stage: Stage, ch: Choice)
    ensures var e := Act(side, x, live, c, stage, ch); About(e.next, c) && (e.live ==> live)
  {
  }

  lemma EffectMoves(s: State, s': State, t: nat, c: Id, e: Effect)
    requires t < |s.pcs| && About(s.pcs[t], c) && c in s.conns && forall d :: d in s.queue ==> d in s.conns
    requires About(e.next, c) && (e.live ==> c in s.live)
    requires s' == s.(conns := s.conns[c := e.x],
                      live := if e.live then s.live else s.live - {c},
                      queue := if e.enqueue then s.queue + [c] else s.queue,
                      pcs := s.pcs[t := e.next])
    ensures MovesOn(s, s', t, c)
    ensures Slots(s', c) - Slots(s, c) == (if e.enqueue then 1 else 0)
    ensures c in s'.live <==> e.live
  {
    assert multiset(s.queue + [c]) == multiset(s.queue) + multiset{c};
  }

  /** A thread that only looks changes nothing that another thread relies on. */
  lemma LookingKeepsCarry(side: Side, x: Conn, live: bool, c: Id, stage: Stage, ch: Choice)
    requires stage.Lookup? || stage.Check?
    ensures forall g :: CarryOk(side, x, g) ==> CarryOk(side, Act(side, x, live, c, stage, ch).x, g)
  {
  }

  lemma StepConnKeepsConnInv(s: State, t: nat, ch: Choice)
    requires ConnInv(s) && t < |s.pcs| && s.pcs[t].On?
    ensures s.pcs[t].c in s.conns && ConnInv(StepConn(s, t, ch, s.pcs[t].c, s.pcs[t].stage))
  {
    assert Carries(s, s.pcs[t]);
    var c, stage := s.pcs[t].c, s.pcs[t].stage;
    HandsInclude(s, t, c);
    ActKeepsToken(s.side, s.conns[c], c in s.live, c, stage, ch, HandsOf(s, c));
    StepConnMoves(s, t, ch);
    if stage.Lookup? || stage.Check? {
      LookingKeepsCarry(s.side, s.conns[c], c in s.live, c, stage, ch);
    }
    MoveKeepsConnInv(s, StepConn(s, t, ch, c, stage), t, c);
  }

  lemma DequeueKeepsConnInv(s: State, t: nat, ch: Choice)
    requires ConnInv(s) && t < |s.pcs| && s.pcs[t].Dequeue? && s.queue != []
    ensures ConnInv(StepThread(s, t, ch))
  {
    var c := s.queue[0];
    assert s.queue == [c] + s.queue[1..];
    assert TokenOk(s.side, s.conns[c], c in s.live, HandsOf(s, c));
    MoveKeepsConnInv(s, StepThread(s, t, ch), t, c);
  }

  lemma NewConnectionKeepsConnInv(s: State, id: Id)
    requires ConnInv(s) && id !in s.conns
    ensures ConnInv(Next(s, NewConnection(id)))
  {
    var s' := Next(s, NewConnection(id));
    forall i | 0 <= i < |s.pcs|
      ensures Carries(s', s'.pcs[i]) && About(s.pcs[i], id) ==> !s.pcs[i].On?
    {
      assert Carries(s, s.pcs[i]);
    }
    forall i | 0 <= i < |s.pcs|
      ensures Holds(id)(s.pcs[i]) == 0 && Appends(id)(s.pcs[i]) == 0
    {
      assert Carries(s, s.pcs[i]);
    }
    SumZero(s.pcs, Holds(id));
    SumZero(s.pcs, Appends(id));
  }

  lemma ReleasedKeepsConnInv(s: State, id: Id)
    requires ConnInv(s)
    ensures ConnInv(s.(live := s.live - {id}))
  {
    var s' := s.(live := s.live - {id});
    forall c | c in s'.conns
      ensures TokenOk(s'.side, s'.conns[c], c in s'.live, HandsOf(s', c))
    {
      assert TokenOk(s.side, s.conns[c], c in s.live, HandsOf(s, c));
    }
    forall i | 0 <= i < |s'.pcs|
      ensures Carries(s', s'.pcs[i])
    {
      assert Carries(s, s.pcs[i]);
    }
  }

  /** An event or new content for connection `c`, reported by an idle thread. */
  lemma ReportKeepsConnInv(s: State, t: nat, c: Id, x: Conn, more: string, stage: Stage)
    requires ConnInv(s) && t < |s.pcs| && s.pcs[t].Idle? && c in s.conns
    requires stage.Check? || (stage.Lookup? && s.side.Writing?)
    requires x.busy == s.conns[c].busy && x.sent == s.conns[c].sent && x.response == s.conns[c].response
    requires s.conns[c].ready <= x.ready
    requires x.cache == s.conns[c].cache + more && x.appended == s.conns[c].appended + more
    ensures ConnInv(Goto(Update(s, c, x), t, On(c, stage)))
  {
    var y := s.conns[c];
    assert TokenOk(s.side, y, c in s.live, HandsOf(s, c));
    assert y.sent + y.response + (y.cache + more) == y.sent + y.response + y.cache + more;
    forall g | CarryOk(s.side, y, g)
      ensures CarryOk(s.side, x, g)
    {
      if g.Append? {
        assert y.sent + y.response + g.content + (y.cache + more) == y.sent + y.response + g.content + y.cache + more;
      }
    }
    HandsInclude(s, t, c);
    MoveKeepsConnInv(s, Goto(Update(s, c, x), t, On(c, stage)), t, c);
  }

  lemma NotifyKeepsConnInv(s: State, t: nat, wakee: nat, pc: Pc)
    requires ConnInv(s) && t < |s.pcs| && Notifies(s.pcs[t]) && !pc.On?
    ensures ConnInv(Goto(Notify(s, wakee), t, pc))
  {
    if SleepsAt(s, wakee) {
      PlainMoveKeepsConnInv(s, Notify(s, wakee), wakee);
    }
    PlainMoveKeepsConnInv(Notify(s, wakee), Goto(Notify(s, wakee), t, pc), t);
  }

  lemma StepThreadKeepsConnInv(s: State, t: nat, ch: Choice)
    requires ConnInv(s) && t < |s.pcs| && Runnable(s.pcs[t]) && !Notifies(s.pcs[t])
    ensures ConnInv(StepThread(s, t, ch))
  {
    if s.pcs[t].On? {
      StepConnKeepsConnInv(s, t, ch);
    } else if s.pcs[t].Dequeue? && s.queue != [] {
      DequeueKeepsConnInv(s, t, ch);
    } else {
      PlainMoveKeepsConnInv(s, StepThread(s, t, ch), t);
    }
  }

  /** A report that only raises `ready` or sets `error`. */
  lemma EventKeepsConnInv(s: State, s': State, t: nat, c: Id, ready: int, error: bool)
    requires ConnInv(s) && t < |s.pcs| && s.pcs[t].Idle? && c in s.conns && s.conns[c].ready <= ready
    requires s' == Goto(Update(s, c, s.conns[c].(ready := ready, error := error)), t, On(c, Check))
    ensures ConnInv(s')
  {
    var y := s.conns[c];
    assert y.cache + "" == y.cache && y.appended + "" == y.appended;
    ReportKeepsConnInv(s, t, c, y.(ready := ready, error := error), "", Check);
  }

  lemma AddToCacheKeepsConnInv(s: State, t: nat, id: Id, content: string)
    requires ConnInv(s) && Enabled(s, AddToCache(t, id, content))
    ensures ConnInv(Next(s, AddToCache(t, id, content)))
  {
    var y := s.conns[id];
    var x := y.(cache := y.cache + content, appended := y.appended + content);
    ReportKeepsConnInv(s, t, id, x, content, Lookup);
  }

  lemma NextKeepsConnInv(s: State, l: Label)
    requires ConnInv(s)
    ensures ConnInv(Next(s, l))
  {
    if Enabled(s, l) {
      match l
      case NewConnection(id) => NewConnectionKeepsConnInv(s, id);
      case Released(id) => ReleasedKeepsConnInv(s, id);
      case Ready(t, id) => EventKeepsConnInv(s, Next(s, l), t, id, s.conns[id].ready + 1, s.conns[id].error);
      case Failure(t, id) => EventKeepsConnInv(s, Next(s, l), t, id, s.conns[id].ready, true);
      case AddToCache(t, id, content) => AddToCacheKeepsConnInv(s, t, id, content);
      case Close(t) => PlainMoveKeepsConnInv(s, Next(s, l), t);
      case SpuriousWake(t) => PlainMoveKeepsConnInv(s, Next(s, l), t);
      case Step(t, ch) =>
        if Notifies(s.pcs[t]) {
          NotifyKeepsConnInv(s, t, ch.wakee, if s.pcs[t].NotifyEvent? then Idle else Exited);
        } else {
          StepThreadKeepsConnInv(s, t, ch);
        }
    }
  }

  // ----- the event: wakeups and shutdown

  predicate WorkerStage(g: Stage) { !g.Lookup? && !g.Check? && !g.Enqueue? }

  function IsWorker(pc: Pc): nat
  {
    if pc.Idle? || pc.SetEvent? || pc.NotifyEvent? || (pc.On? && !WorkerStage(pc.stage)) then 0 else 1
  }

  /** A worker inside the loop that empties the queue. */
  function Draining(pc: Pc): nat
  {
    if pc.Inner? || pc.Dequeue? || (pc.On? && WorkerStage(pc.stage)) then 1 else 0
  }

  /** A worker that will reach the end of its thread function, and set the event, without waiting. */
  function OnItsWayOut(pc: Pc): nat { if Draining(pc) == 1 || pc.Outer? || pc.ExitSet? then 1 else 0 }

  function Setting(pc: Pc): nat { if pc.SetEvent? then 1 else 0 }

  function Sleeping(pc: Pc): nat { if pc.Asleep? then 1 else 0 }

  function Waiting(pc: Pc): nat { if pc.Wait? || pc.Asleep? then 1 else 0 }

  /** Threads that will notify a sleeper or look at `signaled` themselves. */
  function Attending(pc: Pc): nat { if Notifies(pc) || pc.Wait? then 1 else 0 }

  datatype Counts = Counts(workers: int, draining: int, leaving: int, setting: int, sleeping: int, waiting: int, attending: int)

  function CountsOf(pcs: seq<Pc>): Counts
  {
    Counts(Sum(pcs, IsWorker), Sum(pcs, Draining), Sum(pcs, OnItsWayOut), Sum(pcs, Setting),
           Sum(pcs, Sleeping), Sum(pcs, Waiting), Sum(pcs, Attending))
  }

  function Moved(k: Counts, p: Pc, q: Pc): Counts
  {
    Counts(k.workers - IsWorker(p) + IsWorker(q), k.draining - Draining(p) + Draining(q),
           k.leaving - OnItsWayOut(p) + OnItsWayOut(q), k.setting - Setting(p) + Setting(q),
           k.sleeping - Sleeping(p) + Sleeping(q), k.waiting - Waiting(p) + Waiting(q),
           k.attending - Attending(p) + Attending(q))
  }

  predicate IncludesThread(k: Counts, pc: Pc)
  {
    Draining(pc) <= k.draining && OnItsWayOut(pc) <= k.leaving && Setting(pc) <= k.setting &&
    Sleeping(pc) <= k.sleeping && Waiting(pc) <= k.waiting && Attending(pc) <= k.attending
  }

  lemma GotoCounts(pcs: seq<Pc>, t: nat, pc: Pc)
    requires t < |pcs|
    ensures CountsOf(pcs[t := pc]) == Moved(CountsOf(pcs), pcs[t], pc)
    ensures IncludesThread(CountsOf(pcs), pcs[t])
  {
    SumUpdate(pcs, t, pc, IsWorker);
    SumUpdate(pcs, t, pc, Draining);
    SumUpdate(pcs, t, pc, OnItsWayOut);
    SumUpdate(pcs, t, pc, Setting);
    SumUpdate(pcs, t, pc, Sleeping);
    SumUpdate(pcs, t, pc, Waiting);
    SumUpdate(pcs, t, pc, Attending);
    CountsInclude(pcs, t);
  }

  lemma CountsInclude(pcs: seq<Pc>, t: nat)
    requires t < |pcs|
    ensures IncludesThread(CountsOf(pcs), pcs[t])
  {
    SumAtLeast(pcs, t, Draining);
    SumAtLeast(pcs, t, OnItsWayOut);
    SumAtLeast(pcs, t, Setting);
    SumAtLeast(pcs, t, Sleeping);
    SumAtLeast(pcs, t, Waiting);
    SumAtLeast(pcs, t, Attending);
  }

  /**
   A queued connection has a signal, a setter or a draining worker; a signal that a sleeper could
   take has somebody attending to it; after closing, a waiting worker has a signal, a setter or a
   worker on its way out.
   */
  predicate EventOk(s: State, k: Counts, workers: nat)
  {
    && k.workers == workers
    && (!s.closed && s.queue != [] ==> s.signaled || k.setting > 0 || k.draining > 0)
    && (s.signaled && k.sleeping > 0 ==> k.attending > 0)
    && (s.closed && k.waiting > 0 ==> s.signaled || k.setting > 0 || k.leaving > 0)
  }

  /** A thread that carries a connection changes the queue by at most that connection, and not the event. */
  lemma StepConnEvent(s: State, k: Counts, workers: nat, t: nat, ch: Choice, c: Id, stage: Stage)
    requires t < |s.pcs| && s.pcs[t] == On(c, stage) && c in s.conns
    requires EventOk(s, k, workers) && IncludesThread(k, s.pcs[t])
    ensures var r := StepConn(s, t, ch, c, stage);
            EventOk(r, Moved(k, s.pcs[t], r.pcs[t]), workers) && r.pcs == s.pcs[t := r.pcs[t]]
  {
  }

  lemma PlainThreadEvent(s: State, k: Counts, workers: nat, t: nat, ch: Choice)
    requires t < |s.pcs| && Runnable(s.pcs[t]) && !Notifies(s.pcs[t]) && !s.pcs[t].On?
    requires EventOk(s, k, workers) && IncludesThread(k, s.pcs[t])
    ensures var r := StepThread(s, t, ch);
            EventOk(r, Moved(k, s.pcs[t], r.pcs[t]), workers) && r.pcs == s.pcs[t := r.pcs[t]]
  {
  }

  lemma StepThreadEvent(s: State, k: Counts, workers: nat, t: nat, ch: Choice)
    requires t < |s.pcs| && Runnable(s.pcs[t]) && !Notifies(s.pcs[t]) && (s.pcs[t].On? ==> s.pcs[t].c in s.conns)
    requires EventOk(s, k, workers) && IncludesThread(k, s.pcs[t])
    ensures EventOk(StepThread(s, t, ch), Moved(k, s.pcs[t], StepThread(s, t, ch).pcs[t]), workers)
    ensures StepThread(s, t, ch).pcs == s.pcs[t := StepThread(s, t, ch).pcs[t]]
  {
    if s.pcs[t].On? {
      StepConnEvent(s, k, workers, t, ch, s.pcs[t].c, s.pcs[t].stage);
    } else {
      PlainThreadEvent(s, k, workers, t, ch);
    }
  }

  lemma EventMove(s: State, s': State, workers: nat, t: nat)
    requires t < |s.pcs| == |s'.pcs| && s'.pcs == s.pcs[t := s'.pcs[t]]
    requires EventOk(s', Moved(CountsOf(s.pcs), s.pcs[t], s'.pcs[t]), workers)
    ensures EventOk(s', CountsOf(s'.pcs), workers)
  {
    GotoCounts(s.pcs, t, s'.pcs[t]);
  }

  lemma NotifyEventOk(s: State, workers: nat, t: nat, wakee: nat, pc: Pc)
    requires t < |s.pcs| && Notifies(s.pcs[t]) && (SleepsAt(s, wakee) || NobodySleeps(s))
    requires EventOk(s, CountsOf(s.pcs), workers)
    requires pc == if s.pcs[t].NotifyEvent? then Idle else Exited
    ensures EventOk(Goto(Notify(s, wakee), t, pc), CountsOf(Goto(Notify(s, wakee), t, pc).pcs), workers)
  {
    CountsInclude(s.pcs, t);
    if SleepsAt(s, wakee) {
      CountsInclude(s.pcs, wakee);
      GotoCounts(s.pcs, wakee, Wait);
    } else {
      SumZero(s.pcs, Sleeping);
    }
    EventMove(Notify(s, wakee), Goto(Notify(s, wakee), t, pc), workers, t);
  }

  /** A report, a close or a spurious wakeup. */
  lemma CallKeepsEventOk(s: State, workers: nat, l: Label)
    requires EventOk(s, CountsOf(s.pcs), workers) && Enabled(s, l) && !Outside(l) && !l.Step?
    ensures EventOk(Next(s, l), CountsOf(Next(s, l).pcs), workers)
  {
    CountsInclude(s.pcs, l.t);
    CallEvent(s, CountsOf(s.pcs), workers, l);
    EventMove(s, Next(s, l), workers, l.t);
  }

  lemma CallEvent(s: State, k: Counts, workers: nat, l: Label)
    requires Enabled(s, l) && !Outside(l) && !l.Step?
    requires EventOk(s, k, workers) && IncludesThread(k, s.pcs[l.t])
    ensures Next(s, l).pcs == s.pcs[l.t := Next(s, l).pcs[l.t]]
    ensures EventOk(Next(s, l), Moved(k, s.pcs[l.t], Next(s, l).pcs[l.t]), workers)
  {
  }

  lemma StepKeepsEventOk(s: State, workers: nat, t: nat, ch: Choice)
    requires t < |s.pcs| && Runnable(s.pcs[t]) && !Notifies(s.pcs[t]) && (s.pcs[t].On? ==> s.pcs[t].c in s.conns)
    requires EventOk(s, CountsOf(s.pcs), workers)
    ensures EventOk(StepThread(s, t, ch), CountsOf(StepThread(s, t, ch).pcs), workers)
  {
    CountsInclude(s.pcs, t);
    StepThreadEvent(s, CountsOf(s.pcs), workers, t, ch);
    EventMove(s, StepThread(s, t, ch), workers, t);
  }

  lemma NextKeepsEventOk(s: State, workers: nat, l: Label)
    requires EventOk(s, CountsOf(s.pcs), workers)
    requires forall i :: 0 <= i < |s.pcs| && s.pcs[i].On? ==> s.pcs[i].c in s.conns
    ensures EventOk(Next(s, l), CountsOf(Next(s, l).pcs), workers)
  {
    if Enabled(s, l) && !Outside(l) {
      if !l.Step? {
        CallKeepsEventOk(s, workers, l);
      } else if Notifies(s.pcs[l.t]) {
        NotifyEventOk(s, workers, l.t, l.choice.wakee, Next(s, l).pcs[l.t]);
      } else {
        StepKeepsEventOk(s, workers, l.t, l.choice);
      }
    }
  }

  ghost predicate Inv(s: State, workers: nat)
  {
    ConnInv(s) && EventOk(s, CountsOf(s.pcs), workers)
  }

  /** Every step of every thread keeps the invariant. */
  lemma NextKeepsInv(s: State, workers: nat, l: Label)
    requires Inv(s, workers)
    ensures Inv(Next(s, l), workers)
  {
    NextKeepsConnInv(s, l);
    forall i | 0 <= i < |s.pcs| && s.pcs[i].On?
      ensures s.pcs[i].c in s.conns
    {
      assert Carries(s, s.pcs[i]);
    }
    NextKeepsEventOk(s, workers, l);
  }
}
