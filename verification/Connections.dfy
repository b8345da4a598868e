/**
 The connections of the server, the map that knows them and the cache of what they have to write. Each
 method is tied to the steps that WorkQueue gives the thread calling it: without interference, the
 method does what those steps do together.
 */
module Connections {
  import opened Basics
  import opened WorkQueue
  import opened Framer

  /** Stages still ahead of a thread that carries a connection. */
  function Rank(g: Stage): nat
  {
    match g
    case Fetch => 7
    case Append(_) => 6
    case Work => 5
    case Test => 4
    case Take => 3
    case Transfer => 2
    case Lookup => 2
    case Check => 1
    case Recheck => 1
    case Enqueue => 0
    case Requeue => 0
  }

  /** One thread alone, from `stage` until it puts the connection down or is about to recheck it. */
  function Follow(side: Side, x: Conn, live: bool, c: Id, stage: Stage, ch: Choice): Effect
    decreases Rank(stage)
  {
    var e := Act(side, x, live, c, stage, ch);
    if e.next.On? && !e.next.stage.Recheck? && Rank(e.next.stage) < Rank(stage)
    then Follow(side, e.x, e.live, c, e.next.stage, ch)
    else e
  }

  /** `Follow` leaves out no step: it ends where the thread has put the connection down, or at the recheck. */
  lemma {:induction false} FollowEnds(side: Side, x: Conn, live: bool, c: Id, stage: Stage, ch: Choice)
    ensures var e := Follow(side, x, live, c, stage, ch); e.next.On? ==> e.next == On(c, Recheck)
    decreases Rank(stage)
  {
    var e := Act(side, x, live, c, stage, ch);
    if e.next.On? && !e.next.stage.Recheck? {
      FollowEnds(side, e.x, e.live, c, e.next.stage, ch);
    }
  }

  function Alone(s: State, t: nat, ch: Choice, steps: nat): State
    decreases steps
  {
    if steps == 0 then s else Alone(Next(s, Step(t, ch)), t, ch, steps - 1)
  }

  /** The state after thread `t` had effect `e` on connection `c`. */
  function Affected(s: State, t: nat, c: Id, e: Effect): State
    requires t < |s.pcs|
  {
    s.(conns := s.conns[c := e.x],
       live := if e.live then s.live else s.live - {c},
       queue := if e.enqueue then s.queue + [c] else s.queue,
       pcs := s.pcs[t := e.next])
  }

  lemma AffectedTwice(s: State, t: nat, c: Id, e: Effect, f: Effect)
    requires t < |s.pcs| && !e.enqueue && (f.live ==> e.live)
    ensures Affected(Affected(s, t, c, e), t, c, f) == Affected(s, t, c, f)
  {
  }

  /** A stage that keeps the connection in hand does not enqueue it, and nothing revives a released one. */
  lemma ActGoesOn(side: Side, x: Conn, live: bool, c: Id, stage: Stage, ch: Choice)
    ensures var e := Act(side, x, live, c, stage, ch);
            && (e.live ==> live)
            && (e.next.On? ==> e.next.c == c && !e.enqueue && (e.next.stage.Recheck? || Rank(e.next.stage) < Rank(stage)))
  {
  }

  lemma {:induction false} FollowKeepsDead(side: Side, x: Conn, live: bool, c: Id, stage: Stage, ch: Choice)
    ensures Follow(side, x, live, c, stage, ch).live ==> live
    decreases Rank(stage)
  {
    var e := Act(side, x, live, c, stage, ch);
    ActGoesOn(side, x, live, c, stage, ch);
    if e.next.On? && !e.next.stage.Recheck? {
      FollowKeepsDead(side, e.x, e.live, c, e.next.stage, ch);
    }
  }

  lemma AffectedAt(s: State, t: nat, c: Id, e: Effect)
    requires t < |s.pcs| && (e.live ==> c in s.live)
    ensures var s' := Affected(s, t, c, e);
            s'.side == s.side && |s'.pcs| == |s.pcs| && s'.pcs[t] == e.next && c in s'.conns && s'.conns[c] == e.x &&
            (c in s'.live <==> e.live)
  {
  }

  lemma NextIsAffected(s: State, t: nat, ch: Choice, c: Id, stage: Stage)
    requires t < |s.pcs| && s.pcs[t] == On(c, stage) && c in s.conns
    ensures Next(s, Step(t, ch)) == Affected(s, t, c, Act(s.side, s.conns[c], c in s.live, c, stage, ch))
  {
  }

  lemma OneMoreStep(s: State, t: nat, ch: Choice, steps: nat, c: Id, e: Effect, f: Effect)
    requires t < |s.pcs| && !e.enqueue && (f.live ==> e.live) && Next(s, Step(t, ch)) == Affected(s, t, c, e)
    requires Alone(Affected(s, t, c, e), t, ch, steps) == Affected(Affected(s, t, c, e), t, c, f)
    ensures Alone(s, t, ch, steps + 1) == Affected(s, t, c, f)
  {
    AffectedTwice(s, t, c, e, f);
  }

  lemma OneStep(s: State, t: nat, ch: Choice)
    ensures Alone(s, t, ch, 1) == Next(s, Step(t, ch))
  {
    assert Alone(Next(s, Step(t, ch)), t, ch, 0) == Next(s, Step(t, ch));
  }

  /** The steps of a thread that is not interrupted lead the machine to what `Follow` says. */
  lemma {:induction false} FollowIsRun(s: State, t: nat, ch: Choice, c: Id, stage: Stage) returns (steps: nat)
    requires t < |s.pcs| && s.pcs[t] == On(c, stage) && c in s.conns
    ensures Alone(s, t, ch, steps) == Affected(s, t, c, Follow(s.side, s.conns[c], c in s.live, c, stage, ch))
    decreases Rank(stage)
  {
    var x, live := s.conns[c], c in s.live;
    var e := Act(s.side, x, live, c, stage, ch);
    NextIsAffected(s, t, ch, c, stage);
    ActGoesOn(s.side, x, live, c, stage, ch);
    FollowStep(s.side, x, live, c, stage, ch);
    if e.next.On? && !e.next.stage.Recheck? {
      var f := Follow(s.side, e.x, e.live, c, e.next.stage, ch);
      AffectedAt(s, t, c, e);
      var more := FollowIsRun(Affected(s, t, c, e), t, ch, c, e.next.stage);
      FollowKeepsDead(s.side, e.x, e.live, c, e.next.stage, ch);
      OneMoreStep(s, t, ch, more, c, e, f);
      steps := more + 1;
    } else {
      OneStep(s, t, ch);
      steps := 1;
    }
  }

  lemma FollowStep(side: Side, x: Conn, live: bool, c: Id, stage: Stage, ch: Choice)
    ensures var e := Act(side, x, live, c, stage, ch);
            Follow(side, x, live, c, stage, ch) ==
            if e.next.On? && !e.next.stage.Recheck? then Follow(side, e.x, e.live, c, e.next.stage, ch) else e
  {
    ActGoesOn(side, x, live, c, stage, ch);
  }

  // ----- what the stages of a worker come to

  /** A whole Read or Write: close on an error, spend one readiness, move bytes, close when the handler is done. */
  function Worked(side: Side, x: Conn, live: bool, c: Id, ch: Choice): Effect
  {
    var still := live && !x.error;
    if x.ready == 0 then Effect(x, still, false, On(c, Recheck))
    else Act(side, x.(ready := x.ready - 1), still, c, Transfer, ch)
  }

  /** The cached content is moved to the response. */
  function Fetched(x: Conn): Conn { x.(cache := "", response := x.response + x.cache) }

  /** The token is kept while an event is pending, and given up otherwise. */
  function Rechecked(side: Side, x: Conn, live: bool): Effect
  {
    if Pending(side, x) then Effect(x, live, true, Inner) else Effect(x.(busy := false), live, false, Inner)
  }

  lemma FollowWork(side: Side, x: Conn, live: bool, c: Id, ch: Choice)
    ensures Follow(side, x, live, c, Work, ch) == Worked(side, x, live, c, ch)
  {
    var still := live && !x.error;
    assert Follow(side, x, live, c, Work, ch) == Follow(side, x, still, c, Test, ch);
    if x.ready != 0 {
      assert Follow(side, x, still, c, Test, ch) == Follow(side, x, still, c, Take, ch);
      assert Follow(side, x, still, c, Take, ch) == Follow(side, x.(ready := x.ready - 1), still, c, Transfer, ch);
    }
  }

  lemma FollowRecheck(side: Side, x: Conn, live: bool, c: Id, ch: Choice)
    ensures Follow(side, x, live, c, Recheck, ch) == Rechecked(side, x, live)
  {
    if Pending(side, x) {
      assert Follow(side, x, live, c, Recheck, ch) == Follow(side, x, live, c, Requeue, ch);
    }
  }

  lemma FollowFetch(x: Conn, live: bool, c: Id, ch: Choice)
    ensures Follow(Writing, x, live, c, Fetch, ch) == Worked(Writing, Fetched(x), live, c, ch)
  {
    assert Follow(Writing, x, live, c, Fetch, ch) == Follow(Writing, x.(cache := ""), live, c, Append(x.cache), ch);
    FollowWork(Writing, Fetched(x), live, c, ch);
  }

  /** What a worker's turn does to the connection it has dequeued. */
  function Turned(side: Side, x: Conn, live: bool, c: Id, ch: Choice): Effect
  {
    var e := Worked(side, if side.Writing? then Fetched(x) else x, live, c, ch);
    Rechecked(side, e.x, e.live)
  }

  lemma WorkIsRun(s: State, t: nat, ch: Choice, c: Id) returns (steps: nat)
    requires t < |s.pcs| && c in s.conns && s.pcs[t] == On(c, if s.side.Writing? then Fetch else Work)
    ensures var x := s.conns[c];
            var e := Worked(s.side, if s.side.Writing? then Fetched(x) else x, c in s.live, c, ch);
            (e.live ==> c in s.live) && Alone(s, t, ch, steps) == Affected(s, t, c, e)
  {
    var x, live, stage := s.conns[c], c in s.live, s.pcs[t].stage;
    if s.side.Writing? {
      FollowFetch(x, live, c, ch);
    } else {
      FollowWork(s.side, x, live, c, ch);
    }
    FollowKeepsDead(s.side, x, live, c, stage, ch);
    steps := FollowIsRun(s, t, ch, c, stage);
  }

  lemma RecheckIsRun(s: State, t: nat, ch: Choice, c: Id) returns (steps: nat)
    requires t < |s.pcs| && c in s.conns && s.pcs[t] == On(c, Recheck)
    ensures Alone(s, t, ch, steps) == Affected(s, t, c, Rechecked(s.side, s.conns[c], c in s.live))
  {
    FollowRecheck(s.side, s.conns[c], c in s.live, c, ch);
    steps := FollowIsRun(s, t, ch, c, Recheck);
  }

  lemma WorkedGoesOn(side: Side, x: Conn, live: bool, c: Id, ch: Choice)
    ensures var e := Worked(side, x, live, c, ch); e.next == On(c, Recheck) && !e.enqueue
  {
  }

  /** A worker that is not interrupted goes from the dequeued connection to its next dequeue as its turn says. */
  lemma TurnIsRun(s: State, t: nat, ch: Choice, c: Id) returns (first: nat, second: nat)
    requires t < |s.pcs| && c in s.conns && s.pcs[t] == On(c, if s.side.Writing? then Fetch else Work)
    ensures Alone(Alone(s, t, ch, first), t, ch, second) ==
            Affected(s, t, c, Turned(s.side, s.conns[c], c in s.live, c, ch))
  {
    var x := if s.side.Writing? then Fetched(s.conns[c]) else s.conns[c];
    var e := Worked(s.side, x, c in s.live, c, ch);
    first := WorkIsRun(s, t, ch, c);
    WorkedGoesOn(s.side, x, c in s.live, c, ch);
    second := ThenRecheck(s, t, ch, c, e);
  }

  /**
   What a write turn is for: with an event to spend, a socket that takes everything, and no other thread in
   between, all content ever cached for the connection has been sent when the turn ends.
   */
  lemma TurnSendsAll(x: Conn, live: bool, c: Id, ch: Choice)
    requires x.ready >= 1 && x.sent + x.response + x.cache == x.appended && |x.response + x.cache| <= ch.taken
    ensures var y := Turned(Writing, x, live, c, ch).x;
            y.sent == x.appended == y.appended && y.response == "" && y.cache == "" && y.ready == x.ready - 1 && !y.busy
  {
    assert x.sent + (x.response + x.cache) == x.appended;
  }

  /** Otherwise it sends as many of the bytes in line as the socket takes, and keeps the others in order. */
  lemma TurnSendsPrefix(x: Conn, live: bool, c: Id, ch: Choice)
    requires x.ready >= 1 && ch.taken <= |x.response + x.cache|
    ensures var y := Turned(Writing, x, live, c, ch).x;
            y.sent == x.sent + (x.response + x.cache)[..ch.taken] && y.response == (x.response + x.cache)[ch.taken..]
  {
  }

  lemma ThenRecheck(s: State, t: nat, ch: Choice, c: Id, e: Effect) returns (steps: nat)
    requires t < |s.pcs| && e.next == On(c, Recheck) && !e.enqueue && (e.live ==> c in s.live)
    ensures Alone(Affected(s, t, c, e), t, ch, steps) == Affected(s, t, c, Rechecked(s.side, e.x, e.live))
  {
    AffectedAt(s, t, c, e);
    steps := RecheckIsRun(Affected(s, t, c, e), t, ch, c);
    AffectedTwice(s, t, c, e, Rechecked(s.side, e.x, e.live));
  }

  class WriteCache {
    var cache: map<Id, string>

    constructor ()
      ensures forall id :: Content(id) == ""
    {
      cache := map[];
    }

    function Content(id: Id): string
      reads this
    {
      if id in cache then cache[id] else ""
    }

    method Add(id: Id, contentToWrite: string)
      modifies this
      ensures Content(id) == old(Content(id)) + contentToWrite
      ensures forall k :: k != id ==> Content(k) == old(Content(k))
    {
      if id in cache {
        cache := cache[id := cache[id] + contentToWrite];
        return;
      }
      cache := cache[id := contentToWrite];
    }

    method Get(id: Id) returns (content: string)
      modifies this
      ensures content == old(Content(id)) && Content(id) == ""
      ensures forall k :: k != id ==> Content(k) == old(Content(k))
    {
      content := "";
      if id in cache {
        content := cache[id];
        cache := cache[id := ""];
      }
    }

    method HasContentToWrite(id: Id) returns (has: bool)
      ensures has <==> Content(id) != ""
    {
      if id in cache {
        return cache[id] != "";
      }
      return false;
    }
  }

  datatype ErrorCode = NO_ERROR | SOCKET_ERROR | SOCKET_CLOSED

  /** What a connection tells its request handler. */
  datatype HandlerCall =
    | AppendReceivedData(data: string)
    | ReadCompleteCallback(code: ErrorCode)
    | WriteCompleteCallback(code: ErrorCode)

  class ConnectionMap {
    var connections: map<Id, Connection>

    /** Connections are known by their own ids and release themselves from this map. */
    ghost predicate Valid()
      reads this
    {
      forall id :: id in connections ==> connections[id].id == id && connections[id].owner == this
    }

    constructor ()
      ensures connections == map[]
    {
      connections := map[];
    }

    /** None stands for the exception. */
    method GetValue(id: Id) returns (r: Option<Connection>)
      ensures r == if id in connections then Some(connections[id]) else None
    {
      if id !in connections {
        return None;
      }
      return Some(connections[id]);
    }

    method Add(id: Id, c: Connection) returns (ok: bool)
      modifies this
      ensures ok <==> id !in old(connections)
      ensures connections == if ok then old(connections)[id := c] else old(connections)
    {
      if id in connections {
        return false;
      }
      connections := connections[id := c];
      return true;
    }

    method Erase(id: Id) returns (ok: bool)
      modifies this
      ensures ok <==> id in old(connections)
      ensures connections == old(connections) - {id}
    {
      if id !in connections {
        return false;
      }
      connections := connections - {id};
      return true;
    }
  }

  class Connection {
    const id: Id
    /** Where release() erases the connection. */
    const owner: ConnectionMap
    var isReadable: int
    var isWritable: int
    var errorCode: ErrorCode
    var isClosed: bool
    var isReading: bool
    var isWriting: bool
    var response: string
    /** The bytes the socket has taken, and how often it was closed. */
    ghost var sent: string
    ghost var socketCloses: nat

    constructor (id: Id, owner: ConnectionMap)
      ensures this.id == id && this.owner == owner && !isClosed && socketCloses == 0
      ensures ReadView() == Conn(0, false, false, "", "", "", "") == WriteView("", "")
    {
      this.id, this.owner := id, owner;
      isReadable, isWritable, errorCode := 0, 0, NO_ERROR;
      isClosed, isReading, isWriting := false, false, false;
      response, sent, socketCloses := "", "", 0;
    }

    ghost function ReadView(): Conn
      reads this
    {
      Conn(isReadable, errorCode != NO_ERROR, isReading, "", "", "", "")
    }

    ghost function WriteView(cache: string, appended: string): Conn
      reads this
    {
      Conn(isWritable, errorCode != NO_ERROR, isWriting, cache, response, sent, appended)
    }

    ghost predicate Live()
      reads owner
    {
      id in owner.connections
    }

    /**
     Closes the socket and erases the connection from the map. A second close finds it erased, which is
     only logged, but closes the socket once more.
     */
    method Close()
      modifies this`isClosed, this`socketCloses, owner
      ensures isClosed && owner.connections == old(owner.connections) - {id}
      ensures socketCloses == old(socketCloses) + 1
    {
      socketCloses := socketCloses + 1;
      var erased := owner.Erase(id);
      isClosed := true;
    }

    /**
     Hands what the socket delivers to the request handler; `whole` is its CheckDataIntegrity() and
     `waiting` its IsWaiting() afterwards.
     */
    method Read(data: string, whole: bool, waiting: bool) returns (calls: seq<HandlerCall>)
      modifies this`isReadable, this`isClosed, this`socketCloses, owner
      ensures var e := Worked(Reading, old(ReadView()), old(Live()), id, Choice(0, !waiting, 0));
              && ReadView() == e.x && e.next == On(id, Recheck)
              && owner.connections == if e.live then old(owner.connections) else old(owner.connections) - {id}
      ensures calls == (if errorCode != NO_ERROR then [ReadCompleteCallback(errorCode)] else []) +
                       (if old(isReadable) != 0 then [AppendReceivedData(data)] else []) +
                       (if old(isReadable) != 0 && whole then [ReadCompleteCallback(NO_ERROR)] else [])
      ensures socketCloses == old(socketCloses) + (if errorCode != NO_ERROR then 1 else 0) +
                              (if old(isReadable) != 0 && !waiting then 1 else 0)
      ensures isReadable == if old(isReadable) == 0 then 0 else old(isReadable) - 1
      ensures owner.connections == if errorCode != NO_ERROR || (old(isReadable) != 0 && !waiting)
                                   then old(owner.connections) - {id} else old(owner.connections)
    {
      calls := [];
      if errorCode != NO_ERROR {
        calls := calls + [ReadCompleteCallback(errorCode)];
        Close();
      }
      if isReadable == 0 {
        return;
      }
      isReadable := isReadable - 1;
      calls := calls + [AppendReceivedData(data)];
      if whole {
        calls := calls + [ReadCompleteCallback(NO_ERROR)];
      }
      CloseUnless(waiting);
    }

    method SetResponse(s: string)
      modifies this`response
      ensures response == old(response) + s
    {
      response := response + s;
    }

    method Send(results: seq<WriteResult>)
      modifies this`response, this`sent
      ensures Taken(old(response), results) <= |old(response)|
      ensures response == old(response)[Taken(old(response), results)..]
      ensures sent == old(sent) + old(response)[..Taken(old(response), results)]
      ensures Taken(old(response), results) ==
              if |old(response)| <= Capacity(results) then |old(response)| else Capacity(results)
    {
      var rest, gone := WriteLoop(response, results);
      UnsentIsSuffix(response, results);
      TakenIsCapacity(response, results);
      assert response[..|gone|] == gone;
      sent := sent + gone;
      response := rest;
    }

    /** Writes what the socket takes, as `results` says; `waiting` is what the request handler then says. */
    method Write(results: seq<WriteResult>, waiting: bool, ghost cache: string, ghost appended: string)
      returns (calls: seq<HandlerCall>)
      modifies this`isWritable, this`isClosed, this`socketCloses, this`response, this`sent, owner
      ensures var e := Worked(Writing, old(WriteView(cache, appended)), old(Live()), id,
                              Choice(Taken(old(response), results), !waiting, 0));
              && WriteView(cache, appended) == e.x && e.next == On(id, Recheck)
              && owner.connections == if e.live then old(owner.connections) else old(owner.connections) - {id}
      ensures calls == (if errorCode != NO_ERROR then [WriteCompleteCallback(errorCode)] else []) +
                       (if old(isWritable) != 0 && old(response) != "" && response == ""
                        then [WriteCompleteCallback(NO_ERROR)] else [])
      ensures socketCloses == old(socketCloses) + (if errorCode != NO_ERROR then 1 else 0) +
                              (if old(isWritable) != 0 && old(response) != "" && !waiting then 1 else 0)
      ensures isWritable == if old(isWritable) == 0 then 0 else old(isWritable) - 1
      ensures owner.connections == if errorCode != NO_ERROR || (old(isWritable) != 0 && old(response) != "" && !waiting)
                                   then old(owner.connections) - {id} else old(owner.connections)
      ensures var k := if old(isWritable) == 0 then 0
                       else if |old(response)| <= Capacity(results) then |old(response)|
                       else Capacity(results);
              response == old(response)[k..] && sent == old(sent) + old(response)[..k]
    {
      calls := [];
      if errorCode != NO_ERROR {
        calls := calls + [WriteCompleteCallback(errorCode)];
        Close();
      }
      if isWritable == 0 {
        return;
      }
      isWritable := isWritable - 1;
      if response == "" {
        return;
      }
      var completed := SendAndClose(results, waiting);
      if completed {
        calls := calls + [WriteCompleteCallback(NO_ERROR)];
      }
    }

    /** The end of Write: what the socket takes goes out, and a finished handler closes the connection. */
    method SendAndClose(results: seq<WriteResult>, waiting: bool) returns (completed: bool)
      modifies this`isClosed, this`socketCloses, this`response, this`sent, owner
      ensures var k := if |old(response)| <= Capacity(results) then |old(response)| else Capacity(results);
              && k == Taken(old(response), results) <= |old(response)|
              && response == old(response)[k..] && sent == old(sent) + old(response)[..k]
      ensures completed == (response == "")
      ensures socketCloses == old(socketCloses) + if waiting then 0 else 1
      ensures owner.connections == if waiting then old(owner.connections) else old(owner.connections) - {id}
    {
      Send(results);
      completed := response == "";
      CloseUnless(waiting);
    }

    method CloseUnless(waiting: bool)
      modifies this`isClosed, this`socketCloses, owner
      ensures owner.connections == if waiting then old(owner.connections) else old(owner.connections) - {id}
      ensures socketCloses == old(socketCloses) + if waiting then 0 else 1
    {
      if !waiting {
        Close();
      }
    }
  }
}
