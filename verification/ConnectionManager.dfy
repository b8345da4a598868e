/**
 The connection manager as an object: its two queues and events, the checks that claim and give up the
 tokens, and one turn of each worker loop.
 */
module ConnectionManager {
  import opened Basics
  import opened WorkQueue
  import opened Framer
  import opened Connections

  /** What other threads do to a connection while a worker reads or writes it. */
  datatype Meanwhile = Meanwhile(content: string, events: nat, failure: ErrorCode, closed: bool)

  /** The connection as the worker finds it when it rechecks. */
  ghost function Changed(x: Conn, m: Meanwhile): Conn
  {
    x.(ready := x.ready + m.events, error := x.error || m.failure != NO_ERROR,
       cache := x.cache + m.content, appended := x.appended + m.content)
  }

  class Manager {
    const connectionMap: ConnectionMap
    const writeCache: WriteCache
    var readQueue: seq<Connection>
    var writeQueue: seq<Connection>
    var readInQueueHappened: bool
    var writeInQueueHappened: bool
    var closed: bool

    constructor ()
      ensures fresh(connectionMap) && connectionMap.connections == map[]
      ensures fresh(writeCache) && forall id :: writeCache.Content(id) == ""
      ensures readQueue == [] && writeQueue == [] && !readInQueueHappened && !writeInQueueHappened && !closed
    {
      connectionMap := new ConnectionMap();
      writeCache := new WriteCache();
      readQueue, writeQueue := [], [];
      readInQueueHappened, writeInQueueHappened, closed := false, false, false;
    }

    ghost function WriteView(c: Connection, appended: string): Conn
      reads c, writeCache
    {
      c.WriteView(writeCache.Content(c.id), appended)
    }

    /** False when the id is taken, which the original only logs. */
    method NewConnection(id: Id) returns (ok: bool)
      requires connectionMap.Valid()
      modifies connectionMap
      ensures ok <==> id !in old(connectionMap.connections)
      ensures !ok ==> connectionMap.connections == old(connectionMap.connections)
      ensures ok ==>
                && id in connectionMap.connections && fresh(connectionMap.connections[id])
                && connectionMap.connections == old(connectionMap.connections)[id := connectionMap.connections[id]]
                && connectionMap.connections[id].ReadView() == Conn(0, false, false, "", "", "", "")
                && connectionMap.connections[id].WriteView("", "") == Conn(0, false, false, "", "", "", "")
      ensures connectionMap.Valid()
    {
      var c := new Connection(id, connectionMap);
      ok := connectionMap.Add(id, c);
    }

    // ----- the read side

    method NeedInQueueRead(c: Connection) returns (need: bool)
      modifies c`isReading
      ensures var e := Act(Reading, old(c.ReadView()), c.Live(), c.id, Check, Choice(0, false, 0));
              c.ReadView() == e.x && e.next == (if need then On(c.id, Enqueue) else Idle)
      ensures need <==> (c.isReadable != 0 || c.errorCode != NO_ERROR) && !old(c.isReading)
      ensures c.isReading == (old(c.isReading) || need)
    {
      if (c.isReadable != 0 || c.errorCode != NO_ERROR) && !c.isReading {
        c.isReading := true;
        return true;
      }
      return false;
    }

    method CheckToInQueueRead(c: Connection)
      modifies this`readQueue, this`readInQueueHappened, c`isReading
      ensures var e := Follow(Reading, old(c.ReadView()), c.Live(), c.id, Check, Choice(0, false, 0));
              && c.ReadView() == e.x
              && readQueue == (if e.enqueue then old(readQueue) + [c] else old(readQueue))
              && readInQueueHappened == (old(readInQueueHappened) || e.next.SetEvent?)
      ensures var claimed := (c.isReadable != 0 || c.errorCode != NO_ERROR) && !old(c.isReading);
              && c.isReading == (old(c.isReading) || claimed)
              && readQueue == (if claimed then old(readQueue) + [c] else old(readQueue))
              && readInQueueHappened == (old(readInQueueHappened) || claimed)
    {
      var need := NeedInQueueRead(c);
      if need {
        readQueue := readQueue + [c];
        readInQueueHappened := true;
      }
    }

    /** False when the map does not know the id, which the original only logs. */
    method CanRead(id: Id) returns (known: bool)
      requires connectionMap.Valid()
      modifies this`readQueue, this`readInQueueHappened, connectionMap.connections.Values
      ensures known <==> id in connectionMap.connections
      ensures !known ==> readQueue == old(readQueue) && readInQueueHappened == old(readInQueueHappened)
      ensures known ==>
                var c := connectionMap.connections[id];
                var x := old(connectionMap.connections[id].ReadView());
                var e := Follow(Reading, x.(ready := x.ready + 1), true, id, Check, Choice(0, false, 0));
                && c.ReadView() == e.x
                && readQueue == (if e.enqueue then old(readQueue) + [c] else old(readQueue))
                && readInQueueHappened == (old(readInQueueHappened) || e.next.SetEvent?)
                && c.isReadable == old(connectionMap.connections[id].isReadable) + 1
    {
      var found := connectionMap.GetValue(id);
      if found.None? {
        return false;
      }
      var c := found.value;
      c.isReadable := c.isReadable + 1;
      CheckToInQueueRead(c);
      return true;
    }

    /** The oldest connection of the queue; None when it is empty. */
    method DeQueueRead() returns (r: Option<Connection>)
      modifies this`readQueue
      ensures r.None? <==> old(readQueue) == []
      ensures old(readQueue) == (if r.Some? then [r.value] else []) + readQueue
    {
      if readQueue == [] {
        return None;
      }
      r := Some(readQueue[0]);
      readQueue := readQueue[1..];
    }

    method NeedReInQueueRead(c: Connection) returns (threw: bool, need: bool)
      modifies c`isReading
      ensures threw == !old(c.isReading)
      ensures var e := Act(Reading, old(c.ReadView()), c.Live(), c.id, Recheck, Choice(0, false, 0));
              !threw ==> c.ReadView() == e.x && e.next == (if need then On(c.id, Requeue) else Inner)
      ensures !threw ==> (need <==> c.isReadable != 0 || c.errorCode != NO_ERROR) && c.isReading == need
    {
      if !c.isReading {
        return true, false;
      }
      if !(c.isReadable != 0 || c.errorCode != NO_ERROR) {
        c.isReading := false;
        return false, false;
      }
      return false, true;
    }

    /** Enqueues the connection again, or clears its flag. */
    method GiveBackRead(c: Connection) returns (threw: bool)
      modifies this`readQueue, c`isReading
      ensures threw == !old(c.isReading)
      ensures var e := Rechecked(Reading, old(c.ReadView()), c.Live());
              !threw ==>
                && c.ReadView() == e.x && e.next.Inner?
                && readQueue == (if e.enqueue then old(readQueue) + [c] else old(readQueue))
      ensures var again := c.isReadable != 0 || c.errorCode != NO_ERROR;
              !threw ==> c.isReading == again && readQueue == (if again then old(readQueue) + [c] else old(readQueue))
    {
      var need;
      threw, need := NeedReInQueueRead(c);
      if !threw && need {
        readQueue := readQueue + [c];
      }
    }

    /** One turn of the inner loop of ProcessRead, with the connection taken from the queue. */
    method ReadTurn(c: Connection, data: string, whole: bool, waiting: bool, m: Meanwhile)
      returns (threw: bool, calls: seq<HandlerCall>)
      modifies this`readQueue, writeCache, c.owner, c`isReadable, c`errorCode, c`isClosed, c`socketCloses, c`isReading
      ensures threw == !old(c.isReading)
      ensures var e := Worked(Reading, old(c.ReadView()), old(c.Live()), c.id, Choice(0, !waiting, 0));
              var y := e.x.(ready := e.x.ready + m.events, error := e.x.error || m.failure != NO_ERROR);
              var f := Rechecked(Reading, y, e.live && !m.closed);
              !threw ==>
                && c.ReadView() == f.x && (c.Live() <==> f.live) && f.next.Inner?
                && readQueue == (if f.enqueue then old(readQueue) + [c] else old(readQueue))
      ensures c.isReadable == (if old(c.isReadable) == 0 then 0 else old(c.isReadable) - 1) + m.events
      ensures var again := c.isReadable != 0 || c.errorCode != NO_ERROR;
              !threw ==> c.isReading == again && readQueue == (if again then old(readQueue) + [c] else old(readQueue))
    {
      calls := c.Read(data, whole, waiting);
      c.isReadable := c.isReadable + m.events;
      OthersAct(c, m);
      threw := GiveBackRead(c);
    }

    /** Content, a failure and a close that come from other threads. */
    method OthersAct(c: Connection, m: Meanwhile)
      modifies writeCache, c.owner, c`errorCode, c`isClosed, c`socketCloses
      ensures writeCache.Content(c.id) == old(writeCache.Content(c.id)) + m.content
      ensures forall k :: k != c.id ==> writeCache.Content(k) == old(writeCache.Content(k))
      ensures c.errorCode == if m.failure != NO_ERROR then m.failure else old(c.errorCode)
      ensures c.owner.connections == if m.closed then old(c.owner.connections) - {c.id} else old(c.owner.connections)
    {
      writeCache.Add(c.id, m.content);
      if m.failure != NO_ERROR {
        c.errorCode := m.failure;
      }
      if m.closed {
        c.Close();
      }
    }

    // ----- the write side

    /** `canClose` is what the request handler says: it waits for nothing more. */
    method NeedInQueueWrite(c: Connection, canClose: bool, ghost appended: string) returns (need: bool)
      modifies c`isWriting
      ensures var e := Act(Writing, old(WriteView(c, appended)), c.Live(), c.id, Check, Choice(0, canClose, 0));
              WriteView(c, appended) == e.x && e.next == (if need then On(c.id, Enqueue) else Idle)
      ensures need <==>
                && !old(c.isWriting)
                && (canClose || ((c.isWritable != 0 || c.errorCode != NO_ERROR) && writeCache.Content(c.id) != ""))
      ensures c.isWriting == (old(c.isWriting) || need)
    {
      var has := writeCache.HasContentToWrite(c.id);
      if (((c.isWritable != 0 || c.errorCode != NO_ERROR) && has) || canClose) && !c.isWriting {
        c.isWriting := true;
        return true;
      }
      return false;
    }

    method CheckToInQueueWrite(c: Connection, canClose: bool, ghost appended: string)
      modifies this`writeQueue, this`writeInQueueHappened, c`isWriting
      ensures var e := Follow(Writing, old(WriteView(c, appended)), c.Live(), c.id, Check, Choice(0, canClose, 0));
              && WriteView(c, appended) == e.x
              && writeQueue == (if e.enqueue then old(writeQueue) + [c] else old(writeQueue))
              && writeInQueueHappened == (old(writeInQueueHappened) || e.next.SetEvent?)
      ensures var claimed := !old(c.isWriting) &&
                             (canClose || ((c.isWritable != 0 || c.errorCode != NO_ERROR) && writeCache.Content(c.id) != ""));
              && c.isWriting == (old(c.isWriting) || claimed)
              && writeQueue == (if claimed then old(writeQueue) + [c] else old(writeQueue))
              && writeInQueueHappened == (old(writeInQueueHappened) || claimed)
    {
      var need := NeedInQueueWrite(c, canClose, appended);
      if need {
        writeQueue := writeQueue + [c];
        writeInQueueHappened := true;
      }
    }

    method CanWrite(id: Id, canClose: bool, ghost appended: string) returns (known: bool)
      requires connectionMap.Valid()
      modifies this`writeQueue, this`writeInQueueHappened, connectionMap.connections.Values
      ensures known <==> id in connectionMap.connections
      ensures !known ==> writeQueue == old(writeQueue) && writeInQueueHappened == old(writeInQueueHappened)
      ensures known ==>
                var c := connectionMap.connections[id];
                var x := old(WriteView(connectionMap.connections[id], appended));
                var e := Follow(Writing, x.(ready := x.ready + 1), true, id, Check, Choice(0, canClose, 0));
                && WriteView(c, appended) == e.x
                && writeQueue == (if e.enqueue then old(writeQueue) + [c] else old(writeQueue))
                && writeInQueueHappened == (old(writeInQueueHappened) || e.next.SetEvent?)
                && c.isWritable == old(connectionMap.connections[id].isWritable) + 1
    {
      var found := connectionMap.GetValue(id);
      if found.None? {
        return false;
      }
      var c := found.value;
      c.isWritable := c.isWritable + 1;
      CheckToInQueueWrite(c, canClose, appended);
      return true;
    }

    /** ErrorOccurred and TimeToExit, which differ in the code they set: both sides are checked in. */
    method Fail(id: Id, code: ErrorCode, canClose: bool, ghost appended: string) returns (known: bool)
      requires connectionMap.Valid() && code != NO_ERROR
      modifies this`readQueue, this`writeQueue, this`readInQueueHappened, this`writeInQueueHappened,
               connectionMap.connections.Values
      ensures known <==> id in connectionMap.connections
      ensures !known ==>
                && readQueue == old(readQueue) && readInQueueHappened == old(readInQueueHappened)
                && writeQueue == old(writeQueue) && writeInQueueHappened == old(writeInQueueHappened)
      ensures known ==>
                var c := connectionMap.connections[id];
                var x := old(connectionMap.connections[id].ReadView());
                var y := old(WriteView(connectionMap.connections[id], appended));
                var e := Follow(Reading, x.(error := true), true, id, Check, Choice(0, false, 0));
                var f := Follow(Writing, y.(error := true), true, id, Check, Choice(0, canClose, 0));
                && c.errorCode == code && c.ReadView() == e.x && WriteView(c, appended) == f.x
                && readQueue == (if e.enqueue then old(readQueue) + [c] else old(readQueue))
                && writeQueue == (if f.enqueue then old(writeQueue) + [c] else old(writeQueue))
                && readInQueueHappened == (old(readInQueueHappened) || e.next.SetEvent?)
                && writeInQueueHappened == (old(writeInQueueHappened) || f.next.SetEvent?)
    {
      var found := connectionMap.GetValue(id);
      if found.None? {
        return false;
      }
      var c := found.value;
      c.errorCode := code;
      CheckToInQueueRead(c);
      CheckToInQueueWrite(c, canClose, appended);
      return true;
    }

    /** Caches the content in any case; throws when the map no longer knows the connection. */
    method AddToWriteCache(id: Id, content: string, canClose: bool, ghost appended: string) returns (threw: bool)
      requires connectionMap.Valid()
      modifies this`writeQueue, this`writeInQueueHappened, writeCache, connectionMap.connections.Values
      ensures threw <==> id !in connectionMap.connections
      ensures writeCache.Content(id) == old(writeCache.Content(id)) + content
      ensures forall k :: k != id ==> writeCache.Content(k) == old(writeCache.Content(k))
      ensures threw ==> writeQueue == old(writeQueue) && writeInQueueHappened == old(writeInQueueHappened)
      ensures !threw ==>
                var c := connectionMap.connections[id];
                var x := old(WriteView(connectionMap.connections[id], appended));
                var e := Follow(Writing, x.(cache := x.cache + content, appended := appended + content),
                                true, id, Lookup, Choice(0, canClose, 0));
                && WriteView(c, appended + content) == e.x
                && writeQueue == (if e.enqueue then old(writeQueue) + [c] else old(writeQueue))
                && writeInQueueHappened == (old(writeInQueueHappened) || e.next.SetEvent?)
    {
      writeCache.Add(id, content);
      var found := connectionMap.GetValue(id);
      if found.None? {
        return true;
      }
      CheckToInQueueWrite(found.value, canClose, appended + content);
      return false;
    }

    method DeQueueWrite() returns (r: Option<Connection>)
      modifies this`writeQueue
      ensures r.None? <==> old(writeQueue) == []
      ensures old(writeQueue) == (if r.Some? then [r.value] else []) + writeQueue
    {
      if writeQueue == [] {
        return None;
      }
      r := Some(writeQueue[0]);
      writeQueue := writeQueue[1..];
    }

    method NeedReInQueueWrite(c: Connection, ghost appended: string) returns (threw: bool, need: bool)
      modifies c`isWriting
      ensures threw == !old(c.isWriting)
      ensures var e := Act(Writing, old(WriteView(c, appended)), c.Live(), c.id, Recheck, Choice(0, false, 0));
              !threw ==> WriteView(c, appended) == e.x && e.next == (if need then On(c.id, Requeue) else Inner)
      ensures !threw ==>
                && (need <==> (c.isWritable != 0 || c.errorCode != NO_ERROR) && writeCache.Content(c.id) != "")
                && c.isWriting == need
    {
      if !c.isWriting {
        return true, false;
      }
      var has := writeCache.HasContentToWrite(c.id);
      if !(c.isWritable != 0 || c.errorCode != NO_ERROR) || !has {
        c.isWriting := false;
        return false, false;
      }
      return false, true;
    }

    /** Enqueues the connection again, or clears its flag. */
    method GiveBackWrite(c: Connection, ghost appended: string) returns (threw: bool)
      modifies this`writeQueue, c`isWriting
      ensures threw == !old(c.isWriting)
      ensures var e := Rechecked(Writing, old(WriteView(c, appended)), c.Live());
              !threw ==>
                && WriteView(c, appended) == e.x && e.next.Inner?
                && writeQueue == (if e.enqueue then old(writeQueue) + [c] else old(writeQueue))
      ensures var again := (c.isWritable != 0 || c.errorCode != NO_ERROR) && writeCache.Content(c.id) != "";
              !threw ==> c.isWriting == again && writeQueue == (if again then old(writeQueue) + [c] else old(writeQueue))
    {
      var need;
      threw, need := NeedReInQueueWrite(c, appended);
      if !threw && need {
        writeQueue := writeQueue + [c];
      }
    }

    /** Moves the cached content to the response and writes it. */
    method WriteFetched(c: Connection, results: seq<WriteResult>, waiting: bool, ghost appended: string)
      returns (calls: seq<HandlerCall>)
      modifies writeCache, c.owner, c`isWritable, c`isClosed, c`socketCloses, c`response, c`sent
      ensures var x := old(WriteView(c, appended));
              var e := Worked(Writing, Fetched(x), old(c.Live()), c.id,
                              Choice(Taken(x.response + x.cache, results), !waiting, 0));
              WriteView(c, appended) == e.x && (c.Live() <==> e.live) && e.next == On(c.id, Recheck)
      ensures forall k :: k != c.id ==> writeCache.Content(k) == old(writeCache.Content(k))
      ensures var all := old(c.response) + old(writeCache.Content(c.id));
              var k := if old(c.isWritable) == 0 then 0 else if |all| <= Capacity(results) then |all| else Capacity(results);
              writeCache.Content(c.id) == "" && c.response == all[k..] && c.sent == old(c.sent) + all[..k]
    {
      var contentToWrite := writeCache.Get(c.id);
      c.SetResponse(contentToWrite);
      calls := c.Write(results, waiting, "", appended);
    }

    /** One turn of the inner loop of ProcessWrite, with the connection taken from the queue. */
    method WriteTurn(c: Connection, results: seq<WriteResult>, waiting: bool, m: Meanwhile, ghost appended: string)
      returns (threw: bool, calls: seq<HandlerCall>)
      modifies this`writeQueue, writeCache, c.owner,
               c`isWritable, c`errorCode, c`isClosed, c`socketCloses, c`isWriting, c`response, c`sent
      ensures threw == !old(c.isWriting)
      ensures var x := old(WriteView(c, appended));
              var e := Worked(Writing, Fetched(x), old(c.Live()), c.id,
                              Choice(Taken(x.response + x.cache, results), !waiting, 0));
              var f := Rechecked(Writing, Changed(e.x, m), e.live && !m.closed);
              !threw ==>
                && WriteView(c, appended + m.content) == f.x && (c.Live() <==> f.live) && f.next.Inner?
                && writeQueue == (if f.enqueue then old(writeQueue) + [c] else old(writeQueue))
      ensures forall k :: k != c.id ==> writeCache.Content(k) == old(writeCache.Content(k))
      ensures var again := (c.isWritable != 0 || c.errorCode != NO_ERROR) && writeCache.Content(c.id) != "";
              !threw ==> c.isWriting == again && writeQueue == (if again then old(writeQueue) + [c] else old(writeQueue))
      ensures var all := old(c.response) + old(writeCache.Content(c.id));
              var k := if old(c.isWritable) == 0 then 0 else if |all| <= Capacity(results) then |all| else Capacity(results);
              c.response == all[k..] && c.sent == old(c.sent) + all[..k]
    {
      calls := WriteFetched(c, results, waiting, appended);
      c.isWritable := c.isWritable + m.events;
      OthersAct(c, m);
      threw := GiveBackWrite(c, appended + m.content);
    }

    /** Closing again does nothing. */
    method Close()
      modifies this`closed, this`readInQueueHappened, this`writeInQueueHappened
      ensures closed
      ensures !old(closed) ==> readInQueueHappened && writeInQueueHappened
      ensures old(closed) ==>
                readInQueueHappened == old(readInQueueHappened) && writeInQueueHappened == old(writeInQueueHappened)
    {
      if closed {
        return;
      }
      closed := true;
      writeInQueueHappened := true;
      readInQueueHappened := true;
    }
  }
}
