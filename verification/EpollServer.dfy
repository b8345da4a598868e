/**
 The edge-triggered server: a map from descriptors to connection ids and a map from ids to
 sessions, kept in agreement by accept, read, write, error and release.
 */
module EpollServer {
  import opened Basics
  import opened Framer

  type Fd = int
  type Id = nat

  /** `received` and `sent` record the bytes that went through the socket. */
  datatype Session = Session(
    fd: Fd, input: string, output: string, isReadable: bool, isWritable: bool, isClosed: bool, isEof: bool,
    received: string, sent: string)

  datatype Net = Net(conns: map<Fd, Id>, sessions: map<Id, Session>, nextConnId: nat)

  const IDLE := Net(map[], map[], 0)

  function NewSession(fd: Fd): Session { Session(fd, "", "", false, false, false, false, "", "") }

  /** The outcome of Session::Write: the session, and whether it closed itself. */
  datatype Written = Written(x: Session, closed: bool)

  function SessionWrite(x: Session, results: seq<WriteResult>): Written
  {
    if !x.isWritable then Written(x, false) else
    var rest := Unsent(x.output, results);
    Written(x.(output := rest, sent := x.sent + x.output[..Taken(x.output, results)], isWritable := false),
            x.isEof && rest == "")
  }

  /** `data` is what the socket delivered before it would block or, with `eof`, ended. */
  function SessionRead(x: Session, data: string, eof: bool, results: seq<WriteResult>): Written
  {
    if !x.isReadable then Written(x, false) else
    SessionWrite(
      x.(input := Residue(x.input + data), output := x.output + Framed(x.input + data),
         received := x.received + data, isEof := x.isEof || eof, isReadable := false), results)
  }

  /** Session::Close erases the descriptor and releases the session. */
  function CloseSession(n: Net, id: Id): Net
  {
    if id !in n.sessions then n
    else n.(conns := n.conns - {n.sessions[id].fd}, sessions := n.sessions - {id})
  }

  function Store(n: Net, id: Id, w: Written): Net
  {
    var m := n.(sessions := n.sessions[id := w.x]);
    if w.closed then CloseSession(m, id) else m
  }

  function CanRead(n: Net, id: Id, data: string, eof: bool): Net
  {
    if id !in n.sessions then n
    else Store(n, id, SessionRead(n.sessions[id].(isReadable := true), data, eof, []))
  }

  function CanWrite(n: Net, id: Id, results: seq<WriteResult>): Net
  {
    if id !in n.sessions then n
    else Store(n, id, SessionWrite(n.sessions[id].(isWritable := true), results))
  }

  /** One entry of the event list: a new connection, or the mask and the I/O of a descriptor. */
  datatype Event =
    | Accept(fd: Fd)
    | Ready(fd: Fd, canRead: bool, canWrite: bool, error: bool, data: string, eof: bool, results: seq<WriteResult>)

  function AfterRead(n: Net, e: Event): Net
    requires e.Ready?
  {
    if e.canRead && e.fd in n.conns then CanRead(n, n.conns[e.fd], e.data, e.eof) else n
  }

  function AfterWrite(n: Net, e: Event): Net
    requires e.Ready?
  {
    if e.canWrite && e.fd in n.conns then CanWrite(n, n.conns[e.fd], e.results) else n
  }

  /** None stands for an exception, which ends the server. */
  function OnEvent(n: Net, e: Event): Option<Net>
  {
    if e.Accept? then
      if e.fd in n.conns then None
      else Some(Net(n.conns[e.fd := n.nextConnId + 1], n.sessions[n.nextConnId + 1 := NewSession(e.fd)], n.nextConnId + 1))
    else if e.fd !in n.conns then None
    else
      var n1 := AfterRead(n, e);
      if e.canWrite && e.fd !in n1.conns then None else
      var n2 := AfterWrite(n1, e);
      if !e.error then Some(n2)
      else if e.fd !in n2.conns then None
      else Some(CloseSession(n2, n2.conns[e.fd]))
  }

  function Run(events: seq<Event>): Option<Net>
  {
    if events == [] then Some(IDLE) else
    var n := Run(events[..|events| - 1]);
    if n.None? then None else OnEvent(n.value, events[|events| - 1])
  }

  // ----- agreement

  ghost predicate SessionOk(x: Session)
  {
    && !x.isReadable && !x.isWritable && !x.isClosed
    && x.sent + x.output == Framed(x.received)
    && x.input == Residue(x.received)
  }

  /** Descriptors and sessions name each other; sessions hold what the frame transformer promises. */
  ghost predicate Inv(n: Net)
  {
    && (forall fd :: fd in n.conns ==> n.conns[fd] in n.sessions && n.sessions[n.conns[fd]].fd == fd)
    && (forall id :: id in n.sessions ==> n.sessions[id].fd in n.conns && n.conns[n.sessions[id].fd] == id)
    && (forall id :: id in n.sessions ==> SessionOk(n.sessions[id]) && 1 <= id <= n.nextConnId)
  }

  /** The connection map is injective. */
  lemma ConnsInjective(n: Net, a: Fd, b: Fd)
    requires Inv(n) && a in n.conns && b in n.conns && n.conns[a] == n.conns[b]
    ensures a == b
  {
    assert n.sessions[n.conns[a]].fd == a;
  }

  /** While `isWritable` is false, reading never writes and never closes. */
  lemma ReadKeepsSession(x: Session, data: string, eof: bool)
    requires SessionOk(x)
    ensures var w := SessionRead(x.(isReadable := true), data, eof, []);
            && SessionOk(w.x) && !w.closed && w.x.fd == x.fd
            && w.x.received == x.received + data && w.x.sent == x.sent
            && w.x.isEof == (x.isEof || eof) && w.x.output == x.output + Framed(x.input + data)
  {
    FramedExtends(x.received, data);
    Assoc(x.sent, x.output, Framed(x.input + data));
  }

  lemma WriteKeepsSession(x: Session, results: seq<WriteResult>)
    requires SessionOk(x)
    ensures var w := SessionWrite(x.(isWritable := true), results);
            && SessionOk(w.x) && w.x.fd == x.fd && w.x.received == x.received
            && x.sent <= w.x.sent
            && (w.closed <==> x.isEof && Unsent(x.output, results) == "")
  {
    UnsentIsSuffix(x.output, results);
    var rest := Unsent(x.output, results);
    Assoc(x.sent, x.output[..Taken(x.output, results)], rest);
  }

  lemma UpdateKeepsInv(n: Net, m: Net, id: Id, x: Session)
    requires Inv(n) && id in n.sessions && SessionOk(x) && x.fd == n.sessions[id].fd
    requires m == n.(sessions := n.sessions[id := x])
    ensures Inv(m)
  {
    assert forall k :: k in m.sessions ==> m.sessions[k].fd == n.sessions[k].fd;
  }

  lemma CloseKeepsInv(n: Net, id: Id)
    requires Inv(n) && id in n.sessions
    ensures Inv(CloseSession(n, id))
  {
  }

  lemma StoreKeepsInv(n: Net, id: Id, w: Written)
    requires Inv(n) && id in n.sessions && SessionOk(w.x) && w.x.fd == n.sessions[id].fd
    ensures Inv(Store(n, id, w))
  {
    var m := n.(sessions := n.sessions[id := w.x]);
    UpdateKeepsInv(n, m, id, w.x);
    CloseKeepsInv(m, id);
  }

  lemma ReadKeepsInv(n: Net, e: Event)
    requires Inv(n) && e.Ready? && e.fd in n.conns
    ensures Inv(AfterRead(n, e)) && e.fd in AfterRead(n, e).conns
    ensures AfterRead(n, e).conns == n.conns
  {
    if e.canRead {
      ReadKeepsSession(n.sessions[n.conns[e.fd]], e.data, e.eof);
      StoreKeepsInv(n, n.conns[e.fd], SessionRead(n.sessions[n.conns[e.fd]].(isReadable := true), e.data, e.eof, []));
    }
  }

  lemma WriteKeepsInv(n: Net, e: Event)
    requires Inv(n) && e.Ready? && e.fd in n.conns
    ensures Inv(AfterWrite(n, e))
    ensures e.fd in AfterWrite(n, e).conns <==> !(e.canWrite && Drains(n, e))
  {
    if e.canWrite {
      WriteKeepsSession(n.sessions[n.conns[e.fd]], e.results);
      StoreKeepsInv(n, n.conns[e.fd], SessionWrite(n.sessions[n.conns[e.fd]].(isWritable := true), e.results));
    }
  }

  /** The peer has closed and the socket takes all output: the write will close the session. */
  predicate Drains(n: Net, e: Event)
  {
    e.Ready? && e.fd in n.conns && n.conns[e.fd] in n.sessions &&
    var x := n.sessions[n.conns[e.fd]]; x.isEof && Unsent(x.output, e.results) == ""
  }

  lemma EventKeepsInv(n: Net, e: Event)
    requires Inv(n) && OnEvent(n, e).Some?
    ensures Inv(OnEvent(n, e).value)
  {
    if e.Accept? {
      AcceptKeepsInv(n, e.fd);
    } else {
      ReadKeepsInv(n, e);
      var n1 := AfterRead(n, e);
      WriteKeepsInv(n1, e);
      var n2 := AfterWrite(n1, e);
      if e.error {
        CloseKeepsInv(n2, n2.conns[e.fd]);
      }
    }
  }

  lemma AcceptKeepsInv(n: Net, fd: Fd)
    requires Inv(n) && fd !in n.conns
    ensures Inv(Net(n.conns[fd := n.nextConnId + 1], n.sessions[n.nextConnId + 1 := NewSession(fd)], n.nextConnId + 1))
  {
    assert Frames("") == [];
  }

  // ----- main results

  /** Map agreement and the frame transformer, over every run of accepts, reads, writes and errors. */
  lemma {:induction false} RunKeepsInv(events: seq<Event>)
    requires Run(events).Some?
    ensures Inv(Run(events).value)
  {
    if events != [] {
      var n := |events| - 1;
      RunKeepsInv(events[..n]);
      EventKeepsInv(Run(events[..n]).value, events[n]);
    }
  }

  /** The bytes sent and the output are the frames received so far, bracketed and reversed; the input is the residue. */
  lemma StreamingFramer(events: seq<Event>, id: Id)
    requires Run(events).Some? && id in Run(events).value.sessions
    ensures var x := Run(events).value.sessions[id];
            && x.sent + x.output == Bracketed(Frames(x.received))
            && x.input == Residue(x.received)
            && !x.isWritable && !x.isReadable
  {
    RunKeepsInv(events);
    assert SessionOk(Run(events).value.sessions[id]);
  }

  /** `conns` is injective, its values are exactly the session ids, and each session's descriptor maps back to it. */
  lemma MapsAgree(events: seq<Event>)
    requires Run(events).Some?
    ensures var n := Run(events).value;
            && n.conns.Values == n.sessions.Keys
            && (forall a, b :: a in n.conns && b in n.conns && n.conns[a] == n.conns[b] ==> a == b)
            && (forall id :: id in n.sessions ==> n.sessions[id].fd in n.conns && n.conns[n.sessions[id].fd] == id)
  {
    RunKeepsInv(events);
    var n := Run(events).value;
    forall a, b | a in n.conns && b in n.conns && n.conns[a] == n.conns[b]
      ensures a == b
    {
      ConnsInjective(n, a, b);
    }
  }

  /**
   Exactly when an event throws: the descriptor is unknown, or one mask reports an error and a write
   that closes the session, whose lookup then misses. It closes when the peer has closed, before or in
   this read, and the socket takes all output including that of the frames just read. A read never
   disturbs the lookup of the write in the same mask.
   */
  lemma EventThrowsExactly(n: Net, e: Event)
    requires Inv(n) && e.Ready?
    ensures OnEvent(n, e).None? <==>
            || e.fd !in n.conns
            || (&& e.canWrite && e.error
                && var x := n.sessions[n.conns[e.fd]];
                   && (x.isEof || (e.canRead && e.eof))
                   && Unsent(x.output + (if e.canRead then Framed(x.input + e.data) else ""), e.results) == "")
  {
    if e.fd in n.conns {
      ReadKeepsInv(n, e);
      WriteKeepsInv(AfterRead(n, e), e);
      DrainsAfterRead(n, e);
    }
  }

  lemma DrainsAfterRead(n: Net, e: Event)
    requires Inv(n) && e.Ready? && e.fd in n.conns
    ensures var x := n.sessions[n.conns[e.fd]];
            Drains(AfterRead(n, e), e) <==>
            && (x.isEof || (e.canRead && e.eof))
            && Unsent(x.output + (if e.canRead then Framed(x.input + e.data) else ""), e.results) == ""
  {
    var id := n.conns[e.fd];
    var x := n.sessions[id];
    if e.canRead {
      ReadKeepsSession(x, e.data, e.eof);
      var w := SessionRead(x.(isReadable := true), e.data, e.eof, []);
      assert AfterRead(n, e) == n.(sessions := n.sessions[id := w.x]);
    } else {
      assert x.output + "" == x.output;
    }
  }

  /** A write of this event closes the session: the peer has closed and the socket takes all output. */
  predicate WriteCloses(x: Session, e: Event)
    requires e.Ready?
  {
    e.canWrite && (x.isEof || (e.canRead && e.eof)) &&
    |x.output + (if e.canRead then Framed(x.input + e.data) else "")| <= Capacity(e.results)
  }

  /** What an event that does not throw does to the session of its descriptor, if it keeps it. */
  ghost predicate SessionAfter(x: Session, y: Session, e: Event)
    requires e.Ready?
  {
    var output := x.output + (if e.canRead then Framed(x.input + e.data) else "");
    var k := if !e.canWrite then 0 else if |output| <= Capacity(e.results) then |output| else Capacity(e.results);
    && y.fd == x.fd && !y.isReadable && !y.isWritable && !y.isClosed
    && y.received == x.received + (if e.canRead then e.data else "")
    && y.isEof == (x.isEof || (e.canRead && e.eof))
    && y.output == output[k..] && y.sent == x.sent + output[..k]
    && y.input == (if e.canRead then Residue(x.input + e.data) else x.input)
  }

  /** Other descriptors and sessions are as before. */
  ghost predicate OthersKept(n: Net, m: Net, fd: Fd, id: Id)
  {
    m.conns - {fd} == n.conns - {fd} && m.sessions - {id} == n.sessions - {id} && m.nextConnId == n.nextConnId
  }

  /** The read part and then the write part of an event. */
  lemma WrittenAfterRead(x: Session, x1: Session, x2: Session, e: Event)
    requires e.Ready? && SessionAfter(x, x1, e.(canWrite := false))
    requires var k := if |x1.output| <= Capacity(e.results) then |x1.output| else Capacity(e.results);
             x2 == if e.canWrite then x1.(output := x1.output[k..], sent := x1.sent + x1.output[..k]) else x1
    ensures SessionAfter(x, x2, e)
  {
    var output := x.output + (if e.canRead then Framed(x.input + e.data) else "");
    assert output[0..] == output && x.sent + output[..0] == x.sent;
  }

  /** The two parts together, before the error is looked at. */
  lemma BothOutcome(n: Net, e: Event)
    requires Inv(n) && e.Ready? && e.fd in n.conns
    ensures var id := n.conns[e.fd]; var x := n.sessions[id]; var m := AfterWrite(AfterRead(n, e), e);
            && Inv(m) && OthersKept(n, m, e.fd, id)
            && (e.fd !in m.conns <==> WriteCloses(x, e)) && (id !in m.sessions <==> WriteCloses(x, e))
            && (e.fd in m.conns ==> m.conns[e.fd] == id && SessionAfter(x, m.sessions[id], e))
  {
    var id := n.conns[e.fd];
    ReadKeepsInv(n, e);
    ReadOutcome(n, e);
    var n1 := AfterRead(n, e);
    WriteKeepsInv(n1, e);
    WriteOutcome(n1, e);
    var n2 := AfterWrite(n1, e);
    var output := n.sessions[id].output + (if e.canRead then Framed(n.sessions[id].input + e.data) else "");
    assert n1.sessions[id].output == output;
    if e.fd in n2.conns {
      WrittenAfterRead(n.sessions[id], n1.sessions[id], n2.sessions[id], e);
    }
  }

  /**
   What an event does: its descriptor and session are gone exactly when the mask reports an error or the
   write closes the session; otherwise the session has read and written as the mask says. All other
   descriptors and sessions are as before.
   */
  lemma EventOutcome(n: Net, e: Event, m: Net)
    requires Inv(n) && e.Ready? && OnEvent(n, e) == Some(m)
    ensures e.fd in n.conns
    ensures var id := n.conns[e.fd]; var x := n.sessions[id];
            && OthersKept(n, m, e.fd, id)
            && (e.fd !in m.conns <==> e.error || WriteCloses(x, e))
            && (id !in m.sessions <==> e.error || WriteCloses(x, e))
            && (e.fd in m.conns ==> m.conns[e.fd] == id && SessionAfter(x, m.sessions[id], e))
  {
    BothOutcome(n, e);
    EventIs(n, e, m);
    var id := n.conns[e.fd];
    if e.error {
      ErrorOutcome(n, AfterWrite(AfterRead(n, e), e), e.fd, id);
    }
  }

  /** An event that does not throw is its two parts and, with an error, the close. */
  lemma EventIs(n: Net, e: Event, m: Net)
    requires e.Ready? && OnEvent(n, e) == Some(m)
    ensures e.fd in n.conns
    ensures var n2 := AfterWrite(AfterRead(n, e), e);
            if e.error then e.fd in n2.conns && m == CloseSession(n2, n2.conns[e.fd]) else m == n2
  {
  }

  lemma ErrorOutcome(n: Net, n2: Net, fd: Fd, id: Id)
    requires Inv(n2) && fd in n2.conns && n2.conns[fd] == id && OthersKept(n, n2, fd, id)
    ensures var m := CloseSession(n2, id); OthersKept(n, m, fd, id) && fd !in m.conns && id !in m.sessions
  {
    assert n2.sessions[id].fd == fd;
    assert (n2.conns - {fd}) - {fd} == n2.conns - {fd};
    assert (n2.sessions - {id}) - {id} == n2.sessions - {id};
  }

  lemma ReadOutcome(n: Net, e: Event)
    requires Inv(n) && e.Ready? && e.fd in n.conns
    ensures var id := n.conns[e.fd]; var x := n.sessions[id]; var m := AfterRead(n, e);
            && m.conns == n.conns && id in m.sessions && m.nextConnId == n.nextConnId
            && m.sessions - {id} == n.sessions - {id}
            && SessionAfter(x, m.sessions[id], e.(canWrite := false))
  {
    var x := n.sessions[n.conns[e.fd]];
    if e.canRead {
      ReadKeepsSession(x, e.data, e.eof);
      assert x.received + e.data == x.received + (if e.canRead then e.data else "");
      var o := x.output + Framed(x.input + e.data);
      assert o[0..] == o && x.sent + o[..0] == x.sent;
    } else {
      assert x.output + "" == x.output && x.received + "" == x.received;
      assert x.output[0..] == x.output && x.sent + x.output[..0] == x.sent;
    }
  }

  lemma WriteOutcome(n: Net, e: Event)
    requires Inv(n) && e.Ready? && e.fd in n.conns
    ensures var id := n.conns[e.fd]; var x := n.sessions[id]; var m := AfterWrite(n, e);
            var k := if |x.output| <= Capacity(e.results) then |x.output| else Capacity(e.results);
            && m.nextConnId == n.nextConnId
            && m.conns - {e.fd} == n.conns - {e.fd} && m.sessions - {id} == n.sessions - {id}
            && (e.fd !in m.conns <==> e.canWrite && x.isEof && k == |x.output|)
            && (id !in m.sessions <==> e.fd !in m.conns)
            && (e.fd in m.conns ==>
                  && m.conns == n.conns
                  && m.sessions[id] == if e.canWrite then x.(output := x.output[k..], sent := x.sent + x.output[..k]) else x)
  {
    var id := n.conns[e.fd];
    if e.canWrite {
      var x := n.sessions[id];
      TakenIsCapacity(x.output, e.results);
      StoreOutcome(n, id, e.fd, SessionWrite(x.(isWritable := true), e.results));
    }
  }

  lemma StoreOutcome(n: Net, id: Id, fd: Fd, w: Written)
    requires Inv(n) && id in n.sessions && n.sessions[id].fd == fd == w.x.fd
    ensures var m := Store(n, id, w);
            && m.nextConnId == n.nextConnId
            && m.conns == (if w.closed then n.conns - {fd} else n.conns)
            && m.sessions == (if w.closed then n.sessions - {id} else n.sessions[id := w.x])
            && m.conns - {fd} == n.conns - {fd} && m.sessions - {id} == n.sessions - {id}
  {
    assert n.sessions[id := w.x] - {id} == n.sessions - {id};
    assert (n.conns - {fd}) - {fd} == n.conns - {fd};
    assert (n.sessions - {id}) - {id} == n.sessions - {id};
  }

  /** A new connection gets an unused id and an empty session; nothing else changes. */
  lemma AcceptOutcome(n: Net, fd: Fd)
    requires Inv(n)
    ensures OnEvent(n, Accept(fd)).Some? <==> fd !in n.conns
    ensures OnEvent(n, Accept(fd)).Some? ==>
              var m := OnEvent(n, Accept(fd)).value;
              && fd in m.conns && m.conns[fd] !in n.sessions && m.conns[fd] in m.sessions
              && m.conns - {fd} == n.conns && m.sessions - {m.conns[fd]} == n.sessions
              && var x := m.sessions[m.conns[fd]];
                 x.fd == fd && x.input == "" == x.output && x.sent == "" == x.received && !x.isEof
  {
    if fd !in n.conns {
      var id := n.nextConnId + 1;
      assert id !in n.sessions;
      assert n.conns[fd := id] - {fd} == n.conns;
      assert n.sessions[id := NewSession(fd)] - {id} == n.sessions;
    }
  }

  /** The throwing mask exists: end of file, nothing to send, and EPOLLIN, EPOLLOUT and EPOLLERR together. */
  lemma ErrorMaskWitness()
    ensures Run([Accept(5)]).Some?
    ensures OnEvent(Run([Accept(5)]).value, Ready(5, true, true, true, "", true, [])).None?
  {
    var n := Net(map[5 := 1], map[1 := NewSession(5)], 1);
    assert [Accept(5)][..0] == [];
    assert Run([Accept(5)]) == Some(n);
    RunKeepsInv([Accept(5)]);
    var e := Ready(5, true, true, true, "", true, []);
    EventThrowsExactly(n, e);
    assert Framed("" + "") == "" by {
      assert "" + "" == "" && Frames("") == [];
    }
  }

  // ----- the objects

  class Server {
    var conns: map<Fd, Id>
    var sessions: map<Id, Session>
    var nextConnId: nat

    function View(): Net
      reads this
    {
      Net(conns, sessions, nextConnId)
    }

    constructor ()
      ensures View() == IDLE
    {
      conns, sessions, nextConnId := map[], map[], 0;
    }

    /** False stands for the exceptions of ProcessNewConnection and of NewConnection. */
    method ProcessNewConnection(fd: Fd) returns (ok: bool)
      requires Inv(View())
      modifies this
      ensures ok <==> fd !in old(conns)
      ensures ok ==> nextConnId == old(nextConnId) + 1
      ensures ok ==> conns == old(conns)[fd := nextConnId] && sessions == old(sessions)[nextConnId := NewSession(fd)]
      ensures !ok ==> View() == old(View())
      ensures Inv(View())
    {
      if fd in conns {
        return false;
      }
      nextConnId := nextConnId + 1;
      assert nextConnId !in sessions; // VerifySessionNotExist does not throw
      sessions := sessions[nextConnId := NewSession(fd)];
      conns := conns[fd := nextConnId];
      return true;
    }

    /** Session::Write on session `id`; the close at its end is Session::Close. */
    method WriteSession(id: Id, results: seq<WriteResult>)
      requires id in sessions && !sessions[id].isClosed
      modifies this
      ensures View() == Store(old(View()), id, SessionWrite(old(sessions[id]), results))
    {
      var x := sessions[id];
      if !x.isWritable {
        assert sessions[id := x] == sessions;
        return;
      }
      var rest, sent := WriteLoop(x.output, results);
      UnsentIsSuffix(x.output, results);
      assert x.output[..|sent|] == sent;
      x := x.(output := rest, sent := x.sent + sent);
      x := x.(isWritable := false);
      sessions := sessions[id := x];
      if x.isEof && x.output == "" {
        var closed := Close(id);
      }
    }

    /** False stands for the exception "session is closed". */
    method Close(id: Id) returns (ok: bool)
      requires id in sessions
      modifies this
      ensures ok <==> !old(sessions[id].isClosed)
      ensures View() == if ok then CloseSession(old(View()), id) else old(View())
    {
      if sessions[id].isClosed {
        return false;
      }
      conns := conns - {sessions[id].fd};
      sessions := sessions - {id};
      return true;
    }

    /** False stands for the exception of VerifySessionExist. */
    method OnRead(id: Id, data: string, eof: bool) returns (ok: bool)
      requires id in sessions ==> !sessions[id].isClosed
      modifies this
      ensures ok <==> id in old(sessions)
      ensures View() == CanRead(old(View()), id, data, eof)
    {
      if id !in sessions {
        return false;
      }
      var x := sessions[id].(isReadable := true);
      if x.isReadable {
        x := x.(input := x.input + data, received := x.received + data, isEof := x.isEof || eof);
        var input, output := TakeFrames(x.input, x.output);
        x := x.(input := input, output := output);
        x := x.(isReadable := false);
        sessions := sessions[id := x];
        ghost var y := SessionWrite(x, []).x;
        assert sessions[id := y] == old(sessions)[id := y];
        WriteSession(id, []);
      }
      return true;
    }

    method OnWrite(id: Id, results: seq<WriteResult>) returns (ok: bool)
      requires id in sessions ==> !sessions[id].isClosed
      modifies this
      ensures ok <==> id in old(sessions)
      ensures View() == CanWrite(old(View()), id, results)
    {
      if id !in sessions {
        return false;
      }
      sessions := sessions[id := sessions[id].(isWritable := true)];
      WriteSession(id, results);
      return true;
    }

    /** conns[fd], which inserts 0 for an unknown descriptor. */
    method Lookup(fd: Fd) returns (id: Id)
      modifies this`conns
      ensures conns == if fd in old(conns) then old(conns) else old(conns)[fd := 0]
      ensures id == conns[fd]
    {
      if fd !in conns {
        conns := conns[fd := 0];
      }
      id := conns[fd];
    }

    method ReadPart(e: Event)
      requires Inv(View()) && e.Ready? && e.fd in conns
      modifies this
      ensures View() == AfterRead(old(View()), e) && Inv(View()) && e.fd in conns
    {
      ReadKeepsInv(View(), e);
      if e.canRead {
        var id := Lookup(e.fd);
        var found := OnRead(id, e.data, e.eof);
        assert found;
      }
    }

    method WritePart(e: Event)
      requires Inv(View()) && e.Ready? && e.fd in conns
      modifies this
      ensures View() == AfterWrite(old(View()), e) && Inv(View())
    {
      WriteKeepsInv(View(), e);
      if e.canWrite {
        var id := Lookup(e.fd);
        var found := OnWrite(id, e.results);
        assert found;
      }
    }

    /** ErrorOccurred(conns[fd]); false stands for the exception of VerifySessionExist. */
    method ErrorPart(fd: Fd) returns (ok: bool)
      requires Inv(View())
      modifies this
      ensures ok <==> fd in old(conns)
      ensures ok ==> View() == CloseSession(old(View()), old(conns)[fd]) && Inv(View())
    {
      ghost var n := View();
      var id := Lookup(fd);
      if id !in sessions {
        return false;
      }
      CloseKeepsInv(n, id);
      ok := Close(id);
    }

    /** False stands for an exception. */
    method ProcessEvent(e: Event) returns (ok: bool)
      requires Inv(View()) && e.Ready?
      modifies this
      ensures ok <==> OnEvent(old(View()), e).Some?
      ensures ok ==> View() == OnEvent(old(View()), e).value && Inv(View())
    {
      if e.fd !in conns {
        return false;
      }
      ReadPart(e);
      WritePart(e);
      ok := true;
      if e.error {
        ok := ErrorPart(e.fd);
      }
    }

    /** Server::Release closes every session; the loop ends because each close erases its descriptor. */
    method Release()
      requires Inv(View())
      modifies this
      ensures conns == map[] && sessions == map[]
    {
      while conns != map[]
        invariant Inv(View())
        decreases |conns|
      {
        HasKey(conns);
        var fd :| fd in conns;
        ghost var before := View();
        CloseKeepsInv(before, conns[fd]);
        var ok := Close(conns[fd]);
        assert conns == before.conns - {fd};
        SmallerAfterErase(before.conns, fd);
      }
      NoConnsNoSessions(View());
    }
  }

  lemma NoConnsNoSessions(n: Net)
    requires Inv(n) && n.conns == map[]
    ensures n.sessions == map[]
  {
    assert forall id :: id in n.sessions ==> n.sessions[id].fd in n.conns;
  }

  lemma HasKey(m: map<Fd, Id>)
    ensures m == map[] || exists fd :: fd in m
  {
    if forall fd :: fd !in m {
      assert m == map[];
    }
  }

  lemma SmallerAfterErase(m: map<Fd, Id>, fd: Fd)
    requires fd in m
    ensures |m - {fd}| < |m|
  {
    assert (m - {fd}).Keys == m.Keys - {fd};
  }
}
