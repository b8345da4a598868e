/**
 The echo server on an I/O completion port: each client context has one buffer that is received
 into and sent from, possibly in several partial sends. The system may complete a posted operation
 with any number of bytes up to its length, zero meaning that the client is gone, or may report that
 it failed, as after a reset by the client.
 */
module IocpEcho {
  import opened Basics

  type byte = bv8

  const BUFFER_SIZE: nat := 4096
  const INVALID_CLIENT_CONTEXT_ID: uint32 := 1

  datatype LastOption = OPTION_NONE | OPTION_SEND | OPTION_RECV

  /** An overlapped operation: the part of the buffer it was given. */
  datatype Op = Recv(from: nat, len: nat) | Send(from: nat, len: nat)

  /**
   A context. `posted` are the operations the system works on; `received` and `echoed` record the
   bytes that went through the socket.
   */
  datatype Context = Context(
    last: LastOption, buffer: seq<byte>, toSend: nat, sent: nat, posted: seq<Op>,
    received: seq<byte>, echoed: seq<byte>)

  /** What the system reports of the i-th posted operation: bytes put into the buffer, a number of bytes sent, or a failure. */
  datatype Completion = Received(i: nat, data: seq<byte>) | Sent(i: nat, n: nat) | Failed(i: nat)

  predicate Possible(x: Context, e: Completion)
  {
    && e.i < |x.posted|
    && var op := x.posted[e.i];
       && op.from + op.len <= |x.buffer|
       && match e
          case Received(_, data) => op.Recv? && |data| <= op.len
          case Sent(_, n) => op.Send? && n <= op.len
          case Failed(_) => true
  }

  /** The system finishes the posted operation. */
  function Transfer(x: Context, e: Completion): Context
    requires Possible(x, e)
  {
    var from := x.posted[e.i].from;
    var y := x.(posted := x.posted[..e.i] + x.posted[e.i + 1..]);
    match e
    case Received(_, data) =>
      y.(received := x.received + data, buffer := x.buffer[..from] + data + x.buffer[from + |data|..])
    case Sent(_, n) =>
      y.(echoed := x.echoed + x.buffer[from..from + n])
    case Failed(_) => y
  }

  function Bytes(e: Completion): nat
    requires !e.Failed?
  {
    if e.Received? then |e.data| else e.n
  }

  /** process() for a completion of `n` bytes; None when the context is removed. `posts` is whether the next call succeeds. */
  function Process(x: Context, n: nat, posts: bool): Option<Context>
  {
    if n == 0 then None
    else
      match x.last
      case OPTION_RECV =>
        if posts then Some(x.(last := OPTION_SEND, toSend := n, sent := 0, posted := x.posted + [Send(0, n)])) else None
      case OPTION_SEND =>
        var sent := x.sent + n;
        if !posts then None
        else if sent < x.toSend then Some(x.(last := OPTION_SEND, sent := sent, posted := x.posted + [Send(sent, x.toSend - sent)]))
        else Some(x.(last := OPTION_RECV, sent := sent, posted := x.posted + [Recv(0, |x.buffer|)]))
      case OPTION_NONE => Some(x)
  }

  /** acceptConnection posts the first receive. */
  function Accepted(buffer: seq<byte>): Context
  {
    Context(OPTION_RECV, buffer, 0, 0, [Recv(0, |buffer|)], [], [])
  }

  /**
   One completion; one that the system cannot report leaves the context alone. Of a failed one process()
   takes no notice: the context stays as it is, with one operation less.
   */
  function Next(x: Context, e: Completion, posts: bool): Option<Context>
  {
    if !Possible(x, e) then Some(x)
    else if e.Failed? then Some(Transfer(x, e))
    else Process(Transfer(x, e), Bytes(e), posts)
  }

  datatype Event = Event(e: Completion, posts: bool)

  function Run(buffer: seq<byte>, events: seq<Event>): Option<Context>
  {
    if events == [] then Some(Accepted(buffer)) else
    var x := Run(buffer, events[..|events| - 1]);
    if x.None? then None else Next(x.value, events[|events| - 1].e, events[|events| - 1].posts)
  }

  /**
   Receiving into the whole buffer with everything echoed, or sending what is left of the last message;
   or stuck in either place because its operation failed.
   */
  ghost predicate Inv(x: Context)
  {
    && |x.buffer| == BUFFER_SIZE
    && x.sent <= x.toSend <= BUFFER_SIZE
    && match x.last
       case OPTION_RECV => (x.posted == [] || x.posted == [Recv(0, BUFFER_SIZE)]) && x.received == x.echoed
       case OPTION_SEND =>
         && x.sent < x.toSend && (x.posted == [] || x.posted == [Send(x.sent, x.toSend - x.sent)])
         && x.received == x.echoed + x.buffer[x.sent..x.toSend]
       case OPTION_NONE => false
  }

  lemma ReceivedKeepsInv(x: Context, e: Completion, posts: bool)
    requires Inv(x) && e.Received? && Possible(x, e) && Next(x, e, posts).Some?
    ensures Inv(Next(x, e, posts).value) && Next(x, e, posts).value.posted != []
  {
    var y := Next(x, e, posts).value;
    assert y.buffer[0..|e.data|] == e.data;
    assert x.posted[..e.i] + x.posted[e.i + 1..] == [];
  }

  lemma SentKeepsInv(x: Context, e: Completion, posts: bool)
    requires Inv(x) && e.Sent? && Possible(x, e) && Next(x, e, posts).Some?
    ensures Inv(Next(x, e, posts).value) && Next(x, e, posts).value.posted != []
  {
    var part, rest := x.buffer[x.sent..x.sent + e.n], x.buffer[x.sent + e.n..x.toSend];
    assert x.buffer[x.sent..x.toSend] == part + rest;
    assert x.echoed + (part + rest) == (x.echoed + part) + rest;
    assert x.posted[..e.i] + x.posted[e.i + 1..] == [];
  }

  lemma FailedKeepsInv(x: Context, e: Completion, posts: bool)
    requires Inv(x) && e.Failed? && Possible(x, e)
    ensures Next(x, e, posts) == Some(x.(posted := [])) && Inv(x.(posted := []))
  {
    assert x.posted[..e.i] + x.posted[e.i + 1..] == [];
  }

  /** A completion leaves the context without an operation exactly when it had none or this one failed. */
  lemma NextKeepsInv(x: Context, e: Completion, posts: bool)
    requires Inv(x) && Next(x, e, posts).Some?
    ensures var y := Next(x, e, posts).value;
            Inv(y) && (y.posted == [] <==> x.posted == [] || e == Failed(0))
  {
    if Possible(x, e) {
      match e
      case Received(_, _) => ReceivedKeepsInv(x, e, posts);
      case Sent(_, _) => SentKeepsInv(x, e, posts);
      case Failed(_) => FailedKeepsInv(x, e, posts);
    }
  }

  /** Some operation of the run was reported as failed. */
  ghost predicate HasFailed(events: seq<Event>) { exists k :: 0 <= k < |events| && events[k].e == Failed(0) }

  lemma HasFailedLast(events: seq<Event>, n: nat)
    requires |events| == n + 1
    ensures HasFailed(events) <==> HasFailed(events[..n]) || events[n].e == Failed(0)
  {
    if HasFailed(events[..n]) {
      var k :| 0 <= k < n && events[..n][k].e == Failed(0);
      assert events[k].e == Failed(0);
    }
    if HasFailed(events) && events[n].e != Failed(0) {
      var k :| 0 <= k < |events| && events[k].e == Failed(0);
      assert events[..n][k].e == Failed(0);
    }
  }

  lemma {:induction false} RunKeepsInv(buffer: seq<byte>, events: seq<Event>)
    requires |buffer| == BUFFER_SIZE && Run(buffer, events).Some?
    ensures Inv(Run(buffer, events).value)
    ensures Run(buffer, events).value.posted == [] <==> HasFailed(events)
  {
    if events != [] {
      var n := |events| - 1;
      RunKeepsInv(buffer, events[..n]);
      HasFailedLast(events, n);
      NextKeepsInv(Run(buffer, events[..n]).value, events[n].e, events[n].posts);
    }
  }

  /**
   Echo exactness: in every run at most one operation is outstanding, and none exactly when one has
   failed; the counters stay within the buffer, a receive is posted only when the previous message is
   fully echoed, and the bytes echoed are an in-order prefix of the bytes received, short of exactly the
   part that is being sent.
   */
  lemma EchoExactness(buffer: seq<byte>, events: seq<Event>)
    requires |buffer| == BUFFER_SIZE && Run(buffer, events).Some?
    ensures var x := Run(buffer, events).value;
            && |x.posted| == (if HasFailed(events) then 0 else 1) && |x.buffer| == BUFFER_SIZE
            && x.sent <= x.toSend <= BUFFER_SIZE
            && x.echoed <= x.received
            && x.received == x.echoed + (if x.last.OPTION_SEND? then x.buffer[x.sent..x.toSend] else [])
            && (x.posted != [] && x.posted[0].Recv? ==>
                  x.last.OPTION_RECV? && x.posted[0] == Recv(0, BUFFER_SIZE) && x.echoed == x.received)
            && (x.posted != [] && x.posted[0].Send? ==>
                  && x.last.OPTION_SEND? && x.posted[0] == Send(x.sent, x.toSend - x.sent) && x.sent < x.toSend
                  && x.received == x.echoed + x.buffer[x.sent..x.toSend])
  {
    RunKeepsInv(buffer, events);
  }

  /** A failed operation leaves the context registered, with nothing outstanding and no further event to come. */
  lemma FailureStrands(buffer: seq<byte>, events: seq<Event>, more: seq<Event>)
    requires |buffer| == BUFFER_SIZE && Run(buffer, events).Some? && HasFailed(events)
    ensures Run(buffer, events + more) == Run(buffer, events)
  {
    if more == [] {
      assert events + more == events;
    } else {
      var n := |more| - 1;
      assert (events + more)[..|events + more| - 1] == events + more[..n];
      FailureStrands(buffer, events, more[..n]);
      RunKeepsInv(buffer, events);
    }
  }

  /** The shortest such run: the first receive fails. */
  lemma FailedReceiveWitness(buffer: seq<byte>)
    requires |buffer| == BUFFER_SIZE
    ensures Run(buffer, [Event(Failed(0), true)]) == Some(Accepted(buffer).(posted := []))
  {
    assert [Event(Failed(0), true)][..0] == [];
    FailedKeepsInv(Accepted(buffer), Failed(0), true);
  }

  // ----- which contexts survive, and what they do

  /** The completion carries bytes. */
  predicate HasBytes(e: Completion)
  {
    match e
    case Received(_, data) => |data| > 0
    case Sent(_, n) => n > 0
    case Failed(_) => false
  }

  /** A completion removes the context exactly when it did not fail and carries no bytes, or the next call fails. */
  lemma SurvivesExactly(x: Context, e: Completion, posts: bool)
    requires Inv(x) && Possible(x, e)
    ensures Next(x, e, posts).Some? <==> e.Failed? || (HasBytes(e) && posts)
  {
    assert x.last.OPTION_RECV? || x.last.OPTION_SEND?;
  }

  /** The k-th event finds a context and, if the system can report it at all, leaves one. */
  ghost predicate Survives(buffer: seq<byte>, events: seq<Event>, k: nat)
    requires k < |events|
  {
    var x := Run(buffer, events[..k]);
    x.Some? && (Possible(x.value, events[k].e) ==> events[k].e.Failed? || (HasBytes(events[k].e) && events[k].posts))
  }

  lemma SurvivesPrefix(buffer: seq<byte>, events: seq<Event>, n: nat, k: nat)
    requires k < n <= |events|
    ensures Survives(buffer, events[..n], k) <==> Survives(buffer, events, k)
  {
    assert events[..n][..k] == events[..k] && events[..n][k] == events[k];
  }

  lemma LastSurvives(buffer: seq<byte>, events: seq<Event>, n: nat)
    requires |buffer| == BUFFER_SIZE && |events| == n + 1
    ensures Run(buffer, events).Some? <==> Survives(buffer, events, n)
  {
    if Run(buffer, events[..n]).Some? {
      RunKeepsInv(buffer, events[..n]);
      var x := Run(buffer, events[..n]).value;
      if Possible(x, events[n].e) {
        SurvivesExactly(x, events[n].e, events[n].posts);
      }
    }
  }

  /**
   A run keeps its context exactly when each completion that the system could report either failed, or
   carried bytes and was followed up.
   */
  lemma {:induction false} RunSurvivesExactly(buffer: seq<byte>, events: seq<Event>)
    requires |buffer| == BUFFER_SIZE
    ensures Run(buffer, events).Some? <==> forall k :: 0 <= k < |events| ==> Survives(buffer, events, k)
  {
    if events != [] {
      var n := |events| - 1;
      RunSurvivesExactly(buffer, events[..n]);
      forall k | 0 <= k < n
        ensures Survives(buffer, events[..n], k) <==> Survives(buffer, events, k)
      {
        SurvivesPrefix(buffer, events, n, k);
      }
      LastSurvives(buffer, events, n);
    }
  }

  /** A message of `n > 0` bytes is in the buffer, and a send of exactly these bytes is posted. */
  lemma MessageIsSent(x: Context, data: seq<byte>)
    requires Inv(x) && x.last.OPTION_RECV? && Possible(x, Received(0, data)) && data != []
    ensures var y := Next(x, Received(0, data), true);
            && y.Some?
            && y.value.last.OPTION_SEND? && y.value.toSend == |data| && y.value.sent == 0
            && y.value.posted == [Send(0, |data|)] && y.value.buffer[..|data|] == data
            && y.value.received == x.received + data && y.value.echoed == x.echoed
  {
    assert x.posted[..0] + x.posted[1..] == [];
    assert x.buffer[..0] + data + x.buffer[|data|..] == data + x.buffer[|data|..];
  }

  /** After a send of part of the message the rest is posted; after the last part, the next receive. */
  lemma RestIsSent(x: Context, n: nat)
    requires Inv(x) && x.last.OPTION_SEND? && Possible(x, Sent(0, n)) && n > 0
    ensures var y := Next(x, Sent(0, n), true);
            && y.Some? && y.value.received == x.received
            && y.value.echoed == x.echoed + x.buffer[x.sent..x.sent + n]
            && (x.sent + n < x.toSend ==>
                  && y.value.last.OPTION_SEND? && y.value.sent == x.sent + n && y.value.toSend == x.toSend
                  && y.value.posted == [Send(x.sent + n, x.toSend - (x.sent + n))] && y.value.buffer == x.buffer)
            && (x.sent + n >= x.toSend ==>
                  y.value.last.OPTION_RECV? && y.value.posted == [Recv(0, BUFFER_SIZE)])
  {
    assert x.posted[..0] + x.posted[1..] == [];
  }

  /** The context after sends of the given numbers of bytes, each followed up. */
  function AfterSends(x: Context, ns: seq<nat>): Option<Context>
    decreases |ns|
  {
    if ns == [] then Some(x)
    else
      var y := Next(x, Sent(0, ns[0]), true);
      if y.None? then None else AfterSends(y.value, ns[1..])
  }

  function Total(ns: seq<nat>): nat { if ns == [] then 0 else ns[0] + Total(ns[1..]) }

  lemma {:induction false} SendsFinish(x: Context, ns: seq<nat>)
    requires Inv(x) && x.last.OPTION_SEND? && x.posted != []
    requires (forall i :: 0 <= i < |ns| ==> ns[i] > 0) && Total(ns) == x.toSend - x.sent
    ensures var y := AfterSends(x, ns);
            && y.Some? && y.value.last.OPTION_RECV? && y.value.posted == [Recv(0, BUFFER_SIZE)]
            && y.value.echoed == y.value.received == x.received
    decreases |ns|
  {
    assert ns != [];
    assert ns[0] <= Total(ns);
    RestIsSent(x, ns[0]);
    var y := Next(x, Sent(0, ns[0]), true).value;
    SentKeepsInv(x, Sent(0, ns[0]), true);
    if x.sent + ns[0] < x.toSend {
      SendsFinish(y, ns[1..]);
    } else {
      NothingLeft(ns[1..]);
    }
  }

  lemma NothingLeft(ns: seq<nat>)
    requires (forall i :: 0 <= i < |ns| ==> ns[i] > 0) && Total(ns) == 0
    ensures ns == []
  {
  }

  /**
   A message is echoed in full: received while everything before it is echoed, and sent in any positive
   parts that add up to it, it ends with all bytes echoed in order and the next receive posted.
   */
  lemma MessageIsEchoed(x: Context, data: seq<byte>, ns: seq<nat>)
    requires Inv(x) && x.last.OPTION_RECV? && Possible(x, Received(0, data)) && data != []
    requires (forall i :: 0 <= i < |ns| ==> ns[i] > 0) && Total(ns) == |data|
    ensures var y := Next(x, Received(0, data), true);
            && y.Some?
            && var z := AfterSends(y.value, ns);
               && z.Some? && z.value.echoed == x.echoed + data == z.value.received
               && z.value.posted == [Recv(0, BUFFER_SIZE)] && z.value.last.OPTION_RECV?
  {
    MessageIsSent(x, data);
    ReceivedKeepsInv(x, Received(0, data), true);
    SendsFinish(Next(x, Received(0, data), true).value, ns);
  }

  /** Such sends are a run: they continue the events before them. */
  lemma {:induction false} SendsAreRun(buffer: seq<byte>, before: seq<Event>, ns: seq<nat>)
    requires Run(buffer, before).Some?
    ensures Run(buffer, before + seq(|ns|, i requires 0 <= i < |ns| => Event(Sent(0, ns[i]), true))) ==
            AfterSends(Run(buffer, before).value, ns)
    decreases |ns|
  {
    var events := seq(|ns|, i requires 0 <= i < |ns| => Event(Sent(0, ns[i]), true));
    if ns == [] {
      assert before + events == before;
    } else {
      var first := before + [events[0]];
      assert first[..|first| - 1] == before;
      var rest := seq(|ns[1..]|, i requires 0 <= i < |ns[1..]| => Event(Sent(0, ns[1..][i]), true));
      assert before + events == first + rest;
      if Run(buffer, first).Some? {
        SendsAreRun(buffer, first, ns[1..]);
      } else {
        RunStaysNone(buffer, first, rest);
      }
    }
  }

  lemma {:induction false} RunStaysNone(buffer: seq<byte>, before: seq<Event>, more: seq<Event>)
    requires Run(buffer, before).None?
    ensures Run(buffer, before + more).None?
    decreases |more|
  {
    if more == [] {
      assert before + more == before;
    } else {
      var n := |more| - 1;
      assert (before + more)[..|before + more| - 1] == before + more[..n];
      RunStaysNone(buffer, before, more[..n]);
    }
  }

  // ----- the objects

  class ClientContext {
    const id: uint32
    const buffer: array<byte>
    var lastOption: LastOption
    var numberOfBytesToSend: nat
    var numberOfBytesSent: nat
    ghost var posted: seq<Op>
    ghost var received: seq<byte>
    ghost var echoed: seq<byte>

    ghost function View(): Context
      reads this, buffer
    {
      Context(lastOption, buffer[..], numberOfBytesToSend, numberOfBytesSent, posted, received, echoed)
    }

    constructor (id: uint32)
      ensures this.id == id && fresh(buffer) && buffer.Length == BUFFER_SIZE
      ensures View() == Context(OPTION_NONE, buffer[..], 0, 0, [], [], [])
    {
      this.id := id;
      buffer := new byte[BUFFER_SIZE](_ => 0);
      numberOfBytesToSend, numberOfBytesSent := 0, 0;
      lastOption := OPTION_NONE;
      posted, received, echoed := [], [], [];
    }

    /** acceptConnection posts the first receive of a new context; from there the invariant holds. */
    method PostFirstReceive()
      requires buffer.Length == BUFFER_SIZE && View() == Context(OPTION_NONE, buffer[..], 0, 0, [], [], [])
      modifies this`lastOption, this`posted
      ensures View() == Accepted(buffer[..]) && Inv(View())
    {
      lastOption := OPTION_RECV;
      posted := posted + [Recv(0, buffer.Length)];
    }

    /** The system fills the part of the buffer that begins at `from`. */
    method ReceiveInto(from: nat, e: Completion)
      requires e.Received? && Possible(View(), e) && posted[e.i].from == from
      modifies this`posted, this`received, buffer
      ensures View() == Transfer(old(View()), e)
    {
      ghost var before := buffer[..];
      var i := 0;
      while i < |e.data|
        invariant i <= |e.data| && posted == old(posted) && received == old(received)
        invariant forall k :: 0 <= k < buffer.Length ==>
                    buffer[k] == if from <= k < from + i then e.data[k - from] else before[k]
      {
        buffer[from + i] := e.data[i];
        i := i + 1;
      }
      assert buffer[..] == before[..from] + e.data + before[from + |e.data|..];
      posted := posted[..e.i] + posted[e.i + 1..];
      received := received + e.data;
    }

    /** The system has sent the first bytes of the part it was given. */
    ghost method SendFrom(e: Completion)
      requires e.Sent? && Possible(View(), e)
      modifies this`posted, this`echoed
      ensures View() == Transfer(old(View()), e)
    {
      var op := posted[e.i];
      echoed := echoed + buffer[op.from..op.from + e.n];
      posted := posted[..e.i] + posted[e.i + 1..];
    }

    ghost method GiveUp(e: Completion)
      requires e.Failed? && Possible(View(), e)
      modifies this`posted
      ensures View() == Transfer(old(View()), e)
    {
      posted := posted[..e.i] + posted[e.i + 1..];
    }

    /** The branches of process() on this context; false when the context is to be removed. */
    method React(n: nat, posts: bool) returns (alive: bool)
      requires buffer.Length == BUFFER_SIZE
      requires lastOption.OPTION_SEND? ==> numberOfBytesSent + n <= numberOfBytesToSend <= BUFFER_SIZE
      modifies this
      ensures alive <==> Process(old(View()), n, posts).Some?
      ensures alive <==> n > 0 && (posts || old(lastOption).OPTION_NONE?)
      ensures alive ==> View() == Process(old(View()), n, posts).value
    {
      if n == 0 {
        return false;
      }
      if lastOption.OPTION_RECV? {
        lastOption := OPTION_SEND;
        numberOfBytesToSend := n;
        numberOfBytesSent := 0;
        if !posts {
          return false;
        }
        posted := posted + [Send(0, n)];
      } else if lastOption.OPTION_SEND? {
        numberOfBytesSent := numberOfBytesSent + n;
        if numberOfBytesSent < numberOfBytesToSend {
          lastOption := OPTION_SEND;
          if !posts {
            return false;
          }
          posted := posted + [Send(numberOfBytesSent, numberOfBytesToSend - numberOfBytesSent)];
        } else {
          lastOption := OPTION_RECV;
          if !posts {
            return false;
          }
          posted := posted + [Recv(0, BUFFER_SIZE)];
        }
      }
      return true;
    }

    /** One completion, from the transfer by the system to the next posted operation. */
    method Complete(e: Completion, posts: bool) returns (alive: bool)
      requires buffer.Length == BUFFER_SIZE && Inv(View()) && Possible(View(), e)
      modifies this, buffer
      ensures alive <==> Next(old(View()), e, posts).Some?
      ensures alive ==> View() == Next(old(View()), e, posts).value && Inv(View())
    {
      ghost var x := View();
      if e.Failed? {
        GiveUp(e);
        alive := true;
        FailedKeepsInv(x, e, posts);
      } else if e.Received? {
        ReceiveInto(0, e);
        alive := React(|e.data|, posts);
        if alive {
          ReceivedKeepsInv(x, e, posts);
        }
      } else {
        SendFrom(e);
        alive := React(e.n, posts);
        if alive {
          SentKeepsInv(x, e, posts);
        }
      }
    }
  }

  predicate InUse(contexts: set<uint32>, id: uint32) { id in contexts || id == INVALID_CLIENT_CONTEXT_ID }

  lemma AllInUse(contexts: set<uint32>, id: uint32, d: int)
    requires 1 <= d <= UINT32_VALUES && After(id, d) == id
    requires forall e :: 0 <= e < d ==> InUse(contexts, After(id, e))
    ensures forall k: uint32 :: InUse(contexts, k)
  {
    var seen := contexts + {INVALID_CLIENT_CONTEXT_ID};
    assert forall e :: 0 <= e < d ==> After(id, e) in seen;
    assert After(id, 0) == id;
    AllReached(id, seen, d);
    assert forall k: uint32 :: k in seen ==> InUse(contexts, k);
  }

  /**
   The search of createClientContext: the first id from `id` on that is neither in use nor reserved.
   None when there is none: the original then goes round for ever.
   */
  method FreeId(contexts: set<uint32>, id: uint32) returns (r: Option<uint32>)
    ensures r.None? <==> forall k: uint32 :: InUse(contexts, k)
    ensures r.Some? ==>
              && !InUse(contexts, r.value)
              && exists d :: 0 <= d < UINT32_VALUES && r.value == After(id, d) &&
                   forall e :: 0 <= e < d ==> InUse(contexts, After(id, e))
  {
    var next := id;
    ghost var d := 0;
    while InUse(contexts, next)
      invariant 0 <= d < UINT32_VALUES && next == After(id, d)
      invariant forall e :: 0 <= e < d ==> InUse(contexts, After(id, e))
      decreases UINT32_VALUES - d
    {
      AfterNext(id, d);
      next := (next + 1) % UINT32_VALUES;
      d := d + 1;
      if next == id {
        AllInUse(contexts, id, d);
        return None;
      }
    }
    return Some(next);
  }
}
