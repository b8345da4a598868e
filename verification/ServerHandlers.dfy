/**
 The event handlers of the asynchronous chat server and the loop that dispatches completions to
 them. gRPC is only assumed to deliver each issued token once, with any `ok` flag and in any order.
 */
module ServerHandlers {
  import opened Basics

  datatype Opt = RECEIVE | FINISH | WRITE | READ

  /** The unary methods (greet, and those of the hello and goodbye services) share one shape. */
  datatype Kind = Unary(method_: nat) | Listen | Speak | Talk

  /** `responses` is the queue of the listen handler; `written` records what was passed to Write. */
  datatype Handler = Handler(kind: Kind, cq: nat, finish: bool, responses: seq<string>, written: seq<string>)

  /** The operation started at the end of process(), with the message it carries. */
  datatype Issue = NoIssue | Issue(opt: Opt, content: string)

  datatype Reaction = Reaction(h: Handler, issue: Issue, register: bool)

  const GREETINGS := ["aaa", "bbb", "ccc"]

  function Fresh(kind: Kind, cq: nat): Handler { Handler(kind, cq, false, [], []) }

  function Finished(h: Handler): Handler { h.(finish := true) }

  /** Pop the front response and write it. */
  function WriteFront(h: Handler, register: bool): Reaction
    requires h.responses != []
  {
    var m := h.responses[0];
    Reaction(h.(responses := h.responses[1..], written := h.written + [m]), Issue(WRITE, m), register)
  }

  function ReactUnary(h: Handler, opt: Opt, ok: bool): Reaction
  {
    match opt
    case RECEIVE => if ok then Reaction(h, Issue(FINISH, "Me too!"), true) else Reaction(Finished(h), NoIssue, true)
    case FINISH => Reaction(Finished(h), NoIssue, false)
    case _ => Reaction(h, NoIssue, false)
  }

  function ReactListen(h: Handler, opt: Opt, ok: bool): Reaction
  {
    match opt
    case RECEIVE =>
      if ok then WriteFront(h.(responses := h.responses + GREETINGS), true)
      else Reaction(Finished(h), NoIssue, true)
    case WRITE =>
      if !ok then Reaction(Finished(h), NoIssue, false)
      else if h.responses == [] then Reaction(h, Issue(FINISH, ""), false)
      else WriteFront(h, false)
    case FINISH => Reaction(Finished(h), NoIssue, false)
    case READ => Reaction(h, NoIssue, false)
  }

  function ReactSpeak(h: Handler, opt: Opt, ok: bool): Reaction
  {
    match opt
    case RECEIVE => if ok then Reaction(h, Issue(READ, ""), true) else Reaction(Finished(h), NoIssue, true)
    case READ => if ok then Reaction(h, Issue(READ, ""), false) else Reaction(h, Issue(FINISH, "OK."), false)
    case FINISH => Reaction(Finished(h), NoIssue, false)
    case WRITE => Reaction(h, NoIssue, false)
  }

  /** `request` is what a successful Read delivered. After a failed Write, Finish keeps the WRITE option. */
  function ReactTalk(h: Handler, opt: Opt, ok: bool, request: string): Reaction
  {
    match opt
    case RECEIVE => if ok then Reaction(h, Issue(READ, ""), true) else Reaction(Finished(h), NoIssue, true)
    case READ =>
      if ok then Reaction(h.(written := h.written + [request]), Issue(WRITE, request), false)
      else Reaction(h, Issue(FINISH, ""), false)
    case WRITE => if ok then Reaction(h, Issue(READ, ""), false) else Reaction(h, Issue(WRITE, ""), false)
    case FINISH => Reaction(Finished(h), NoIssue, false)
  }

  function React(h: Handler, opt: Opt, ok: bool, request: string): Reaction
  {
    match h.kind
    case Unary(_) => ReactUnary(h, opt, ok)
    case Listen => ReactListen(h, opt, ok)
    case Speak => ReactSpeak(h, opt, ok)
    case Talk => ReactTalk(h, opt, ok, request)
  }

  // ----- the handler object

  class EventHandler {
    const kind: Kind
    const cq: nat
    var finish: bool
    var responses: seq<string>
    ghost var written: seq<string>

    ghost function View(): Handler
      reads this
    {
      Handler(kind, cq, finish, responses, written)
    }

    constructor (kind: Kind, cq: nat)
      ensures View() == Fresh(kind, cq)
    {
      this.kind, this.cq := kind, cq;
      finish := false;
      responses, written := [], [];
    }

    /** The override that belongs to the kind. */
    method Process(opt: Opt, ok: bool, request: string) returns (issue: Issue, register: bool)
      modifies this
      ensures Reaction(View(), issue, register) == React(old(View()), opt, ok, request)
    {
      match kind {
        case Unary(_) => issue, register := ProcessUnary(opt, ok);
        case Listen => issue, register := ProcessListen(opt, ok);
        case Speak => issue, register := ProcessSpeak(opt, ok);
        case Talk => issue, register := ProcessTalk(opt, ok, request);
      }
    }

    method ProcessUnary(opt: Opt, ok: bool) returns (issue: Issue, register: bool)
      modifies this
      ensures Reaction(View(), issue, register) == ReactUnary(old(View()), opt, ok)
      ensures opt.RECEIVE? && ok ==> register && issue == Issue(FINISH, "Me too!") && finish == old(finish)
      ensures opt.RECEIVE? && !ok ==> register && issue == NoIssue && finish
      ensures opt.FINISH? ==> !register && issue == NoIssue && finish
    {
      issue, register := NoIssue, false;
      match opt {
        case RECEIVE =>
          register := true;
          if ok {
            issue := Issue(FINISH, "Me too!");
          } else {
            finish := true;
          }
        case FINISH =>
          finish := true;
        case _ =>
      }
    }

    method ProcessSpeak(opt: Opt, ok: bool) returns (issue: Issue, register: bool)
      modifies this
      ensures Reaction(View(), issue, register) == ReactSpeak(old(View()), opt, ok)
      ensures opt.RECEIVE? && ok ==> register && issue == Issue(READ, "") && finish == old(finish)
      ensures opt.RECEIVE? && !ok ==> register && issue == NoIssue && finish
      ensures opt.READ? ==> !register && finish == old(finish) && issue == if ok then Issue(READ, "") else Issue(FINISH, "OK.")
      ensures opt.FINISH? ==> !register && issue == NoIssue && finish
    {
      issue, register := NoIssue, false;
      match opt {
        case RECEIVE =>
          register := true;
          if ok {
            issue := Issue(READ, "");
          } else {
            finish := true;
          }
        case READ =>
          if ok {
            issue := Issue(READ, "");
          } else {
            issue := Issue(FINISH, "OK.");
          }
        case FINISH =>
          finish := true;
        case WRITE =>
      }
    }

    method ProcessListen(opt: Opt, ok: bool) returns (issue: Issue, register: bool)
      modifies this
      ensures Reaction(View(), issue, register) == ReactListen(old(View()), opt, ok)
      ensures opt.RECEIVE? && ok && old(responses) == [] ==>
                register && issue == Issue(WRITE, "aaa") && responses == ["bbb", "ccc"] && finish == old(finish)
      ensures opt.RECEIVE? && !ok ==> register && issue == NoIssue && finish && responses == old(responses)
      ensures opt.WRITE? && ok && old(responses) == [] ==> !register && issue == Issue(FINISH, "") && finish == old(finish)
      ensures opt.WRITE? && ok && old(responses) != [] ==>
                !register && issue == Issue(WRITE, old(responses)[0]) && responses == old(responses)[1..] && finish == old(finish)
      ensures opt.WRITE? && !ok ==> !register && issue == NoIssue && finish && responses == old(responses)
      ensures opt.FINISH? ==> !register && issue == NoIssue && finish
    {
      issue, register := NoIssue, false;
      match opt {
        case RECEIVE =>
          register := true;
          if ok {
            responses := responses + GREETINGS[..1];
            responses := responses + GREETINGS[1..2];
            responses := responses + GREETINGS[2..];
            assert responses == old(responses) + GREETINGS;
            issue := Issue(WRITE, responses[0]);
            written := written + [responses[0]];
            responses := responses[1..];
          } else {
            finish := true;
          }
        case WRITE =>
          if ok {
            if responses == [] {
              issue := Issue(FINISH, "");
            } else {
              issue := Issue(WRITE, responses[0]);
              written := written + [responses[0]];
              responses := responses[1..];
            }
          } else {
            finish := true;
          }
        case FINISH =>
          finish := true;
        case READ =>
      }
    }

    method ProcessTalk(opt: Opt, ok: bool, request: string) returns (issue: Issue, register: bool)
      modifies this
      ensures Reaction(View(), issue, register) == ReactTalk(old(View()), opt, ok, request)
      ensures opt.RECEIVE? && ok ==> register && issue == Issue(READ, "") && finish == old(finish)
      ensures opt.RECEIVE? && !ok ==> register && issue == NoIssue && finish
      ensures opt.READ? ==> !register && finish == old(finish) && issue == if ok then Issue(WRITE, request) else Issue(FINISH, "")
      ensures opt.WRITE? ==> !register && finish == old(finish) && issue == if ok then Issue(READ, "") else Issue(WRITE, "")
      ensures opt.FINISH? ==> !register && issue == NoIssue && finish
    {
      issue, register := NoIssue, false;
      match opt {
        case RECEIVE =>
          register := true;
          if ok {
            issue := Issue(READ, "");
          } else {
            finish := true;
          }
        case READ =>
          if ok {
            issue := Issue(WRITE, request);
            written := written + [request];
          } else {
            issue := Issue(FINISH, "");
          }
        case WRITE =>
          if ok {
            issue := Issue(READ, "");
          } else {
            issue := Issue(opt, "");
          }
        case FINISH =>
          finish := true;
      }
    }
  }

  // ----- the dispatching loop

  type Key = uint32

  /** A method of a service served on one completion queue. */
  datatype Slot = Slot(kind: Kind, cq: nat)

  /** `ops` holds, per key, the operations issued and not yet delivered. */
  datatype Server = Server(
    handlers: map<Key, Handler>, ops: map<Key, seq<Opt>>, started: set<Slot>, stopped: bool)

  datatype Label =
    | Serve(slot: Slot, newKey: Key)
    | Deliver(key: Key, i: nat, ok: bool, request: string, newKey: Key)
    | Stop

  const IDLE := Server(map[], map[], {}, false)

  function Ops(s: Server, k: Key): seq<Opt> { if k in s.ops then s.ops[k] else [] }

  function AddOp(s: Server, k: Key, opt: Opt): Server { s.(ops := s.ops[k := Ops(s, k) + [opt]]) }

  function SlotOf(h: Handler): Slot { Slot(h.kind, h.cq) }

  /** registerHandler: nothing once stopped. `newKey` is the one the key allocator returned. */
  function Register(s: Server, slot: Slot, newKey: Key): Server
  {
    if s.stopped then s
    else AddOp(s.(handlers := s.handlers[newKey := Fresh(slot.kind, slot.cq)]), newKey, RECEIVE)
  }

  predicate Enabled(s: Server, l: Label)
  {
    match l
    case Serve(slot, newKey) => slot !in s.started && newKey !in s.handlers
    case Deliver(key, i, _, _, newKey) => i < |Ops(s, key)| && newKey !in s.handlers
    case Stop => true
  }

  /** The i-th outstanding operation of `key` is delivered. */
  function TakeOp(s: Server, key: Key, i: nat): Server
    requires i < |Ops(s, key)|
  {
    s.(ops := s.ops[key := Ops(s, key)[..i] + Ops(s, key)[i + 1..]])
  }

  /** The handler's operation is issued, and the loop removes the handler if it is complete. */
  function Settle(s: Server, key: Key, r: Reaction): Server
  {
    var s2 := if r.issue.Issue? then AddOp(s, key, r.issue.opt) else s;
    if r.h.finish then s2.(handlers := s2.handlers - {key}) else s2.(handlers := s2.handlers[key := r.h])
  }

  function Dispatch(s: Server, key: Key, opt: Opt, ok: bool, request: string, newKey: Key): Server
    requires key in s.handlers
  {
    var r := React(s.handlers[key], opt, ok, request);
    Settle(if r.register then Register(s, SlotOf(r.h), newKey) else s, key, r)
  }

  /** A token whose key is not registered is logged and dropped. */
  function Next(s: Server, l: Label): Server
  {
    if !Enabled(s, l) then s else
    match l
    case Stop => s.(stopped := true)
    case Serve(slot, newKey) => Register(s, slot, newKey).(started := s.started + {slot})
    case Deliver(key, i, ok, request, newKey) =>
      if key in s.handlers then Dispatch(TakeOp(s, key, i), key, Ops(s, key)[i], ok, request, newKey)
      else TakeOp(s, key, i)
  }

  function Exec(s: Server, schedule: seq<Label>): Server
  {
    if schedule == [] then s
    else Next(Exec(s, schedule[..|schedule| - 1]), schedule[|schedule| - 1])
  }

  /** The options a handler of this kind ever issues. */
  predicate Legal(kind: Kind, opt: Opt)
  {
    match opt
    case RECEIVE => true
    case FINISH => true
    case WRITE => kind.Listen? || kind.Talk?
    case READ => kind.Speak? || kind.Talk?
  }

  predicate Awaits(s: Server, k: Key, slot: Slot)
  {
    k in s.handlers && SlotOf(s.handlers[k]) == slot && RECEIVE in Ops(s, k)
  }

  /** The listen handler has written a prefix of its greetings and queues the rest. */
  predicate ListenOk(h: Handler, awaiting: bool)
  {
    h.kind.Listen? ==> if awaiting then h.written == [] && h.responses == [] else h.written + h.responses == GREETINGS
  }

  /** A registered handler has exactly one outstanding operation, a legal one; any other key has none. */
  ghost predicate KeyOk(s: Server, k: Key)
  {
    && |Ops(s, k)| == (if k in s.handlers then 1 else 0)
    && (k in s.handlers ==>
          var h := s.handlers[k]; var opt := Ops(s, k)[0];
          !h.finish && SlotOf(h) in s.started && Legal(h.kind, opt) && ListenOk(h, opt.RECEIVE?))
  }

  /** Until stop(), each served method has exactly one handler awaiting RECEIVE; after it, at most one. */
  ghost predicate SlotsInv(s: Server)
  {
    && (forall j, k, slot :: Awaits(s, j, slot) && Awaits(s, k, slot) ==> j == k)
    && (!s.stopped ==> forall slot :: slot in s.started ==> exists k :: Awaits(s, k, slot))
  }

  ghost predicate Inv(s: Server)
  {
    (forall k :: KeyOk(s, k)) && SlotsInv(s)
  }

  /** What a reaction to a legal token does: finish, or exactly one legal operation; register exactly on RECEIVE. */
  lemma ReactAccounts(h: Handler, opt: Opt, ok: bool, request: string)
    requires Legal(h.kind, opt) && !h.finish && ListenOk(h, opt.RECEIVE?)
    ensures var r := React(h, opt, ok, request);
            && SlotOf(r.h) == SlotOf(h)
            && (r.h.finish <==> r.issue.NoIssue?)
            && (r.issue.Issue? ==> Legal(h.kind, r.issue.opt) && !r.issue.opt.RECEIVE?)
            && (r.register <==> opt.RECEIVE?)
            && (!r.h.finish ==> ListenOk(r.h, false))
            && (h.kind.Listen? && r.issue.Issue? && r.issue.opt.FINISH? ==> r.h.written == GREETINGS)
  {
    if h.kind.Listen? && opt.RECEIVE? {
      assert h.responses + GREETINGS == GREETINGS;
    }
  }

  lemma DeliverKeepsKeys(s: Server, key: Key, ok: bool, request: string, newKey: Key, k: Key)
    requires key in s.handlers && newKey !in s.handlers && KeyOk(s, key) && KeyOk(s, newKey) && KeyOk(s, k)
    ensures KeyOk(Next(s, Deliver(key, 0, ok, request, newKey)), k)
  {
    ReactAccounts(s.handlers[key], Ops(s, key)[0], ok, request);
    assert Ops(TakeOp(s, key, 0), key) == [];
  }

  /** A delivered RECEIVE is replaced by the one of the newly registered handler. */
  lemma DeliverAwaits(s: Server, key: Key, ok: bool, request: string, newKey: Key, k: Key, slot: Slot)
    requires key in s.handlers && newKey !in s.handlers && KeyOk(s, key) && KeyOk(s, newKey) && KeyOk(s, k)
    ensures var received := Ops(s, key)[0].RECEIVE?;
            Awaits(Next(s, Deliver(key, 0, ok, request, newKey)), k, slot) <==>
            if received && !s.stopped && k == newKey then slot == SlotOf(s.handlers[key])
            else Awaits(s, k, slot) && !(received && k == key)
  {
    ReactAccounts(s.handlers[key], Ops(s, key)[0], ok, request);
    assert Ops(TakeOp(s, key, 0), key) == [];
  }

  lemma DeliverKeepsSlots(s: Server, key: Key, ok: bool, request: string, newKey: Key)
    requires Inv(s) && key in s.handlers && newKey !in s.handlers
    ensures SlotsInv(Next(s, Deliver(key, 0, ok, request, newKey)))
  {
    var s' := Next(s, Deliver(key, 0, ok, request, newKey));
    assert KeyOk(s, key) && KeyOk(s, newKey);
    DeliverFrame(s, key, ok, request, newKey);
    var received := Ops(s, key)[0].RECEIVE?;
    assert received ==> Awaits(s, key, SlotOf(s.handlers[key]));
    forall j, k, slot | Awaits(s', j, slot) && Awaits(s', k, slot)
      ensures j == k
    {
      assert KeyOk(s, j) && KeyOk(s, k);
      DeliverAwaits(s, key, ok, request, newKey, j, slot);
      DeliverAwaits(s, key, ok, request, newKey, k, slot);
    }
    forall slot | !s'.stopped && slot in s'.started
      ensures exists k :: Awaits(s', k, slot)
    {
      var k :| Awaits(s, k, slot);
      var k' := if received && k == key then newKey else k;
      assert KeyOk(s, k');
      DeliverAwaits(s, key, ok, request, newKey, k', slot);
      assert Awaits(s', k', slot);
    }
  }

  lemma DeliverFrame(s: Server, key: Key, ok: bool, request: string, newKey: Key)
    requires key in s.handlers && newKey !in s.handlers && Ops(s, key) != []
    ensures var s' := Next(s, Deliver(key, 0, ok, request, newKey));
            s'.started == s.started && s'.stopped == s.stopped
  {
  }

  lemma ServeKeepsInv(s: Server, slot: Slot, newKey: Key)
    requires Inv(s) && slot !in s.started && newKey !in s.handlers
    ensures Inv(Next(s, Serve(slot, newKey)))
  {
    var s' := Next(s, Serve(slot, newKey));
    forall k
      ensures KeyOk(s', k)
    {
      assert KeyOk(s, k) && KeyOk(s, newKey);
    }
    forall k, a
      ensures Awaits(s', k, a) <==> Awaits(s, k, a) || (!s.stopped && k == newKey && a == slot)
    {
      assert KeyOk(s, k) && KeyOk(s, newKey);
    }
    forall k
      ensures !Awaits(s, k, slot)
    {
      assert KeyOk(s, k);
    }
    forall a | !s'.stopped && a in s'.started
      ensures exists k :: Awaits(s', k, a)
    {
      if a == slot {
        assert Awaits(s', newKey, slot);
      } else {
        var k :| Awaits(s, k, a);
        assert Awaits(s', k, a);
      }
    }
  }

  lemma NextKeepsInv(s: Server, l: Label)
    requires Inv(s)
    ensures Inv(Next(s, l))
  {
    if Enabled(s, l) {
      match l
      case Serve(slot, newKey) => ServeKeepsInv(s, slot, newKey);
      case Deliver(key, i, ok, request, newKey) =>
        assert KeyOk(s, key) && KeyOk(s, newKey);
        forall k
          ensures KeyOk(Next(s, l), k)
        {
          assert KeyOk(s, k);
          DeliverKeepsKeys(s, key, ok, request, newKey, k);
        }
        DeliverKeepsSlots(s, key, ok, request, newKey);
      case Stop =>
        StopKeepsInv(s);
    }
  }

  lemma StopKeepsInv(s: Server)
    requires Inv(s)
    ensures Inv(s.(stopped := true))
  {
    var s' := s.(stopped := true);
    forall k
      ensures KeyOk(s', k)
    {
      assert KeyOk(s, k);
    }
    forall k, slot
      ensures Awaits(s', k, slot) <==> Awaits(s, k, slot)
    {
    }
  }

  lemma {:induction false} ExecInv(schedule: seq<Label>)
    ensures Inv(Exec(IDLE, schedule))
  {
    if schedule != [] {
      var n := |schedule| - 1;
      ExecInv(schedule[..n]);
      NextKeepsInv(Exec(IDLE, schedule[..n]), schedule[n]);
    }
  }

  // ----- main results

  /**
   Accounting over every run: a registered handler has exactly one outstanding operation and an
   unregistered key has none, so each delivered token finds its handler, and no handler ever meets
   an option it does not expect.
   */
  lemma EachHandlerHasOneOperation(schedule: seq<Label>, k: Key)
    ensures var s := Exec(IDLE, schedule);
            && (k in s.handlers <==> |Ops(s, k)| == 1)
            && (k !in s.handlers <==> Ops(s, k) == [])
            && (k in s.handlers ==> !s.handlers[k].finish && Legal(s.handlers[k].kind, Ops(s, k)[0]))
  {
    ExecInv(schedule);
    assert KeyOk(Exec(IDLE, schedule), k);
  }

  /** Until stop(), each method on each queue has exactly one handler awaiting RECEIVE; after it, at most one. */
  lemma OneReceiverPerMethod(schedule: seq<Label>, slot: Slot)
    ensures var s := Exec(IDLE, schedule);
            && (forall j, k :: Awaits(s, j, slot) && Awaits(s, k, slot) ==> j == k)
            && (!s.stopped && slot in s.started ==> exists k :: Awaits(s, k, slot))
  {
    ExecInv(schedule);
  }

  /** A listen handler that is about to finish its call has written its three greetings, in order. */
  lemma ListenWritesAllGreetings(schedule: seq<Label>, k: Key, ok: bool)
    requires var s := Exec(IDLE, schedule);
             && k in s.handlers && s.handlers[k].kind.Listen? && Ops(s, k) != []
             && React(s.handlers[k], Ops(s, k)[0], ok, "").issue == Issue(FINISH, "")
    ensures React(Exec(IDLE, schedule).handlers[k], Ops(Exec(IDLE, schedule), k)[0], ok, "").h.written == GREETINGS
  {
    ExecInv(schedule);
    var s := Exec(IDLE, schedule);
    assert KeyOk(s, k);
    ReactAccounts(s.handlers[k], Ops(s, k)[0], ok, "");
  }
}
