/** What becomes of a handler, and of its call, when one of its operations is delivered. */
module HandlerOutcomes {
  import opened Basics
  import opened ServerHandlers

  /** The handler is gone and nothing of it is outstanding. */
  predicate Gone(s: Server, key: Key) { key !in s.handlers && Ops(s, key) == [] }

  /** The handler stays with `opt` as its only operation. */
  predicate Stays(s: Server, key: Key, opt: Opt) { key in s.handlers && Ops(s, key) == [opt] }

  /** The operation a handler of this kind starts on a call it has received. */
  function FirstOp(kind: Kind): Opt
  {
    match kind
    case Unary(_) => FINISH
    case Listen => WRITE
    case Speak => READ
    case Talk => READ
  }

  lemma DeliverSettles(s: Server, key: Key, ok: bool, request: string, newKey: Key)
    requires KeyOk(s, key) && key in s.handlers && newKey !in s.handlers
    ensures var r := React(s.handlers[key], Ops(s, key)[0], ok, request);
            var d := Next(s, Deliver(key, 0, ok, request, newKey));
            && Ops(d, key) == (if r.issue.Issue? then [r.issue.opt] else [])
            && (key in d.handlers <==> !r.h.finish)
            && (key in d.handlers ==> d.handlers[key] == r.h)
            && (newKey in d.handlers <==> r.register && !s.stopped)
  {
  }

  /** A call whose RECEIVE failed ends the handler at once, for every kind; its successor waits for the next one. */
  lemma FailedReceive(schedule: seq<Label>, key: Key, request: string, newKey: Key)
    requires var s := Exec(IDLE, schedule); key in s.handlers && Ops(s, key) == [RECEIVE] && newKey !in s.handlers
    ensures var s := Exec(IDLE, schedule); var d := Next(s, Deliver(key, 0, false, request, newKey));
            Gone(d, key) && (!s.stopped ==> Stays(d, newKey, RECEIVE) && SlotOf(d.handlers[newKey]) == SlotOf(s.handlers[key]))
  {
    ExecInv(schedule);
    var s := Exec(IDLE, schedule);
    assert KeyOk(s, key) && KeyOk(s, newKey);
    DeliverSettles(s, key, false, request, newKey);
    Succeeds(s, key, false, request, newKey);
  }

  /** A received call is started, for every kind, and a successor waits for the next one. */
  lemma ReceivedCall(schedule: seq<Label>, key: Key, request: string, newKey: Key)
    requires var s := Exec(IDLE, schedule); key in s.handlers && Ops(s, key) == [RECEIVE] && newKey !in s.handlers
    ensures var s := Exec(IDLE, schedule); var d := Next(s, Deliver(key, 0, true, request, newKey));
            && Stays(d, key, FirstOp(s.handlers[key].kind))
            && (!s.stopped ==> Stays(d, newKey, RECEIVE) && SlotOf(d.handlers[newKey]) == SlotOf(s.handlers[key]))
  {
    ExecInv(schedule);
    var s := Exec(IDLE, schedule);
    assert KeyOk(s, key) && KeyOk(s, newKey);
    DeliverSettles(s, key, true, request, newKey);
    Succeeds(s, key, true, request, newKey);
  }

  lemma Succeeds(s: Server, key: Key, ok: bool, request: string, newKey: Key)
    requires KeyOk(s, key) && KeyOk(s, newKey) && key in s.handlers && newKey !in s.handlers && Ops(s, key) == [RECEIVE]
    ensures var d := Next(s, Deliver(key, 0, ok, request, newKey));
            !s.stopped ==> Stays(d, newKey, RECEIVE) && SlotOf(d.handlers[newKey]) == SlotOf(s.handlers[key])
  {
  }

  /**
   A unary call, such as greet: received, it is answered with "Me too!" and waits for that answer to be
   sent; then, and only then, its handler is removed. It never does anything else.
   */
  lemma UnaryIsAnswered(schedule: seq<Label>, key: Key, ok: bool, request: string, newKey: Key)
    requires var s := Exec(IDLE, schedule); key in s.handlers && s.handlers[key].kind.Unary? && newKey !in s.handlers
    ensures var s := Exec(IDLE, schedule); var d := Next(s, Deliver(key, 0, ok, request, newKey));
            && (Ops(s, key) == [RECEIVE] || Ops(s, key) == [FINISH])
            && (Ops(s, key) == [RECEIVE] && ok ==>
                  && Stays(d, key, FINISH)
                  && React(s.handlers[key], RECEIVE, ok, request).issue == Issue(FINISH, "Me too!"))
            && (Ops(s, key) == [RECEIVE] && !ok ==> Gone(d, key))
            && (Ops(s, key) == [FINISH] ==> Gone(d, key))
  {
    ExecInv(schedule);
    var s := Exec(IDLE, schedule);
    assert KeyOk(s, key);
    DeliverSettles(s, key, ok, request, newKey);
  }

  /** The streams: what each further completion leads to, failures included. */
  lemma StreamGoesOn(schedule: seq<Label>, key: Key, op: Opt, ok: bool, request: string, newKey: Key)
    requires var s := Exec(IDLE, schedule); key in s.handlers && !s.handlers[key].kind.Unary? && newKey !in s.handlers
    requires Ops(Exec(IDLE, schedule), key) == [op]
    ensures var s := Exec(IDLE, schedule); var d := Next(s, Deliver(key, 0, ok, request, newKey)); var h := s.handlers[key];
            && (op.FINISH? ==> Gone(d, key))
            && (op.READ? && !ok ==> Stays(d, key, FINISH))
            && (op.READ? && ok ==> Stays(d, key, if h.kind.Speak? then READ else WRITE))
            && (op.WRITE? && h.kind.Listen? && !ok ==> Gone(d, key))
            && (op.WRITE? && h.kind.Listen? && ok ==> Stays(d, key, if h.responses == [] then FINISH else WRITE))
            && (op.WRITE? && h.kind.Talk? ==> Stays(d, key, if ok then READ else WRITE))
  {
    ExecInv(schedule);
    var s := Exec(IDLE, schedule);
    assert KeyOk(s, key);
    DeliverSettles(s, key, ok, request, newKey);
  }

  // ----- serving and stopping

  /** Once served, and unless stopped, a method has its handler waiting for the first call. */
  lemma ServeStarts(schedule: seq<Label>, slot: Slot, newKey: Key)
    requires var s := Exec(IDLE, schedule); slot !in s.started && newKey !in s.handlers
    ensures var s := Exec(IDLE, schedule); var d := Next(s, Serve(slot, newKey));
            slot in d.started && (!s.stopped ==> Awaits(d, newKey, slot) && Stays(d, newKey, RECEIVE))
  {
    ExecInv(schedule);
    assert KeyOk(Exec(IDLE, schedule), newKey);
  }

  lemma StepStops(s: Server, l: Label)
    ensures Next(s, l).stopped <==> s.stopped || l.Stop?
  {
  }

  /** The server is stopped exactly when stop() was called. */
  lemma {:induction false} StoppedExactly(schedule: seq<Label>)
    ensures Exec(IDLE, schedule).stopped <==> exists k :: 0 <= k < |schedule| && schedule[k].Stop?
  {
    if schedule != [] {
      var n := |schedule| - 1;
      StoppedExactly(schedule[..n]);
      StepStops(Exec(IDLE, schedule[..n]), schedule[n]);
      if exists k :: 0 <= k < n && schedule[k].Stop? {
        var k :| 0 <= k < n && schedule[k].Stop?;
        assert schedule[..n][k].Stop?;
      }
    }
  }

  /** After stop() no new handler waits for a call. */
  lemma StopIsFinal(schedule: seq<Label>, l: Label, key: Key, slot: Slot)
    requires var s := Exec(IDLE, schedule); s.stopped && Awaits(Next(s, l), key, slot)
    ensures Awaits(Exec(IDLE, schedule), key, slot)
  {
    var s := Exec(IDLE, schedule);
    ExecInv(schedule);
    assert KeyOk(s, key);
    if Enabled(s, l) && l.Deliver? {
      assert KeyOk(s, l.key) && KeyOk(s, l.newKey);
      DeliverAwaits(s, l.key, l.ok, l.request, l.newKey, key, slot);
    }
  }
}
