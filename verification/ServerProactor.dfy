/**
 The proactor of the server as an object: handlers register themselves under a fresh key, completions are
 dispatched to them by key, and complete handlers are removed.
 */
module ServerProactor {
  import opened Basics
  import opened ServerHandlers
  import E = Events

  class Proactor {
    const manager: E.EventHandlerManager<EventHandler>
    var stopped: bool
    /** Per key, the operations issued to gRPC and not yet delivered, and the methods served so far. */
    ghost var ops: map<Key, seq<Opt>>
    ghost var started: set<Slot>

    constructor ()
      ensures Valid() && fresh(manager) && View() == IDLE
    {
      manager := new E.EventHandlerManager<EventHandler>();
      stopped := false;
      ops, started := map[], {};
      new;
      assert HandlerViews(manager.handlers) == map[];
    }

    ghost function View(): Server
      reads this, manager, manager.handlers.Values
    {
      Server(HandlerViews(manager.handlers), ops, started, stopped)
    }

    /** Each key has its own handler. */
    ghost predicate Valid()
      reads this, manager
    {
      forall j, k :: j in manager.handlers && k in manager.handlers && manager.handlers[j] == manager.handlers[k] ==> j == k
    }

    /** None when the proactor has stopped or, as an exception, when all keys are in use. */
    method RegisterHandler(handler: EventHandler) returns (key: Option<Key>)
      requires Valid() && handler !in manager.handlers.Values
      modifies this`ops, manager
      ensures key.None? <==> stopped || forall k: Key :: k in old(manager.handlers)
      ensures key.None? ==> manager.handlers == old(manager.handlers) && ops == old(ops)
      ensures key.Some? ==>
                && key.value !in old(manager.handlers)
                && manager.handlers == old(manager.handlers)[key.value := handler]
                && ops == old(ops)[key.value := old(Ops(View(), key.value)) + [RECEIVE]]
      ensures Valid()
    {
      if stopped {
        return None;
      }
      var event := manager.Add(handler);
      if event.None? {
        return None;
      }
      ops := ops[event.value.key := (if event.value.key in ops then ops[event.value.key] else []) + [RECEIVE]];
      return Some(event.value.key);
    }

    /** The constructor of a handler registers it; its View is that of the registration in the machine. */
    method NewHandler(slot: Slot) returns (key: Option<Key>)
      requires Valid()
      modifies this`ops, manager
      ensures key.None? <==> stopped || forall k: Key :: k in old(manager.handlers)
      ensures key.None? ==> View() == old(View()) && manager.handlers == old(manager.handlers)
      ensures key.Some? ==>
                && key.value !in old(manager.handlers)
                && View() == Register(old(View()), slot, key.value)
                && key.value in manager.handlers && fresh(manager.handlers[key.value])
                && manager.handlers == old(manager.handlers)[key.value := manager.handlers[key.value]]
      ensures Valid()
    {
      var handler := new EventHandler(slot.kind, slot.cq);
      key := RegisterHandler(handler);
      if key.Some? {
        ViewsAdd(old(manager.handlers), key.value, handler);
      }
    }

    /** Sets up a method on a queue, as demultiplex does before its loop; all keys in use is an exception. */
    method ServeMethod(slot: Slot) returns (ok: bool, key: Option<Key>)
      requires Valid() && slot !in started
      modifies this`ops, this`started, manager
      ensures ok && key.Some? ==>
                key.value !in old(manager.handlers) && View() == Next(old(View()), Serve(slot, key.value))
      ensures ok && key.None? ==> stopped && View() == old(View()).(started := old(started) + {slot})
      ensures !ok ==> !stopped && forall k: Key :: k in old(manager.handlers)
      ensures Valid()
    {
      key := NewHandler(slot);
      ok := key.Some? || stopped;
      if ok {
        started := started + {slot};
      }
    }

    method Stop()
      modifies this`stopped
      ensures View() == Next(old(View()), ServerHandlers.Label.Stop)
      ensures stopped
    {
      stopped := true;
    }

    /** Issues the handler's next operation to gRPC. */
    ghost method IssueOp(key: Key, issue: ServerHandlers.Issue)
      modifies this`ops
      ensures ops == if issue.Issue? then AddOp(old(View()), key, issue.opt).ops else old(ops)
    {
      if issue.Issue? {
        ops := AddOp(View(), key, issue.opt).ops;
      }
    }

    /** Lets the handler of `key` react. */
    method ProcessToken(key: Key, opt: Opt, optOk: bool, request: string) returns (issue: Issue, register: bool)
      requires Valid() && key in manager.handlers
      modifies manager.handlers[key]
      ensures var r := Reaction(manager.handlers[key].View(), issue, register);
              && r == React(old(manager.handlers[key].View()), opt, optOk, request)
              && HandlerViews(manager.handlers) == old(HandlerViews(manager.handlers))[key := r.h]
    {
      var handler := manager.handlers[key];
      issue, register := handler.Process(opt, optOk, request);
      assert forall k :: k in manager.handlers && k != key ==> manager.handlers[k] != handler;
    }

    /** Issues the handler's operation and removes the handler if it is complete. */
    method SettleHandler(key: Key, issue: Issue, ghost r: Reaction)
      requires Valid() && key in manager.handlers && r.issue == issue && r.h == manager.handlers[key].View()
      modifies this`ops, manager
      ensures View() == Settle(old(View()), key, r) && Valid()
    {
      ghost var before := View();
      assert before.handlers[key := r.h] == before.handlers;
      IssueOp(key, issue);
      if manager.handlers[key].finish {
        manager.Remove(key);
        assert HandlerViews(manager.handlers) == before.handlers - {key};
      }
    }

    /** The successor that a handler makes on RECEIVE; false when all keys are in use. */
    method RegisterSuccessor(register: bool, slot: Slot) returns (ok: bool, newKey: Option<Key>)
      requires Valid()
      modifies this`ops, manager
      ensures Valid()
      ensures !ok ==> forall k: Key :: k in old(manager.handlers)
      ensures newKey.Some? ==> newKey.value !in old(manager.handlers)
      ensures ok ==> (newKey.Some? <==> register && !stopped)
      ensures ok ==> View() == if newKey.Some? then Register(old(View()), slot, newKey.value) else old(View())
      ensures ok ==> forall k :: k in old(manager.handlers) ==>
                k in manager.handlers && manager.handlers[k] == old(manager.handlers)[k]
    {
      if !register {
        return true, None;
      }
      newKey := NewHandler(slot);
      ok := newKey.Some? || stopped;
    }

    /**
     One turn of the demultiplexing loop for the token of the i-th outstanding operation of `key`. False
     when the successor finds all keys in use, which is an exception; otherwise the proactor goes where
     the machine goes, with the key that the successor got.
     */
    method Dispatch(key: Key, ghost i: nat, opt: Opt, optOk: bool, request: string)
      returns (ok: bool, newKey: Option<Key>)
      requires Valid() && i < |Ops(View(), key)| && Ops(View(), key)[i] == opt
      modifies this`ops, manager, manager.handlers.Values
      ensures Valid()
      ensures newKey.Some? ==> newKey.value !in old(manager.handlers)
      ensures ok ==> Delivered(old(View()), View(), key, i, optOk, request, newKey)
      ensures !ok ==> forall k: Key :: k in old(manager.handlers)
    {
      ok, newKey := true, None;
      ghost var before := View();
      ops := TakeOp(before, key, i).ops;
      var known := manager.Contains(key);
      if !known {
        return;
      }
      var handler := manager.handlers[key];
      var issue, register := ProcessToken(key, opt, optOk, request);
      ghost var r := Reaction(handler.View(), issue, register);
      ok, newKey := RegisterSuccessor(register, Slot(handler.kind, handler.cq));
      if !ok {
        return;
      }
      ghost var registered := View();
      SettleHandler(key, issue, r);
      DispatchIs(before, registered, View(), key, i, optOk, request, r, newKey);
    }
  }

  /** The machine goes from `before` to `after`, with any free key where no successor is registered. */
  ghost predicate Delivered(
    before: Server, after: Server, key: Key, i: nat, optOk: bool, request: string, newKey: Option<Key>)
  {
    forall k: Key :: k !in before.handlers && (newKey.Some? ==> k == newKey.value) ==>
      after == Next(before, Deliver(key, i, optOk, request, k))
  }

  /** Registering and updating the handler commute, so the turn is the machine's. */
  lemma DispatchIs(before: Server, registered: Server, after: Server, key: Key, i: nat, optOk: bool, request: string,
                   r: Reaction, newKey: Option<Key>)
    requires key in before.handlers && i < |Ops(before, key)|
    requires r == React(before.handlers[key], Ops(before, key)[i], optOk, request)
    requires var s := TakeOp(before, key, i).(handlers := before.handlers[key := r.h]);
             registered == if newKey.Some? then Register(s, SlotOf(r.h), newKey.value) else s
    requires newKey.Some? ==> newKey.value !in before.handlers
    requires newKey.Some? <==> r.register && !before.stopped
    requires after == Settle(registered, key, r)
    ensures Delivered(before, after, key, i, optOk, request, newKey)
  {
    forall k: Key | k !in before.handlers && (newKey.Some? ==> k == newKey.value)
      ensures after == Next(before, Deliver(key, i, optOk, request, k))
    {
      var s := TakeOp(before, key, i);
      SettleCommutes(if newKey.Some? then Register(s, SlotOf(r.h), k) else s, registered, key, r);
    }
  }

  lemma SettleCommutes(s: Server, registered: Server, key: Key, r: Reaction)
    requires registered.handlers == s.handlers[key := r.h]
    requires registered == s.(handlers := registered.handlers)
    ensures Settle(registered, key, r) == Settle(s, key, r)
  {
    assert s.handlers[key := r.h] - {key} == s.handlers - {key};
    assert s.handlers[key := r.h][key := r.h] == s.handlers[key := r.h];
  }

  ghost function HandlerViews(handlers: map<Key, EventHandler>): map<Key, Handler>
    reads handlers.Values
  {
    map k | k in handlers :: handlers[k].View()
  }

  lemma ViewsAdd(handlers: map<Key, EventHandler>, key: Key, handler: EventHandler)
    requires key !in handlers
    ensures HandlerViews(handlers[key := handler]) == HandlerViews(handlers)[key := handler.View()]
  {
  }
}
