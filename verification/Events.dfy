/** Completion tokens and the allocator of the 32-bit keys that identify event handlers. */
module Events {
  import opened Basics

  /** An Event shares its storage with its token: the key is the low word, the option the high word. */
  datatype Event = Event(key: uint32, opt: uint32)
  {
    function GetToken(): int { key + opt * UINT32_VALUES }

    function SetOpt(o: uint32): Event { this.(opt := o) }
  }

  function FromToken(token: int): Event
    requires 0 <= token < UINT32_VALUES * UINT32_VALUES
  {
    Event(token % UINT32_VALUES, token / UINT32_VALUES)
  }

  /** A token carries key and option unchanged, in both directions, and setting the option keeps the key. */
  lemma TokenRoundTrip(e: Event, o: uint32, token: int)
    requires 0 <= token < UINT32_VALUES * UINT32_VALUES
    ensures 0 <= e.GetToken() < UINT32_VALUES * UINT32_VALUES && FromToken(e.GetToken()) == e
    ensures FromToken(token).GetToken() == token
    ensures 0 <= e.SetOpt(o).GetToken() < UINT32_VALUES * UINT32_VALUES
    ensures FromToken(e.SetOpt(o).GetToken()) == Event(e.key, o)
    ensures e.GetToken() % 0x1_0000_0000 == e.key && e.GetToken() / 0x1_0000_0000 == e.opt
  {
  }

  class EventHandlerManager<H> {
    var handlers: map<uint32, H>
    var lastKey: uint32

    constructor ()
      ensures handlers == map[] && lastKey == 0
    {
      handlers := map[];
      lastKey := 0;
    }

    /** None stands for the exception "no more space for new event handler". */
    method Add(handler: H) returns (r: Option<Event>)
      modifies this
      ensures r.None? <==> forall k: uint32 :: k in old(handlers)
      ensures r.None? ==> handlers == old(handlers) && lastKey == old(lastKey)
      ensures r.Some? ==>
                && r.value.key !in old(handlers)
                && handlers == old(handlers)[r.value.key := handler]
                && lastKey == r.value.key
                && exists d :: 1 <= d <= UINT32_VALUES && r.value.key == After(old(lastKey), d) &&
                     forall e :: 1 <= e < d ==> After(old(lastKey), e) in old(handlers)
    {
      var before := lastKey;
      lastKey := (lastKey + 1) % UINT32_VALUES;
      ghost var d := 1;
      while lastKey in handlers
        invariant 1 <= d <= UINT32_VALUES && lastKey == After(before, d) && handlers == old(handlers)
        invariant forall e :: 1 <= e < d ==> After(before, e) in handlers
        decreases UINT32_VALUES - d
      {
        if lastKey == before {
          AllReached(before, handlers.Keys, d);
          return None;
        }
        lastKey := (lastKey + 1) % UINT32_VALUES;
        d := d + 1;
      }
      handlers := handlers[lastKey := handler];
      var opt: uint32 := *; // the constructor of Event leaves it unset
      return Some(Event(lastKey, opt));
    }

    method Contains(key: uint32) returns (present: bool)
      ensures present <==> key in handlers
    {
      present := key in handlers;
    }

    /** None stands for the exception "failed to find eventHandler". */
    method Get(key: uint32) returns (r: Option<H>)
      ensures r == if key in handlers then Some(handlers[key]) else None
    {
      if key !in handlers {
        return None;
      }
      return Some(handlers[key]);
    }

    method Remove(key: uint32)
      modifies this`handlers
      ensures handlers == old(handlers) - {key}
    {
      handlers := handlers - {key};
    }
  }
}
