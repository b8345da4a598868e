/** What acquire() and release() do for a thread that nobody interrupts. */
module SemaphoreAlone {
  import opened Basics
  import opened Semaphore

  /** Thread `t` takes `steps` steps by itself; a notify wakes `wakee`. */
  function Alone(s: State, t: nat, wakee: nat, steps: nat): State
    decreases steps
  {
    if steps == 0 then s else Next(Alone(s, t, wakee, steps - 1), Step(t, false, wakee))
  }

  /** With a permit left, acquire() takes one and returns. */
  lemma AcquireTakes(s: State, t: nat)
    requires t < |s.pcs| && s.pcs[t].Idle? && s.remaining > 0
    ensures Alone(Next(s, CallAcquire(t)), t, 0, 2) ==
            s.(remaining := s.remaining - 1, acquires := s.acquires + 1, pcs := s.pcs[t := Acquired])
  {
    var c := Next(s, CallAcquire(t));
    assert Alone(c, t, 0, 1) == Next(Alone(c, t, 0, 0), Step(t, false, 0)) == s.(pcs := s.pcs[t := AcqCas(s.remaining)]);
    assert Alone(c, t, 0, 2) == Next(Alone(c, t, 0, 1), Step(t, false, 0));
  }

  /** On the slow path the thread goes for the mutex. */
  lemma AcquireLocks(s: State, t: nat)
    requires t < |s.pcs| && s.pcs[t].Idle? && s.remaining == 0 && s.holder == None
    ensures Alone(Next(s, CallAcquire(t)), t, 0, 3) == s.(pcs := s.pcs[t := AcqInc], holder := Some(t))
  {
    var c := Next(s, CallAcquire(t));
    assert Alone(c, t, 0, 1) == Next(Alone(c, t, 0, 0), Step(t, false, 0)) == s.(pcs := s.pcs[t := AcqCas(0)]);
    assert Alone(c, t, 0, 2) == Next(Alone(c, t, 0, 1), Step(t, false, 0)) == s.(pcs := s.pcs[t := AcqLock]);
    assert Alone(c, t, 0, 3) == Next(Alone(c, t, 0, 2), Step(t, false, 0));
  }

  /** Without one it counts itself as waiting and sleeps, with the mutex free again. */
  lemma AcquireSleeps(s: State, t: nat)
    requires t < |s.pcs| && s.pcs[t].Idle? && s.remaining == 0 && s.holder == None
    ensures Alone(Next(s, CallAcquire(t)), t, 0, 6) == s.(waited := s.waited + 1, pcs := s.pcs[t := Sleeping])
  {
    var c := Next(s, CallAcquire(t));
    var w := s.(holder := Some(t), waited := s.waited + 1);
    AcquireLocks(s, t);
    assert Alone(c, t, 0, 4) == Next(Alone(c, t, 0, 3), Step(t, false, 0)) == w.(pcs := s.pcs[t := AcqTest]);
    assert Alone(c, t, 0, 5) == Next(Alone(c, t, 0, 4), Step(t, false, 0)) == w.(pcs := s.pcs[t := AcqBlock]);
    assert Alone(c, t, 0, 6) == Next(Alone(c, t, 0, 5), Step(t, false, 0));
  }

  /** The state behind the step that raises `remaining`. */
  function Raised(s: State, t: nat, pc: Pc): State
    requires t < |s.pcs|
  {
    s.(remaining := s.remaining + 1, releases := s.releases + 1, pcs := s.pcs[t := pc])
  }

  lemma ReleaseRaises(s: State, t: nat, wakee: nat)
    requires t < |s.pcs| && s.pcs[t].Idle? && s.remaining < s.capacity
    ensures Alone(Next(s, CallRelease(t)), t, wakee, 2) == Raised(s, t, RelTest)
  {
    var c := Next(s, CallRelease(t));
    assert Alone(c, t, wakee, 1) == Next(Alone(c, t, wakee, 0), Step(t, false, wakee)) == s.(pcs := s.pcs[t := RelCas(s.remaining)]);
    assert Alone(c, t, wakee, 2) == Next(Alone(c, t, wakee, 1), Step(t, false, wakee));
  }

  /** With room, and nobody waiting, release() returns a permit and says so. */
  lemma ReleaseReturnsPermit(s: State, t: nat)
    requires t < |s.pcs| && s.pcs[t].Idle? && s.remaining < s.capacity && s.waited == 0
    ensures Alone(Next(s, CallRelease(t)), t, 0, 3) == Raised(s, t, Released(true))
  {
    var c := Next(s, CallRelease(t));
    ReleaseRaises(s, t, 0);
    assert Alone(c, t, 0, 3) == Next(Alone(c, t, 0, 2), Step(t, false, 0));
  }

  /** On a full semaphore it changes nothing and says so. */
  lemma ReleaseIsLost(s: State, t: nat)
    requires t < |s.pcs| && s.pcs[t].Idle? && s.remaining == s.capacity
    ensures Alone(Next(s, CallRelease(t)), t, 0, 2) == s.(pcs := s.pcs[t := Released(false)])
  {
    var c := Next(s, CallRelease(t));
    assert Alone(c, t, 0, 1) == Next(Alone(c, t, 0, 0), Step(t, false, 0)) == s.(pcs := s.pcs[t := RelCas(s.remaining)]);
    assert Alone(c, t, 0, 2) == Next(Alone(c, t, 0, 1), Step(t, false, 0));
  }

  lemma ReleaseLocks(s: State, t: nat, wakee: nat)
    requires t < |s.pcs| && s.pcs[t].Idle? && s.remaining < s.capacity && s.waited > 0 && s.holder == None
    ensures Alone(Next(s, CallRelease(t)), t, wakee, 4) == Raised(s, t, RelNotify).(holder := Some(t))
  {
    var c := Next(s, CallRelease(t));
    ReleaseRaises(s, t, wakee);
    assert Alone(c, t, wakee, 3) == Next(Alone(c, t, wakee, 2), Step(t, false, wakee)) == Raised(s, t, RelLock);
    assert Alone(c, t, wakee, 4) == Next(Alone(c, t, wakee, 3), Step(t, false, wakee));
  }

  lemma NotifyWakes(r: State, t: nat, wakee: nat)
    requires t < |r.pcs| && r.pcs[t].RelNotify? && Asleep(r, wakee)
    ensures Next(r, Step(t, false, wakee)) == r.(pcs := r.pcs[wakee := AcqRelock][t := RelUnlock])
  {
  }

  /** With a sleeper, it also wakes one, with the mutex free again. */
  lemma ReleaseWakes(s: State, t: nat, wakee: nat)
    requires t < |s.pcs| && s.pcs[t].Idle? && s.remaining < s.capacity && s.waited > 0 && s.holder == None
    requires Asleep(s, wakee)
    ensures Alone(Next(s, CallRelease(t)), t, wakee, 6) ==
            Raised(s, t, Released(true)).(pcs := s.pcs[wakee := AcqRelock][t := Released(true)])
  {
    var c := Next(s, CallRelease(t));
    var r := Raised(s, t, RelNotify).(holder := Some(t));
    ReleaseLocks(s, t, wakee);
    NotifyWakes(r, t, wakee);
    var w := r.(pcs := s.pcs[wakee := AcqRelock][t := RelUnlock]);
    assert r.pcs[wakee := AcqRelock][t := RelUnlock] == w.pcs;
    assert Alone(c, t, wakee, 5) == Next(Alone(c, t, wakee, 4), Step(t, false, wakee)) == w;
    UnlockReturns(w, t, wakee);
    assert Alone(c, t, wakee, 6) == Next(Alone(c, t, wakee, 5), Step(t, false, wakee));
    assert w.pcs[t := Released(true)] == s.pcs[wakee := AcqRelock][t := Released(true)];
  }

  lemma UnlockReturns(w: State, t: nat, wakee: nat)
    requires t < |w.pcs| && w.pcs[t].RelUnlock?
    ensures Next(w, Step(t, false, wakee)) == w.(holder := None, pcs := w.pcs[t := Released(true)])
  {
  }
}
