/**
 A client call over the real semaphore: the one-permit counter of ClientCalls is an abstraction of the
 atomic steps of Semaphore. A user thread takes the permit where its compare-exchange succeeds; the
 permit counts as returned where process() calls release(). Users get the call when start() has
 returned, so nobody takes the permit while a speak call still has to issue FINISH.
 */
module CallPermits {
  import opened Sums
  import C = ClientCalls
  import S = Semaphore

  datatype Use = Use(call: C.Call, sem: S.State)

  /** `opt` is what a thread that gets the permit wants it for. */
  datatype Label =
    | Own(l: C.Label)
    | Release(t: nat, i: nat, ok: bool)
    | Sem(m: S.Label, opt: C.Opt)

  function Made(kind: C.Kind, threads: nat): Use { Use(C.Made(kind), S.Start(C.CAPACITY, threads)) }

  /** The completions after which process() returns the permit. */
  predicate ReturnsPermit(opt: C.Opt) { opt.START_CALL? || opt.WRITE? }

  predicate TakesPermit(s: S.State, l: S.Label) { S.Next(s, l).acquires > s.acquires }

  /** The step of the call that goes with taking the permit. */
  function Taking(c: C.Call, opt: C.Opt): C.Label { if c.started then C.Acquire(opt) else C.Start }

  predicate Enabled(u: Use, l: Label)
  {
    match l
    case Own(o) =>
      && C.Enabled(u.call, o) && !o.Start? && !o.Acquire?
      && (o.CompleteWrite? ==> !ReturnsPermit(u.call.writeTags[o.i]))
    case Release(t, i, ok) =>
      && i < |u.call.writeTags| && ReturnsPermit(u.call.writeTags[i])
      && t < |u.sem.pcs| && u.sem.pcs[t].Idle?
    case Sem(m, opt) =>
      && S.Enabled(u.sem, m) && !m.CallRelease?
      && (TakesPermit(u.sem, m) ==> !u.call.owesFinish && (opt.WRITE? || opt.WRITE_DONE?))
  }

  function Next(u: Use, l: Label): Use
  {
    if !Enabled(u, l) then u else
    match l
    case Own(o) => u.(call := C.Next(u.call, o))
    case Release(t, i, ok) => Use(C.Next(u.call, C.CompleteWrite(i, ok)), S.Next(u.sem, S.CallRelease(t)))
    case Sem(m, opt) =>
      Use(if TakesPermit(u.sem, m) then C.Next(u.call, Taking(u.call, opt)) else u.call, S.Next(u.sem, m))
  }

  function Exec(u: Use, schedule: seq<Label>): Use
  {
    if schedule == [] then u
    else Next(Exec(u, schedule[..|schedule| - 1]), schedule[|schedule| - 1])
  }

  // ----- the permit is in the semaphore or on its way into it

  /** Calls of release() that have not raised `remaining` yet. */
  function Returning(pc: S.Pc): nat { if pc.RelLoad? || pc.RelCas? then 1 else 0 }

  /** A release that cannot fail: it has not seen a full semaphore. */
  predicate SeesRoom(capacity: int, pc: S.Pc)
  {
    (pc.RelCas? ==> pc.expected < capacity) && pc != S.Released(false)
  }

  ghost predicate Inv(u: Use)
  {
    && C.Inv(u.call) && !u.call.kind.Listen?
    && S.Inv(u.sem) && u.sem.capacity == C.CAPACITY
    && u.sem.remaining + Sum(u.sem.pcs, Returning) == u.call.permits
    && forall i :: 0 <= i < |u.sem.pcs| ==> SeesRoom(u.sem.capacity, u.sem.pcs[i])
  }

  /** One step of one thread, with the number `k` of returning threads. */
  lemma StepKeepsRoom(s: S.State, t: nat, weak: bool, k: int)
    requires S.Enabled(s, S.Step(t, weak, 0)) && !s.pcs[t].RelNotify? && 0 <= s.remaining
    requires SeesRoom(s.capacity, s.pcs[t]) && S.LocalsInRange(s, s.pcs[t])
    requires Returning(s.pcs[t]) <= k && s.remaining + k <= s.capacity
    ensures var r := S.StepThread(s, t, weak);
            && r.pcs == s.pcs[t := r.pcs[t]] && r.capacity == s.capacity
            && SeesRoom(s.capacity, r.pcs[t])
            && r.remaining + (k - Returning(s.pcs[t]) + Returning(r.pcs[t])) == s.remaining + k - (r.acquires - s.acquires)
            && (r.acquires == s.acquires || (r.acquires == s.acquires + 1 && s.remaining > 0))
  {
  }

  /** What a step of the semaphore does to the permits that are in it or on their way. */
  ghost predicate PermitsMove(s: S.State, r: S.State)
  {
    && r.capacity == s.capacity
    && r.remaining + Sum(r.pcs, Returning) == s.remaining + Sum(s.pcs, Returning) - (r.acquires - s.acquires)
    && (r.acquires == s.acquires || (r.acquires == s.acquires + 1 && s.remaining > 0))
    && forall i :: 0 <= i < |r.pcs| ==> SeesRoom(r.capacity, r.pcs[i])
  }

  lemma StepMoves(s: S.State, t: nat, weak: bool)
    requires S.Inv(s) && S.Enabled(s, S.Step(t, weak, 0)) && !s.pcs[t].RelNotify?
    requires s.remaining + Sum(s.pcs, Returning) <= s.capacity
    requires forall i :: 0 <= i < |s.pcs| ==> SeesRoom(s.capacity, s.pcs[i])
    ensures PermitsMove(s, S.StepThread(s, t, weak))
  {
    SumAtLeast(s.pcs, t, Returning);
    StepKeepsRoom(s, t, weak, Sum(s.pcs, Returning));
    SumUpdate(s.pcs, t, S.StepThread(s, t, weak).pcs[t], Returning);
  }

  /** A thread that changes its place, but is not returning a permit before or after. */
  lemma PlaceMoves(s: S.State, t: nat, pc: S.Pc)
    requires t < |s.pcs| && Returning(s.pcs[t]) == 0 == Returning(pc) && SeesRoom(s.capacity, pc)
    requires forall i :: 0 <= i < |s.pcs| ==> SeesRoom(s.capacity, s.pcs[i])
    ensures PermitsMove(s, S.Goto(s, t, pc))
  {
    SumUpdate(s.pcs, t, pc, Returning);
  }

  lemma NotifyMoves(s: S.State, t: nat, wakee: nat)
    requires t < |s.pcs| && s.pcs[t].RelNotify?
    requires forall i :: 0 <= i < |s.pcs| ==> SeesRoom(s.capacity, s.pcs[i])
    ensures PermitsMove(s, S.Goto(S.Notify(s, wakee), t, S.RelUnlock))
  {
    if S.Asleep(s, wakee) {
      PlaceMoves(s, wakee, S.AcqRelock);
    }
    PlaceMoves(S.Notify(s, wakee), t, S.RelUnlock);
  }

  lemma SemMoves(s: S.State, m: S.Label)
    requires S.Inv(s) && S.Enabled(s, m) && !m.CallRelease?
    requires s.remaining + Sum(s.pcs, Returning) <= s.capacity
    requires forall i :: 0 <= i < |s.pcs| ==> SeesRoom(s.capacity, s.pcs[i])
    ensures PermitsMove(s, S.Next(s, m))
  {
    match m
    case CallAcquire(t) => PlaceMoves(s, t, S.AcqLoad);
    case Return(t) => PlaceMoves(s, t, S.Idle);
    case SpuriousWake(t) => PlaceMoves(s, t, S.AcqRelock);
    case Step(t, weak, wakee) =>
      if s.pcs[t].RelNotify? {
        NotifyMoves(s, t, wakee);
      } else {
        StepMoves(s, t, weak);
      }
  }

  /** The call can take the permit whenever the semaphore gives it away. */
  lemma TakingKeepsInv(c: C.Call, opt: C.Opt)
    requires C.Inv(c) && !c.kind.Listen? && c.permits > 0 && !c.owesFinish && (opt.WRITE? || opt.WRITE_DONE?)
    ensures C.Enabled(c, Taking(c, opt))
    ensures var d := C.Next(c, Taking(c, opt)); C.Inv(d) && d.kind == c.kind && d.permits == c.permits - 1
  {
    C.NextKeepsInv(c, Taking(c, opt));
  }

  lemma OwnKeepsPermits(c: C.Call, o: C.Label)
    requires C.Inv(c) && !c.kind.Listen? && C.Enabled(c, o) && !o.Start? && !o.Acquire?
    requires o.CompleteWrite? ==> !ReturnsPermit(c.writeTags[o.i])
    ensures var d := C.Next(c, o); C.Inv(d) && d.kind == c.kind && d.permits == c.permits
  {
    C.NextKeepsInv(c, o);
    C.NextKind(c, o);
  }

  /** A completion that returns the permit finds it taken, so release() has room. */
  lemma ReturnRaisesPermits(c: C.Call, i: nat, ok: bool)
    requires C.Inv(c) && !c.kind.Listen? && i < |c.writeTags| && ReturnsPermit(c.writeTags[i])
    ensures var d := C.Next(c, C.CompleteWrite(i, ok));
            C.Inv(d) && d.kind == c.kind && c.permits == 0 && d.permits == 1
  {
    C.NextKeepsInv(c, C.CompleteWrite(i, ok));
    C.NextKind(c, C.CompleteWrite(i, ok));
  }

  lemma ReleaseKeepsInv(u: Use, t: nat, i: nat, ok: bool)
    requires Inv(u) && Enabled(u, Release(t, i, ok))
    ensures Inv(Next(u, Release(t, i, ok)))
  {
    ReturnRaisesPermits(u.call, i, ok);
    S.NextKeepsInv(u.sem, S.CallRelease(t));
    SumUpdate(u.sem.pcs, t, S.RelLoad, Returning);
  }

  lemma SemKeepsInv(u: Use, m: S.Label, opt: C.Opt)
    requires Inv(u) && Enabled(u, Sem(m, opt))
    ensures Inv(Next(u, Sem(m, opt)))
  {
    S.NextKeepsInv(u.sem, m);
    SemMoves(u.sem, m);
    if TakesPermit(u.sem, m) {
      TakingKeepsInv(u.call, opt);
    }
  }

  lemma NextKeepsInv(u: Use, l: Label)
    requires Inv(u)
    ensures Inv(Next(u, l))
  {
    if Enabled(u, l) {
      match l
      case Own(o) => OwnKeepsPermits(u.call, o);
      case Release(t, i, ok) => ReleaseKeepsInv(u, t, i, ok);
      case Sem(m, opt) => SemKeepsInv(u, m, opt);
    }
  }

  lemma MadeInv(kind: C.Kind, threads: nat)
    requires !kind.Listen?
    ensures Inv(Made(kind, threads))
  {
    S.StartInv(C.CAPACITY, threads);
    SumZero(Made(kind, threads).sem.pcs, Returning);
  }

  lemma {:induction false} ExecInv(kind: C.Kind, threads: nat, schedule: seq<Label>)
    requires !kind.Listen?
    ensures Inv(Exec(Made(kind, threads), schedule))
  {
    if schedule == [] {
      MadeInv(kind, threads);
    } else {
      var n := |schedule| - 1;
      ExecInv(kind, threads, schedule[..n]);
      NextKeepsInv(Exec(Made(kind, threads), schedule[..n]), schedule[n]);
    }
  }

  // ----- main results

  /**
   The loop around release() succeeds on its first call: over every interleaving of the atomic steps
   of any number of threads, no release() of a speak or talk call finds the semaphore full.
   */
  lemma FirstReleaseSucceeds(kind: C.Kind, threads: nat, schedule: seq<Label>)
    requires !kind.Listen?
    ensures var u := Exec(Made(kind, threads), schedule);
            && S.Released(false) !in u.sem.pcs
            && u.sem.remaining + Sum(u.sem.pcs, Returning) == u.call.permits
            && !u.call.spinning
  {
    ExecInv(kind, threads, schedule);
    var u := Exec(Made(kind, threads), schedule);
    assert forall i :: 0 <= i < |u.sem.pcs| ==> SeesRoom(u.sem.capacity, u.sem.pcs[i]);
  }

  /** Over the real semaphore the call goes through no state that ClientCalls does not reach. */
  lemma {:induction false} RefinesClientCall(kind: C.Kind, threads: nat, schedule: seq<Label>) returns (calls: seq<C.Label>)
    requires !kind.Listen?
    ensures Exec(Made(kind, threads), schedule).call == C.Exec(C.Made(kind), calls)
  {
    calls := [];
    if schedule != [] {
      var n := |schedule| - 1;
      var u, l := Exec(Made(kind, threads), schedule[..n]), schedule[n];
      var prefix := RefinesClientCall(kind, threads, schedule[..n]);
      calls := prefix;
      if Enabled(u, l) && (l.Sem? ==> TakesPermit(u.sem, l.m)) {
        var step := match l
          case Own(o) => o
          case Release(t, i, ok) => C.CompleteWrite(i, ok)
          case Sem(m, opt) => Taking(u.call, opt);
        calls := prefix + [step];
        assert calls[..|calls| - 1] == prefix;
      }
    }
  }
}
