/**
 The client calls ListenCall, SpeakCall and TalkCall. Completions arrive in any order with any ok
 flag; user threads call write() and close() at any time and block on the one-permit semaphore.
 */
module ClientCalls {

  datatype Opt = START_CALL | FINISH | READ | WRITE | WRITE_DONE

  predicate IsWriteSide(opt: Opt) { opt.START_CALL? || opt.WRITE? || opt.WRITE_DONE? }

  datatype Kind = Listen | Speak | Talk

  const CAPACITY := 1

  /**
   `permits` is what remains in canWrite. `writeTags` (START_CALL, WRITE, WRITE_DONE) and `readTags`
   (READ, FINISH) are the operations issued and not completed; `hands` are the write() and close()
   calls that hold a permit and have not issued their operation yet. `owesFinish` says that start()
   of a SpeakCall still has to issue FINISH. `spinning` says that the loop around release() could
   not make progress.
   */
  datatype Call = Call(
    kind: Kind, finish: bool, closed: bool, permits: int,
    writeTags: seq<Opt>, readTags: seq<Opt>, hands: seq<Opt>,
    started: bool, owesFinish: bool, spinning: bool)

  /** `i` is the position of the held or completed operation in its list. */
  datatype Label =
    | Start
    | StartFinish
    | Acquire(opt: Opt)
    | IssueHeld(i: nat)
    | CompleteWrite(i: nat, ok: bool)
    | CompleteRead(i: nat, ok: bool)

  function Made(kind: Kind): Call { Call(kind, false, false, CAPACITY, [], [], [], false, false, false) }

  function Issue(c: Call, opt: Opt): (d: Call)
    ensures d.kind == c.kind
  {
    if IsWriteSide(opt) then c.(writeTags := c.writeTags + [opt]) else c.(readTags := c.readTags + [opt])
  }

  function Without(s: seq<Opt>, i: nat): seq<Opt>
    requires i < |s|
  {
    s[..i] + s[i + 1..]
  }

  /** while (!canWrite.release()) {} */
  function Release(c: Call): (d: Call)
    ensures d.kind == c.kind
  {
    if c.permits < CAPACITY then c.(permits := c.permits + 1) else c.(spinning := true)
  }

  function AfterListen(c: Call, opt: Opt, ok: bool): (d: Call)
    ensures d.kind == c.kind
  {
    match opt
    case START_CALL => if ok then Issue(c, READ) else c.(finish := true)
    case READ => if ok then Issue(c, READ) else Issue(c, FINISH)
    case FINISH => c.(finish := true)
    case _ => c
  }

  function AfterSpeak(c: Call, opt: Opt, ok: bool): (d: Call)
    ensures d.kind == c.kind
  {
    match opt
    case START_CALL => Release(c)
    case WRITE => Release(c)
    case WRITE_DONE => c.(closed := true)
    case FINISH => c.(finish := true)
    case READ => c
  }

  function AfterTalk(c: Call, opt: Opt, ok: bool): (d: Call)
    ensures d.kind == c.kind
  {
    match opt
    case START_CALL => Release(if ok then Issue(c, READ) else c.(finish := true))
    case READ => if ok then Issue(c, READ) else Issue(c, FINISH)
    case WRITE => Release(c)
    case WRITE_DONE => c.(closed := true)
    case FINISH => c.(finish := true)
  }

  function Process(c: Call, opt: Opt, ok: bool): (d: Call)
    ensures d.kind == c.kind
  {
    match c.kind
    case Listen => AfterListen(c, opt, ok)
    case Speak => AfterSpeak(c, opt, ok)
    case Talk => AfterTalk(c, opt, ok)
  }

  predicate IsComplete(c: Call) { c.finish && (c.kind.Listen? || c.closed) }

  predicate Enabled(c: Call, l: Label)
  {
    match l
    case Start => !c.started && (c.kind.Listen? || c.permits > 0)
    case StartFinish => c.owesFinish
    case Acquire(opt) => !c.kind.Listen? && c.started && !c.owesFinish && c.permits > 0 && (opt.WRITE? || opt.WRITE_DONE?)
    case IssueHeld(i) => i < |c.hands|
    case CompleteWrite(i, _) => i < |c.writeTags|
    case CompleteRead(i, _) => i < |c.readTags|
  }

  function Next(c: Call, l: Label): Call
  {
    if !Enabled(c, l) then c else
    match l
    case Start =>
      var d := Issue(c.(started := true, owesFinish := c.kind.Speak?), START_CALL);
      if c.kind.Listen? then d else d.(permits := c.permits - 1)
    case StartFinish => Issue(c.(owesFinish := false), FINISH)
    case Acquire(opt) => c.(permits := c.permits - 1, hands := c.hands + [opt])
    case IssueHeld(i) => Issue(c.(hands := Without(c.hands, i)), c.hands[i])
    case CompleteWrite(i, ok) => Process(c.(writeTags := Without(c.writeTags, i)), c.writeTags[i], ok)
    case CompleteRead(i, ok) => Process(c.(readTags := Without(c.readTags, i)), c.readTags[i], ok)
  }

  function Exec(c: Call, schedule: seq<Label>): Call
  {
    if schedule == [] then c
    else Next(Exec(c, schedule[..|schedule| - 1]), schedule[|schedule| - 1])
  }

  // ----- the call objects

  /** A ListenCall, SpeakCall or TalkCall; a completed tag is taken out of the outstanding ones before it is processed. */
  class ClientCall {
    const kind: Kind
    var finish: bool
    var closed: bool
    var permits: int
    var spinning: bool
    ghost var writeTags: seq<Opt>
    ghost var readTags: seq<Opt>
    ghost var hands: seq<Opt>
    ghost var started: bool
    ghost var owesFinish: bool

    ghost function View(): Call
      reads this
    {
      Call(kind, finish, closed, permits, writeTags, readTags, hands, started, owesFinish, spinning)
    }

    constructor (kind: Kind)
      ensures View() == Made(kind)
    {
      this.kind := kind;
      finish, closed, permits, spinning := false, false, CAPACITY, false;
      writeTags, readTags, hands, started, owesFinish := [], [], [], false, false;
    }

    method Complete() returns (complete: bool)
      ensures complete == IsComplete(View())
      ensures complete <==> finish && (kind.Listen? || closed)
    {
      if kind.Listen? {
        return finish;
      }
      return finish && closed;
    }

    /** start(): called once, when acquire() finds the permit that a new call has. */
    method Start()
      requires !started && !owesFinish && (kind.Listen? || permits > 0)
      modifies this
      ensures var d := Next(old(View()), Label.Start); View() == if kind.Speak? then Next(d, StartFinish) else d
      ensures started && writeTags == old(writeTags) + [START_CALL]
      ensures readTags == old(readTags) + (if kind.Speak? then [FINISH] else [])
      ensures permits == old(permits) - (if kind.Listen? then 0 else 1)
    {
      if !kind.Listen? {
        permits := permits - 1;
      }
      started := true;
      writeTags := writeTags + [START_CALL];
      if kind.Speak? {
        readTags := readTags + [FINISH];
      }
    }

    /** write() and close(), from where acquire() has found the permit. */
    method Send(opt: Opt)
      requires !kind.Listen? && started && !owesFinish && permits > 0 && (opt.WRITE? || opt.WRITE_DONE?)
      modifies this
      ensures View() == Next(Next(old(View()), Acquire(opt)), IssueHeld(|old(hands)|))
      ensures permits == old(permits) - 1 && writeTags == old(writeTags) + [opt] && hands == old(hands)
    {
      permits := permits - 1;
      assert Without(hands + [opt], |hands|) == hands;
      writeTags := writeTags + [opt];
    }

    method ReleaseUntilDone()
      modifies this
      ensures View() == Release(old(View()))
    {
      if permits < CAPACITY {
        permits := permits + 1;
      } else {
        spinning := true;
      }
    }

    method ProcessListen(ok: bool, opt: Opt)
      modifies this
      ensures View() == AfterListen(old(View()), opt, ok)
      ensures finish == (old(finish) || opt.FINISH? || (opt.START_CALL? && !ok))
      ensures readTags == old(readTags) + (if (opt.START_CALL? || opt.READ?) && ok then [READ]
                                           else if opt.READ? then [FINISH] else [])
      ensures writeTags == old(writeTags) && permits == old(permits) && closed == old(closed)
    {
      match opt {
        case START_CALL =>
          if ok {
            readTags := readTags + [READ];
          } else {
            finish := true;
          }
        case READ =>
          if ok {
            readTags := readTags + [READ];
          } else {
            readTags := readTags + [FINISH];
          }
        case FINISH =>
          finish := true;
        case _ =>
      }
    }

    method ProcessSpeak(ok: bool, opt: Opt)
      modifies this
      ensures View() == AfterSpeak(old(View()), opt, ok)
      ensures finish == (old(finish) || opt.FINISH?) && closed == (old(closed) || opt.WRITE_DONE?)
      ensures old(permits) < CAPACITY ==>
                permits == old(permits) + (if opt.START_CALL? || opt.WRITE? then 1 else 0) && spinning == old(spinning)
      ensures writeTags == old(writeTags) && readTags == old(readTags)
    {
      match opt {
        case START_CALL =>
          ReleaseUntilDone();
        case WRITE =>
          ReleaseUntilDone();
        case WRITE_DONE =>
          closed := true;
        case FINISH =>
          finish := true;
        case READ =>
      }
    }

    method ProcessTalk(ok: bool, opt: Opt)
      modifies this
      ensures View() == AfterTalk(old(View()), opt, ok)
      ensures finish == (old(finish) || opt.FINISH? || (opt.START_CALL? && !ok))
      ensures closed == (old(closed) || opt.WRITE_DONE?)
      ensures readTags == old(readTags) + (if (opt.START_CALL? || opt.READ?) && ok then [READ]
                                           else if opt.READ? then [FINISH] else [])
      ensures old(permits) < CAPACITY ==>
                permits == old(permits) + (if opt.START_CALL? || opt.WRITE? then 1 else 0) && spinning == old(spinning)
      ensures writeTags == old(writeTags)
    {
      match opt {
        case START_CALL =>
          if ok {
            readTags := readTags + [READ];
          } else {
            finish := true;
          }
          ReleaseUntilDone();
        case READ =>
          if ok {
            readTags := readTags + [READ];
          } else {
            readTags := readTags + [FINISH];
          }
        case WRITE =>
          ReleaseUntilDone();
        case WRITE_DONE =>
          closed := true;
        case FINISH =>
          finish := true;
      }
    }
  }

  // ----- lifecycle

  function Bit(b: bool): int { if b then 1 else 0 }

  /** The permit is in the semaphore, in one user's hands, with one write-side tag, or spent by close(). */
  predicate PermitInv(c: Call)
  {
    && 0 <= c.permits && !c.spinning
    && c.permits + |c.hands| + |c.writeTags| + Bit(c.closed) == CAPACITY
    && (!c.started ==> c.permits == CAPACITY)
    && (c.owesFinish ==> c.hands == [] && !c.closed)
  }

  /** Exactly one of: not there yet, READ or FINISH outstanding, finished. */
  predicate ReadSideInv(c: Call)
  {
    match c.kind
    case Talk =>
      && !c.owesFinish
      && |c.readTags| + Bit(c.finish) + Bit(!c.started || START_CALL in c.writeTags) == 1
    case Speak =>
      |c.readTags| + Bit(c.finish) + Bit(!c.started || c.owesFinish) == 1
    case Listen =>
      && !c.owesFinish && c.hands == [] && !c.spinning
      && |c.readTags| + |c.writeTags| + Bit(c.finish) + Bit(!c.started) == 1
  }

  predicate OptsInv(c: Call)
  {
    && (forall i :: 0 <= i < |c.hands| ==> c.hands[i].WRITE? || c.hands[i].WRITE_DONE?)
    && (forall i :: 0 <= i < |c.writeTags| ==>
          IsWriteSide(c.writeTags[i]) && (c.kind.Listen? || c.owesFinish ==> c.writeTags[i].START_CALL?))
    && (forall i :: 0 <= i < |c.readTags| ==> !IsWriteSide(c.readTags[i]) && (c.kind.Speak? ==> c.readTags[i].FINISH?))
    && (c.owesFinish ==> c.started)
  }

  predicate Inv(c: Call) { OptsInv(c) && ReadSideInv(c) && (c.kind.Listen? || PermitInv(c)) }

  lemma CompleteWriteKeepsInv(c: Call, ok: bool)
    requires Inv(c) && |c.writeTags| == 1
    ensures Inv(Process(c.(writeTags := []), c.writeTags[0], ok))
  {
  }

  lemma CompleteReadKeepsInv(c: Call, ok: bool)
    requires Inv(c) && |c.readTags| == 1
    ensures Inv(Process(c.(readTags := []), c.readTags[0], ok))
  {
  }

  lemma StartKeepsInv(c: Call, l: Label)
    requires Inv(c) && (l.Start? || l.StartFinish?) && Enabled(c, l)
    ensures Inv(Next(c, l))
  {
  }

  lemma UserKeepsInv(c: Call, l: Label)
    requires Inv(c) && (l.Acquire? || l.IssueHeld?) && Enabled(c, l)
    ensures Inv(Next(c, l))
  {
  }

  lemma NextKeepsInv(c: Call, l: Label)
    requires Inv(c)
    ensures Inv(Next(c, l))
  {
    if Enabled(c, l) {
      match l
      case Start => StartKeepsInv(c, l);
      case StartFinish => StartKeepsInv(c, l);
      case Acquire(_) => UserKeepsInv(c, l);
      case IssueHeld(_) => UserKeepsInv(c, l);
      case CompleteWrite(i, ok) =>
        CompleteWriteIs(c, i, ok);
        CompleteWriteKeepsInv(c, ok);
      case CompleteRead(i, ok) =>
        CompleteReadIs(c, i, ok);
        CompleteReadKeepsInv(c, ok);
    }
  }

  /** The completed tag is the only one of its side. */
  lemma CompleteWriteIs(c: Call, i: nat, ok: bool)
    requires Inv(c) && i < |c.writeTags|
    ensures |c.writeTags| == 1 && i == 0
    ensures Next(c, CompleteWrite(i, ok)) == Process(c.(writeTags := []), c.writeTags[0], ok)
  {
    assert |c.writeTags| == 1;
    assert Without(c.writeTags, i) == [];
  }

  lemma CompleteReadIs(c: Call, i: nat, ok: bool)
    requires Inv(c) && i < |c.readTags|
    ensures |c.readTags| == 1 && i == 0
    ensures Next(c, CompleteRead(i, ok)) == Process(c.(readTags := []), c.readTags[0], ok)
  {
    assert |c.readTags| == 1;
    assert Without(c.readTags, i) == [];
  }

  lemma NextKind(c: Call, l: Label)
    ensures Next(c, l).kind == c.kind
  {
  }

  lemma {:induction false} ExecInv(kind: Kind, schedule: seq<Label>)
    ensures Inv(Exec(Made(kind), schedule)) && Exec(Made(kind), schedule).kind == kind
  {
    if schedule != [] {
      var n := |schedule| - 1;
      ExecInv(kind, schedule[..n]);
      NextKeepsInv(Exec(Made(kind), schedule[..n]), schedule[n]);
      NextKind(Exec(Made(kind), schedule[..n]), schedule[n]);
    }
  }

  /**
   Over every completion order and every ok flag: at most one write-side tag is outstanding, the
   permit is free exactly when none is outstanding or about to be issued and close() did not take
   it, and the loop around release() succeeds on its first call.
   */
  lemma PermitLifecycle(kind: Kind, schedule: seq<Label>)
    requires !kind.Listen?
    ensures var c := Exec(Made(kind), schedule);
            && |c.writeTags| + |c.hands| <= 1
            && !c.spinning
            && (c.permits > 0 <==> c.writeTags == [] && c.hands == [] && !c.closed)
            && (c.writeTags != [] ==> c.permits < CAPACITY)
  {
    ExecInv(kind, schedule);
  }

  /** A complete call has no tag outstanding, and none can be issued any more: nothing is enabled. */
  lemma CompleteMeansNoMoreEvents(kind: Kind, schedule: seq<Label>, l: Label)
    requires IsComplete(Exec(Made(kind), schedule))
    ensures var c := Exec(Made(kind), schedule);
            c.writeTags == [] && c.readTags == [] && c.hands == [] && !Enabled(c, l)
  {
    ExecInv(kind, schedule);
  }

  /** Conversely, a started call without outstanding tags is complete or waits for its user. */
  lemma NoTagsMeansCompleteOrUsersTurn(kind: Kind, schedule: seq<Label>)
    requires var c := Exec(Made(kind), schedule); c.started && !c.owesFinish && c.writeTags == [] && c.readTags == []
    ensures var c := Exec(Made(kind), schedule);
            IsComplete(c) || c.permits > 0 || c.hands != []
  {
    ExecInv(kind, schedule);
  }
}
