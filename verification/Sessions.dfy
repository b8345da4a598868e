/**
 One chat call end to end: a client call and the server handler of its kind, joined by FIFO channels, with
 no failed operation except reads at the end of a stream.
 */
module Sessions {
  import C = ClientCalls
  import S = ServerHandlers

  /**
   `up` and `down` are the messages in flight; `wrote` and `got` are the client's history, `heard` is what
   the server has read.
   */
  datatype Session = Session(
    kind: C.Kind, client: C.Call, server: S.Handler, serverOps: seq<S.Opt>,
    up: seq<string>, upDone: bool, down: seq<string>, downDone: bool,
    wrote: seq<string>, heard: seq<string>, got: seq<string>)

  datatype Label =
    | User(l: C.Label, msg: string)
    | ClientWrite(i: nat)
    | ClientRead(i: nat)
    | ServerOp(i: nat)

  function ServerKind(kind: C.Kind): S.Kind
  {
    match kind
    case Listen => S.Listen
    case Speak => S.Speak
    case Talk => S.Talk
  }

  function Opened(kind: C.Kind): Session
  {
    Session(kind, C.Made(kind), S.Fresh(ServerKind(kind), 0), [S.RECEIVE], [], false, [], false, [], [], [])
  }

  /** What the user's threads do: start(), write() and close(). */
  predicate ByUser(u: C.Label) { u.Start? || u.StartFinish? || u.Acquire? || u.IssueHeld? }

  predicate Enabled(s: Session, l: Label)
  {
    match l
    case User(u, _) => ByUser(u) && C.Enabled(s.client, u)
    case ClientWrite(i) => i < |s.client.writeTags|
    case ClientRead(i) => i < |s.client.readTags| && (s.downDone || (s.client.readTags[i].READ? && s.down != []))
    case ServerOp(i) =>
      i < |s.serverOps| &&
      match s.serverOps[i]
      case RECEIVE => s.client.started
      case READ => s.up != [] || s.upDone
      case _ => true
  }

  /** write() and close() put a message or the end of the stream on the channel. */
  function UserStep(s: Session, u: C.Label, msg: string): Session
  {
    var t := s.(client := C.Next(s.client, u));
    if u.IssueHeld? && u.i < |s.client.hands| then
      if s.client.hands[u.i].WRITE? then t.(up := s.up + [msg], wrote := s.wrote + [msg])
      else t.(upDone := true)
    else t
  }

  /** A read succeeds with the next message, or fails at the end of the stream; FINISH succeeds. */
  function ClientReadStep(s: Session, i: nat): Session
    requires i < |s.client.readTags|
  {
    if s.client.readTags[i].READ? && s.down != [] then
      s.(client := C.Next(s.client, C.CompleteRead(i, true)), down := s.down[1..], got := s.got + [s.down[0]])
    else
      s.(client := C.Next(s.client, C.CompleteRead(i, !s.client.readTags[i].READ?)))
  }

  /** The reaction to an operation that fails only at the end of the stream. */
  function ServerReaction(s: Session, op: S.Opt): S.Reaction
  {
    S.React(s.server, op, !op.READ? || s.up != [], if op.READ? && s.up != [] then s.up[0] else "")
  }

  /** The message that the operation reads, if any, is taken off the channel. */
  function Heard(s: Session, op: S.Opt): Session
  {
    if op.READ? && s.up != [] then s.(up := s.up[1..], heard := s.heard + [s.up[0]]) else s
  }

  function ServerStep(s: Session, i: nat): Session
    requires i < |s.serverOps|
  {
    var op := s.serverOps[i];
    Answer(Heard(s, op).(serverOps := s.serverOps[..i] + s.serverOps[i + 1..]), ServerReaction(s, op))
  }

  function Answer(s: Session, r: S.Reaction): Session
  {
    var t := s.(server := r.h);
    if r.issue.NoIssue? then t else
    var u := t.(serverOps := t.serverOps + [r.issue.opt]);
    match r.issue.opt
    case WRITE => u.(down := u.down + [r.issue.content])
    case FINISH => u.(downDone := true)
    case _ => u
  }

  function Next(s: Session, l: Label): Session
  {
    if !Enabled(s, l) then s else
    match l
    case User(u, msg) => UserStep(s, u, msg)
    case ClientWrite(i) => s.(client := C.Next(s.client, C.CompleteWrite(i, true)))
    case ClientRead(i) => ClientReadStep(s, i)
    case ServerOp(i) => ServerStep(s, i)
  }

  function Exec(kind: C.Kind, schedule: seq<Label>): Session
  {
    if schedule == [] then Opened(kind) else Next(Exec(kind, schedule[..|schedule| - 1]), schedule[|schedule| - 1])
  }

  // ----- what all kinds keep

  /** close() was called and its WRITE_DONE is outstanding or completed. */
  predicate Closing(c: C.Call) { c.closed || C.WRITE_DONE in c.writeTags }

  /** The only outstanding operation of the server fits its handler; FINISH is its last. */
  predicate ServerShape(s: Session)
  {
    && |s.serverOps| == (if s.server.finish then 0 else 1)
    && (s.downDone <==> s.server.finish || s.serverOps == [S.FINISH])
    && (s.server.kind.Listen? || s.server.responses == [])
    && (s.serverOps != [] ==>
          && S.Legal(s.server.kind, s.serverOps[0])
          && S.ListenOk(s.server, s.serverOps[0].RECEIVE?))
  }

  ghost predicate Shape(s: Session)
  {
    && C.Inv(s.client) && s.client.kind == s.kind && s.server.kind == ServerKind(s.kind)
    && s.wrote == s.heard + s.up
    && (s.upDone <==> Closing(s.client))
    && ServerShape(s)
  }

  lemma UserClient(c: C.Call, u: C.Label)
    requires C.Inv(c) && ByUser(u) && C.Enabled(c, u)
    ensures var d := C.Next(c, u);
            && C.Inv(d) && d.kind == c.kind
            && (Closing(d) <==> Closing(c) || (u.IssueHeld? && c.hands[u.i].WRITE_DONE?))
            && (u.IssueHeld? ==> !Closing(c))
  {
    C.NextKeepsInv(c, u);
    C.NextKind(c, u);
  }

  lemma WriteClient(c: C.Call, i: nat)
    requires C.Inv(c) && i < |c.writeTags|
    ensures var d := C.Next(c, C.CompleteWrite(i, true)); C.Inv(d) && d.kind == c.kind && (Closing(d) <==> Closing(c))
  {
    C.NextKeepsInv(c, C.CompleteWrite(i, true));
    C.NextKind(c, C.CompleteWrite(i, true));
    assert C.Without(c.writeTags, i) == [];
  }

  lemma ReadClient(c: C.Call, i: nat, ok: bool)
    requires C.Inv(c) && i < |c.readTags|
    ensures var d := C.Next(c, C.CompleteRead(i, ok)); C.Inv(d) && d.kind == c.kind && (Closing(d) <==> Closing(c))
  {
    C.NextKeepsInv(c, C.CompleteRead(i, ok));
    C.NextKind(c, C.CompleteRead(i, ok));
    assert C.Without(c.readTags, i) == [];
  }

  lemma UserKeepsShape(s: Session, u: C.Label, msg: string)
    requires Shape(s) && Enabled(s, User(u, msg))
    ensures Shape(UserStep(s, u, msg))
  {
    UserClient(s.client, u);
    assert s.heard + (s.up + [msg]) == s.heard + s.up + [msg];
  }

  /** What the server's only outstanding operation does when it completes. */
  ghost predicate ServerMoves(s: Session, t: Session, op: S.Opt, r: S.Reaction)
  {
    && s.serverOps == [op]
    && t == s.(server := r.h, serverOps := t.serverOps, up := t.up, heard := t.heard, down := t.down, downDone := t.downDone)
    && t.serverOps == (if r.issue.Issue? then [r.issue.opt] else [])
    && (if op.READ? && s.up != [] then t.up == s.up[1..] && t.heard == s.heard + [s.up[0]] else t.up == s.up && t.heard == s.heard)
    && t.down == (if r.issue.Issue? && r.issue.opt.WRITE? then s.down + [r.issue.content] else s.down)
    && t.downDone == (s.downDone || (r.issue.Issue? && r.issue.opt.FINISH?))
  }

  lemma AnswerMoves(s: Session, op: S.Opt, r: S.Reaction)
    requires s.serverOps == [op]
    ensures ServerMoves(s, Answer(Heard(s, op).(serverOps := []), r), op, r)
  {
  }

  lemma ServerStepMoves(s: Session, i: nat)
    requires |s.serverOps| == 1 && i < 1
    ensures ServerMoves(s, ServerStep(s, i), s.serverOps[i], ServerReaction(s, s.serverOps[i]))
  {
    assert s.serverOps[..i] + s.serverOps[i + 1..] == [];
    AnswerMoves(s, s.serverOps[i], ServerReaction(s, s.serverOps[i]));
  }

  /** What a session needs to know of a reaction. */
  ghost predicate Accounted(h: S.Handler, op: S.Opt, r: S.Reaction)
  {
    && r.h.kind == h.kind && (r.h.finish <==> r.issue.NoIssue?)
    && (r.issue.Issue? ==> S.Legal(h.kind, r.issue.opt) && !r.issue.opt.RECEIVE?)
    && (!r.h.finish ==> S.ListenOk(r.h, false))
    && (h.kind.Listen? || r.h.responses == [])
    && (op.FINISH? <==> r.issue.NoIssue?)
  }

  lemma ReactionAccounted(s: Session, op: S.Opt)
    requires Shape(s) && s.serverOps == [op]
    ensures Accounted(s.server, op, ServerReaction(s, op))
  {
    S.ReactAccounts(s.server, op, !op.READ? || s.up != [], if op.READ? && s.up != [] then s.up[0] else "");
  }

  lemma MovesKeepShape(s: Session, t: Session, op: S.Opt, r: S.Reaction)
    requires Shape(s) && ServerMoves(s, t, op, r) && Accounted(s.server, op, r)
    ensures Shape(t)
  {
    if op.READ? && s.up != [] {
      assert s.heard + s.up == (s.heard + [s.up[0]]) + s.up[1..];
    }
  }

  lemma NextKeepsShape(s: Session, l: Label)
    requires Shape(s)
    ensures Shape(Next(s, l)) && Next(s, l).kind == s.kind
  {
    if Enabled(s, l) {
      match l
      case User(u, msg) => UserKeepsShape(s, u, msg);
      case ClientWrite(i) => WriteClient(s.client, i);
      case ClientRead(i) => ReadClient(s.client, i, !s.client.readTags[i].READ? || s.down != []);
      case ServerOp(i) =>
        ServerStepMoves(s, i);
        ReactionAccounted(s, s.serverOps[i]);
        MovesKeepShape(s, ServerStep(s, i), s.serverOps[i], ServerReaction(s, s.serverOps[i]));
    }
  }

  lemma {:induction false} ExecShape(kind: C.Kind, schedule: seq<Label>)
    ensures Shape(Exec(kind, schedule)) && Exec(kind, schedule).kind == kind
  {
    if schedule == [] {
      C.ExecInv(kind, []);
    } else {
      var n := |schedule| - 1;
      ExecShape(kind, schedule[..n]);
      NextKeepsShape(Exec(kind, schedule[..n]), schedule[n]);
    }
  }

  // ----- every session of completions ends

  function WriteTagWeight(opt: C.Opt): nat { if opt.START_CALL? then 3 else 1 }

  function ReadTagWeight(opt: C.Opt): nat { if opt.READ? then 2 else 1 }

  function ServerOpWeight(opt: S.Opt): nat
  {
    match opt
    case RECEIVE => 11
    case WRITE => 3
    case READ => 2
    case FINISH => 1
  }

  function TagsWeight(c: C.Call): nat
  {
    (if c.writeTags == [] then 0 else WriteTagWeight(c.writeTags[0])) +
    (if c.readTags == [] then 0 else ReadTagWeight(c.readTags[0]))
  }

  /**
   Completions still to come: a message on its way up may cost the server's write and the client's read as
   well, and so does a response that the server has queued.
   */
  function Remaining(s: Session): nat
  {
    3 * |s.up| + |s.down| + 3 * |s.server.responses| + TagsWeight(s.client) +
    (if s.serverOps == [] then 0 else ServerOpWeight(s.serverOps[0]))
  }

  lemma WriteTagNearer(c: C.Call, i: nat)
    requires C.Inv(c) && i < |c.writeTags|
    ensures TagsWeight(C.Next(c, C.CompleteWrite(i, true))) < TagsWeight(c)
    ensures C.Next(c, C.CompleteWrite(i, true)).started == c.started
  {
    C.CompleteWriteIs(c, i, true);
    WriteWeight(c, c.writeTags[0]);
  }

  lemma WriteWeight(c: C.Call, opt: C.Opt)
    requires C.Inv(c) && c.writeTags == [opt]
    ensures var d := C.Process(c.(writeTags := []), opt, true); TagsWeight(d) < TagsWeight(c) && d.started == c.started
  {
  }

  lemma ReadWeight(c: C.Call, opt: C.Opt, ok: bool)
    requires C.Inv(c) && c.readTags == [opt]
    ensures var d := C.Process(c.(readTags := []), opt, ok);
            && d.started == c.started
            && (if opt.READ? && ok then TagsWeight(d) <= TagsWeight(c) else TagsWeight(d) < TagsWeight(c))
  {
  }

  /** A successful read issues the next one; any other completion of the read side leaves less to come. */
  lemma ReadTagNearer(c: C.Call, i: nat, ok: bool)
    requires C.Inv(c) && i < |c.readTags|
    ensures var d := C.Next(c, C.CompleteRead(i, ok));
            && d.started == c.started
            && (if c.readTags[i].READ? && ok then TagsWeight(d) <= TagsWeight(c) else TagsWeight(d) < TagsWeight(c))
  {
    C.CompleteReadIs(c, i, ok);
    ReadWeight(c, c.readTags[0], ok);
  }

  lemma ClientWriteNearer(s: Session, i: nat)
    requires Shape(s) && Enabled(s, ClientWrite(i))
    ensures Remaining(Next(s, ClientWrite(i))) < Remaining(s)
  {
    WriteTagNearer(s.client, i);
  }

  lemma ClientReadNearer(s: Session, i: nat)
    requires Shape(s) && Enabled(s, ClientRead(i))
    ensures Remaining(Next(s, ClientRead(i))) < Remaining(s)
  {
    ReadTagNearer(s.client, i, !s.client.readTags[i].READ? || s.down != []);
  }

  /** A reaction trades its operation for less, counting what it writes and leaves queued. */
  lemma ReactionNearer(h: S.Handler, op: S.Opt, ok: bool, request: string)
    requires S.Legal(h.kind, op) && !h.kind.Unary? && !h.finish && S.ListenOk(h, op.RECEIVE?) && (!op.READ? ==> ok)
    requires h.kind.Listen? || h.responses == []
    ensures var r := S.React(h, op, ok, request);
            3 * |r.h.responses| + (if r.issue.Issue? then ServerOpWeight(r.issue.opt) else 0) +
            (if r.issue.Issue? && r.issue.opt.WRITE? then 1 else 0) <
            3 * |h.responses| + ServerOpWeight(op) + (if op.READ? && ok then 3 else 0)
  {
  }

  lemma MovesNearer(s: Session, t: Session, op: S.Opt, r: S.Reaction)
    requires ServerMoves(s, t, op, r)
    requires 3 * |r.h.responses| + (if r.issue.Issue? then ServerOpWeight(r.issue.opt) else 0) +
             (if r.issue.Issue? && r.issue.opt.WRITE? then 1 else 0) <
             3 * |s.server.responses| + ServerOpWeight(op) + (if op.READ? && s.up != [] then 3 else 0)
    ensures Remaining(t) < Remaining(s)
  {
  }

  lemma ServerOpNearer(s: Session, i: nat)
    requires Shape(s) && Enabled(s, ServerOp(i))
    ensures Remaining(Next(s, ServerOp(i))) < Remaining(s)
  {
    var op := s.serverOps[i];
    ServerStepMoves(s, i);
    ReactionNearer(s.server, op, !op.READ? || s.up != [], if op.READ? && s.up != [] then s.up[0] else "");
    MovesNearer(s, ServerStep(s, i), op, ServerReaction(s, op));
  }

  /** Every completion brings the session nearer to rest; only the user can add work. */
  lemma CompletionNearer(s: Session, l: Label)
    requires Shape(s) && Enabled(s, l) && !l.User?
    ensures Remaining(Next(s, l)) < Remaining(s)
  {
    match l
    case ClientWrite(i) => ClientWriteNearer(s, i);
    case ClientRead(i) => ClientReadNearer(s, i);
    case ServerOp(i) => ServerOpNearer(s, i);
  }

  /** `after` continues the run `before` by completions that are all possible when they happen. */
  ghost predicate Completions(kind: C.Kind, before: seq<Label>, after: seq<Label>)
  {
    after != [] ==>
      var n := |after| - 1;
      Completions(kind, before, after[..n]) && !after[n].User? && Enabled(Exec(kind, before + after[..n]), after[n])
  }

  lemma CompletionKeepsHistory(s: Session, l: Label)
    requires Shape(s) && !l.User?
    ensures Next(s, l).upDone == s.upDone && Next(s, l).wrote == s.wrote
    ensures s.client.started ==> Next(s, l).client.started
  {
    if Enabled(s, l) {
      match l
      case ClientWrite(i) => WriteTagNearer(s.client, i);
      case ClientRead(i) => ReadTagNearer(s.client, i, !s.client.readTags[i].READ? || s.down != []);
      case ServerOp(i) => ServerStepMoves(s, i);
    }
  }

  lemma ExecLast(kind: C.Kind, before: seq<Label>, after: seq<Label>, n: nat)
    requires |after| == n + 1
    ensures Exec(kind, before + after) == Next(Exec(kind, before + after[..n]), after[n])
  {
    assert (before + after)[..|before + after| - 1] == before + after[..n];
  }

  lemma {:induction false} CompletionsAreBounded(kind: C.Kind, before: seq<Label>, after: seq<Label>)
    requires Completions(kind, before, after)
    ensures |after| + Remaining(Exec(kind, before + after)) <= Remaining(Exec(kind, before))
    ensures Exec(kind, before + after).upDone == Exec(kind, before).upDone
    ensures Exec(kind, before + after).wrote == Exec(kind, before).wrote
    ensures Exec(kind, before).client.started ==> Exec(kind, before + after).client.started
  {
    if after == [] {
      assert before + after == before;
    } else {
      var n := |after| - 1;
      CompletionsAreBounded(kind, before, after[..n]);
      var s := Exec(kind, before + after[..n]);
      ExecLast(kind, before, after, n);
      ExecShape(kind, before + after[..n]);
      CompletionNearer(s, after[n]);
      CompletionKeepsHistory(s, after[n]);
    }
  }

  /** Only the user could go on. */
  ghost predicate AtRest(s: Session) { forall l: Label :: !l.User? ==> !Enabled(s, l) }

  /** At rest nothing is outstanding, except a server that waits for a message and a client for the server. */
  lemma RestShape(s: Session)
    requires Shape(s) && AtRest(s) && s.client.started
    ensures s.client.writeTags == []
    ensures s.serverOps == [] || (s.serverOps == [S.READ] && s.up == [] && !s.upDone)
    ensures s.client.readTags == [] || !s.downDone
    ensures s.serverOps == [] <==> s.server.finish
  {
    assert !Enabled(s, ClientWrite(0)) && !Enabled(s, ClientRead(0)) && !Enabled(s, ServerOp(0));
  }

  lemma ClosingTakesPermit(c: C.Call)
    requires C.Inv(c) && !c.kind.Listen? && Closing(c)
    ensures c.started && c.permits == 0 && c.hands == []
  {
  }
}
