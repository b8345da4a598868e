/** A listen call end to end: the client gets the greetings. */
module ListenSession {
  import opened Sessions
  import C = ClientCalls
  import S = ServerHandlers

  /** Finished, or about to finish because a read found the end of the stream. */
  predicate ReadEnded(c: C.Call) { c.finish || C.FINISH in c.readTags }

  ghost predicate Inv(s: Session)
  {
    && Shape(s) && s.kind.Listen?
    && s.server.written == s.got + s.down
    && (s.downDone ==> s.server.written == S.GREETINGS)
    && (s.serverOps != [] && s.serverOps[0].RECEIVE? ==> s.server.written == [])
    && (ReadEnded(s.client) ==> s.downDone && s.down == [])
  }

  lemma UserKeepsEnd(c: C.Call, u: C.Label)
    requires C.Inv(c) && c.kind.Listen? && ByUser(u) && C.Enabled(c, u)
    ensures ReadEnded(C.Next(c, u)) <==> ReadEnded(c)
    ensures !u.IssueHeld?
  {
  }

  lemma WriteKeepsEnd(c: C.Call, i: nat)
    requires C.Inv(c) && c.kind.Listen? && i < |c.writeTags|
    ensures ReadEnded(C.Next(c, C.CompleteWrite(i, true))) <==> ReadEnded(c)
  {
    assert C.Without(c.writeTags, i) == [];
  }

  lemma ReadMovesEnd(c: C.Call, i: nat, ok: bool)
    requires C.Inv(c) && c.kind.Listen? && i < |c.readTags| && (c.readTags[i].FINISH? ==> ok)
    ensures ReadEnded(C.Next(c, C.CompleteRead(i, ok))) <==> ReadEnded(c) || !ok
  {
    assert C.Without(c.readTags, i) == [];
  }

  lemma ClientReadKeepsInv(s: Session, i: nat)
    requires Inv(s) && Enabled(s, ClientRead(i))
    ensures Inv(ClientReadStep(s, i))
  {
    var more := s.client.readTags[i].READ? && s.down != [];
    NextKeepsShape(s, ClientRead(i));
    ReadMovesEnd(s.client, i, more || !s.client.readTags[i].READ?);
    if more {
      assert s.got + s.down == s.got + [s.down[0]] + s.down[1..];
    }
  }

  lemma ReactionWrites(h: S.Handler, op: S.Opt)
    requires h.kind.Listen? && S.Legal(S.Listen, op) && !h.finish && S.ListenOk(h, op.RECEIVE?)
    ensures var r := S.React(h, op, true, "");
            && (r.issue.Issue? && r.issue.opt.WRITE? ==> r.h.written == h.written + [r.issue.content])
            && (r.issue.Issue? && r.issue.opt.FINISH? ==> h.written == S.GREETINGS)
            && (!(r.issue.Issue? && r.issue.opt.WRITE?) ==> r.h.written == h.written)
            && (r.issue.Issue? ==> !r.issue.opt.RECEIVE?)
  {
  }

  lemma ServerKeepsInv(s: Session, i: nat)
    requires Inv(s) && Enabled(s, ServerOp(i))
    ensures Inv(ServerStep(s, i))
  {
    NextKeepsShape(s, ServerOp(i));
    ServerStepMoves(s, i);
    ReactionWrites(s.server, s.serverOps[i]);
    MovesKeepInv(s, ServerStep(s, i), s.serverOps[i], ServerReaction(s, s.serverOps[i]));
  }

  lemma MovesKeepInv(s: Session, t: Session, op: S.Opt, r: S.Reaction)
    requires Inv(s) && Shape(t) && t.kind == s.kind && ServerMoves(s, t, op, r)
    requires r.issue.Issue? && r.issue.opt.WRITE? ==> r.h.written == s.server.written + [r.issue.content]
    requires r.issue.Issue? && r.issue.opt.FINISH? ==> s.server.written == S.GREETINGS
    requires !(r.issue.Issue? && r.issue.opt.WRITE?) ==> r.h.written == s.server.written
    requires r.issue.Issue? ==> !r.issue.opt.RECEIVE?
    ensures Inv(t)
  {
    if r.issue.Issue? && r.issue.opt.WRITE? {
      assert s.got + (s.down + [r.issue.content]) == s.got + s.down + [r.issue.content];
    }
  }

  lemma NextKeepsInv(s: Session, l: Label)
    requires Inv(s)
    ensures Inv(Next(s, l))
  {
    if Enabled(s, l) {
      match l
      case User(u, _) =>
        NextKeepsShape(s, l);
        UserKeepsEnd(s.client, u);
      case ClientWrite(i) =>
        NextKeepsShape(s, l);
        WriteKeepsEnd(s.client, i);
      case ClientRead(i) => ClientReadKeepsInv(s, i);
      case ServerOp(i) => ServerKeepsInv(s, i);
    }
  }

  lemma {:induction false} ExecInv(schedule: seq<Label>)
    ensures Inv(Exec(C.Listen, schedule))
  {
    if schedule == [] {
      ExecShape(C.Listen, []);
    } else {
      var n := |schedule| - 1;
      ExecInv(schedule[..n]);
      NextKeepsInv(Exec(C.Listen, schedule[..n]), schedule[n]);
    }
  }

  // ----- main results

  /** The client has always received a prefix of the three greetings, and all of them once it has processed FINISH. */
  lemma ListenDeliversGreetings(schedule: seq<Label>)
    ensures var s := Exec(C.Listen, schedule);
            s.got <= S.GREETINGS && (s.client.finish ==> s.got == S.GREETINGS && s.downDone)
  {
    ExecInv(schedule);
  }

  /** A started session runs for a bounded number of completions and stops with the call complete and all greetings received. */
  lemma StartedListenEnds(before: seq<Label>, after: seq<Label>)
    requires Exec(C.Listen, before).client.started && Completions(C.Listen, before, after)
    ensures |after| <= Remaining(Exec(C.Listen, before))
    ensures var s := Exec(C.Listen, before + after);
            AtRest(s) ==> C.IsComplete(s.client) && s.server.finish && s.got == S.GREETINGS
  {
    CompletionsAreBounded(C.Listen, before, after);
    var s := Exec(C.Listen, before + after);
    ExecInv(before + after);
    if AtRest(s) {
      RestShape(s);
    }
  }
}
