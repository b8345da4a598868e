/** A talk call end to end: the client gets back what it wrote. */
module TalkSession {
  import opened Sessions
  import C = ClientCalls
  import S = ServerHandlers

  predicate ReadEnded(c: C.Call) { c.finish || C.FINISH in c.readTags }

  ghost predicate Inv(s: Session)
  {
    && Shape(s) && s.kind.Talk?
    && s.heard == s.got + s.down
    && (s.downDone ==> s.upDone && s.up == [])
    && (ReadEnded(s.client) ==> s.downDone && s.down == [])
  }

  lemma UserKeepsEnd(c: C.Call, u: C.Label)
    requires C.Inv(c) && c.kind.Talk? && ByUser(u) && C.Enabled(c, u)
    ensures ReadEnded(C.Next(c, u)) <==> ReadEnded(c)
    ensures u.IssueHeld? ==> !Closing(c)
  {
  }

  lemma WriteKeepsEnd(c: C.Call, i: nat)
    requires C.Inv(c) && c.kind.Talk? && i < |c.writeTags|
    ensures ReadEnded(C.Next(c, C.CompleteWrite(i, true))) <==> ReadEnded(c)
  {
    assert C.Without(c.writeTags, i) == [];
  }

  lemma ReadMovesEnd(c: C.Call, i: nat, ok: bool)
    requires C.Inv(c) && c.kind.Talk? && i < |c.readTags| && (c.readTags[i].FINISH? ==> ok)
    ensures ReadEnded(C.Next(c, C.CompleteRead(i, ok))) <==> ReadEnded(c) || !ok
  {
    assert C.Without(c.readTags, i) == [];
  }

  lemma ClientReadKeepsInv(s: Session, i: nat)
    requires Inv(s) && Enabled(s, ClientRead(i))
    ensures Inv(ClientReadStep(s, i))
  {
    var more := s.client.readTags[i].READ? && s.down != [];
    NextKeepsShape(s, ClientRead(i));
    ReadMovesEnd(s.client, i, more || !s.client.readTags[i].READ?);
    if more {
      assert s.got + s.down == s.got + [s.down[0]] + s.down[1..];
    }
  }

  lemma MovesKeepInv(s: Session, t: Session, op: S.Opt)
    requires Inv(s) && Shape(t) && ServerMoves(s, t, op, ServerReaction(s, op)) && (op.READ? && s.up == [] ==> s.upDone)
    ensures Inv(t)
  {
    if op.READ? && s.up != [] {
      assert s.got + (s.down + [s.up[0]]) == s.got + s.down + [s.up[0]];
    }
  }

  lemma ServerKeepsInv(s: Session, i: nat)
    requires Inv(s) && Enabled(s, ServerOp(i))
    ensures Inv(ServerStep(s, i))
  {
    NextKeepsShape(s, ServerOp(i));
    ServerStepMoves(s, i);
    MovesKeepInv(s, ServerStep(s, i), s.serverOps[i]);
  }

  lemma NextKeepsInv(s: Session, l: Label)
    requires Inv(s)
    ensures Inv(Next(s, l))
  {
    if Enabled(s, l) {
      match l
      case User(u, _) =>
        NextKeepsShape(s, l);
        UserKeepsEnd(s.client, u);
      case ClientWrite(i) =>
        NextKeepsShape(s, l);
        WriteKeepsEnd(s.client, i);
      case ClientRead(i) => ClientReadKeepsInv(s, i);
      case ServerOp(i) => ServerKeepsInv(s, i);
    }
  }

  lemma {:induction false} ExecInv(schedule: seq<Label>)
    ensures Inv(Exec(C.Talk, schedule))
  {
    if schedule == [] {
      ExecShape(C.Talk, []);
    } else {
      var n := |schedule| - 1;
      ExecInv(schedule[..n]);
      NextKeepsInv(Exec(C.Talk, schedule[..n]), schedule[n]);
    }
  }

  // ----- main results

  /**
   In every interleaving the client has received a prefix of what it wrote; when it has processed
   FINISH it has received all of it, and it cannot write any more.
   */
  lemma TalkEchoesInOrder(schedule: seq<Label>)
    ensures var s := Exec(C.Talk, schedule);
            && s.got <= s.wrote
            && (s.client.finish ==> s.got == s.wrote && s.upDone && s.client.permits == 0 && s.client.hands == [])
  {
    ExecInv(schedule);
    var s := Exec(C.Talk, schedule);
    assert s.got + s.down + s.up == s.wrote;
    if s.client.finish {
      ClosingTakesPermit(s.client);
    }
  }

  /**
   The session never hangs: where neither side can complete an operation, the call has not been
   started, or it is complete with everything echoed, or the user may write or close.
   */
  lemma TalkNeverHangs(schedule: seq<Label>)
    requires AtRest(Exec(C.Talk, schedule))
    ensures var s := Exec(C.Talk, schedule);
            || !s.client.started
            || (C.IsComplete(s.client) && s.server.finish && s.got == s.wrote)
            || s.client.permits > 0 || s.client.hands != []
  {
    ExecInv(schedule);
    var s := Exec(C.Talk, schedule);
    if s.client.started {
      RestShape(s);
      if s.client.finish {
        TalkEchoesInOrder(schedule);
      }
    }
  }

  /**
   Once close() has put the end of the stream on the channel, the session runs for a bounded number of
   completions, and where it stops the call is complete and the client has received all it ever wrote.
   */
  lemma ClosedTalkEnds(before: seq<Label>, after: seq<Label>)
    requires Exec(C.Talk, before).upDone && Completions(C.Talk, before, after)
    ensures |after| <= Remaining(Exec(C.Talk, before))
    ensures var s := Exec(C.Talk, before + after);
            AtRest(s) ==> C.IsComplete(s.client) && s.server.finish && s.got == s.wrote == Exec(C.Talk, before).wrote
  {
    CompletionsAreBounded(C.Talk, before, after);
    var s := Exec(C.Talk, before + after);
    if AtRest(s) {
      TalkNeverHangs(before + after);
      ExecInv(before + after);
      ClosingTakesPermit(s.client);
    }
  }
}
