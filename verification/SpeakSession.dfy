/** A speak call end to end: the server hears what the client writes. */
module SpeakSession {
  import opened Sessions
  import C = ClientCalls
  import S = ServerHandlers

  ghost predicate Inv(s: Session)
  {
    && Shape(s) && s.kind.Speak?
    && s.down == [] && s.got == []
    && (s.downDone ==> s.upDone && s.up == [])
    && (s.client.finish ==> s.downDone)
  }

  /** FINISH is the only tag of the read side, so only its completion finishes the call. */
  lemma ClientFinishes(c: C.Call, l: C.Label)
    requires C.Inv(c) && c.kind.Speak? && C.Enabled(c, l)
    ensures C.Next(c, l).finish <==> c.finish || l.CompleteRead?
    ensures l.IssueHeld? ==> !Closing(c)
    ensures l.CompleteRead? ==> c.readTags[l.i].FINISH?
  {
  }

  lemma MovesKeepInv(s: Session, t: Session, op: S.Opt)
    requires Inv(s) && Shape(t) && ServerMoves(s, t, op, ServerReaction(s, op)) && (op.READ? && s.up == [] ==> s.upDone)
    ensures Inv(t)
  {
  }

  lemma ServerKeepsInv(s: Session, i: nat)
    requires Inv(s) && Enabled(s, ServerOp(i))
    ensures Inv(ServerStep(s, i))
  {
    NextKeepsShape(s, ServerOp(i));
    ServerStepMoves(s, i);
    MovesKeepInv(s, ServerStep(s, i), s.serverOps[i]);
  }

  lemma NextKeepsInv(s: Session, l: Label)
    requires Inv(s)
    ensures Inv(Next(s, l))
  {
    if Enabled(s, l) {
      NextKeepsShape(s, l);
      match l
      case User(u, _) => ClientFinishes(s.client, u);
      case ClientWrite(i) => ClientFinishes(s.client, C.CompleteWrite(i, true));
      case ClientRead(i) => ClientFinishes(s.client, C.CompleteRead(i, true));
      case ServerOp(i) => ServerKeepsInv(s, i);
    }
  }

  lemma {:induction false} ExecInv(schedule: seq<Label>)
    ensures Inv(Exec(C.Speak, schedule))
  {
    if schedule == [] {
      ExecShape(C.Speak, []);
    } else {
      var n := |schedule| - 1;
      ExecInv(schedule[..n]);
      NextKeepsInv(Exec(C.Speak, schedule[..n]), schedule[n]);
    }
  }

  // ----- main results

  /**
   The server has always read a prefix of what the client wrote; when it issues FINISH, and so when the
   client has processed it, it has read all of it, and the client cannot write any more.
   */
  lemma SpeakIsHeardInOrder(schedule: seq<Label>)
    ensures var s := Exec(C.Speak, schedule);
            && s.heard <= s.wrote
            && (s.client.finish ==> s.downDone)
            && (s.downDone ==> s.heard == s.wrote && s.upDone && s.client.permits == 0 && s.client.hands == [])
  {
    ExecInv(schedule);
    var s := Exec(C.Speak, schedule);
    if s.downDone {
      ClosingTakesPermit(s.client);
    }
  }

  /**
   The session never hangs: where neither side can complete an operation, start() has not returned, or the
   call is complete with everything heard, or the user may write or close.
   */
  lemma SpeakNeverHangs(schedule: seq<Label>)
    requires AtRest(Exec(C.Speak, schedule))
    ensures var s := Exec(C.Speak, schedule);
            || !s.client.started || s.client.owesFinish
            || (C.IsComplete(s.client) && s.server.finish && s.heard == s.wrote)
            || s.client.permits > 0 || s.client.hands != []
  {
    ExecInv(schedule);
    var s := Exec(C.Speak, schedule);
    if s.client.started {
      RestShape(s);
    }
  }

  /**
   Once close() has put the end of the stream on the channel, the session runs for a bounded number of
   completions, and where it stops the call is complete and the server has heard all the client ever wrote.
   */
  lemma ClosedSpeakEnds(before: seq<Label>, after: seq<Label>)
    requires Exec(C.Speak, before).upDone && Completions(C.Speak, before, after)
    ensures |after| <= Remaining(Exec(C.Speak, before))
    ensures var s := Exec(C.Speak, before + after);
            AtRest(s) ==> C.IsComplete(s.client) && s.server.finish && s.heard == s.wrote == Exec(C.Speak, before).wrote
  {
    CompletionsAreBounded(C.Speak, before, after);
    var s := Exec(C.Speak, before + after);
    if AtRest(s) {
      SpeakNeverHangs(before + after);
      ExecInv(before + after);
      ClosingTakesPermit(s.client);
    }
  }
}
