/** The frame transformer of the edge-triggered server, and the loop that hands bytes to a socket. */
module Framer {
  import opened Basics

  function FindDot(s: string): (pos: nat)
    ensures pos <= |s|
    ensures pos < |s| ==> s[pos] == '.'
  {
    if s == "" || s[0] == '.' then 0 else 1 + FindDot(s[1..])
  }

  lemma {:induction false} FindsFirstDot(s: string)
    ensures '.' !in s[..FindDot(s)]
  {
    if s != "" && s[0] != '.' {
      FindsFirstDot(s[1..]);
      assert s[..FindDot(s)] == [s[0]] + s[1..][..FindDot(s[1..])];
    }
  }

  /** The frames of a stream: the pieces that a '.' terminates. */
  function Frames(t: string): seq<string>
    decreases |t|
  {
    var pos := FindDot(t);
    if pos == |t| then [] else [t[..pos]] + Frames(t[pos + 1..])
  }

  /** What follows the last '.'. */
  function Residue(t: string): string
    decreases |t|
  {
    var pos := FindDot(t);
    if pos == |t| then t else Residue(t[pos + 1..])
  }

  function Bracketed(frames: seq<string>): string
  {
    if frames == [] then "" else "[" + Reversed(frames[0]) + "]" + Bracketed(frames[1..])
  }

  /** The one-shot transformation that the session refines. */
  function Framed(t: string): string { Bracketed(Frames(t)) }

  // ----- what frames and residue are

  function Terminated(frames: seq<string>): string
  {
    if frames == [] then "" else frames[0] + "." + Terminated(frames[1..])
  }

  lemma {:induction false} Assoc<T>(a: seq<T>, b: seq<T>, c: seq<T>)
    ensures (a + b) + c == a + (b + c)
  {
  }

  lemma {:induction false} TerminatedCons(f: string, frames: seq<string>, rest: string)
    ensures Terminated([f] + frames) + rest == (f + ".") + (Terminated(frames) + rest)
  {
    assert ([f] + frames)[1..] == frames;
    Assoc(f + ".", Terminated(frames), rest);
  }

  lemma {:induction false} FramesRejoin(t: string)
    ensures Terminated(Frames(t)) + Residue(t) == t
    decreases |t|
  {
    var pos := FindDot(t);
    if pos < |t| {
      var tail := t[pos + 1..];
      FramesRejoin(tail);
      TerminatedCons(t[..pos], Frames(tail), Residue(tail));
      DotSplits(t);
    } else {
      assert Frames(t) == [] && "" + t == t;
    }
  }

  lemma {:induction false} DotSplits(t: string)
    requires FindDot(t) < |t|
    ensures (t[..FindDot(t)] + ".") + t[FindDot(t) + 1..] == t
  {
  }

  lemma {:induction false} FramesDotFree(t: string)
    ensures forall f :: f in Frames(t) ==> '.' !in f
    ensures '.' !in Residue(t)
    decreases |t|
  {
    var pos := FindDot(t);
    FindsFirstDot(t);
    if pos < |t| {
      FramesDotFree(t[pos + 1..]);
    } else {
      assert t[..pos] == t;
    }
  }

  /** Frames and residue are a cut of the stream at its dots. */
  lemma {:induction false} FramesCutAtDots(t: string)
    ensures Terminated(Frames(t)) + Residue(t) == t
    ensures (forall f :: f in Frames(t) ==> '.' !in f) && '.' !in Residue(t)
  {
    FramesRejoin(t);
    FramesDotFree(t);
  }

  /** And they are the only such cut: dot-free frames and a dot-free rest are found again. */
  lemma {:induction false} CutIsUnique(frames: seq<string>, rest: string)
    requires (forall f :: f in frames ==> '.' !in f) && '.' !in rest
    ensures Frames(Terminated(frames) + rest) == frames && Residue(Terminated(frames) + rest) == rest
  {
    if frames == [] {
      NoDotFound(rest);
      assert Terminated(frames) + rest == rest;
    } else {
      var f, tail := frames[0], Terminated(frames[1..]) + rest;
      assert frames == [f] + frames[1..];
      TerminatedCons(f, frames[1..], rest);
      DotAfter(f, tail);
      CutIsUnique(frames[1..], rest);
      FirstFrame((f + ".") + tail, f, tail);
    }
  }

  lemma {:induction false} NoDotFound(s: string)
    requires '.' !in s
    ensures FindDot(s) == |s|
  {
    if s != "" {
      NoDotFound(s[1..]);
    }
  }

  lemma {:induction false} DotAfter(f: string, tail: string)
    requires '.' !in f
    ensures var t := (f + ".") + tail; FindDot(t) == |f| && t[..|f|] == f && t[|f| + 1..] == tail
  {
    var t := (f + ".") + tail;
    if f != "" {
      DotAfter(f[1..], tail);
      assert t[1..] == (f[1..] + ".") + tail;
    }
  }

  // ----- what the output looks like

  /** Character by character: a frame comes out as '[', its characters from last to first, ']', then the rest. */
  lemma {:induction false} FirstFrameOut(f: string, tail: string, k: nat)
    requires '.' !in f
    ensures var out := Framed((f + ".") + tail);
            && |out| == |f| + 2 + |Framed(tail)|
            && out[0] == '[' && out[|f| + 1] == ']' && out[|f| + 2..] == Framed(tail)
            && (k < |f| ==> out[1 + k] == f[|f| - 1 - k])
  {
    DotAfter(f, tail);
    FirstFrame((f + ".") + tail, f, tail);
    assert ([f] + Frames(tail))[1..] == Frames(tail);
    assert Framed((f + ".") + tail) == "[" + Reversed(f) + "]" + Framed(tail);
  }

  lemma {:induction false} NoFrameOut(s: string)
    requires '.' !in s
    ensures Framed(s) == "" && Residue(s) == s
  {
    NoDotFound(s);
  }

  // ----- streams in pieces

  lemma {:induction false} DotStays(t: string, s: string)
    requires FindDot(t) < |t|
    ensures FindDot(t + s) == FindDot(t)
  {
    if t[0] != '.' {
      assert (t + s)[1..] == t[1..] + s;
      DotStays(t[1..], s);
    }
  }

  lemma {:induction false} FirstFrame(t: string, f: string, tail: string)
    requires FindDot(t) == |f| < |t| && t[..|f|] == f && t[|f| + 1..] == tail
    ensures Frames(t) == [f] + Frames(tail) && Residue(t) == Residue(tail)
  {
  }

  lemma {:induction false} ExtendedFrame(t: string, s: string, f: string, tail: string)
    requires FindDot(t) == |f| < |t| && t[..|f|] == f && t[|f| + 1..] == tail
    ensures FindDot(t + s) == |f| && (t + s)[..|f|] == f && (t + s)[|f| + 1..] == tail + s
  {
    DotStays(t, s);
  }

  /** Framing an extended stream is framing the residue with the extension. */
  lemma {:induction false} FramesExtend(t: string, s: string)
    ensures Frames(t + s) == Frames(t) + Frames(Residue(t) + s)
    ensures Residue(t + s) == Residue(Residue(t) + s)
    decreases |t|
  {
    var pos := FindDot(t);
    if pos < |t| {
      var f, tail := t[..pos], t[pos + 1..];
      FirstFrame(t, f, tail);
      ExtendedFrame(t, s, f, tail);
      FirstFrame(t + s, f, tail + s);
      FramesExtend(tail, s);
      Assoc([f], Frames(tail), Frames(Residue(tail) + s));
    }
  }

  lemma {:induction false} BracketedConcat(a: seq<string>, b: seq<string>)
    ensures Bracketed(a + b) == Bracketed(a) + Bracketed(b)
  {
    if a == [] {
      assert a + b == b;
    } else {
      assert (a + b)[1..] == a[1..] + b;
      BracketedConcat(a[1..], b);
    }
  }

  lemma {:induction false} FramedExtends(t: string, s: string)
    ensures Framed(t + s) == Framed(t) + Framed(Residue(t) + s)
    ensures Residue(t + s) == Residue(Residue(t) + s)
  {
    FramesExtend(t, s);
    BracketedConcat(Frames(t), Frames(Residue(t) + s));
  }

  /** The loop of Session::Read over its input and output buffers. */
  method TakeFrames(input: string, output: string) returns (rest: string, out: string)
    ensures rest == Residue(input)
    ensures out == output + Framed(input)
  {
    rest, out := input, output;
    while true
      invariant Residue(rest) == Residue(input)
      invariant out + Framed(rest) == output + Framed(input)
      decreases |rest|
    {
      var pos := FindDot(rest);
      if pos == |rest| {
        return;
      }
      var tmp := rest[..pos];
      assert Frames(rest)[1..] == Frames(rest[pos + 1..]);
      assert Framed(rest) == "[" + Reversed(tmp) + "]" + Framed(rest[pos + 1..]);
      assert out + Framed(rest) == out + ("[" + Reversed(tmp) + "]") + Framed(rest[pos + 1..]);
      rest := rest[pos + 1..];
      out := out + ("[" + Reversed(tmp) + "]");
    }
  }

  // ----- writing to a socket

  /** What each write() call takes; a call that would block (EAGAIN), or the end of the list, stops the loop. */
  datatype WriteResult = Took(n: nat) | Again

  /** The unsent suffix. */
  function Unsent(s: string, results: seq<WriteResult>): string
  {
    if s == "" || results == [] || results[0].Again? then s
    else Unsent(s[if results[0].n <= |s| then results[0].n else |s|..], results[1..])
  }

  /** How many bytes go out before the unsent suffix. */
  function Taken(s: string, results: seq<WriteResult>): nat
  {
    if |Unsent(s, results)| <= |s| then |s| - |Unsent(s, results)| else 0
  }

  /** What the calls before the first that would block take together. */
  function Capacity(results: seq<WriteResult>): nat
  {
    if results == [] || results[0].Again? then 0 else results[0].n + Capacity(results[1..])
  }

  /** As many bytes go out as the calls take, or all of them. */
  lemma {:induction false} TakenIsCapacity(s: string, results: seq<WriteResult>)
    ensures Taken(s, results) == if |s| <= Capacity(results) then |s| else Capacity(results)
    ensures Unsent(s, results) == s[Taken(s, results)..]
  {
    UnsentIsSuffix(s, results);
    if !(s == "" || results == [] || results[0].Again?) {
      var n := if results[0].n <= |s| then results[0].n else |s|;
      UnsentIsSuffix(s[n..], results[1..]);
      TakenIsCapacity(s[n..], results[1..]);
    }
  }

  /** The write loops of SocketHandler::Write and ConnHandler::Write: bytes go out in order, the rest comes back. */
  method WriteLoop(s: string, results: seq<WriteResult>) returns (rest: string, sent: string)
    ensures sent + rest == s
    ensures rest == Unsent(s, results)
    ensures |sent| == if |s| <= Capacity(results) then |s| else Capacity(results)
  {
    rest, sent := s, "";
    var i := 0;
    while rest != "" && i < |results| && results[i].Took?
      invariant i <= |results|
      invariant sent + rest == s
      invariant Unsent(rest, results[i..]) == Unsent(s, results)
    {
      var n := if results[i].n <= |rest| then results[i].n else |rest|;
      UnsentStep(rest, results, i, n);
      MoveOver(sent, rest, n);
      sent := sent + rest[..n];
      rest := rest[n..];
      i := i + 1;
    }
    UnsentStops(rest, results, i);
    TakenIsCapacity(s, results);
  }

  lemma {:induction false} UnsentStep(s: string, results: seq<WriteResult>, i: nat, n: nat)
    requires s != "" && i < |results| && results[i].Took? && n == if results[i].n <= |s| then results[i].n else |s|
    ensures Unsent(s, results[i..]) == Unsent(s[n..], results[i + 1..])
  {
    assert results[i..][1..] == results[i + 1..];
  }

  lemma {:induction false} UnsentStops(s: string, results: seq<WriteResult>, i: nat)
    requires i <= |results| && (s == "" || i == |results| || results[i].Again?)
    ensures Unsent(s, results[i..]) == s
  {
  }

  lemma {:induction false} MoveOver(a: string, b: string, n: nat)
    requires n <= |b|
    ensures (a + b[..n]) + b[n..] == a + b
  {
    assert b == b[..n] + b[n..];
  }

  lemma {:induction false} UnsentIsSuffix(s: string, results: seq<WriteResult>)
    ensures |Unsent(s, results)| <= |s| && s == s[..Taken(s, results)] + Unsent(s, results)
  {
    if !(s == "" || results == [] || results[0].Again?) {
      var n := if results[0].n <= |s| then results[0].n else |s|;
      UnsentIsSuffix(s[n..], results[1..]);
      SuffixOfSuffix(s, n, Taken(s[n..], results[1..]), Unsent(s[n..], results[1..]));
      assert Taken(s, results) == n + Taken(s[n..], results[1..]);
    }
  }

  lemma {:induction false} SuffixOfSuffix(s: string, n: nat, k: nat, rest: string)
    requires n + k <= |s| && s[n..] == s[n..][..k] + rest
    ensures s == s[..n + k] + rest
  {
    assert s == s[..n] + s[n..];
    assert s[..n] + s[n..][..k] == s[..n + k];
  }
}
