/**
 The incremental request parser as a function on its state, and what it computes: the result
 does not depend on how the stream is cut, except for streams with an empty first line, and a
 rendered request is recovered from any cut.
 */
module HttpParser {
  import opened Basics

  const LINE_END := "\r\n"
  const CONTENT_LENGTH := "Content-Length"
  const SIZE_MODULUS: nat := 0x1_0000_0000_0000_0000

  /** std::stoi, which either yields an int or throws. */
  type Stoi = string -> Option<int>

  datatype Request = Request(
    buf: string,
    firstLine: string,
    headers: map<string, string>,
    contentLength: nat,
    body: string,
    headersDone: bool,
    allDone: bool)

  /** The state after a call; `failed` means that the call threw. */
  datatype Outcome = Outcome(r: Request, failed: bool)

  const INITIAL := Request("", "", map[], 0, "", false, false)

  /** The position of the first line end, or the length if there is none. */
  function FindLineEnd(s: string): (pos: nat)
    ensures pos <= |s|
    ensures pos < |s| ==> pos + 2 <= |s| && s[pos] == '\r' && s[pos + 1] == '\n'
  {
    if |s| < 2 then |s|
    else if StartsWithLineEnd(s) then 0
    else 1 + FindLineEnd(s[1..])
  }

  predicate HasLineEnd(s: string) { FindLineEnd(s) < |s| }

  predicate StartsWithLineEnd(s: string) { |s| >= 2 && s[0] == '\r' && s[1] == '\n' }

  function FindSep(s: string): (pos: nat)
    ensures pos <= |s|
    ensures pos < |s| ==> s[pos] == ':'
    ensures forall i :: 0 <= i < pos ==> s[i] != ':'
  {
    if s == "" || s[0] == ':' then 0 else 1 + FindSep(s[1..])
  }

  predicate IsSpace(c: char)
  {
    c == ' ' || c == '\t' || c == '\n' || c == '\r' || c == '\U{000B}' || c == '\U{000C}'
  }

  function Ltrim(s: string): string
  {
    if s != "" && IsSpace(s[0]) then Ltrim(s[1..]) else s
  }

  function Rtrim(s: string): string
  {
    if s != "" && IsSpace(s[|s| - 1]) then Rtrim(s[..|s| - 1]) else s
  }

  function Trim(s: string): string { Rtrim(Ltrim(s)) }

  function SetFirstLine(r: Request): Request
  {
    if r.firstLine != "" || !HasLineEnd(r.buf) then r else
    var pos := FindLineEnd(r.buf);
    r.(firstLine := r.buf[..pos], buf := r.buf[pos + 2..])
  }

  function AddHeader(headers: map<string, string>, line: string): Option<map<string, string>>
  {
    var pos := FindSep(line);
    if pos == |line| then None else Some(headers[line[..pos] := Trim(line[pos + 1..])])
  }

  /** How the header loop leaves the buffer: out of lines, after the blank line, or at a bad line. */
  datatype Scan =
    | NeedMore(buf: string, headers: map<string, string>)
    | Blank(buf: string, headers: map<string, string>)
    | Bad(buf: string, headers: map<string, string>)

  function ScanHeaders(buf: string, headers: map<string, string>): Scan
    decreases |buf|
  {
    var pos := FindLineEnd(buf);
    if pos == |buf| then NeedMore(buf, headers)
    else if pos == 0 then Blank(buf[2..], headers)
    else
      match AddHeader(headers, buf[..pos])
      case None => Bad(buf, headers)
      case Some(more) => ScanHeaders(buf[pos + 2..], more)
  }

  /** One turn of the header loop: a line is taken, or the loop stops. */
  datatype Turn = Taken(buf: string, headers: map<string, string>) | Stopped(c: Scan)

  function ScanTurn(buf: string, headers: map<string, string>): Turn
  {
    var pos := FindLineEnd(buf);
    if pos == |buf| then Stopped(NeedMore(buf, headers))
    else if pos == 0 then Stopped(Blank(buf[2..], headers))
    else
      match AddHeader(headers, buf[..pos])
      case None => Stopped(Bad(buf, headers))
      case Some(more) => Taken(buf[pos + 2..], more)
  }

  lemma {:induction false} ScanStep(buf: string, headers: map<string, string>)
    ensures ScanHeaders(buf, headers) ==
            match ScanTurn(buf, headers)
            case Stopped(c) => c
            case Taken(rest, more) => ScanHeaders(rest, more)
  {
  }

  /** The length as a size_t; None when std::stoi throws. */
  function ContentLength(stoi: Stoi, headers: map<string, string>): Option<nat>
  {
    if CONTENT_LENGTH !in headers then Some(0)
    else
      match stoi(headers[CONTENT_LENGTH])
      case None => None
      case Some(n) => Some(n % SIZE_MODULUS)
  }

  function SetHeaders(stoi: Stoi, r: Request): Outcome { Scanned(stoi, r, ScanHeaders(r.buf, r.headers)) }

  /** How the header loop leaves the request, given how it leaves the buffer. */
  function Scanned(stoi: Stoi, r: Request, c: Scan): Outcome
  {
    match c
    case NeedMore(buf, headers) => Outcome(r.(buf := buf, headers := headers), false)
    case Bad(buf, headers) => Outcome(r.(buf := buf, headers := headers), true)
    case Blank(buf, headers) => CompleteHeaders(stoi, r.(buf := buf, headers := headers))
  }

  /** The blank line is behind: only the length is missing. */
  function CompleteHeaders(stoi: Stoi, r: Request): Outcome
  {
    var done := r.(headersDone := true);
    match ContentLength(stoi, r.headers)
    case None => Outcome(done, true)
    case Some(n) => Outcome(done.(contentLength := n), false)
  }

  function ParseMessageBody(r: Request): Request
  {
    if !r.headersDone || r.allDone then r else
    var body := r.body + r.buf;
    r.(body := body, allDone := |body| >= r.contentLength, buf := "")
  }

  function ParseRequest(stoi: Stoi, r: Request): Outcome
  {
    if r.headersDone then Outcome(ParseMessageBody(r), false)
    else
      var o := SetHeaders(stoi, SetFirstLine(r));
      if o.failed then o else Outcome(ParseMessageBody(o.r), false)
  }

  function Append(stoi: Stoi, r: Request, s: string): Outcome
  {
    if r.allDone then Outcome(r, false) else ParseRequest(stoi, r.(buf := r.buf + s))
  }

  /** Feeding pieces until one of them throws. */
  function Feed(stoi: Stoi, pieces: seq<string>): Outcome
  {
    if pieces == [] then Outcome(INITIAL, false) else
    var o := Feed(stoi, pieces[..|pieces| - 1]);
    if o.failed then o else Append(stoi, o.r, pieces[|pieces| - 1])
  }

  function Concat(pieces: seq<string>): string
  {
    if pieces == [] then "" else Concat(pieces[..|pieces| - 1]) + pieces[|pieces| - 1]
  }

  function Whole(stoi: Stoi, t: string): Outcome { Append(stoi, INITIAL, t) }

  /** What a client can see: the parsed parts, the flags, and the body up to its declared length. */
  datatype Seen = Seen(
    firstLine: string, headers: map<string, string>, contentLength: nat,
    headersDone: bool, allDone: bool, failed: bool, body: string, unparsed: string)

  function Observe(o: Outcome): Seen
  {
    Seen(o.r.firstLine, o.r.headers, o.r.contentLength, o.r.headersDone, o.r.allDone, o.failed,
         if o.r.allDone && o.r.contentLength <= |o.r.body| then o.r.body[..o.r.contentLength] else o.r.body,
         if o.r.headersDone || o.failed then "" else o.r.buf)
  }

  // ----- searching in an extended stream

  /** The search stops at the first line end. */
  lemma {:induction false} FindsFirstLineEnd(s: string, i: nat)
    requires i + 1 < |s| && s[i] == '\r' && s[i + 1] == '\n'
    ensures FindLineEnd(s) <= i
  {
    if !StartsWithLineEnd(s) {
      FindsFirstLineEnd(s[1..], i - 1);
    }
  }

  lemma {:induction false} LineEndStays(b: string, s: string)
    requires HasLineEnd(b)
    ensures FindLineEnd(b + s) == FindLineEnd(b) && HasLineEnd(b + s)
  {
    if !StartsWithLineEnd(b) {
      assert (b + s)[1..] == b[1..] + s;
      LineEndStays(b[1..], s);
    }
  }

  lemma {:induction false} LineEndAfter(line: string, rest: string)
    requires !HasLineEnd(line)
    ensures FindLineEnd(line + LINE_END + rest) == |line|
    ensures (line + LINE_END + rest)[..|line|] == line
    ensures (line + LINE_END + rest)[|line| + 2..] == rest
  {
    if line != "" {
      assert (line + LINE_END + rest)[1..] == line[1..] + LINE_END + rest;
      LineEndAfter(line[1..], rest);
    }
  }

  lemma {:induction false} ExtendedLine(b: string, s: string)
    requires HasLineEnd(b)
    ensures var pos := FindLineEnd(b);
            && FindLineEnd(b + s) == pos && HasLineEnd(b + s)
            && (b + s)[..pos] == b[..pos] && (b + s)[pos + 2..] == b[pos + 2..] + s
  {
    LineEndStays(b, s);
  }

  function ScanMore(c: Scan, s: string): Scan
  {
    match c
    case NeedMore(buf, headers) => ScanHeaders(buf + s, headers)
    case Blank(buf, headers) => Blank(buf + s, headers)
    case Bad(buf, headers) => Bad(buf + s, headers)
  }

  /** Scanning an extended buffer is continuing the scan of the buffer. */
  lemma {:induction false} ScanExtends(buf: string, headers: map<string, string>, s: string)
    ensures ScanHeaders(buf + s, headers) == ScanMore(ScanHeaders(buf, headers), s)
    decreases |buf|
  {
    if HasLineEnd(buf) {
      var pos := FindLineEnd(buf);
      ExtendedLine(buf, s);
      if pos > 0 && AddHeader(headers, buf[..pos]).Some? {
        ScanExtends(buf[pos + 2..], AddHeader(headers, buf[..pos]).value, s);
      }
    }
  }

  // ----- chunking

  /** Streams whose first line is not empty, or that end before the empty one could be overwritten. */
  predicate Regular(t: string) { StartsWithLineEnd(t) ==> !HasLineEnd(t[2..]) }

  lemma {:induction false} RegularPrefix(t: string, s: string)
    requires Regular(t + s)
    ensures Regular(t)
  {
    if StartsWithLineEnd(t) && HasLineEnd(t[2..]) {
      assert (t + s)[2..] == t[2..] + s;
      LineEndStays(t[2..], s);
    }
  }

  /** `o` is as good as the outcome of the whole stream `t` in one piece. */
  ghost predicate Agrees(stoi: Stoi, o: Outcome, t: string)
  {
    var w := Whole(stoi, t);
    if w.failed || w.r.allDone then Observe(o) == Observe(w) else o == w
  }

  /** The state after the first line, with `rest` still to be scanned. */
  function AfterFirstLine(stoi: Stoi, line: string, rest: string): Outcome
  {
    Continue(stoi, line, ScanHeaders(rest, map[]))
  }

  function Continue(stoi: Stoi, line: string, c: Scan): Outcome
  {
    match c
    case NeedMore(buf, headers) => Outcome(Request(buf, line, headers, 0, "", false, false), false)
    case Bad(buf, headers) => Outcome(Request(buf, line, headers, 0, "", false, false), true)
    case Blank(buf, headers) =>
      match ContentLength(stoi, headers)
      case None => Outcome(Request(buf, line, headers, 0, "", true, false), true)
      case Some(n) => Outcome(Request("", line, headers, n, buf, true, |buf| >= n), false)
  }

  /** Scanning and then taking the body, from a state that holds a first line and the rest. */
  lemma {:induction false} ScanAndBody(stoi: Stoi, r: Request)
    requires r == Request(r.buf, r.firstLine, map[], 0, "", false, false)
    ensures var o := SetHeaders(stoi, r);
            (if o.failed then o else Outcome(ParseMessageBody(o.r), false)) ==
            AfterFirstLine(stoi, r.firstLine, r.buf)
  {
    var c := ScanHeaders(r.buf, map[]);
    if c.Blank? {
      assert "" + c.buf == c.buf;
    }
  }

  lemma {:induction false} WholeIs(stoi: Stoi, t: string)
    ensures var pos := FindLineEnd(t);
            Whole(stoi, t) == if pos == |t| then Outcome(INITIAL.(buf := t), false)
                              else AfterFirstLine(stoi, t[..pos], t[pos + 2..])
  {
    var pos := FindLineEnd(t);
    assert Whole(stoi, t) == ParseRequest(stoi, INITIAL.(buf := t)) by {
      assert "" + t == t;
    }
    if pos < |t| {
      var r := Request(t[pos + 2..], t[..pos], map[], 0, "", false, false);
      assert SetFirstLine(INITIAL.(buf := t)) == r;
      ScanAndBody(stoi, r);
    }
  }

  /** One more piece, after a non-empty first line. */
  lemma {:induction false} ContinueAppend(stoi: Stoi, line: string, c: Scan, s: string)
    requires line != ""
    requires var o := Continue(stoi, line, c); !o.failed && !o.r.allDone
    ensures Append(stoi, Continue(stoi, line, c).r, s) == Continue(stoi, line, ScanMore(c, s))
  {
    match c
    case NeedMore(buf, headers) =>
      var m := ScanHeaders(buf + s, headers);
      if m.Blank? {
        assert "" + m.buf == m.buf;
      }
    case Blank(buf, headers) =>
      assert "" + s == s;
    case Bad(_, _) =>
  }

  lemma {:induction false} ContinueStays(stoi: Stoi, line: string, c: Scan, s: string)
    requires var o := Continue(stoi, line, c); o.failed || o.r.allDone
    ensures Observe(Continue(stoi, line, ScanMore(c, s))) == Observe(Continue(stoi, line, c))
    ensures var o := Continue(stoi, line, ScanMore(c, s)); o.failed || o.r.allDone
  {
    if c.Blank? && ContentLength(stoi, c.headers).Some? {
      var n := ContentLength(stoi, c.headers).value;
      assert (c.buf + s)[..n] == c.buf[..n];
    }
  }

  lemma {:induction false} WholeExtends(stoi: Stoi, t: string, s: string)
    requires HasLineEnd(t)
    ensures var pos := FindLineEnd(t);
            Whole(stoi, t + s) == Continue(stoi, t[..pos], ScanMore(ScanHeaders(t[pos + 2..], map[]), s))
  {
    var pos := FindLineEnd(t);
    ExtendedLine(t, s);
    ScanExtends(t[pos + 2..], map[], s);
    WholeIs(stoi, t + s);
  }

  /** `w` is still open and one more piece leads exactly to `v`. */
  ghost predicate LeadsTo(stoi: Stoi, w: Outcome, s: string, v: Outcome)
  {
    !w.failed && !w.r.allDone && Append(stoi, w.r, s) == v
  }

  lemma {:induction false} AppendWithoutLine(stoi: Stoi, t: string, s: string)
    requires !HasLineEnd(t)
    ensures LeadsTo(stoi, Whole(stoi, t), s, Whole(stoi, t + s))
  {
    WholeIs(stoi, t);
    assert "" + (t + s) == t + s;
  }

  lemma {:induction false} AppendAfterEmptyLine(stoi: Stoi, t: string, s: string)
    requires StartsWithLineEnd(t) && Regular(t + s)
    ensures LeadsTo(stoi, Whole(stoi, t), s, Whole(stoi, t + s))
  {
    RegularPrefix(t, s);
    WholeOfEmptyFirstLine(stoi, t);
    WholeOfEmptyFirstLine(stoi, t + s);
    EmptyLineTail(t, s);
    BufferLeads(stoi, Whole(stoi, t), s, Whole(stoi, t + s), t[2..]);
  }

  lemma {:induction false} EmptyLineTail(t: string, s: string)
    requires StartsWithLineEnd(t) && Regular(t + s)
    ensures (t + s)[2..] == t[2..] + s && !HasLineEnd(t[2..] + s)
  {
  }

  lemma {:induction false} BufferLeads(stoi: Stoi, w: Outcome, s: string, v: Outcome, u: string)
    requires !HasLineEnd(u + s)
    requires w == Outcome(INITIAL.(buf := u), false) && v == Outcome(INITIAL.(buf := u + s), false)
    ensures LeadsTo(stoi, w, s, v)
  {
    BufferWithoutLineEnd(stoi, u, s);
  }

  lemma {:induction false} AppendAfterLine(stoi: Stoi, t: string, s: string)
    requires HasLineEnd(t) && FindLineEnd(t) > 0
    ensures var w := Whole(stoi, t); var v := Whole(stoi, t + s);
            || LeadsTo(stoi, w, s, v)
            || ((w.failed || w.r.allDone) && (v.failed || v.r.allDone) && Observe(v) == Observe(w))
  {
    var pos := FindLineEnd(t);
    var c := ScanHeaders(t[pos + 2..], map[]);
    WholeIs(stoi, t);
    WholeExtends(stoi, t, s);
    var w := Whole(stoi, t);
    if w.failed || w.r.allDone {
      ContinueStays(stoi, t[..pos], c, s);
    } else {
      ContinueAppend(stoi, t[..pos], c, s);
    }
  }

  lemma {:induction false} AppendAgrees(stoi: Stoi, o: Outcome, t: string, s: string)
    requires Agrees(stoi, o, t) && Regular(t + s)
    ensures Agrees(stoi, if o.failed then o else Append(stoi, o.r, s), t + s)
  {
    if !HasLineEnd(t) {
      AppendWithoutLine(stoi, t, s);
    } else if FindLineEnd(t) == 0 {
      AppendAfterEmptyLine(stoi, t, s);
    } else {
      AppendAfterLine(stoi, t, s);
    }
  }

  lemma {:induction false} BufferWithoutLineEnd(stoi: Stoi, u: string, s: string)
    requires !HasLineEnd(u + s)
    ensures Append(stoi, INITIAL.(buf := u), s) == Outcome(INITIAL.(buf := u + s), false)
  {
    assert ScanHeaders(u + s, map[]) == NeedMore(u + s, map[]);
  }

  lemma {:induction false} WholeOfEmptyFirstLine(stoi: Stoi, t: string)
    requires StartsWithLineEnd(t) && Regular(t)
    ensures Whole(stoi, t) == Outcome(INITIAL.(buf := t[2..]), false)
  {
    WholeIs(stoi, t);
    assert t[..0] == "";
    assert ScanHeaders(t[2..], map[]) == NeedMore(t[2..], map[]);
  }

  lemma {:induction false} FeedAgrees(stoi: Stoi, pieces: seq<string>)
    requires Regular(Concat(pieces))
    ensures Agrees(stoi, Feed(stoi, pieces), Concat(pieces))
  {
    if pieces != [] {
      var n := |pieces| - 1;
      RegularPrefix(Concat(pieces[..n]), pieces[n]);
      FeedAgrees(stoi, pieces[..n]);
      AppendAgrees(stoi, Feed(stoi, pieces[..n]), Concat(pieces[..n]), pieces[n]);
    }
  }

  // ----- after an exception

  /** Until the blank line nothing of the length or the body is there. */
  predicate Early(r: Request) { !r.headersDone ==> r.contentLength == 0 && r.body == "" && !r.allDone }

  lemma {:induction false} FeedStaysEarly(stoi: Stoi, pieces: seq<string>)
    ensures Early(Feed(stoi, pieces).r)
    ensures var o := Feed(stoi, pieces);
            o.failed ==> !o.r.allDone && o.r.contentLength == 0 && o.r.body == "" && (o.r.headersDone || BadLineFirst(o.r))
  {
    if pieces != [] {
      FeedStaysEarly(stoi, pieces[..|pieces| - 1]);
      var o := Feed(stoi, pieces[..|pieces| - 1]);
      if !o.failed && !o.r.headersDone {
        var r := SetFirstLine(o.r.(buf := o.r.buf + pieces[|pieces| - 1]));
        ScanStopsAtBadLine(r.buf, r.headers);
      }
    }
  }

  predicate BadLineFirst(r: Request)
  {
    var pos := FindLineEnd(r.buf);
    HasLineEnd(r.buf) && pos > 0 && AddHeader(r.headers, r.buf[..pos]).None?
  }

  lemma {:induction false} ScanStopsAtBadLine(buf: string, headers: map<string, string>)
    ensures var c := ScanHeaders(buf, headers);
            c.Bad? ==> var pos := FindLineEnd(c.buf); HasLineEnd(c.buf) && pos > 0 && AddHeader(c.headers, c.buf[..pos]).None?
    decreases |buf|
  {
    var pos := FindLineEnd(buf);
    if 0 < pos < |buf| && AddHeader(headers, buf[..pos]).Some? {
      ScanStopsAtBadLine(buf[pos + 2..], AddHeader(headers, buf[..pos]).value);
    }
  }

  /** If std::stoi threw, the next piece completes the request with length zero and the rest as its body. */
  lemma {:induction false} AppendAfterBadLength(stoi: Stoi, pieces: seq<string>, s: string)
    requires Feed(stoi, pieces).failed && Feed(stoi, pieces).r.headersDone
    ensures var r := Feed(stoi, pieces).r;
            Append(stoi, r, s) == Outcome(r.(buf := "", body := r.buf + s, contentLength := 0, allDone := true), false)
  {
    FeedStaysEarly(stoi, pieces);
    assert "" + (Feed(stoi, pieces).r.buf + s) == Feed(stoi, pieces).r.buf + s;
  }

  /** If a header line had no separator and there is a first line, every further piece throws again. */
  lemma {:induction false} AppendAfterBadLine(stoi: Stoi, pieces: seq<string>, s: string)
    requires var o := Feed(stoi, pieces); o.failed && !o.r.headersDone && o.r.firstLine != ""
    ensures var r := Feed(stoi, pieces).r; Append(stoi, r, s) == Outcome(r.(buf := r.buf + s), true)
  {
    FeedStaysEarly(stoi, pieces);
    ExtendedLine(Feed(stoi, pieces).r.buf, s);
  }

  /** After an empty first line the bad line is taken as the first line instead. */
  lemma {:induction false} AppendTakesBadLine(stoi: Stoi, pieces: seq<string>, s: string)
    requires var o := Feed(stoi, pieces); o.failed && !o.r.headersDone && o.r.firstLine == ""
    ensures var r := Feed(stoi, pieces).r; Append(stoi, r, s).r.firstLine == r.buf[..FindLineEnd(r.buf)] != ""
  {
    FeedStaysEarly(stoi, pieces);
    ExtendedLine(Feed(stoi, pieces).r.buf, s);
  }

  // ----- every cut

  /** Every cut of a regular stream gives what the whole stream gives. */
  lemma {:induction false} ChunkingIndependence(stoi: Stoi, pieces: seq<string>)
    requires Regular(Concat(pieces))
    ensures Observe(Feed(stoi, pieces)) == Observe(Whole(stoi, Concat(pieces)))
  {
    FeedAgrees(stoi, pieces);
  }

  /** All leading line ends as single pieces, then the rest. */
  function CutAtLineEnds(t: string): seq<string>
  {
    if StartsWithLineEnd(t) then [LINE_END] + CutAtLineEnds(t[2..]) else [t]
  }

  function AfterLineEnds(t: string): string
  {
    if StartsWithLineEnd(t) then AfterLineEnds(t[2..]) else t
  }

  lemma {:induction false} CutConcat(t: string)
    ensures Concat(CutAtLineEnds(t)) == t
  {
    if StartsWithLineEnd(t) {
      CutConcat(t[2..]);
      ConcatHead(LINE_END, CutAtLineEnds(t[2..]));
    } else {
      assert CutAtLineEnds(t)[..0] == [] && "" + t == t;
    }
  }

  lemma {:induction false} ConcatHead(p: string, pieces: seq<string>)
    ensures Concat([p] + pieces) == p + Concat(pieces)
  {
    if pieces == [] {
      assert [p] + pieces == [p] && [p][..0] == [] && "" + p == p + "";
    } else {
      var n := |pieces| - 1;
      assert ([p] + pieces)[..n + 1] == [p] + pieces[..n];
      ConcatHead(p, pieces[..n]);
    }
  }

  /** A lone line end as the first piece leaves the parser in its initial state. */
  lemma {:induction false} FeedAfterLineEnd(stoi: Stoi, pieces: seq<string>)
    ensures Feed(stoi, [LINE_END] + pieces) == Feed(stoi, pieces)
  {
    if pieces == [] {
      assert [LINE_END] + pieces == [LINE_END];
      FeedLineEnd(stoi);
    } else {
      var n := |pieces| - 1;
      var all := [LINE_END] + pieces;
      assert all[..|all| - 1] == [LINE_END] + pieces[..n] && all[|all| - 1] == pieces[n];
      FeedAfterLineEnd(stoi, pieces[..n]);
      FeedLast(stoi, all);
      FeedLast(stoi, pieces);
    }
  }

  lemma {:induction false} FeedLineEnd(stoi: Stoi)
    ensures Feed(stoi, [LINE_END]) == Feed(stoi, [])
  {
    assert [LINE_END][..0] == [];
    FeedLast(stoi, [LINE_END]);
    WholeOfEmptyFirstLine(stoi, LINE_END);
  }

  lemma {:induction false} FeedLast(stoi: Stoi, pieces: seq<string>)
    requires pieces != []
    ensures Feed(stoi, pieces) ==
            var o := Feed(stoi, pieces[..|pieces| - 1]);
            if o.failed then o else Append(stoi, o.r, pieces[|pieces| - 1])
  {
  }

  lemma {:induction false} FeedCut(stoi: Stoi, t: string)
    ensures Feed(stoi, CutAtLineEnds(t)) == Whole(stoi, AfterLineEnds(t))
    ensures !StartsWithLineEnd(AfterLineEnds(t))
  {
    if StartsWithLineEnd(t) {
      FeedAfterLineEnd(stoi, CutAtLineEnds(t[2..]));
      FeedCut(stoi, t[2..]);
    } else {
      assert CutAtLineEnds(t)[..0] == [];
    }
  }

  lemma {:induction false} ContinueParts(stoi: Stoi, line: string, c: Scan)
    ensures Continue(stoi, line, c).r.firstLine == line
    ensures Continue(stoi, line, c).r.headersDone <==> c.Blank?
  {
  }

  /** The first line is what precedes the first line end; a second line end completes the headers. */
  lemma {:induction false} WholeFirstLine(stoi: Stoi, t: string)
    requires HasLineEnd(t)
    ensures Whole(stoi, t).r.firstLine == t[..FindLineEnd(t)]
    ensures StartsWithLineEnd(t[FindLineEnd(t) + 2..]) ==> Whole(stoi, t).r.headersDone
  {
    var pos := FindLineEnd(t);
    WholeIs(stoi, t);
    ContinueParts(stoi, t[..pos], ScanHeaders(t[pos + 2..], map[]));
  }

  /** A stream that is not regular has a cut that parses differently. */
  lemma {:induction false} IrregularCutDiffers(stoi: Stoi, t: string)
    requires !Regular(t)
    ensures Concat(CutAtLineEnds(t)) == t
    ensures Observe(Feed(stoi, CutAtLineEnds(t))) != Observe(Whole(stoi, t))
  {
    CutConcat(t);
    FeedCut(stoi, t);
    LeadingLineEndsMatter(stoi, t, AfterLineEnds(t));
  }

  /** The whole stream has an empty first line and more; without its leading line ends it has neither. */
  lemma {:induction false} LeadingLineEndsMatter(stoi: Stoi, t: string, r: string)
    requires !Regular(t) && r == AfterLineEnds(t) && !StartsWithLineEnd(r)
    ensures Observe(Whole(stoi, r)) != Observe(Whole(stoi, t))
  {
    EmptyFirstLineSeen(stoi, t);
    if HasLineEnd(r) {
      FirstLineSeen(stoi, r);
    } else {
      assert StartsWithLineEnd(t[2..]);
      EmptyRequestSeen(stoi, t);
      NothingSeen(stoi, r);
    }
  }

  lemma {:induction false} EmptyFirstLineSeen(stoi: Stoi, t: string)
    requires StartsWithLineEnd(t)
    ensures Observe(Whole(stoi, t)).firstLine == ""
  {
    WholeFirstLine(stoi, t);
  }

  lemma {:induction false} EmptyRequestSeen(stoi: Stoi, t: string)
    requires StartsWithLineEnd(t) && StartsWithLineEnd(t[2..])
    ensures Observe(Whole(stoi, t)).headersDone
  {
    WholeFirstLine(stoi, t);
  }

  lemma {:induction false} FirstLineSeen(stoi: Stoi, r: string)
    requires HasLineEnd(r) && !StartsWithLineEnd(r)
    ensures Observe(Whole(stoi, r)).firstLine != ""
  {
    WholeFirstLine(stoi, r);
    assert FindLineEnd(r) > 0;
  }

  lemma {:induction false} NothingSeen(stoi: Stoi, r: string)
    requires !HasLineEnd(r)
    ensures !Observe(Whole(stoi, r)).headersDone
  {
    WholeIs(stoi, r);
  }

  /** Exactly the regular streams parse the same however they are cut. */
  lemma {:induction false} ChunkingExactly(stoi: Stoi, t: string)
    ensures Regular(t) <==>
            forall pieces :: Concat(pieces) == t ==> Observe(Feed(stoi, pieces)) == Observe(Whole(stoi, t))
  {
    if Regular(t) {
      forall pieces | Concat(pieces) == t
        ensures Observe(Feed(stoi, pieces)) == Observe(Whole(stoi, t))
      {
        ChunkingIndependence(stoi, pieces);
      }
    } else {
      IrregularCutDiffers(stoi, t);
    }
  }

  /** The shortest witness: two line ends in one piece complete the request, in two pieces they do not. */
  lemma {:induction false} EmptyFirstLineWitness(stoi: Stoi)
    ensures Whole(stoi, LINE_END + LINE_END).r.allDone
    ensures !Feed(stoi, [LINE_END, LINE_END]).r.allDone
  {
    var t := LINE_END + LINE_END;
    WholeIs(stoi, t);
    assert FindLineEnd(t) == 0 && t[2..] == LINE_END && LINE_END[2..] == "";
    assert ScanHeaders(LINE_END, map[]) == Blank("", map[]);
    assert [LINE_END, LINE_END] == [LINE_END] + [LINE_END] && [LINE_END] == [LINE_END] + [];
    FeedAfterLineEnd(stoi, [LINE_END]);
    FeedAfterLineEnd(stoi, []);
  }

  // ----- what is recovered

  /** Trimming removes exactly the white space at both ends. */
  lemma {:induction false} TrimSplits(v: string) returns (pre: string, post: string)
    ensures v == pre + Trim(v) + post
    ensures (forall c :: c in pre ==> IsSpace(c)) && (forall c :: c in post ==> IsSpace(c))
    ensures Trim(v) != "" ==> !IsSpace(Trim(v)[0]) && !IsSpace(Trim(v)[|Trim(v)| - 1])
  {
    pre := LtrimSplits(v);
    post := RtrimSplits(Ltrim(v));
  }

  lemma {:induction false} LtrimSplits(v: string) returns (pre: string)
    ensures v == pre + Ltrim(v) && forall c :: c in pre ==> IsSpace(c)
    ensures Ltrim(v) != "" ==> !IsSpace(Ltrim(v)[0])
  {
    if v != "" && IsSpace(v[0]) {
      var p := LtrimSplits(v[1..]);
      pre := [v[0]] + p;
    } else {
      pre := "";
    }
  }

  lemma {:induction false} RtrimSplits(v: string) returns (post: string)
    ensures v == Rtrim(v) + post && forall c :: c in post ==> IsSpace(c)
    ensures Rtrim(v) != "" ==> !IsSpace(Rtrim(v)[|Rtrim(v)| - 1]) && Rtrim(v)[0] == v[0]
  {
    if v != "" && IsSpace(v[|v| - 1]) {
      var p := RtrimSplits(v[..|v| - 1]);
      post := p + [v[|v| - 1]];
    } else {
      post := "";
    }
  }

  datatype Field = Field(name: string, value: string)

  predicate WellFormed(f: Field)
  {
    FindSep(f.name) == |f.name| && !HasLineEnd(Line(f))
  }

  function Line(f: Field): string { f.name + ":" + f.value }

  function RenderFields(fields: seq<Field>): string
  {
    if fields == [] then "" else Line(fields[0]) + LINE_END + RenderFields(fields[1..])
  }

  function Render(firstLine: string, fields: seq<Field>, body: string): string
  {
    firstLine + LINE_END + (RenderFields(fields) + (LINE_END + body))
  }

  /** The header map: values trimmed, later fields replacing earlier ones of the same name. */
  function FieldMap(headers: map<string, string>, fields: seq<Field>): map<string, string>
    decreases |fields|
  {
    if fields == [] then headers
    else FieldMap(headers[fields[0].name := Trim(fields[0].value)], fields[1..])
  }

  lemma {:induction false} SepAfterName(name: string, rest: string)
    requires FindSep(name) == |name|
    ensures FindSep(name + ":" + rest) == |name|
    ensures (name + ":" + rest)[..|name|] == name && (name + ":" + rest)[|name| + 1..] == rest
  {
    if name != "" {
      assert (name + ":" + rest)[1..] == name[1..] + ":" + rest;
      SepAfterName(name[1..], rest);
    }
  }

  lemma {:induction false} ScanRendered(headers: map<string, string>, fields: seq<Field>, body: string)
    requires forall i :: 0 <= i < |fields| ==> WellFormed(fields[i])
    ensures ScanHeaders(RenderFields(fields) + (LINE_END + body), headers) == Blank(body, FieldMap(headers, fields))
    decreases |fields|
  {
    var t := RenderFields(fields) + (LINE_END + body);
    if fields == [] {
      assert t == "" + LINE_END + body;
      LineEndAfter("", body);
    } else {
      var f := fields[0];
      var rest := RenderFields(fields[1..]) + (LINE_END + body);
      assert t == Line(f) + LINE_END + rest;
      LineEndAfter(Line(f), rest);
      SepAfterName(f.name, f.value);
      ScanRendered(headers[f.name := Trim(f.value)], fields[1..], body);
    }
  }

  /** Round trip: every cut of a rendered request gives back its first line, fields and body. */
  lemma {:induction false} RenderedRequestIsRecovered(
    stoi: Stoi, firstLine: string, fields: seq<Field>, body: string, pieces: seq<string>)
    requires firstLine != "" && !HasLineEnd(firstLine)
    requires forall i :: 0 <= i < |fields| ==> WellFormed(fields[i])
    requires Concat(pieces) == Render(firstLine, fields, body)
    ensures var headers := FieldMap(map[], fields); var n := ContentLength(stoi, headers);
            Observe(Feed(stoi, pieces)) ==
            match n
            case None => Seen(firstLine, headers, 0, true, false, true, "", "")
            case Some(len) =>
              Seen(firstLine, headers, len, true, |body| >= len, false,
                   if |body| >= len then body[..len] else body, "")
  {
    var t := Render(firstLine, fields, body);
    RenderedWhole(stoi, firstLine, fields, body);
    assert Regular(t);
    ChunkingIndependence(stoi, pieces);
  }

  lemma {:induction false} RenderedWhole(stoi: Stoi, firstLine: string, fields: seq<Field>, body: string)
    requires firstLine != "" && !HasLineEnd(firstLine)
    requires forall i :: 0 <= i < |fields| ==> WellFormed(fields[i])
    ensures !StartsWithLineEnd(Render(firstLine, fields, body))
    ensures Whole(stoi, Render(firstLine, fields, body)) == Continue(stoi, firstLine, Blank(body, FieldMap(map[], fields)))
  {
    LineEndAfter(firstLine, RenderFields(fields) + (LINE_END + body));
    ScanRendered(map[], fields, body);
    WholeIs(stoi, Render(firstLine, fields, body));
  }
}
