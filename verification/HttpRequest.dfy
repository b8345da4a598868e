/** The parser object, whose methods update its fields; each is proved against the parser function. */
module HttpRequest {
  import P = HttpParser

  class HttpRequest {
    const stoi: P.Stoi
    var buf: string
    var firstLine: string
    var headers: map<string, string>
    var contentLength: nat
    var messageBody: string
    var headersParseComplete: bool
    var totalParseComplete: bool

    function View(): P.Request
      reads this
    {
      P.Request(buf, firstLine, headers, contentLength, messageBody, headersParseComplete, totalParseComplete)
    }

    constructor (stoi: P.Stoi)
      ensures View() == P.INITIAL && this.stoi == stoi
    {
      this.stoi := stoi;
      buf, firstLine, messageBody := "", "", "";
      headers := map[];
      contentLength := 0;
      headersParseComplete, totalParseComplete := false, false;
    }

    method SetFirstLine()
      modifies this
      ensures View() == P.SetFirstLine(old(View()))
    {
      if firstLine != "" {
        return;
      }
      var pos := P.FindLineEnd(buf);
      if pos == |buf| {
        return;
      }
      firstLine := buf[..pos];
      buf := buf[pos + |P.LINE_END|..];
    }

    /** False when the line has no separator, where the original throws. */
    method AddHeader(line: string) returns (ok: bool)
      modifies this`headers
      ensures ok == P.AddHeader(old(headers), line).Some?
      ensures headers == if ok then P.AddHeader(old(headers), line).value else old(headers)
    {
      var pos := P.FindSep(line);
      if pos == |line| {
        return false;
      }
      var v := line[pos + 1..];
      v := P.Trim(v);
      headers := headers[line[..pos] := v];
      return true;
    }

    /** False when std::stoi throws. */
    method SetContentLength() returns (ok: bool)
      modifies this`contentLength
      ensures ok == P.ContentLength(stoi, headers).Some?
      ensures contentLength == if ok then P.ContentLength(stoi, headers).value else old(contentLength)
      ensures "Content-Length" !in headers ==> ok && contentLength == 0
      ensures "Content-Length" in headers ==> ok == stoi(headers["Content-Length"]).Some?
      ensures "Content-Length" in headers && ok ==>
                var n := stoi(headers["Content-Length"]).value;
                0 <= n < 0x1_0000_0000_0000_0000 ==> contentLength == n
    {
      if P.CONTENT_LENGTH !in headers {
        contentLength := 0;
        return true;
      }
      match stoi(headers[P.CONTENT_LENGTH])
      case None =>
        return false;
      case Some(n) =>
        contentLength := n % P.SIZE_MODULUS;
        return true;
    }

    /** The branch of SetHeaders at the blank line. */
    method CompleteHeaders() returns (ok: bool)
      requires |buf| >= 2
      modifies this`buf, this`headersParseComplete, this`contentLength
      ensures P.Outcome(View(), !ok) == P.CompleteHeaders(stoi, old(View()).(buf := old(buf)[2..]))
    {
      buf := buf[|P.LINE_END|..];
      headersParseComplete := true;
      ok := SetContentLength();
    }

    /** One turn of the loop in SetHeaders; `more` says that it goes on. */
    method TakeLine() returns (more: bool, ok: bool)
      modifies this`buf, this`headers, this`headersParseComplete, this`contentLength
      ensures var turn := P.ScanTurn(old(buf), old(headers));
              && more == turn.Taken?
              && (more ==>
                    && |buf| < |old(buf)| && turn == P.Taken(buf, headers)
                    && headersParseComplete == old(headersParseComplete) && contentLength == old(contentLength))
              && (!more ==> P.Outcome(View(), !ok) == P.Scanned(stoi, old(View()), turn.c))
    {
      var pos := P.FindLineEnd(buf);
      if pos == |buf| {
        return false, true;
      }
      if pos == 0 {
        ok := CompleteHeaders();
        return false, ok;
      }
      var added := AddHeader(buf[..pos]);
      if !added {
        return false, false;
      }
      buf := buf[pos + |P.LINE_END|..];
      return true, true;
    }

    method SetHeaders() returns (ok: bool)
      modifies this`buf, this`headers, this`headersParseComplete, this`contentLength
      ensures P.Outcome(View(), !ok) == P.SetHeaders(stoi, old(View()))
    {
      ghost var before, scan := View(), P.ScanHeaders(buf, headers);
      var more := true;
      ok := true;
      while more
        invariant more ==> View() == before.(buf := buf, headers := headers) && P.ScanHeaders(buf, headers) == scan
        invariant !more ==> P.Outcome(View(), !ok) == P.Scanned(stoi, before, scan)
        decreases more, |buf|
      {
        P.ScanStep(buf, headers);
        more, ok := TakeLine();
      }
    }

    method ParseMessageBody()
      modifies this
      ensures View() == P.ParseMessageBody(old(View()))
    {
      if !headersParseComplete {
        return;
      }
      if totalParseComplete {
        return;
      }
      messageBody := messageBody + buf;
      if |messageBody| >= contentLength {
        totalParseComplete := true;
      }
      buf := "";
    }

    method ParseRequest() returns (ok: bool)
      modifies this
      ensures P.Outcome(View(), !ok) == P.ParseRequest(stoi, old(View()))
    {
      ok := true;
      if !headersParseComplete {
        SetFirstLine();
        ok := SetHeaders();
        if !ok {
          return;
        }
      }
      ParseMessageBody();
    }

    method Append(s: string) returns (ok: bool)
      modifies this
      ensures P.Outcome(View(), !ok) == P.Append(stoi, old(View()), s)
    {
      if totalParseComplete {
        return true;
      }
      buf := buf + s;
      ok := ParseRequest();
    }
  }

  /** A client that feeds pieces until one throws sees what one Append of the whole stream shows. */
  method FeedPieces(stoi: P.Stoi, pieces: seq<string>) returns (seen: P.Seen)
    ensures P.Regular(P.Concat(pieces)) ==> seen == P.Observe(P.Whole(stoi, P.Concat(pieces)))
  {
    var request := new HttpRequest(stoi);
    var ok := true;
    var n := 0;
    while n < |pieces| && ok
      invariant n <= |pieces| && request.stoi == stoi
      invariant ok ==> P.Outcome(request.View(), false) == P.Feed(stoi, pieces[..n])
      invariant !ok ==> P.Outcome(request.View(), true) == P.Feed(stoi, pieces)
    {
      ok := request.Append(pieces[n]);
      assert pieces[..n + 1][..n] == pieces[..n];
      n := n + 1;
      if !ok {
        FailureStays(stoi, pieces, n);
      }
    }
    assert pieces[..|pieces|] == pieces;
    seen := P.Observe(P.Outcome(request.View(), !ok));
    if P.Regular(P.Concat(pieces)) {
      P.ChunkingIndependence(stoi, pieces);
    }
  }

  /** A client that stops at the first exception ends where that piece left the request. */
  lemma {:induction false} FailureStays(stoi: P.Stoi, pieces: seq<string>, n: nat)
    requires n <= |pieces| && P.Feed(stoi, pieces[..n]).failed
    ensures P.Feed(stoi, pieces) == P.Feed(stoi, pieces[..n])
    decreases |pieces|
  {
    if n < |pieces| {
      assert pieces[..|pieces| - 1][..n] == pieces[..n];
      FailureStays(stoi, pieces[..|pieces| - 1], n);
    } else {
      assert pieces[..n] == pieces;
    }
  }
}
