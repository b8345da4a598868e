/** What trimming and the Content-Length header come to, in terms of the characters of the request. */
module HttpLength {
  import opened Basics
  import opened HttpParser

  // ----- white space

  /** The white space of the C locale: space, and the codes from tab to carriage return. */
  lemma SpacesAre(c: char)
    ensures IsSpace(c) <==> c as int == 32 || 9 <= c as int <= 13
  {
  }

  predicate AllSpace(s: string) { forall i :: 0 <= i < |s| ==> s[i] as int == 32 || 9 <= s[i] as int <= 13 }

  /** Neither end is white space. */
  predicate Bare(s: string)
  {
    s != "" ==>
      && !(s[0] as int == 32 || 9 <= s[0] as int <= 13)
      && !(s[|s| - 1] as int == 32 || 9 <= s[|s| - 1] as int <= 13)
  }

  lemma {:induction false} RtrimFinds(mid: string, post: string)
    requires AllSpace(post) && Bare(mid)
    ensures Rtrim(mid + post) == mid
    decreases |post|
  {
    if post == "" {
      assert mid + post == mid;
      if mid != "" {
        SpacesAre(mid[|mid| - 1]);
      }
    } else {
      var n := |post| - 1;
      SpacesAre(post[n]);
      assert (mid + post)[..|mid + post| - 1] == mid + post[..n];
      RtrimFinds(mid, post[..n]);
    }
  }

  lemma {:induction false} LtrimFinds(pre: string, rest: string)
    requires AllSpace(pre)
    requires rest != "" ==> !(rest[0] as int == 32 || 9 <= rest[0] as int <= 13)
    ensures Ltrim(pre + rest) == rest
    decreases |pre|
  {
    if pre == "" {
      assert pre + rest == rest;
      if rest != "" {
        SpacesAre(rest[0]);
      }
    } else {
      SpacesAre(pre[0]);
      assert (pre + rest)[1..] == pre[1..] + rest;
      LtrimFinds(pre[1..], rest);
    }
  }

  /** Trim finds the text between the white space, whatever the white space. */
  lemma {:induction false} TrimFinds(pre: string, mid: string, post: string)
    requires AllSpace(pre) && AllSpace(post) && Bare(mid)
    ensures Trim(pre + mid + post) == mid
  {
    if mid == "" {
      assert AllSpace(pre + post) && pre + mid + post == (pre + post) + "";
      LtrimFinds(pre + post, "");
    } else {
      assert pre + mid + post == pre + (mid + post);
      LtrimFinds(pre, mid + post);
      RtrimFinds(mid, post);
    }
  }

  // ----- header fields

  /** Without a field of that name the map keeps what it has. */
  lemma {:induction false} AbsentField(headers: map<string, string>, fields: seq<Field>, name: string)
    requires forall j :: 0 <= j < |fields| ==> fields[j].name != name
    ensures name in FieldMap(headers, fields) <==> name in headers
    ensures name in headers ==> FieldMap(headers, fields)[name] == headers[name]
    decreases |fields|
  {
    if fields != [] {
      AbsentField(headers[fields[0].name := Trim(fields[0].value)], fields[1..], name);
    }
  }

  /** Of several fields with one name the last one counts. */
  lemma {:induction false} LastFieldCounts(headers: map<string, string>, fields: seq<Field>, i: nat)
    requires i < |fields| && forall j :: i < j < |fields| ==> fields[j].name != fields[i].name
    ensures fields[i].name in FieldMap(headers, fields)
    ensures FieldMap(headers, fields)[fields[i].name] == Trim(fields[i].value)
    decreases |fields|
  {
    var more := headers[fields[0].name := Trim(fields[0].value)];
    if i == 0 {
      assert forall j :: 0 <= j < |fields[1..]| ==> fields[1..][j] == fields[j + 1];
      AbsentField(more, fields[1..], fields[0].name);
    } else {
      LastFieldCounts(more, fields[1..], i - 1);
    }
  }

  // ----- the declared length

  /** A request as a client may send it. */
  predicate Sendable(firstLine: string, fields: seq<Field>)
  {
    firstLine != "" && !HasLineEnd(firstLine) && forall i :: 0 <= i < |fields| ==> WellFormed(fields[i])
  }

  /** Field `i` is the one that declares the length. */
  predicate Declares(fields: seq<Field>, i: nat)
  {
    && i < |fields| && fields[i].name == "Content-Length"
    && forall j :: i < j < |fields| ==> fields[j].name != "Content-Length"
  }

  /**
   Every cut of a request with a Content-Length field shows the number that the field's trimmed value
   reads as (a negative one wraps around to a size), is complete exactly when that many bytes of the body
   are there, and then has exactly these as its body.
   */
  lemma {:induction false} LengthIsDeclared(
    stoi: Stoi, firstLine: string, fields: seq<Field>, body: string, pieces: seq<string>, i: nat, n: int)
    requires Sendable(firstLine, fields) && Concat(pieces) == Render(firstLine, fields, body) && Declares(fields, i)
    requires stoi(Trim(fields[i].value)) == Some(n) && -0x8000_0000 <= n < 0x8000_0000
    ensures var v := Observe(Feed(stoi, pieces)); var len := if n >= 0 then n else n + 0x1_0000_0000_0000_0000;
            && !v.failed && v.headersDone && v.contentLength == len
            && (v.allDone <==> |body| >= len)
            && v.body == if |body| >= len then body[..len] else body
  {
    LastFieldCounts(map[], fields, i);
    LengthOf(stoi, FieldMap(map[], fields), n);
    RenderedRequestIsRecovered(stoi, firstLine, fields, body, pieces);
  }

  lemma {:induction false} LengthOf(stoi: Stoi, headers: map<string, string>, n: int)
    requires "Content-Length" in headers && stoi(headers["Content-Length"]) == Some(n)
    requires -0x8000_0000 <= n < 0x8000_0000
    ensures ContentLength(stoi, headers) == Some(if n >= 0 then n else n + 0x1_0000_0000_0000_0000)
  {
    SizeOf(n);
  }

  lemma SizeOf(n: int)
    requires -0x8000_0000 <= n < 0x8000_0000
    ensures n % SIZE_MODULUS == if n >= 0 then n else n + 0x1_0000_0000_0000_0000
  {
  }

  /** Without the field the length is zero, and the request complete without a body. */
  lemma {:induction false} NoFieldIsZero(stoi: Stoi, firstLine: string, fields: seq<Field>, body: string, pieces: seq<string>)
    requires Sendable(firstLine, fields) && Concat(pieces) == Render(firstLine, fields, body)
    requires forall j :: 0 <= j < |fields| ==> fields[j].name != "Content-Length"
    ensures var v := Observe(Feed(stoi, pieces)); !v.failed && v.contentLength == 0 && v.allDone && v.body == ""
  {
    AbsentField(map[], fields, "Content-Length");
    RenderedRequestIsRecovered(stoi, firstLine, fields, body, pieces);
  }

  /** A value that does not read as a number is an exception, with the headers complete. */
  lemma {:induction false} BadValueThrows(
    stoi: Stoi, firstLine: string, fields: seq<Field>, body: string, pieces: seq<string>, i: nat)
    requires Sendable(firstLine, fields) && Concat(pieces) == Render(firstLine, fields, body) && Declares(fields, i)
    requires stoi(Trim(fields[i].value)) == None
    ensures var v := Observe(Feed(stoi, pieces)); v.failed && v.headersDone && !v.allDone
  {
    LastFieldCounts(map[], fields, i);
    RenderedRequestIsRecovered(stoi, firstLine, fields, body, pieces);
  }

  /** The usual request: one field; what Trim makes of its value is the business of TrimFinds. */
  lemma {:induction false} SingleField(
    stoi: Stoi, firstLine: string, fields: seq<Field>, body: string, pieces: seq<string>, n: int)
    requires |fields| == 1 && fields[0].name == "Content-Length"
    requires Sendable(firstLine, fields) && Concat(pieces) == Render(firstLine, fields, body)
    requires stoi(Trim(fields[0].value)) == Some(n) && 0 <= n < 0x8000_0000
    ensures var w := Observe(Feed(stoi, pieces));
            w.contentLength == n && (w.allDone <==> |body| >= n) && (|body| >= n ==> w.body == body[..n])
  {
    LengthIsDeclared(stoi, firstLine, fields, body, pieces, 0, n);
  }
}
