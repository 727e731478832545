/** The client's read loop, and that it recovers what the server printed. */
module HttpRoundTrip {
  import opened Common
  import opened HttpText
  import opened Http

  // -------------------------------------------------------------------- the head

  /** A content type a header line can carry: trimmed and without line feeds. */
  predicate GoodType(ct: string) { Trimmed(ct) && Free(ct, '\n') }

  function HeadLines(status: int, ct: string, len: nat, keep: bool): seq<string> {
    [StatusLine(status)] + FieldLines(HeaderFields(ct, len, keep))
  }

  lemma DecFree(n: nat)
    ensures Free(Dec(n), '\n') && Free(Dec(n), ':') && Trimmed(Dec(n))
  {
    var d := Dec(n);
    assert IsDigit(d[0]) && IsDigit(d[|d| - 1]);
  }

  lemma StatusIsLine(status: int)
    ensures IsLine(StatusLine(status))
  {
    var l := StatusLine(status); var d := DecInt(status);
    assert l == "HTTP/1.1 " + d + " " + Reason(status);
    DecFree(if status < 0 then -status else status);
    assert Plain(Reason(status));
    forall i | 0 <= i < |l| ensures l[i] != '\n' {
      if 9 <= i < 9 + |d| { assert l[i] == d[i - 9]; }
      else if i > 9 + |d| { assert l[i] == Reason(status)[i - 10 - |d|]; }
    }
  }

  lemma FieldIsLine(name: string, value: string)
    requires name != [] && Free(name, '\n') && Free(value, '\n')
    ensures IsLine(Field(name, value))
  {
    var l := Field(name, value);
    forall i | 0 <= i < |l| ensures l[i] != '\n' {
      if i < |name| { assert l[i] == name[i]; }
      else if i >= |name| + 2 { assert l[i] == value[i - |name| - 2]; }
    }
  }

  lemma GoodFields(ct: string, len: nat, keep: bool)
    requires GoodType(ct)
    ensures forall i :: 0 <= i < 3 ==> var h := HeaderFields(ct, len, keep)[i];
            GoodField(h.0, h.1) && IsLine(Field(h.0, h.1))
  {
    DecFree(len);
    FieldIsLine("Content-Type", ct);
    FieldIsLine("Content-Length", Dec(len));
    FieldIsLine("Connection", Persistence(keep));
  }

  lemma HeadIsLines(status: int, ct: string, len: nat, keep: bool)
    requires GoodType(ct)
    ensures forall i :: 0 <= i < |HeadLines(status, ct, len, keep)| ==> IsLine(HeadLines(status, ct, len, keep)[i])
  {
    StatusIsLine(status);
    GoodFields(ct, len, keep);
    var ls := HeadLines(status, ct, len, keep); var hs := HeaderFields(ct, len, keep);
    assert forall i :: 1 <= i < |ls| ==> ls[i] == Field(hs[i - 1].0, hs[i - 1].1);
  }

  lemma SameContentLength()
    ensures SameName("Content-Length", "content-length")
    ensures !SameName("Connection", "content-length") && !SameName("Content-Type", "content-length")
  {
  }

  lemma LengthReadsBack(ct: string, len: nat, keep: bool)
    ensures LengthIn(HeaderFields(ct, len, keep)) == len
  {
    var hs := HeaderFields(ct, len, keep);
    SameContentLength();
    assert hs[..2][1] == ("Content-Length", Dec(len));
    assert LengthIn(hs) == LengthIn(hs[..2]);
    AtolReadsBack(len);
  }

  lemma LinesCons(l: string, ls: seq<string>, rest: string)
    ensures Lines([l] + ls) + CRLF + rest == (l + CRLF) + (Lines(ls) + CRLF + rest)
    ensures Lines([l] + ls) + CRLF + rest == l + (CRLF + (Lines(ls) + CRLF + rest))
  {
    assert ([l] + ls)[1..] == ls;
  }

  lemma FirstLineEnds(l: string, t: string, end: nat)
    requires IsLine(l) && |l| + 2 <= end <= |l| + |t| && t[0] == '\r' && t[1] == '\n'
    ensures Find(l + t, '\n', 0, end) == |l| + 1
  {
    var s := l + t;
    forall k | 0 <= k < |l| + 1 ensures s[k] != '\n' { if k < |l| { assert s[k] == l[k]; } }
    FindIs(s, '\n', 0, end, |l| + 1);
  }

  ghost predicate AllGood(hs: seq<(string, string)>) {
    forall i :: 0 <= i < |hs| ==> GoodField(hs[i].0, hs[i].1) && IsLine(Field(hs[i].0, hs[i].1))
  }

  function Layout(l: string, hs: seq<(string, string)>): string { Lines([l] + FieldLines(hs)) + CRLF }

  /** Where any head ends. */
  lemma LayoutEnds(l: string, hs: seq<(string, string)>, rest: string)
    requires IsLine(l) && AllGood(hs)
    ensures EndOfHead(Layout(l, hs) + rest, 0) == Some(|Layout(l, hs)|)
  {
    var ls := [l] + FieldLines(hs);
    LinesEnd("", ls, rest);
    assert "" + (Lines(ls) + CRLF + rest) == Layout(l, hs) + rest;
  }

  lemma LayoutFirst(l: string, hs: seq<(string, string)>, rest: string)
    requires IsLine(l)
    ensures |l| + 4 <= |Layout(l, hs)| && Find(Layout(l, hs) + rest, '\n', 0, |Layout(l, hs)|) == |l| + 1
  {
    var ls := FieldLines(hs);
    LinesCons(l, ls, rest);
    LinesCons(l, ls, "");
    FirstLineEnds(l, CRLF + (Lines(ls) + CRLF + rest), |Layout(l, hs)|);
  }

  /** What its header lines are read as. */
  lemma LayoutParses(l: string, hs: seq<(string, string)>, rest: string)
    requires AllGood(hs)
    ensures |l| + 2 <= |Layout(l, hs)| && ParseLines(Layout(l, hs) + rest, |l| + 2, |Layout(l, hs)|) == hs
  {
    var s := Layout(l, hs) + rest;
    LinesCons(l, FieldLines(hs), rest);
    PrintedIsSpelled(l + CRLF, hs, rest);
    SpelledParses(s, |l| + 2, |Layout(l, hs)|, hs);
  }

  lemma SpelledParses(s: string, line: nat, eoh: nat, hs: seq<(string, string)>)
    requires Spelled(s, line, eoh, hs) && AllGood(hs) && line <= eoh <= |s|
    ensures ParseLines(s, line, eoh) == hs
  {
    SpelledIsFound(s, line, eoh, hs);
    FoundIsParsed(s, line, eoh, hs);
  }

  lemma LayoutReadsBack(l: string, hs: seq<(string, string)>, rest: string)
    requires IsLine(l) && AllGood(hs)
    ensures HeadOf(Layout(l, hs) + rest) == Some(Head(ScanStatus(Layout(l, hs) + rest), hs, |Layout(l, hs)|,
            LengthIn(hs)))
  {
    LayoutEnds(l, hs, rest);
    LayoutFirst(l, hs, rest);
    LayoutParses(l, hs, rest);
  }

  /** What the parser makes of a printed head, whatever follows it. */
  lemma HeadReadsBack(status: int, ct: string, len: nat, keep: bool, rest: string)
    requires GoodType(ct)
    ensures var head := PrintHead(status, ct, len, keep);
            HeadOf(head + rest) == Some(Head(status, HeaderFields(ct, len, keep), |head|, len))
  {
    var hs := HeaderFields(ct, len, keep); var l := StatusLine(status);
    StatusIsLine(status);
    GoodFields(ct, len, keep);
    LayoutReadsBack(l, hs, rest);
    LinesCons(l, FieldLines(hs), rest);
    StatusReadsBack(status, CRLF + (Lines(FieldLines(hs)) + CRLF + rest));
    LengthReadsBack(ct, len, keep);
  }

  /** Every value the parser reads is trimmed and without line feeds. */
  lemma ValueIsGood(s: string, colon: nat, nl: nat)
    requires colon < nl <= |s| && forall k :: colon < k < nl ==> s[k] != '\n'
    ensures GoodType(ValueOf(s, colon, nl))
  {
    var v := SkipSpace(s, colon + 1, nl);
    SkipSpaceStops(s, colon + 1, nl);
    TrimEndStops(s, v, nl);
  }

  lemma {:induction false} SkipSpaceStops(s: string, i: nat, end: nat)
    requires i <= end <= |s|
    ensures SkipSpace(s, i, end) < end ==> !IsSpace(s[SkipSpace(s, i, end)])
    decreases end - i
  {
    if i < end && IsSpace(s[i]) { SkipSpaceStops(s, i + 1, end); }
  }

  lemma {:induction false} TrimEndStops(s: string, start: nat, end: nat)
    requires start <= end <= |s|
    ensures TrimEnd(s, start, end) > start ==> !IsSpace(s[TrimEnd(s, start, end) - 1])
    decreases end
  {
    if start < end && IsSpace(s[end - 1]) { TrimEndStops(s, start, end - 1); }
  }

  lemma {:induction false} FindFirst(s: string, c: char, i: nat, end: nat)
    requires i <= end <= |s|
    ensures forall k :: i <= k < Find(s, c, i, end) ==> s[k] != c
    decreases end - i
  {
    if i < end && s[i] != c { FindFirst(s, c, i + 1, end); }
  }

  lemma {:induction false} ParsedIsGood(s: string, line: nat, eoh: nat)
    requires line <= eoh <= |s|
    ensures forall i :: 0 <= i < |ParseLines(s, line, eoh)| ==> GoodType(ParseLines(s, line, eoh)[i].1)
    decreases eoh - line
  {
    if line + 1 < eoh && Find(s, '\n', line, eoh) != eoh {
      var nl := Find(s, '\n', line, eoh); var colon := Find(s, ':', line, nl);
      FindFirst(s, '\n', line, eoh);
      if colon < nl { ValueIsGood(s, colon, nl); }
      ParsedIsGood(s, nl + 1, eoh);
    }
  }

  /** The content type is read back exactly if it is trimmed and holds no line feed. */
  lemma TypeReadsBack(status: int, ct: string, len: nat, keep: bool, rest: string)
    ensures GoodType(ct) <==> exists h: Head ::
              HeadOf(PrintHead(status, ct, len, keep) + rest) == Some(h) && h.headers == HeaderFields(ct, len, keep)
  {
    var s := PrintHead(status, ct, len, keep) + rest;
    if GoodType(ct) { HeadReadsBack(status, ct, len, keep, rest); }
    if h: Head :| HeadOf(s) == Some(h) && h.headers == HeaderFields(ct, len, keep) {
      EndOfHeadFirst(s, 0);
      var eoh := EndOfHead(s, 0).value; var first := Find(s, '\n', 0, eoh);
      ParsedIsGood(s, if first == eoh then eoh else first + 1, eoh);
      assert h.headers[0].1 == ct;
    }
  }

  /** As long as the head is incomplete the parser asks for more. */
  lemma PartOfHead(status: int, ct: string, len: nat, keep: bool, k: nat)
    requires GoodType(ct) && k < |PrintHead(status, ct, len, keep)|
    ensures HeadOf(PrintHead(status, ct, len, keep)[..k]) == None
  {
    var head := PrintHead(status, ct, len, keep);
    HeadIsLines(status, ct, len, keep);
    LinesEnd("", HeadLines(status, ct, len, keep), "");
    assert "" + (Lines(HeadLines(status, ct, len, keep)) + CRLF + "") == head;
    PrefixHasNoEnd(head, k);
  }

  // --------------------------------------------------------------- the read loop

  datatype Response = Response(status: int, headers: seq<(string, string)>, contentLength: int, body: string)

  function Join(chunks: seq<string>): string { if chunks == [] then [] else chunks[0] + Join(chunks[1..]) }

  /** The body announced by the head has arrived. */
  predicate Complete(h: Head, buf: string) {
    h.contentLength >= 0 && |buf| - h.bodyStart >= h.contentLength
  }

  function BodyOf(h: Head, buf: string): string
    requires h.bodyStart <= |buf|
  {
    if 0 <= h.contentLength < |buf| - h.bodyStart then buf[h.bodyStart..h.bodyStart + h.contentLength]
    else buf[h.bodyStart..]
  }

  /** What the client has once it stops reading. */
  function Finish(head: Option<Head>, buf: string): Option<Response> {
    if head.None? || head.value.bodyStart > |buf| then None
    else Some(Response(head.value.status, head.value.headers, head.value.contentLength, BodyOf(head.value, buf)))
  }

  /** The client: collect chunks, parse the head once it is there, stop when the body is. */
  function Client(chunks: seq<string>, buf: string, head: Option<Head>): Option<Response>
    decreases |chunks|
  {
    if chunks == [] then Finish(head, buf)
    else
      var buf' := buf + chunks[0];
      var head' := if head.Some? then head else HeadOf(buf');
      if head'.Some? && Complete(head'.value, buf') then Finish(head', buf') else Client(chunks[1..], buf', head')
  }

  /** The loop itself. */
  method ReadResponse(chunks: seq<string>) returns (r: Option<Response>)
    ensures r == Client(chunks, [], None)
  {
    var buf, head, i := [], None, 0;
    while i < |chunks|
      invariant 0 <= i <= |chunks| && Client(chunks, [], None) == Client(chunks[i..], buf, head)
    {
      assert chunks[i..][0] == chunks[i] && chunks[i..][1..] == chunks[i + 1..];
      buf := buf + chunks[i];
      if head.None? {
        head := ParseResponseHead(buf);
      }
      if head.Some? && Complete(head.value, buf) {
        return Finish(head, buf);
      }
      i := i + 1;
    }
    r := Finish(head, buf);
  }

  // ------------------------------------------------------------------- round trip

  /** What the client knows of the head once k bytes of the response have arrived. */
  function Known(head: string, h: Head, k: nat): Option<Head> { if k < |head| then None else Some(h) }

  /** What has arrived agrees with the response as far as either goes. */
  predicate Agrees(all: string, response: string) { all <= response || response <= all }

  /** The part of the body that has arrived, and no more than the body. */
  function Arrived(head: string, body: string, all: string): string
    requires |head| <= |all|
  {
    if |all| < |head| + |body| then all[|head|..] else body
  }

  /** A part of what arrives, as part of the head or as the head and what comes after it. */
  lemma PartIs(head: string, body: string, buf: string, rest: string)
    requires Agrees(buf + rest, head + body)
    ensures |buf| < |head| ==> buf == head[..|buf|]
    ensures |buf| >= |head| ==> buf == head + buf[|head|..]
    ensures |buf| >= |head| + |body| ==> buf[|head|..|head| + |body|] == body
  {
    var all, whole := buf + rest, head + body; var n := |head|;
    assert forall k :: 0 <= k < |buf| ==> all[k] == buf[k];
    assert forall k :: 0 <= k < |buf| && k < |whole| ==> buf[k] == whole[k];
    assert forall k :: 0 <= k < |head| ==> whole[k] == head[k];
    assert forall k :: 0 <= k < |body| ==> whole[n + k] == body[k];
    if |buf| >= n + |body| { assert forall k :: 0 <= k < |body| ==> body[k] == buf[n + k]; }
  }

  lemma FinishGives(head: string, body: string, h: Head, buf: string, rest: string)
    requires h.bodyStart == |head| && h.contentLength == |body| && |buf| >= |head|
    requires Agrees(buf + rest, head + body)
    ensures Finish(Some(h), buf) == Some(Response(h.status, h.headers, |body|, Arrived(head, body, buf)))
  {
    PartIs(head, body, buf, rest);
    if |buf| == |head| + |body| { assert buf[|head|..] == buf[|head|..|head| + |body|]; }
  }

  lemma {:induction false} ClientRecovers(head: string, body: string, h: Head, chunks: seq<string>, buf: string)
    requires h.bodyStart == |head| && h.contentLength == |body| && Agrees(buf + Join(chunks), head + body)
    requires |buf| < |head| + |body|
    requires forall k: nat :: k < |head| ==> HeadOf(head[..k]) == None
    requires forall rest: string :: HeadOf(head + rest) == Some(h)
    ensures var all := buf + Join(chunks);
            Client(chunks, buf, Known(head, h, |buf|)) ==
              if |all| < |head| then None else Some(Response(h.status, h.headers, |body|, Arrived(head, body, all)))
    decreases |chunks|
  {
    if chunks == [] {
      assert buf + Join(chunks) == buf;
      if |buf| >= |head| { FinishGives(head, body, h, buf, ""); }
    } else {
      var buf' := buf + chunks[0];
      assert buf' + Join(chunks[1..]) == buf + Join(chunks);
      PartIs(head, body, buf', Join(chunks[1..]));
      assert HeadOf(buf') == Known(head, h, |buf'|);
      if |buf'| >= |head| + |body| {
        FinishGives(head, body, h, buf', Join(chunks[1..]));
      } else {
        ClientRecovers(head, body, h, chunks[1..], buf');
      }
    }
  }

  /** However the bytes are cut into chunks: if at least the head arrives, the client returns the
      status, the headers, the length, and of the body as much as arrived and no byte more. */
  lemma ClientGets(status: int, ct: string, body: string, keep: bool, chunks: seq<string>)
    requires GoodType(ct) && Agrees(Join(chunks), PrintHead(status, ct, |body|, keep) + body)
    ensures var head := PrintHead(status, ct, |body|, keep); var all := Join(chunks);
            Client(chunks, [], None) ==
              if |all| < |head| then None
              else Some(Response(status, HeaderFields(ct, |body|, keep), |body|, Arrived(head, body, all)))
  {
    var head := PrintHead(status, ct, |body|, keep);
    var h := Head(status, HeaderFields(ct, |body|, keep), |head|, |body|);
    forall k: nat | k < |head| ensures HeadOf(head[..k]) == None { PartOfHead(status, ct, |body|, keep, k); }
    forall rest: string ensures HeadOf(head + rest) == Some(h) { HeadReadsBack(status, ct, |body|, keep, rest); }
    assert |head| > 0;
    assert [] + Join(chunks) == Join(chunks);
    ClientRecovers(head, body, h, chunks, []);
  }

  /** Once all of the response has arrived, the client recovers the status, the headers, the
      length and the exact body, whatever else has arrived behind it. */
  lemma ResponseRoundTrip(status: int, ct: string, body: string, keep: bool, chunks: seq<string>)
    requires GoodType(ct) && PrintHead(status, ct, |body|, keep) + body <= Join(chunks)
    ensures Client(chunks, [], None) == Some(Response(status, HeaderFields(ct, |body|, keep), |body|, body))
  {
    ClientGets(status, ct, body, keep, chunks);
  }

  /** A connection that is cut inside the body is not told from a whole response: the client
      returns one with the announced length and a shorter body. */
  lemma CutInBody(status: int, ct: string, body: string, keep: bool, n: nat)
    requires GoodType(ct) && n < |body|
    ensures Client([PrintHead(status, ct, |body|, keep) + body[..n]], [], None) ==
              Some(Response(status, HeaderFields(ct, |body|, keep), |body|, body[..n]))
  {
    var head := PrintHead(status, ct, |body|, keep); var all := head + body[..n];
    assert Join([all][1..]) == "" && Join([all]) == all;
    assert all == (head + body)[..|head| + n];
    ClientGets(status, ct, body, keep, [all]);
    assert all[|head|..] == body[..n];
  }

  // ------------------------------------------------------------------- the server

  /** The head always fits its buffer, so the bare 500 is never sent. */
  lemma HeadFits(status: int, ct: string, len: nat, keep: bool)
    requires -0x8000_0000 <= status < 0x8000_0000 && len < 0x1_0000_0000_0000_0000
    ensures |PrintHead(status, ct, len, keep)| < 128 + |ct| + 32
  {
    PowersOfTen();
    DecShort(len, 20);
    DecShort(if status < 0 then -status else status, 10);
    var hs := HeaderFields(ct, len, keep); var ls := HeadLines(status, ct, len, keep);
    assert ls == [StatusLine(status), Field("Content-Type", ct), Field("Content-Length", Dec(len)),
           Field("Connection", Persistence(keep))];
    LinesLength(ls);
    assert Plain(Reason(status));
  }

  lemma LinesLength(ls: seq<string>)
    requires |ls| == 4
    ensures |Lines(ls)| == |ls[0]| + |ls[1]| + |ls[2]| + |ls[3]| + 8
  {
    var a := ls[1..]; var b := a[1..]; var c := b[1..];
    assert Lines(c[1..]) == [];
    assert |Lines(c)| == |ls[3]| + 2;
    assert |Lines(b)| == |ls[2]| + 2 + |Lines(c)|;
    assert |Lines(a)| == |ls[1]| + 2 + |Lines(b)|;
  }

  /** The write covers the whole response exactly when its length fits an unsigned int. */
  lemma WireIsWhole(bytes: string)
    ensures Wire(bytes) == bytes <==> |bytes| < 0x1_0000_0000
  {
    if |bytes| >= 0x1_0000_0000 { assert |Wire(bytes)| < 0x1_0000_0000; }
  }

  lemma RespondIs(status: int, ct: string, body: string, keep: bool)
    requires -0x8000_0000 <= status < 0x8000_0000 && |body| < 0x1_0000_0000_0000_0000
    ensures Respond(status, Some(ct), body, keep) == PrintHead(status, ct, |body|, keep) + body
  {
    HeadFits(status, ct, |body|, keep);
  }

  /** From the server's call to the client's result. */
  lemma EndToEnd(status: int, contentType: Option<string>, body: string, keep: bool, chunks: seq<string>)
    requires -0x8000_0000 <= status < 0x8000_0000 && (contentType.Some? ==> GoodType(contentType.value))
    requires |Respond(status, contentType, body, keep)| < 0x1_0000_0000 && |body| < 0x1_0000_0000
    requires Wire(Respond(status, contentType, body, keep)) <= Join(chunks)
    ensures var ct := if contentType.None? then "text/plain" else contentType.value;
            Client(chunks, [], None) == Some(Response(status, HeaderFields(ct, |body|, keep), |body|, body))
  {
    var ct := if contentType.None? then "text/plain" else contentType.value;
    RespondIs(status, ct, body, keep);
    assert Respond(status, contentType, body, keep) == Respond(status, Some(ct), body, keep);
    WireIsWhole(Respond(status, contentType, body, keep));
    ResponseRoundTrip(status, ct, body, keep, chunks);
  }
}
