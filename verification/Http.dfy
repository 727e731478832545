/**
 HTTP/1.1 responses: what the server prints, what the client makes of the bytes as they arrive,
 and that the one undoes the other (message framing by Content-Length, section 3.3.3 of RFC 7230).
 */
module Http {
  import opened Common
  import opened HttpText

  // ------------------------------------------------------------------- printing

  /** Fit for a status line: short and without line ends. */
  predicate Plain(s: string) { |s| <= 22 && forall i :: 0 <= i < |s| ==> s[i] != '\r' && s[i] != '\n' }

  function SuccessReason(code: int): (s: string)
    ensures Plain(s)
  {
    match code {
      case 100 => "Continue"
      case 200 => "OK"
      case 201 => "Created"
      case 204 => "No Content"
      case 206 => "Partial Content"
      case _ => "Unknown"
    }
  }

  function RedirectReason(code: int): (s: string)
    ensures Plain(s)
  {
    match code {
      case 301 => "Moved Permanently"
      case 302 => "Found"
      case 304 => "Not Modified"
      case _ => "Unknown"
    }
  }

  function RequestReason(code: int): (s: string)
    ensures Plain(s)
  {
    match code {
      case 400 => "Bad Request"
      case 401 => "Unauthorized"
      case 403 => "Forbidden"
      case 404 => "Not Found"
      case _ => "Unknown"
    }
  }

  function ConflictReason(code: int): (s: string)
    ensures Plain(s)
  {
    match code {
      case 405 => "Method Not Allowed"
      case 408 => "Request Timeout"
      case 409 => "Conflict"
      case 415 => "Unsupported Media Type"
      case _ => "Unknown"
    }
  }

  function EntityReason(code: int): (s: string)
    ensures Plain(s)
  {
    match code {
      case 422 => "Unprocessable Entity"
      case 429 => "Too Many Requests"
      case _ => "Unknown"
    }
  }

  function ServerReason(code: int): (s: string)
    ensures Plain(s)
  {
    match code {
      case 500 => "Internal Server Error"
      case 501 => "Not Implemented"
      case 503 => "Service Unavailable"
      case _ => "Unknown"
    }
  }

  /** http_status_str */
  function Reason(code: int): (s: string)
    ensures Plain(s)
  {
    if code < 300 then SuccessReason(code)
    else if code < 400 then RedirectReason(code)
    else if code < 405 then RequestReason(code)
    else if code < 422 then ConflictReason(code)
    else if code < 500 then EntityReason(code)
    else ServerReason(code)
  }

  const CRLF := "\r\n"

  /** Each line with its line end. */
  function Lines(ls: seq<string>): string { if ls == [] then [] else ls[0] + CRLF + Lines(ls[1..]) }

  function StatusLine(status: int): string { "HTTP/1.1 " + DecInt(status) + " " + Reason(status) }

  function Persistence(keepAlive: bool): string { if keepAlive then "keep-alive" else "close" }

  function Field(name: string, value: string): string { name + ": " + value }

  function HeaderFields(contentType: string, len: nat, keepAlive: bool): seq<(string, string)> {
    [("Content-Type", contentType), ("Content-Length", Dec(len)), ("Connection", Persistence(keepAlive))]
  }

  function FieldLines(hs: seq<(string, string)>): seq<string> {
    seq(|hs|, i requires 0 <= i < |hs| => Field(hs[i].0, hs[i].1))
  }

  function PrintHead(status: int, contentType: string, len: nat, keepAlive: bool): string {
    Lines([StatusLine(status)] + FieldLines(HeaderFields(contentType, len, keepAlive))) + CRLF
  }

  const FALLBACK := "HTTP/1.1 500 Internal Server Error\r\n\r\n"

  /** goc_http_server_respond_buf: a head that does not fit its buffer is replaced by a bare 500. */
  function Respond(status: int, contentType: Option<string>, body: string, keepAlive: bool): string {
    var ct := if contentType.None? then "text/plain" else contentType.value;
    var head := PrintHead(status, ct, |body|, keepAlive);
    if |head| >= 128 + |ct| + 32 then FALLBACK else head + body
  }

  /** The length handed to the write is an unsigned int. */
  function Wire(bytes: string): string { bytes[..|bytes| % 0x1_0000_0000] }

  // ------------------------------------------------------------ the end of a head

  predicate HeadEnds(s: string, i: nat) {
    i + 4 <= |s| && s[i] == '\r' && s[i + 1] == '\n' && s[i + 2] == '\r' && s[i + 3] == '\n'
  }

  /** Where the first empty line from i on ends. */
  function EndOfHead(s: string, i: nat): Option<nat>
    requires i <= |s|
    decreases |s| - i
  {
    if i + 4 > |s| then None else if HeadEnds(s, i) then Some(i + 4) else EndOfHead(s, i + 1)
  }

  lemma {:induction false} EndOfHeadSkips(s: string, i: nat, j: nat)
    requires i <= j <= |s| && forall k :: i <= k < j ==> !HeadEnds(s, k)
    ensures EndOfHead(s, i) == EndOfHead(s, j)
    decreases j - i
  {
    if i < j { EndOfHeadSkips(s, i + 1, j); }
  }

  lemma {:induction false} EndOfHeadFirst(s: string, i: nat)
    requires i <= |s|
    ensures EndOfHead(s, i).Some? ==>
              var e := EndOfHead(s, i).value;
              i + 4 <= e <= |s| && HeadEnds(s, e - 4) && forall k :: i <= k < e - 4 ==> !HeadEnds(s, k)
    ensures EndOfHead(s, i).None? ==> forall k :: i <= k ==> !HeadEnds(s, k)
    decreases |s| - i
  {
    if i + 4 <= |s| && !HeadEnds(s, i) { EndOfHeadFirst(s, i + 1); }
  }

  /** A line that is not empty and has no line feed inside. */
  predicate IsLine(l: string) { l != [] && Free(l, '\n') }

  lemma BlankLine(s: string, i: nat, n: nat)
    requires i < n && n + 4 <= |s| && (forall k :: i < k < n ==> s[k] != '\n') && HeadEnds(s, n)
    ensures EndOfHead(s, i) == Some(n + 4)
  {
    forall k | i <= k < n ensures !HeadEnds(s, k) { assert s[k + 1] != '\n'; }
    EndOfHeadSkips(s, i, n);
  }

  /** The line and its line end stand at position i. */
  ghost predicate LineStands(s: string, i: nat, l: string) {
    && i + |l| + 2 <= |s| && (forall k :: i <= k < i + |l| ==> s[k] == l[k - i])
    && s[i + |l|] == '\r' && s[i + |l| + 1] == '\n'
  }

  /** The lines stand there one after the other, and then an empty one. */
  ghost predicate LinesStand(s: string, i: nat, ls: seq<string>)
    decreases |ls|
  {
    if ls == [] then LineStands(s, i, "") else LineStands(s, i, ls[0]) && LinesStand(s, i + |ls[0]| + 2, ls[1..])
  }

  lemma LineHasNoFeed(s: string, i: nat, l: string)
    requires LineStands(s, i, l) && IsLine(l)
    ensures s[i + 1] != '\n' && forall k :: i <= k < i + |l| ==> s[k] != '\n'
  {
    forall k | i <= k < i + |l| ensures s[k] != '\n' { assert s[k] == l[k - i]; }
  }

  /** A line in front of another one does not end the head. */
  lemma LineSkipped(s: string, i: nat, l: string, next: string)
    requires LineStands(s, i, l) && IsLine(l) && LineStands(s, i + |l| + 2, next) && IsLine(next)
    ensures EndOfHead(s, i) == EndOfHead(s, i + |l| + 2)
  {
    var n := i + |l|;
    LineHasNoFeed(s, i, l);
    LineHasNoFeed(s, n + 2, next);
    forall k | i <= k < n + 2 ensures !HeadEnds(s, k) { assert k < n - 1 ==> s[k + 1] != '\n'; }
    EndOfHeadSkips(s, i, n + 2);
  }

  lemma {:induction false} StandingEnds(s: string, i: nat, ls: seq<string>)
    requires ls != [] && (forall k :: 0 <= k < |ls| ==> IsLine(ls[k])) && LinesStand(s, i, ls)
    ensures EndOfHead(s, i) == Some(i + |Lines(ls)| + 2)
    decreases |ls|
  {
    var n := i + |ls[0]|;
    if |ls| == 1 {
      LineHasNoFeed(s, i, ls[0]);
      assert Lines(ls[1..]) == [] && LineStands(s, n + 2, "");
      BlankLine(s, i, n);
    } else {
      LineSkipped(s, i, ls[0], ls[1]);
      StandingEnds(s, n + 2, ls[1..]);
    }
  }

  lemma StandsBehind(pre: string, l: string, tail: string)
    ensures LineStands(pre + (l + CRLF + tail), |pre|, l)
  {
  }

  lemma Regroup(pre: string, l: string, x: string, rest: string)
    ensures pre + (l + CRLF + x + CRLF + rest) == pre + (l + CRLF + (x + CRLF + rest))
    ensures pre + (l + CRLF + x + CRLF + rest) == (pre + l + CRLF) + (x + CRLF + rest)
  {
  }

  lemma {:induction false} WrittenStands(pre: string, ls: seq<string>, rest: string)
    ensures LinesStand(pre + (Lines(ls) + CRLF + rest), |pre|, ls)
    decreases |ls|
  {
    if ls == [] {
      StandsBehind(pre, "", rest);
      assert "" + CRLF + rest == [] + CRLF + rest;
    } else {
      var l, x := ls[0], Lines(ls[1..]);
      Regroup(pre, l, x, rest);
      StandsBehind(pre, l, x + CRLF + rest);
      WrittenStands(pre + l + CRLF, ls[1..], rest);
    }
  }

  /** The lines of a head end at its empty line, whatever follows. */
  lemma LinesEnd(pre: string, ls: seq<string>, rest: string)
    requires ls != [] && forall i :: 0 <= i < |ls| ==> IsLine(ls[i])
    ensures EndOfHead(pre + (Lines(ls) + CRLF + rest), |pre|) == Some(|pre| + |Lines(ls)| + 2)
  {
    WrittenStands(pre, ls, rest);
    StandingEnds(pre + (Lines(ls) + CRLF + rest), |pre|, ls);
  }

  /** Before the empty line has arrived there is no end of head. */
  lemma PrefixHasNoEnd(s: string, k: nat)
    requires k < |s| && EndOfHead(s, 0) == Some(|s|)
    ensures EndOfHead(s[..k], 0) == None
  {
    EndOfHeadFirst(s, 0);
    EndOfHeadFirst(s[..k], 0);
    if EndOfHead(s[..k], 0).Some? {
      var e := EndOfHead(s[..k], 0).value;
      assert HeadEnds(s, e - 4);
    }
  }

  // --------------------------------------------------------------------- parsing

  function DigitsEnd(s: string, i: nat): (r: nat)
    requires i <= |s|
    ensures i <= r <= |s|
    decreases |s| - i
  {
    if i < |s| && IsDigit(s[i]) then DigitsEnd(s, i + 1) else i
  }

  /** A %d conversion: white space, a sign, digits. */
  function ScanInt(s: string, i: nat): Option<(int, nat)>
    requires i <= |s|
  {
    var j := SkipSpace(s, i, |s|);
    var k := if j < |s| && (s[j] == '-' || s[j] == '+') then j + 1 else j;
    if k < |s| && IsDigit(s[k]) then
      var n: int := Digits(s, k, 0);
      Some((if s[j] == '-' then -n else n, DigitsEnd(s, k)))
    else None
  }

  /** atol */
  function Atol(s: string): int { match ScanInt(s, 0) case None => 0 case Some(r) => r.0 }

  /** The third number of the status line, 0 when the line does not have the form. */
  function ScanStatus(s: string): int {
    if !("HTTP/" <= s) then 0
    else
      match ScanInt(s, 5)
      case None => 0
      case Some(major) =>
        if !(major.1 < |s| && s[major.1] == '.') then 0
        else
          match ScanInt(s, major.1 + 1)
          case None => 0
          case Some(minor) =>
            match ScanInt(s, minor.1)
            case None => 0
            case Some(status) => status.0
  }

  function Lower(c: char): char { if 'A' <= c <= 'Z' then (c as int + 32) as char else c }

  /** strcasecmp is zero. */
  predicate SameName(a: string, b: string) {
    |a| == |b| && forall i :: 0 <= i < |a| ==> Lower(a[i]) == Lower(b[i])
  }

  datatype Head = Head(status: int, headers: seq<(string, string)>, bodyStart: nat, contentLength: int)

  /** The name in front of a colon and the value behind it, without the white space around. */
  function NameOf(s: string, line: nat, colon: nat): string
    requires line <= colon <= |s|
  {
    s[line..TrimEnd(s, line, colon)]
  }

  function ValueOf(s: string, colon: nat, nl: nat): string
    requires colon < nl <= |s|
  {
    var v := SkipSpace(s, colon + 1, nl);
    s[v..TrimEnd(s, v, nl)]
  }

  /** What the headers read so far say of the body's length: the last Content-Length, or -1. */
  function LengthIn(hs: seq<(string, string)>): int {
    if hs == [] then -1
    else if SameName(hs[|hs| - 1].0, "content-length") then Atol(hs[|hs| - 1].1)
    else LengthIn(hs[..|hs| - 1])
  }

  /** The header on the line that ends at nl; none when the line has no colon. */
  function HeaderOn(s: string, line: nat, nl: nat): seq<(string, string)>
    requires line <= nl <= |s|
  {
    var colon := Find(s, ':', line, nl);
    if colon == nl then [] else [(NameOf(s, line, colon), ValueOf(s, colon, nl))]
  }

  /** The header lines from `line` to the end of the head; a line without a colon is skipped. */
  function ParseLines(s: string, line: nat, eoh: nat): seq<(string, string)>
    requires line <= eoh <= |s|
    decreases eoh - line
  {
    if line + 1 >= eoh || Find(s, '\n', line, eoh) == eoh then []
    else
      var nl := Find(s, '\n', line, eoh);
      HeaderOn(s, line, nl) + ParseLines(s, nl + 1, eoh)
  }

  /** The head at the front of the bytes received so far, if all of it is there. */
  function HeadOf(s: string): Option<Head> {
    match EndOfHead(s, 0)
    case None => None
    case Some(eoh) =>
      EndOfHeadFirst(s, 0);
      var first := Find(s, '\n', 0, eoh);
      var hs := ParseLines(s, if first == eoh then eoh else first + 1, eoh);
      Some(Head(ScanStatus(s), hs, eoh, LengthIn(hs)))
  }

  /** One turn of the header loop. */
  method ReadLine(s: string, line: nat, nl: nat, hs: seq<(string, string)>, cl: int)
      returns (hs': seq<(string, string)>, cl': int)
    requires line <= nl <= |s| && cl == LengthIn(hs)
    ensures hs' == hs + HeaderOn(s, line, nl) && cl' == LengthIn(hs')
  {
    hs', cl' := hs, cl;
    var colon := FindFrom(s, ':', line, nl);
    if colon < nl {
      var name, value := NameOf(s, line, colon), ValueOf(s, colon, nl);
      if SameName(name, "content-length") { cl' := Atol(value); }
      hs' := hs + [(name, value)];
      assert hs'[..|hs|] == hs;
    } else {
      assert hs + [] == hs;
    }
  }

  lemma NextLine(s: string, line: nat, eoh: nat, hs: seq<(string, string)>)
    requires line + 1 < eoh <= |s| && Find(s, '\n', line, eoh) < eoh
    ensures var nl := Find(s, '\n', line, eoh);
            hs + ParseLines(s, line, eoh) == (hs + HeaderOn(s, line, nl)) + ParseLines(s, nl + 1, eoh)
  {
    var nl := Find(s, '\n', line, eoh);
    Grouped(hs, HeaderOn(s, line, nl), ParseLines(s, nl + 1, eoh));
  }

  lemma Grouped<T>(a: seq<T>, b: seq<T>, c: seq<T>)
    ensures a + (b + c) == (a + b) + c && a + [] == a
  {
  }

  lemma LinesDone(s: string, line: nat, eoh: nat, hs: seq<(string, string)>)
    requires line <= eoh <= |s| && (line + 1 >= eoh || Find(s, '\n', line, eoh) == eoh)
    ensures hs + ParseLines(s, line, eoh) == hs
  {
    Grouped(hs, [], []);
  }

  /** The header loop. */
  method ReadLines(s: string, start: nat, eoh: nat) returns (hs: seq<(string, string)>, cl: int)
    requires start <= eoh <= |s|
    ensures hs == ParseLines(s, start, eoh) && cl == LengthIn(hs)
  {
    hs, cl := [], -1;
    var line := start;
    ghost var all := ParseLines(s, start, eoh);
    while line + 1 < eoh
      invariant line <= eoh && hs + ParseLines(s, line, eoh) == all && cl == LengthIn(hs)
      decreases eoh - line
    {
      var nl := FindFrom(s, '\n', line, eoh);
      if nl == eoh {
        LinesDone(s, line, eoh, hs);
        return;
      }
      NextLine(s, line, eoh, hs);
      hs, cl := ReadLine(s, line, nl, hs, cl);
      line := nl + 1;
    }
    LinesDone(s, line, eoh, hs);
  }

  /** The search for the empty line. */
  method FindEnd(s: string) returns (r: Option<nat>)
    ensures r == EndOfHead(s, 0)
  {
    var i := 0;
    while i + 4 <= |s|
      invariant 0 <= i <= |s| && EndOfHead(s, 0) == EndOfHead(s, i)
    {
      if HeadEnds(s, i) { return Some(i + 4); }
      i := i + 1;
    }
    r := None;
  }

  /** parse_response_head_buf */
  method ParseResponseHead(s: string) returns (r: Option<Head>)
    ensures r == HeadOf(s)
  {
    var end := FindEnd(s);
    if end.None? { return None; }
    EndOfHeadFirst(s, 0);
    var first := FindFrom(s, '\n', 0, end.value);
    var hs, cl := ReadLines(s, if first == end.value then first else first + 1, end.value);
    r := Some(Head(ScanStatus(s), hs, end.value, cl));
  }

  // ------------------------------------------------------------------ round trip

  /** A header that survives printing and parsing. */
  predicate GoodField(name: string, value: string) {
    && name != [] && !IsSpace(name[|name| - 1]) && Free(name, ':') && Free(name, '\n')
    && Trimmed(value) && Free(value, '\n')
  }

  /** The text t stands in s at position i. */
  ghost predicate Holds(s: string, i: nat, t: string) {
    i + |t| <= |s| && forall k :: i <= k < i + |t| ==> s[k] == t[k - i]
  }

  lemma ValueIs(s: string, colon: nat, nl: nat, value: string)
    requires colon + 3 + |value| == nl < |s| && s[colon + 1] == ' ' && s[nl - 1] == '\r'
    requires Holds(s, colon + 2, value) && Trimmed(value)
    ensures ValueOf(s, colon, nl) == value
  {
    if value == [] {
      SkipSpaceIs(s, colon + 1, nl, nl);
      TrimEndIs(s, nl, nl, nl);
    } else {
      assert s[colon + 2] == value[0] && s[nl - 2] == value[|value| - 1];
      SkipSpaceIs(s, colon + 1, nl, colon + 2);
      TrimEndIs(s, colon + 2, nl, nl - 1);
    }
  }

  /** A header line stands in s at position line. */
  ghost predicate Stands(s: string, line: nat, name: string, value: string) {
    && line + |name| + 4 + |value| <= |s|
    && Holds(s, line, name)
    && s[line + |name|] == ':' && s[line + |name| + 1] == ' '
    && Holds(s, line + |name| + 2, value)
    && s[line + |name| + 2 + |value|] == '\r' && s[line + |name| + 3 + |value|] == '\n'
  }

  lemma PrintedStands(pre: string, name: string, value: string, rest: string)
    ensures Stands(pre + (Field(name, value) + CRLF + rest), |pre|, name, value)
  {
  }

  lemma FindsNewline(s: string, line: nat, name: string, value: string, eoh: nat)
    requires Stands(s, line, name, value) && GoodField(name, value) && line + |name| + 4 + |value| <= eoh <= |s|
    ensures Find(s, '\n', line, eoh) == line + |name| + 3 + |value|
  {
    FindIs(s, '\n', line, eoh, line + |name| + 3 + |value|);
  }

  lemma FindsColon(s: string, line: nat, name: string, value: string)
    requires Stands(s, line, name, value) && GoodField(name, value)
    ensures Find(s, ':', line, line + |name| + 3 + |value|) == line + |name|
  {
    FindIs(s, ':', line, line + |name| + 3 + |value|, line + |name|);
  }

  lemma NameIs(s: string, line: nat, name: string)
    requires Holds(s, line, name) && name != [] && !IsSpace(name[|name| - 1])
    ensures NameOf(s, line, line + |name|) == name
  {
    assert s[line + |name| - 1] == name[|name| - 1];
    TrimEndIs(s, line, line + |name|, line + |name|);
  }

  lemma FieldAt(s: string, line: nat, name: string, value: string)
    requires Stands(s, line, name, value) && GoodField(name, value)
    ensures HeaderOn(s, line, line + |name| + 3 + |value|) == [(name, value)]
  {
    var colon := line + |name|; var nl := colon + 3 + |value|;
    FindsColon(s, line, name, value);
    NameIs(s, line, name);
    ValueIs(s, colon, nl, value);
  }

  /** One header line is found and read back as one header. */
  lemma LineReadsBack(s: string, line: nat, name: string, value: string, eoh: nat)
    requires Stands(s, line, name, value) && GoodField(name, value) && line + |name| + 4 + |value| <= eoh <= |s|
    ensures Find(s, '\n', line, eoh) == line + |name| + 3 + |value|
    ensures HeaderOn(s, line, line + |name| + 3 + |value|) == [(name, value)]
  {
    FieldAt(s, line, name, value);
    FindsNewline(s, line, name, value, eoh);
  }

  function FieldSize(h: (string, string)): nat { |h.0| + 4 + |h.1| }

  /** The header lines stand in s from `line` on and are followed by the empty line that ends
      at eoh. */
  ghost predicate Spelled(s: string, line: nat, eoh: nat, hs: seq<(string, string)>)
    decreases |hs|
  {
    if hs == [] then line + 2 == eoh <= |s| && s[line] == '\r' && s[line + 1] == '\n'
    else Stands(s, line, hs[0].0, hs[0].1) && line + FieldSize(hs[0]) <= eoh <= |s|
         && Spelled(s, line + FieldSize(hs[0]), eoh, hs[1..])
  }

  /** The parser's searches find these headers one after the other. */
  ghost predicate Found(s: string, line: nat, eoh: nat, hs: seq<(string, string)>)
    decreases |hs|
  {
    && line + 1 < eoh <= |s|
    && var nl := Find(s, '\n', line, eoh);
       if hs == [] then nl + 1 == eoh && HeaderOn(s, line, nl) == []
       else nl < eoh && HeaderOn(s, line, nl) == [hs[0]] && Found(s, nl + 1, eoh, hs[1..])
  }

  lemma EmptyIsFound(s: string, line: nat)
    requires line + 2 <= |s| && s[line] == '\r' && s[line + 1] == '\n'
    ensures Found(s, line, line + 2, [])
  {
    FindIs(s, '\n', line, line + 2, line + 1);
    FindIs(s, ':', line, line + 1, line + 1);
  }

  lemma FoundCons(s: string, line: nat, nl: nat, eoh: nat, hs: seq<(string, string)>)
    requires hs != [] && line + 1 < eoh <= |s| && line <= nl < eoh && Find(s, '\n', line, eoh) == nl
    requires HeaderOn(s, line, nl) == [hs[0]] && Found(s, nl + 1, eoh, hs[1..])
    ensures Found(s, line, eoh, hs)
  {
  }

  lemma {:induction false} SpelledIsFound(s: string, line: nat, eoh: nat, hs: seq<(string, string)>)
    requires Spelled(s, line, eoh, hs) && forall i :: 0 <= i < |hs| ==> GoodField(hs[i].0, hs[i].1)
    ensures Found(s, line, eoh, hs)
    decreases |hs|
  {
    if hs == [] {
      EmptyIsFound(s, line);
    } else {
      LineReadsBack(s, line, hs[0].0, hs[0].1, eoh);
      SpelledIsFound(s, line + FieldSize(hs[0]), eoh, hs[1..]);
      FoundCons(s, line, line + |hs[0].0| + 3 + |hs[0].1|, eoh, hs);
    }
  }

  /** Header lines are read back as the headers, up to the empty line. */
  lemma {:induction false} FoundIsParsed(s: string, line: nat, eoh: nat, hs: seq<(string, string)>)
    requires Found(s, line, eoh, hs)
    ensures ParseLines(s, line, eoh) == hs
    decreases |hs|
  {
    if hs == [] {
      assert ParseLines(s, eoh, eoh) == [];
    } else {
      FoundIsParsed(s, Find(s, '\n', line, eoh) + 1, eoh, hs[1..]);
      assert [hs[0]] + hs[1..] == hs;
    }
  }

  /** What is printed is spelled. */
  lemma {:induction false} PrintedIsSpelled(pre: string, hs: seq<(string, string)>, rest: string)
    ensures Spelled(pre + (Lines(FieldLines(hs)) + CRLF + rest), |pre|, |pre| + |Lines(FieldLines(hs))| + 2, hs)
    decreases |hs|
  {
    var ls := FieldLines(hs); var s := pre + (Lines(ls) + CRLF + rest);
    if hs == [] {
      assert s[|pre|] == '\r' && s[|pre| + 1] == '\n';
    } else {
      var l := Field(hs[0].0, hs[0].1); var tail := Lines(ls[1..]) + CRLF + rest;
      assert ls[1..] == FieldLines(hs[1..]);
      assert Lines(ls) + CRLF + rest == l + CRLF + tail;
      PrintedStands(pre, hs[0].0, hs[0].1, tail);
      assert s == (pre + l + CRLF) + tail;
      PrintedIsSpelled(pre + l + CRLF, hs[1..], rest);
    }
  }

  // ---------------------------------------------------------------------- numbers

  lemma {:induction false} DigitsEndIs(s: string, i: nat, r: nat)
    requires i <= r <= |s| && (forall k :: i <= k < r ==> IsDigit(s[k])) && (r < |s| ==> !IsDigit(s[r]))
    ensures DigitsEnd(s, i) == r
    decreases r - i
  {
    if i < r { DigitsEndIs(s, i + 1, r); }
  }

  /** The text t stands at position i and is not followed by a digit. */
  ghost predicate Number(s: string, i: nat, t: string) {
    Holds(s, i, t) && (i + |t| < |s| ==> !IsDigit(s[i + |t|]))
  }

  lemma {:induction false} DigitsSame(s: string, k: nat, d: string, i: nat, acc: nat)
    requires Number(s, k, d) && i <= |d| && (forall j :: 0 <= j < |d| ==> IsDigit(d[j]))
    ensures Digits(s, k + i, acc) == Digits(d, i, acc)
    decreases |d| - i
  {
    if i < |d| {
      assert s[k + i] == d[i];
      DigitsSame(s, k, d, i + 1, acc * 10 + (d[i] as int - '0' as int));
    }
  }

  lemma DigitsStop(s: string, k: nat, d: string)
    requires Number(s, k, d) && d != [] && (forall j :: 0 <= j < |d| ==> IsDigit(d[j]))
    ensures Digits(s, k, 0) == Digits(d, 0, 0) && DigitsEnd(s, k) == k + |d| && IsDigit(s[k])
  {
    DigitsSame(s, k, d, 0, 0);
    assert s[k] == d[0];
    DigitsEndIs(s, k, k + |d|);
  }

  lemma ScanAt(s: string, i: nat, j: nat)
    requires i <= j < |s| && (forall k :: i <= k < j ==> IsSpace(s[k])) && !IsSpace(s[j])
    ensures var k := if s[j] == '-' || s[j] == '+' then j + 1 else j;
            ScanInt(s, i) == if k < |s| && IsDigit(s[k])
                             then Some((if s[j] == '-' then -(Digits(s, k, 0) as int)
                                 else Digits(s, k, 0), DigitsEnd(s, k)))
                             else None
  {
    SkipSpaceIs(s, i, |s|, j);
  }

  predicate AllDigits(d: string) { d != [] && forall k :: 0 <= k < |d| ==> IsDigit(d[k]) }

  lemma ScanPlain(s: string, i: nat, j: nat, d: string)
    requires (j == i || (j == i + 1 && i < |s| && s[i] == ' ')) && Number(s, j, d) && AllDigits(d)
    ensures ScanInt(s, i) == Some((Digits(d, 0, 0) as int, j + |d|))
  {
    DigitsStop(s, j, d);
    ScanAt(s, i, j);
  }

  lemma ScanMinus(s: string, i: nat, j: nat, d: string)
    requires (j == i || (j == i + 1 && i < |s| && s[i] == ' ')) && j < |s| && s[j] == '-'
    requires Number(s, j + 1, d) && AllDigits(d)
    ensures ScanInt(s, i) == Some((-(Digits(d, 0, 0) as int), j + 1 + |d|))
  {
    DigitsStop(s, j + 1, d);
    ScanAt(s, i, j);
  }

  lemma MinusStands(s: string, j: nat, d: string)
    requires Number(s, j, "-" + d)
    ensures j < |s| && s[j] == '-' && Number(s, j + 1, d)
  {
    var t := "-" + d;
    assert s[j] == t[0];
    forall k | 0 <= k < |d| ensures s[j + 1 + k] == d[k] { assert s[j + (k + 1)] == t[k + 1]; }
  }

  function Signed(minus: bool, d: string): string { if minus then "-" + d else d }

  lemma ScanSigned(s: string, i: nat, j: nat, minus: bool, d: string)
    requires (j == i || (j == i + 1 && i < |s| && s[i] == ' ')) && Number(s, j, Signed(minus, d)) && AllDigits(d)
    ensures var v: int := Digits(d, 0, 0); ScanInt(s, i) == Some((if minus then -v else v, j + |Signed(minus, d)|))
  {
    if minus {
      MinusStands(s, j, d);
      ScanMinus(s, i, j, d);
    } else {
      ScanPlain(s, i, j, d);
    }
  }

  lemma DecIntIs(n: int)
    ensures var m := if n < 0 then -n else n;
            DecInt(n) == Signed(n < 0, Dec(m)) && AllDigits(Dec(m)) && Digits(Dec(m), 0, 0) == m
  {
    DigitsOfDec(if n < 0 then -n else n);
  }

  /** A printed number is scanned back, also from the space in front of it. */
  lemma ScanReadsBack(s: string, i: nat, j: nat, n: int)
    requires (j == i || (j == i + 1 && i < |s| && s[i] == ' ')) && Number(s, j, DecInt(n))
    ensures ScanInt(s, i) == Some((n, j + |DecInt(n)|))
  {
    DecIntIs(n);
    ScanSigned(s, i, j, n < 0, Dec(if n < 0 then -n else n));
  }

  lemma AtolReadsBack(n: nat)
    ensures Atol(Dec(n)) == n
  {
    ScanReadsBack(Dec(n), 0, 0, n);
  }

  lemma StatusAt(s: string, status: int)
    requires Holds(s, 0, "HTTP/1.1 ") && Number(s, 9, DecInt(status))
    ensures ScanStatus(s) == status
  {
    assert DecInt(1) == "1";
    assert s[5] == '1' && s[6] == '.' && s[7] == '1' && s[8] == ' ';
    ScanReadsBack(s, 5, 5, 1);
    ScanReadsBack(s, 7, 7, 1);
    ScanReadsBack(s, 8, 9, status);
    assert s[..5] == "HTTP/";
  }

  /** The status code is read back from the status line. */
  lemma StatusReadsBack(status: int, t: string)
    ensures ScanStatus(StatusLine(status) + t) == status
  {
    StatusStands("HTTP/1.1 ", DecInt(status), " " + Reason(status) + t);
    assert StatusLine(status) + t == "HTTP/1.1 " + DecInt(status) + (" " + Reason(status) + t);
    StatusAt(StatusLine(status) + t, status);
  }

  lemma StatusStands(a: string, d: string, t: string)
    requires t != [] && !IsDigit(t[0])
    ensures Holds(a + d + t, 0, a) && Number(a + d + t, |a|, d)
  {
  }
}
