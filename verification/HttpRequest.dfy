/**
  The incremental request parser (include/net/http/HttpRequest.h, src/net/http/HttpRequest.cpp).

  `ParseBytes` is the parser as a function of the request so far and the bytes in the buffer; the class
  HttpRequest is the parser as the code has it, consuming a Buffer in a loop.

  AddHeader trims the end of a value by testing the byte at `end`, which for the first step is the
  CR of the line. A non-empty value therefore always loses its last byte. `Trim` selects between
  that test and one of the byte before `end`; everything is proved for both, and TrimGap says what
  the difference is.
 */
module HttpRequests {
  import opened Sequences
  import opened Buffers

  datatype Trim = AtEnd | BeforeEnd
  datatype Method = UnknownMethod | GET | HEAD | POST | PUT | DELETE
  datatype Version = UnknownVersion | Http10 | Http11 | Http20
  datatype ParseState = ParseLineState | ParseHeaderState | Down

  /** The fields of a request except ReceiveTime_. */
  datatype Request = Request(
    method_: Method, version: Version, url: string, query: string, state: ParseState, headers: map<string, string>)

  const NEW_REQUEST := Request(UnknownMethod, Http11, "", "", ParseLineState, map[])

  /** std::find: the first index of c, or the length. */
  function IndexOf(s: string, c: char): (i: nat)
    ensures i <= |s|
    ensures forall j :: 0 <= j < i ==> s[j] != c
    ensures i < |s| ==> s[i] == c
  {
    if s == "" || s[0] == c then 0 else 1 + IndexOf(s[1..], c)
  }

  /** Where find stops in `before + c + after` when c is not in `before`. */
  lemma IndexOfFirst(before: string, c: char, after: string)
    requires c !in before
    ensures IndexOf(before + [c] + after, c) == |before|
  {
    var s := before + [c] + after;
    assert s[|before|] == c;
    assert forall j :: 0 <= j < |before| ==> s[j] == before[j];
  }

  function MethodOf(name: string): Method {
    if name == "GET" then GET
    else if name == "HEAD" then HEAD
    else if name == "POST" then POST
    else if name == "PUT" then PUT
    else if name == "DELETE" then DELETE
    else UnknownMethod
  }

  /** What the code takes for a protocol version: eight bytes, "HTTP/", a 2 first or a 0 or 1 last. */
  function VersionOf(proto: string): Version {
    if |proto| != 8 || proto[..5] != "HTTP/" then UnknownVersion
    else if proto[5] == '2' then Http20
    else if proto[7] == '0' then Http10
    else if proto[7] == '1' then Http11
    else UnknownVersion
  }

  /** ParseLine on one line without its CRLF: the request afterwards and whether the line is accepted. */
  function ParseLine(q: Request, line: string): (Request, bool) {
    var space := IndexOf(line, ' ');
    if space == |line| then (q, false) else
    var named := q.(method_ := MethodOf(line[..space]));
    if named.method_ == UnknownMethod then (named, false) else ParseTarget(named, line[space + 1..])
  }

  /** The url and, when there is one, the query with its question mark. */
  function Locate(q: Request, target: string): Request {
    var question := IndexOf(target, '?');
    if question < |target| then q.(url := target[..question], query := target[question..]) else q.(url := target)
  }

  /** What follows the method. */
  function ParseTarget(q: Request, rest: string): (Request, bool) {
    var space := IndexOf(rest, ' ');
    if space == |rest| then (q, false) else
    var located := Locate(q, rest[..space]);
    var version := VersionOf(rest[space + 1..]);
    if version == UnknownVersion then (located, false) else (located.(version := version), true)
  }

  predicate IsSpace(c: char) {
    c == ' ' || ('\t' <= c <= '\r')
  }

  /** First position at or after i that holds no white space, at most |line|. */
  function SkipSpaces(line: string, i: nat): (r: nat)
    requires i <= |line|
    ensures i <= r <= |line|
    ensures forall j :: i <= j < r ==> IsSpace(line[j])
    ensures r < |line| ==> !IsSpace(line[r])
    decreases |line| - i
  {
    if i < |line| && IsSpace(line[i]) then SkipSpaces(line, i + 1) else i
  }

  /** The byte the trailing loop looks at; at |line| stands the CR of the line end. */
  function TrimProbe(trim: Trim, line: string, end: nat): char
    requires 0 < end <= |line|
  {
    if trim == BeforeEnd then line[end - 1]
    else if end == |line| then '\r'
    else line[end]
  }

  function TrimEnd(trim: Trim, line: string, low: nat, end: nat): (r: nat)
    requires low <= end <= |line|
    ensures low <= r <= end
    decreases end
  {
    if low < end && IsSpace(TrimProbe(trim, line, end)) then TrimEnd(trim, line, low, end - 1) else end
  }

  /** The value AddHeader stores for a line whose first colon is at `colon`. */
  function ValueOf(trim: Trim, line: string, colon: nat): string
    requires colon < |line|
  {
    var low := SkipSpaces(line, colon + 1);
    line[low..TrimEnd(trim, line, low, |line|)]
  }

  function AddHeader(trim: Trim, q: Request, line: string, colon: nat): Request
    requires colon < |line|
  {
    q.(headers := q.headers[line[..colon] := ValueOf(trim, line, colon)])
  }

  /** What parse leaves behind: the request, the unread bytes, and its return value. */
  datatype Outcome = Outcome(request: Request, leftover: string, ok: bool)

  /** One round of the loop: request and unread bytes after it, the result so far, whether to go on. */
  datatype Round = Round(request: Request, leftover: string, ok: bool, parsing: bool)

  function ParseRound(trim: Trim, q: Request, input: string): (r: Round)
    ensures r.parsing ==> r.ok && |r.leftover| < |input|
  {
    var crlf := FindCrlf(input);
    if q.state == Down || crlf.None? then Round(q, input, true, false) else
    var line, rest := input[..crlf.value], input[crlf.value + 2..];
    if q.state == ParseLineState then
      var (parsed, ok) := ParseLine(q, line);
      if ok then Round(parsed.(state := ParseHeaderState), rest, true, true) else Round(parsed, input, false, false)
    else
      var colon := IndexOf(line, ':');
      if colon < |line| then Round(AddHeader(trim, q, line, colon), rest, true, true)
      else Round(q.(state := Down), rest, true, false)
  }

  function ParseBytes(trim: Trim, q: Request, input: string): Outcome
    decreases |input|
  {
    var r := ParseRound(trim, q, input);
    if r.parsing then ParseBytes(trim, r.request, r.leftover) else Outcome(r.request, r.leftover, r.ok)
  }

  // ---------------------------------------------------------------------------------------------
  // Chunking independence
  // ---------------------------------------------------------------------------------------------

  /** Parsing a rejected request line a second time changes nothing, and rejects it again. */
  lemma ParseLineTwice(q: Request, line: string)
    ensures ParseLine(ParseLine(q, line).0, line) == ParseLine(q, line)
    ensures ParseLine(q, line).0.state == q.state
  {
  }

  /**
    A round that consumes a line of a consumes the same line of a + b. A round that consumes
    nothing can be taken again with b behind it as if it had not been taken.
   */
  lemma RoundStable(trim: Trim, q: Request, a: string, b: string)
    ensures var r := ParseRound(trim, q, a);
            if r.leftover == a then !r.parsing && ParseRound(trim, r.request, a + b) == ParseRound(trim, q, a + b)
            else
              && ParseRound(trim, q, a + b) == r.(leftover := r.leftover + b)
              && (!r.parsing ==> r.request.state == Down && r.ok)
  {
    if FindCrlf(a).Some? {
      FindCrlfStable(a, b);
      var i := FindCrlf(a).value;
      assert (a + b)[..i] == a[..i] && (a + b)[i + 2..] == a[i + 2..] + b;
      ParseLineTwice(q, a[..i]);
    }
  }

  /**
    Bytes a, then b on what a left over, come to the same as a and b at once: every field, the
    unread bytes and the result. The split is arbitrary, inside a CRLF or not.
   */
  lemma {:induction false} ChunkingIndependence(trim: Trim, q: Request, a: string, b: string)
    ensures var first := ParseBytes(trim, q, a);
            ParseBytes(trim, first.request, first.leftover + b) == ParseBytes(trim, q, a + b)
    decreases |a|
  {
    RoundStable(trim, q, a, b);
    var r := ParseRound(trim, q, a);
    if r.parsing {
      ChunkingIndependence(trim, r.request, r.leftover, b);
    }
  }

  /** One call of the parser a chunk, each on what is left over and the new bytes. */
  function Feed(parser: (Request, string) -> Outcome, before: Outcome, chunks: seq<string>): Outcome
    decreases |chunks|
  {
    if chunks == [] then before
    else Feed(parser, parser(before.request, before.leftover + chunks[0]), chunks[1..])
  }

  ghost predicate SplitsAnywhere(parser: (Request, string) -> Outcome) {
    forall q, a, b :: parser(parser(q, a).request, parser(q, a).leftover + b) == parser(q, a + b)
  }

  lemma {:induction false} FeedIsOneCall(
    parser: (Request, string) -> Outcome, q: Request, first: string, chunks: seq<string>)
    requires SplitsAnywhere(parser)
    ensures Feed(parser, parser(q, first), chunks) == parser(q, first + Flatten(chunks))
    decreases |chunks|
  {
    if chunks == [] {
      assert first + Flatten(chunks) == first;
    } else {
      FeedIsOneCall(parser, q, first + chunks[0], chunks[1..]);
      assert first + chunks[0] + Flatten(chunks[1..]) == first + Flatten(chunks);
    }
  }

  /** However the network cuts a request up, the last call leaves what one call on all of it leaves. */
  lemma AnyChunking(trim: Trim, q: Request, first: string, chunks: seq<string>)
    ensures var parser := (r, input) => ParseBytes(trim, r, input);
            Feed(parser, parser(q, first), chunks) == ParseBytes(trim, q, first + Flatten(chunks))
  {
    var parser := (r, input) => ParseBytes(trim, r, input);
    forall r, a, b ensures parser(parser(r, a).request, parser(r, a).leftover + b) == parser(r, a + b) {
      ChunkingIndependence(trim, r, a, b);
    }
    FeedIsOneCall(parser, q, first, chunks);
  }

  // ---------------------------------------------------------------------------------------------
  // The request line (section 3 of RFC 9112)
  // ---------------------------------------------------------------------------------------------

  /** A line is a method token, a target without a blank, and a version. */
  ghost predicate IsRequestLine(line: string, name: string, target: string, proto: string) {
    && line == name + " " + target + " " + proto
    && MethodOf(name) != UnknownMethod && ' ' !in target && VersionOf(proto) != UnknownVersion
  }

  /** MethodToString. */
  function MethodText(m: Method): string {
    match m
    case GET => "GET"
    case HEAD => "HEAD"
    case POST => "POST"
    case PUT => "PUT"
    case DELETE => "DELETE"
    case UnknownMethod => "Unknown"
  }

  /** The five names, each for its own method, and no other; a method is read off what it is printed as. */
  lemma MethodNames(name: string, m: Method)
    ensures MethodText(GET) == "GET" && MethodText(HEAD) == "HEAD" && MethodText(POST) == "POST"
    ensures MethodText(PUT) == "PUT" && MethodText(DELETE) == "DELETE"
    ensures MethodOf(MethodText(m)) == m
    ensures MethodOf(name) == m && m != UnknownMethod ==> name == MethodText(m)
    ensures MethodOf(name) == UnknownMethod <==> name !in {"GET", "HEAD", "POST", "PUT", "DELETE"}
  {
  }

  /** Which protocols are taken for which version: the byte between the digits is not looked at, and of the digits one. */
  lemma VersionIff(proto: string)
    ensures VersionOf(proto) == Http20 <==> |proto| == 8 && proto[..5] == "HTTP/" && proto[5] == '2'
    ensures VersionOf(proto) == Http10 <==> |proto| == 8 && proto[..5] == "HTTP/" && proto[5] != '2' && proto[7] == '0'
    ensures VersionOf(proto) == Http11 <==> |proto| == 8 && proto[..5] == "HTTP/" && proto[5] != '2' && proto[7] == '1'
    ensures VersionOf("HTTP/1.0") == Http10 && VersionOf("HTTP/1.1") == Http11 && VersionOf("HTTP/2.0") == Http20
  {
  }

  /** Three protocols there are not. */
  lemma VersionGap()
    ensures VersionOf("HTTP/7.1") == Http11 && VersionOf("HTTP/3.0") == Http10 && VersionOf("HTTP/2.9") == Http20
  {
    VersionIff("HTTP/7.1");
    VersionIff("HTTP/3.0");
    VersionIff("HTTP/2.9");
  }

  lemma MethodHasNoBlank(name: string)
    requires MethodOf(name) != UnknownMethod
    ensures ' ' !in name
  {
  }

  /** Accepted lines are exactly those of the grammar, and the fields are read off their parts. */
  lemma RequestLineIff(q: Request, line: string)
    ensures ParseLine(q, line).1 <==> exists name, target, proto :: IsRequestLine(line, name, target, proto)
  {
    if name, target, proto :| IsRequestLine(line, name, target, proto) {
      RequestLineFields(q, line, name, target, proto);
    }
    if ParseLine(q, line).1 {
      var name, target, proto := AcceptedLineParts(q, line);
    }
  }

  lemma SplitAround(s: string, i: nat)
    requires i < |s|
    ensures s == s[..i] + [s[i]] + s[i + 1..]
  {
  }

  lemma LineInParts(name: string, target: string, proto: string)
    ensures name + " " + (target + " " + proto) == name + " " + target + " " + proto
  {
  }

  lemma AcceptedLineParts(q: Request, line: string) returns (name: string, target: string, proto: string)
    requires ParseLine(q, line).1
    ensures IsRequestLine(line, name, target, proto)
  {
    var space := IndexOf(line, ' ');
    var rest := line[space + 1..];
    var second := IndexOf(rest, ' ');
    name, target, proto := line[..space], rest[..second], rest[second + 1..];
    SplitAround(line, space);
    SplitAround(rest, second);
    LineInParts(name, target, proto);
  }

  lemma RequestLineFields(q: Request, line: string, name: string, target: string, proto: string)
    requires IsRequestLine(line, name, target, proto)
    ensures var (r, ok) := ParseLine(q, line);
            && ok && r.method_ == MethodOf(name) && r.version == VersionOf(proto)
            && MethodText(r.method_) == name
            && (r.version == Http20 <==> proto[5] == '2')
            && (r.version == Http10 <==> proto[5] != '2' && proto[7] == '0')
            && (r.version == Http11 <==> proto[5] != '2' && proto[7] == '1')
            && r.url + (if '?' in target then r.query else "") == target && '?' !in r.url
            && ('?' !in target ==> r.query == q.query)
            && r.state == q.state && r.headers == q.headers
  {
    MethodHasNoBlank(name);
    MethodNames(name, MethodOf(name));
    LineInParts(name, target, proto);
    PartsAround(name, ' ', target + " " + proto);
    PartsAround(target, ' ', proto);
    var question := IndexOf(target, '?');
    assert target == target[..question] + target[question..];
    if question == |target| {
      assert target[..question] == target;
    }
  }

  lemma PartsAround(before: string, c: char, after: string)
    requires c !in before
    ensures var s := before + [c] + after;
            IndexOf(s, c) == |before| && s[..|before|] == before && s[|before| + 1..] == after
  {
    IndexOfFirst(before, c, after);
  }

  // ---------------------------------------------------------------------------------------------
  // Trimming
  // ---------------------------------------------------------------------------------------------

  /** Probing one byte further right stops one byte further left, unless it ran into the lower end. */
  lemma {:induction false} TrimShift(line: string, low: nat, end: nat)
    requires low < end <= |line|
    ensures TrimEnd(AtEnd, line, low, end - 1)
            == (var t := TrimEnd(BeforeEnd, line, low, end); if t == low then low else t - 1)
    decreases end
  {
    if low < end - 1 && IsSpace(line[end - 1]) {
      TrimShift(line, low, end - 1);
    }
  }

  /** isspace: blank, tab, new line, vertical tab, form feed and carriage return. */
  lemma SpaceIs(c: char)
    ensures IsSpace(c) <==> c in {' ', '\t', '\n', '\U{000B}', '\U{000C}', '\r'}
  {
    if IsSpace(c) {
      assert c as int == 32 || c as int == 9 || c as int == 10 || c as int == 11 || c as int == 12 || c as int == 13;
    }
  }

  /**
    With the intended test a value is what is behind the colon without the white space on both sides:
    nothing but white space is taken away, and none is left.
   */
  lemma ValueIsTrimmed(line: string, colon: nat) returns (i: nat, j: nat)
    requires colon < |line|
    ensures colon < i <= j <= |line| && IsTrimmed(line, colon + 1, i, j) && ValueOf(BeforeEnd, line, colon) == line[i..j]
  {
    i := SkipSpaces(line, colon + 1);
    j := TrimEnd(BeforeEnd, line, i, |line|);
    TrimStops(line, i, |line|);
    assert i < j ==> !IsSpace(line[i]);
  }

  /** From i to j is all from `from` on that is not white space at one of the ends. */
  ghost predicate IsTrimmed(line: string, from: nat, i: nat, j: nat)
    requires from <= i <= j <= |line|
  {
    && (forall k :: from <= k < i ==> IsSpace(line[k])) && (forall k :: j <= k < |line| ==> IsSpace(line[k]))
    && (i < j ==> !IsSpace(line[i]) && !IsSpace(line[j - 1]))
  }

  lemma {:induction false} TrimStops(line: string, low: nat, end: nat)
    requires low <= end <= |line|
    ensures var t := TrimEnd(BeforeEnd, line, low, end);
            && (forall k :: t <= k < end ==> IsSpace(line[k]))
            && (low < t ==> !IsSpace(line[t - 1]))
    decreases end
  {
    if low < end && IsSpace(line[end - 1]) {
      TrimStops(line, low, end - 1);
    }
  }

  lemma PrefixOfSlice(s: string, low: nat, mid: nat, high: nat)
    requires low <= mid <= high <= |s|
    ensures s[low..mid] == s[low..high][..mid - low]
  {
  }

  /** As written, a header value is the trimmed value without its last byte. */
  lemma TrimGap(line: string, colon: nat)
    requires colon < |line|
    ensures var full := ValueOf(BeforeEnd, line, colon);
            ValueOf(AtEnd, line, colon) == if full == "" then "" else full[..|full| - 1]
  {
    var low := SkipSpaces(line, colon + 1);
    var full := TrimEnd(BeforeEnd, line, low, |line|);
    var cut := TrimEnd(AtEnd, line, low, |line|);
    if low < |line| {
      TrimShift(line, low, |line|);
      assert cut == TrimEnd(AtEnd, line, low, |line| - 1);
      if low < full {
        PrefixOfSlice(line, low, cut, full);
      }
    }
  }

  // ---------------------------------------------------------------------------------------------
  // The parser over a Buffer
  // ---------------------------------------------------------------------------------------------

  class HttpRequest {
    const trim: Trim
    var fields: Request
    var receiveTime: int

    constructor (trim: Trim)
      ensures fields == Request(UnknownMethod, Http11, "", "", ParseLineState, map[]) && receiveTime == 0 && this.trim == trim
    {
      this.trim := trim;
      fields := NEW_REQUEST;
      receiveTime := 0;
    }

    method Parse(buffer: Buffer, now: int) returns (ok: bool)
      requires buffer.Valid()
      modifies this, buffer
      ensures buffer.Valid() && buffer.data == old(buffer.data)
      ensures Outcome(fields, buffer.Readable(), ok) == ParseBytes(trim, old(fields), old(buffer.Readable()))
      ensures receiveTime == if LeavesLine(old(fields), fields) then now else old(receiveTime)
    {
      ok := true;
      var parsing := true;
      ghost var goal := ParseBytes(trim, fields, buffer.Readable());
      while parsing
        invariant buffer.Valid() && buffer.data == old(buffer.data)
        invariant parsing ==> ok && ParseBytes(trim, fields, buffer.Readable()) == goal
        invariant !parsing ==> Outcome(fields, buffer.Readable(), ok) == goal
        invariant fields.state == ParseLineState ==> old(fields).state == ParseLineState
        invariant receiveTime == if LeavesLine(old(fields), fields) then now else old(receiveTime)
        decreases parsing, |buffer.Readable()|
      {
        ok, parsing := ParseOnce(buffer, now);
      }
    }

    static predicate LeavesLine(before: Request, after: Request) {
      before.state == ParseLineState && after.state != ParseLineState
    }

    /** The body of the loop in parse. */
    method ParseOnce(buffer: Buffer, now: int) returns (ok: bool, parsing: bool)
      requires buffer.Valid()
      modifies this, buffer
      ensures buffer.Valid() && buffer.data == old(buffer.data)
      ensures Round(fields, buffer.Readable(), ok, parsing) == ParseRound(trim, old(fields), old(buffer.Readable()))
      ensures receiveTime == if LeavesLine(old(fields), fields) then now else old(receiveTime)
      ensures fields.state == ParseLineState ==> old(fields).state == ParseLineState
    {
      ok, parsing := true, false;
      var crlf := buffer.FindCRLF();
      if fields.state != Down && crlf.Some? {
        var line := buffer.Peek(crlf.value);
        if fields.state == ParseLineState {
          ok := TakeRequestLine(line, now);
          parsing := ok;
        } else {
          parsing := TakeFieldLine(line);
        }
        if ok {
          buffer.Retrieve(crlf.value + 2);
        }
      }
    }

    method TakeRequestLine(line: string, now: int) returns (ok: bool)
      requires fields.state == ParseLineState
      modifies this
      ensures var (parsed, accepted) := ParseLine(old(fields), line);
              ok == accepted && fields == if ok then parsed.(state := ParseHeaderState) else parsed
      ensures fields.state == ParseLineState <==> !ok
      ensures receiveTime == if ok then now else old(receiveTime)
    {
      ParseLineTwice(fields, line);
      ok := ScanRequestLine(line);
      if ok {
        receiveTime := now;
        fields := fields.(state := ParseHeaderState);
      }
    }

    /** std::find from `start` to `end`. */
    static method Find(line: string, start: nat, end: nat, c: char) returns (i: nat)
      requires start <= end <= |line|
      ensures start <= i <= end && i - start == IndexOf(line[start..end], c)
    {
      i := start;
      while i < end && line[i] != c
        invariant start <= i <= end && IndexOf(line[start..end], c) == i - start + IndexOf(line[i..end], c)
      {
        assert line[i..end][1..] == line[i + 1..end];
        i := i + 1;
      }
    }

    /** ParseLine as the code has it: each part is stored as it is found, also when a later one is wrong. */
    method ScanRequestLine(line: string) returns (success: bool)
      modifies this`fields
      ensures (fields, success) == ParseLine(old(fields), line)
    {
      success := false;
      var space := Find(line, 0, |line|, ' ');
      assert line[0..|line|] == line;
      if space != |line| {
        fields := fields.(method_ := MethodOf(line[..space]));
        if fields.method_ == UnknownMethod {
          return;
        }
        success := ScanTarget(line, space + 1);
      }
    }

    static lemma SliceOfSlice(line: string, a: nat, b: nat, c: nat)
      requires a <= b <= c <= |line|
      ensures line[a..c][..b - a] == line[a..b] && line[a..c][b - a..] == line[b..c]
    {
    }

    static lemma TargetParts(q: Request, line: string, start: nat, space: nat)
      requires start <= space <= |line| && space - start == IndexOf(line[start..|line|], ' ')
      ensures ParseTarget(q, line[start..]) ==
              if space == |line| then (q, false)
              else
                var located, version := Locate(q, line[start..space]), VersionOf(line[space + 1..]);
                if version == UnknownVersion then (located, false) else (located.(version := version), true)
    {
      SuffixParts(line, start, space);
    }

    static lemma SuffixParts(line: string, start: nat, at: nat)
      requires start <= at <= |line|
      ensures line[start..|line|] == line[start..] && line[start..][..at - start] == line[start..at]
      ensures at < |line| ==> line[start..][at - start + 1..] == line[at + 1..]
    {
    }

    /** What follows the method. */
    method ScanTarget(line: string, start: nat) returns (success: bool)
      requires start <= |line|
      modifies this`fields
      ensures (fields, success) == ParseTarget(old(fields), line[start..])
    {
      success := false;
      var space := Find(line, start, |line|, ' ');
      TargetParts(fields, line, start, space);
      if space != |line| {
        ScanLocation(line, start, space);
        success := ScanVersion(line, space + 1);
      }
    }

    method ScanLocation(line: string, start: nat, end: nat)
      requires start <= end <= |line|
      modifies this`fields
      ensures fields == Locate(old(fields), line[start..end])
    {
      var question := Find(line, start, end, '?');
      SliceOfSlice(line, start, question, end);
      if question != end {
        fields := fields.(url := line[start..question], query := line[question..end]);
      } else {
        fields := fields.(url := line[start..end]);
      }
    }

    method ScanVersion(line: string, start: nat) returns (success: bool)
      requires start <= |line|
      modifies this`fields
      ensures var v := VersionOf(line[start..]);
              success == (v != UnknownVersion) && fields == if success then old(fields).(version := v) else old(fields)
    {
      var end := |line|;
      success := end - start == 8 && line[start..end - 3] == "HTTP/";
      assert success ==> line[start..][..5] == line[start..end - 3];
      if success {
        if line[end - 3] == '2' {
          fields := fields.(version := Http20);
        } else if line[end - 1] == '0' {
          fields := fields.(version := Http10);
        } else if line[end - 1] == '1' {
          fields := fields.(version := Http11);
        } else {
          success := false;
        }
      }
    }

    method TakeFieldLine(line: string) returns (parsing: bool)
      modifies this`fields
      ensures var colon := IndexOf(line, ':');
              && (parsing <==> colon < |line|)
              && fields == if parsing then AddHeader(trim, old(fields), line, colon) else old(fields).(state := Down)
    {
      var colon := Find(line, 0, |line|, ':');
      assert line[0..|line|] == line;
      parsing := colon < |line|;
      if parsing {
        StoreHeader(line, colon);
      } else {
        fields := fields.(state := Down);
      }
    }

    /** AddHeader: the two loops find the value that ValueOf says. */
    method StoreHeader(line: string, colon: nat)
      requires colon < |line|
      modifies this`fields
      ensures fields == AddHeader(trim, old(fields), line, colon)
    {
      var low := colon + 1;
      while low < |line| && IsSpace(line[low])
        invariant colon < low <= |line| && SkipSpaces(line, colon + 1) == SkipSpaces(line, low)
      {
        low := low + 1;
      }
      var end := |line|;
      while end > low && IsSpace(TrimProbe(trim, line, end))
        invariant low <= end <= |line| && TrimEnd(trim, line, low, |line|) == TrimEnd(trim, line, low, end)
      {
        end := end - 1;
      }
      fields := fields.(headers := fields.headers[line[..colon] := line[low..end]]);
    }
  }
}
