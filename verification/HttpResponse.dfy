/**
  The response printer (include/net/http/HttpResponse.h, src/net/http/HttpResponse.cpp) and the
  round trip of its header block through the request parser. The headers are printed in the order
  of an unordered map, so every order is allowed for.
 */
module HttpResponses {
  import opened Wrappers
  import opened Buffers
  import opened Decimals
  import opened HttpRequests
  import opened Sequences

  const CONTENT_LENGTH := "Content-Length"

  // ---------------------------------------------------------------------------------------------
  // The printed text
  // ---------------------------------------------------------------------------------------------

  function VersionText(v: Version): string {
    if v == Http10 then "HTTP/1.0" else if v == Http11 then "HTTP/1.1" else "HTTP/2.0"
  }

  function StatusLine(v: Version, code: int, message: string): string {
    VersionText(v) + " " + (if code < 0 then "-" + Decimal(-code) else Decimal(code)) + " " + message + "\r\n"
  }

  function FieldLine(k: string, v: string): string {
    k + ": " + v + "\r\n"
  }

  function HeaderLines(order: seq<string>, headers: map<string, string>): string
    requires forall k :: k in order ==> k in headers
  {
    if order == [] then "" else FieldLine(order[0], headers[order[0]]) + HeaderLines(order[1..], headers)
  }

  /** An order in which the map may be walked: every key once. */
  ghost predicate IsOrder(order: seq<string>, headers: map<string, string>) {
    && (forall i, j :: 0 <= i < j < |order| ==> order[i] != order[j])
    && (forall k :: k in order <==> k in headers)
  }

  /** The part of an order that has been walked, and the keys that are left. */
  ghost predicate OrderSoFar(order: seq<string>, left: set<string>, headers: map<string, string>) {
    && (forall i, j :: 0 <= i < j < |order| ==> order[i] != order[j])
    && (forall k :: k in headers <==> k in order || k in left)
    && (forall k :: k in order ==> k !in left)
  }

  lemma OrderGrows(order: seq<string>, left: set<string>, k: string, headers: map<string, string>)
    requires OrderSoFar(order, left, headers) && k in left
    ensures OrderSoFar(order + [k], left - {k}, headers)
  {
  }

  /** Where the buffer stands after one more append, and after the four of a field line. */
  function Put(before: Standing, growth: Growth, text: string): Standing {
    Next(before, growth, PutIn(text))
  }

  function FieldPut(before: Standing, growth: Growth, k: string, v: string): Standing {
    Put(Put(Put(Put(before, growth, k), growth, ": "), growth, v), growth, "\r\n")
  }

  function HeadersPut(before: Standing, growth: Growth, order: seq<string>, headers: map<string, string>): Standing
    requires forall k :: k in order ==> k in headers
  {
    if order == [] then before
    else
      var k := order[|order| - 1];
      FieldPut(HeadersPut(before, growth, order[..|order| - 1], headers), growth, k, headers[k])
  }

  /** An empty body is not appended. */
  function EndPut(before: Standing, growth: Growth, body: string): Standing {
    var ended := Put(before, growth, "\r\n");
    if body == "" then ended else Put(ended, growth, body)
  }

  function ResponsePut(before: Standing, growth: Growth, status: string, order: seq<string>, headers: map<string, string>,
                       body: string): Standing
    requires forall k :: k in order ==> k in headers
  {
    EndPut(HeadersPut(Put(before, growth, status), growth, order, headers), growth, body)
  }

  lemma HeadersPutSnoc(before: Standing, growth: Growth, order: seq<string>, k: string, headers: map<string, string>)
    requires k in headers && forall x :: x in order ==> x in headers
    ensures HeadersPut(before, growth, order + [k], headers)
            == FieldPut(HeadersPut(before, growth, order, headers), growth, k, headers[k])
  {
    assert (order + [k])[..|order|] == order;
  }

  /** What has run out of bounds stays so, whatever is left to print. */
  lemma {:induction false} Lost(before: Standing, growth: Growth, order: seq<string>, rest: seq<string>, headers: map<string, string>)
    requires forall k :: k in order + rest ==> k in headers
    requires HeadersPut(before, growth, order, headers).None?
    ensures HeadersPut(before, growth, order + rest, headers).None?
    decreases |rest|
  {
    if rest == [] {
      assert order + rest == order;
    } else {
      var front := rest[..|rest| - 1];
      assert order + rest == order + front + [rest[|rest| - 1]];
      Lost(before, growth, order, front, headers);
      HeadersPutSnoc(before, growth, order + front, rest[|rest| - 1], headers);
    }
  }

  /** Some order of the names that are left. */
  lemma RestOfOrder(order: seq<string>, left: set<string>, headers: map<string, string>) returns (rest: seq<string>)
    requires OrderSoFar(order, left, headers)
    ensures IsOrder(order + rest, headers)
    decreases |left|
  {
    rest := [];
    if left == {} {
      assert order + rest == order;
    } else {
      var k :| k in left;
      OrderGrows(order, left, k, headers);
      var more := RestOfOrder(order + [k], left - {k}, headers);
      rest := [k] + more;
      assert order + rest == order + [k] + more;
    }
  }

  /** What has been walked is the whole order; when it ran out of bounds, any order that goes on like it does too. */
  lemma WholeOrder(before: Standing, growth: Growth, order: seq<string>, left: set<string>, headers: map<string, string>)
    returns (all: seq<string>)
    requires OrderSoFar(order, left, headers)
    requires left == {} || HeadersPut(before, growth, order, headers).None?
    ensures IsOrder(all, headers)
    ensures if HeadersPut(before, growth, order, headers).Some? then all == order else HeadersPut(before, growth, all, headers).None?
  {
    all := order;
    if left != {} {
      var rest := RestOfOrder(order, left, headers);
      all := order + rest;
      Lost(before, growth, order, rest, headers);
    }
  }

  /** Each version is printed by its own name, which the parser takes for it. */
  lemma VersionNames(v: Version)
    ensures VersionText(Http10) == "HTTP/1.0" && VersionText(Http11) == "HTTP/1.1" && VersionText(Http20) == "HTTP/2.0"
    ensures v != UnknownVersion ==> VersionOf(VersionText(v)) == v
    ensures |VersionText(v)| == 8
  {
    VersionIff(VersionText(v));
  }

  /** What is printed as a request line is read back: method, version, and the target in its two parts. */
  lemma RequestLineRoundTrip(q: Request, m: Method, target: string, v: Version)
    requires m != UnknownMethod && v != UnknownVersion && ' ' !in target
    ensures var (r, ok) := ParseLine(q, MethodText(m) + " " + target + " " + VersionText(v));
            && ok && r.method_ == m && r.version == v
            && r.url + (if '?' in target then r.query else "") == target && '?' !in r.url
            && ('?' !in target ==> r.query == q.query) && r.state == q.state && r.headers == q.headers
  {
    MethodNames(MethodText(m), m);
    VersionNames(v);
    var line := MethodText(m) + " " + target + " " + VersionText(v);
    RequestLineFields(q, line, MethodText(m), target, VersionText(v));
  }

  lemma ThreeWords(a: string, b: string, rest: string)
    requires |a| == 8
    ensures var s := a + " " + b + " " + rest;
            s[..8] == a && s[8] == ' ' && s[9..9 + |b|] == b && s[9 + |b|] == ' ' && s[10 + |b|..] == rest
  {
  }

  /** The status line has the version first, then the code, which reads back as printed, then the message. */
  lemma StatusLineParts(v: Version, code: int, message: string)
    ensures var s := StatusLine(v, code, message);
            var digits := Decimal(if code < 0 then -code else code);
            var k := |digits| + if code < 0 then 1 else 0;
            && |s| == 12 + k + |message|
            && s[..8] == (if v == Http10 then "HTTP/1.0" else if v == Http11 then "HTTP/1.1" else "HTTP/2.0")
            && s[8] == ' ' && s[9..9 + k] == (if code < 0 then "-" else "") + digits && s[9 + k] == ' '
            && AllDigits(digits) && (if code < 0 then -(Number(digits) as int) else Number(digits)) == code
            && s[10 + k..] == message + "\r\n"
  {
    VersionNames(v);
    DecimalOk(if code < 0 then -code else code);
    var a, b := VersionText(v), if code < 0 then "-" + Decimal(-code) else Decimal(code);
    ThreeWords(a, b, message + "\r\n");
    Reassociate(a + " " + b + " ", message, "\r\n");
    assert code >= 0 ==> "" + Decimal(code) == Decimal(code);
  }

  lemma {:induction false} HeaderLinesSnoc(order: seq<string>, k: string, headers: map<string, string>)
    requires k in headers && forall x :: x in order ==> x in headers
    ensures HeaderLines(order + [k], headers) == HeaderLines(order, headers) + FieldLine(k, headers[k])
    decreases |order|
  {
    var all := order + [k];
    if order == [] {
      assert all[1..] == [] && all[0] == k;
    } else {
      assert all[0] == order[0] && all[1..] == order[1..] + [k];
      HeaderLinesSnoc(order[1..], k, headers);
    }
  }

  // ---------------------------------------------------------------------------------------------
  // The round trip (field lines: section 5 of RFC 9112)
  // ---------------------------------------------------------------------------------------------

  predicate NameOk(k: string) {
    ':' !in k && '\r' !in k && '\n' !in k
  }

  predicate ValueOk(v: string) {
    && '\r' !in v && '\n' !in v
    && (v != "" ==> !IsSpace(v[0]) && !IsSpace(v[|v| - 1]))
  }

  ghost predicate HeadersOk(headers: map<string, string>) {
    forall k :: k in headers ==> NameOk(k) && ValueOk(headers[k])
  }

  /** What the parser stores for a printed value. */
  function Kept(trim: Trim, v: string): string {
    if trim == BeforeEnd || v == "" then v else v[..|v| - 1]
  }

  function Recovered(trim: Trim, headers: map<string, string>): map<string, string> {
    map k | k in headers :: Kept(trim, headers[k])
  }

  lemma ValueOfPrinted(k: string, v: string)
    requires ValueOk(v)
    ensures var line := k + ": " + v; ValueOf(BeforeEnd, line, |k|) == v
  {
    var line := k + ": " + v;
    assert line[|k| + 1] == ' ';
    var low := |k| + 2;
    assert line[low..] == v;
    assert SkipSpaces(line, |k| + 1) == SkipSpaces(line, low);
  }

  lemma LineInFront(line: string, rest: string)
    requires '\r' !in line
    ensures var input := line + "\r\n" + rest;
            FindCrlf(input) == Some(|line|) && input[..|line|] == line && input[|line| + 2..] == rest
  {
    var input := line + "\r\n" + rest;
    assert forall j :: 0 <= j < |line| ==> input[j] == line[j];
    FindCrlfIs(input, |line|);
  }

  /** One printed field line in front of any bytes is consumed by one round of the parser. */
  lemma PrintedLineRound(trim: Trim, q: Request, k: string, v: string, rest: string)
    requires q.state == ParseHeaderState && NameOk(k) && ValueOk(v)
    ensures ParseRound(trim, q, FieldLine(k, v) + rest)
            == Round(q.(headers := q.headers[k := Kept(trim, v)]), rest, true, true)
  {
    var line := k + ": " + v;
    assert FieldLine(k, v) + rest == line + "\r\n" + rest;
    LineInFront(line, rest);
    ColonInLine(k, v);
    ValueOfPrinted(k, v);
    TrimGap(line, |k|);
  }

  lemma ColonInLine(k: string, v: string)
    requires ':' !in k
    ensures var line := k + ": " + v; IndexOf(line, ':') == |k| && line[..|k|] == k
  {
    IndexOfFirst(k, ':', " " + v);
    assert k + ": " + v == k + [':'] + (" " + v);
  }

  lemma BlankLineRound(trim: Trim, q: Request, body: string)
    requires q.state == ParseHeaderState
    ensures ParseRound(trim, q, "\r\n" + body) == Round(q.(state := Down), body, true, false)
  {
  }

  function Storing(trim: Trim, into: map<string, string>, order: seq<string>, headers: map<string, string>): map<string, string>
    requires forall k :: k in order ==> k in headers
    decreases |order|
  {
    if order == [] then into
    else Storing(trim, into[order[0] := Kept(trim, headers[order[0]])], order[1..], headers)
  }

  lemma {:induction false} ParsePrinted(trim: Trim, q: Request, order: seq<string>, headers: map<string, string>, body: string)
    requires q.state == ParseHeaderState && HeadersOk(headers)
    requires forall k :: k in order ==> k in headers
    ensures ParseBytes(trim, q, HeaderLines(order, headers) + "\r\n" + body)
            == Outcome(q.(headers := Storing(trim, q.headers, order, headers), state := Down), body, true)
    decreases |order|
  {
    if order == [] {
      BlankLineRound(trim, q, body);
      assert HeaderLines(order, headers) + "\r\n" + body == "\r\n" + body;
    } else {
      var k, v := order[0], headers[order[0]];
      var rest := HeaderLines(order[1..], headers) + "\r\n" + body;
      assert HeaderLines(order, headers) + "\r\n" + body == FieldLine(k, v) + rest;
      PrintedLineRound(trim, q, k, v, rest);
      ParsePrinted(trim, q.(headers := q.headers[k := Kept(trim, v)]), order[1..], headers, body);
    }
  }

  function KeptOf(trim: Trim, order: seq<string>, headers: map<string, string>): map<string, string> {
    map k | k in headers && k in order :: Kept(trim, headers[k])
  }

  lemma KeptOfFirst(trim: Trim, into: map<string, string>, order: seq<string>, headers: map<string, string>)
    requires order != [] && order[0] in headers
    ensures into[order[0] := Kept(trim, headers[order[0]])] + KeptOf(trim, order[1..], headers) == into + KeptOf(trim, order, headers)
  {
  }

  lemma {:induction false} StoringAll(trim: Trim, into: map<string, string>, order: seq<string>, headers: map<string, string>)
    requires forall k :: k in order ==> k in headers
    ensures Storing(trim, into, order, headers) == into + KeptOf(trim, order, headers)
    decreases |order|
  {
    if order == [] {
      assert KeptOf(trim, order, headers) == map[];
    } else {
      StoringAll(trim, into[order[0] := Kept(trim, headers[order[0]])], order[1..], headers);
      KeptOfFirst(trim, into, order, headers);
    }
  }

  /**
    What the printer wrote after the status line, read by the header loop of a fresh request:
    every name with what Kept leaves of its value, whatever the order; the parser is done, and
    exactly the body is left over.
   */
  lemma HeaderBlockParsed(trim: Trim, q: Request, order: seq<string>, headers: map<string, string>, body: string)
    requires q.state == ParseHeaderState && q.headers == map[]
    requires IsOrder(order, headers) && HeadersOk(headers)
    ensures ParseBytes(trim, q, HeaderLines(order, headers) + "\r\n" + body)
            == Outcome(q.(headers := Recovered(trim, headers), state := Down), body, true)
  {
    ParsePrinted(trim, q, order, headers, body);
    StoringAll(trim, map[], order, headers);
    assert KeptOf(trim, order, headers) == Recovered(trim, headers);
    assert Storing(trim, map[], order, headers) == Recovered(trim, headers);
  }

  /** Past the request line nothing is refused. */
  lemma {:induction false} HeadersNeverRefused(trim: Trim, q: Request, input: string)
    requires q.state != ParseLineState
    ensures ParseBytes(trim, q, input).ok
    decreases |input|
  {
    var r := ParseRound(trim, q, input);
    if r.parsing {
      HeadersNeverRefused(trim, r.request, r.leftover);
    }
  }

  /**
    The parser refuses exactly a first line that is complete and no request line, and then leaves it
    where it is; a line that is not complete it leaves too, and waits.
   */
  lemma RefusesIff(trim: Trim, q: Request, input: string)
    ensures var r, crlf := ParseBytes(trim, q, input), FindCrlf(input);
            && (!r.ok <==> q.state == ParseLineState && crlf.Some?
                           && !exists name, target, proto :: IsRequestLine(input[..crlf.value], name, target, proto))
            && (!r.ok ==> r.leftover == input && r.request.state == ParseLineState)
            && (crlf.None? ==> r == Outcome(q, input, true))
            && (q.state == Down ==> r == Outcome(q, input, true))
  {
    var round := ParseRound(trim, q, input);
    if q.state == ParseLineState && FindCrlf(input).Some? {
      RequestLineIff(q, input[..FindCrlf(input).value]);
      ParseLineTwice(q, input[..FindCrlf(input).value]);
    }
    if round.parsing {
      HeadersNeverRefused(trim, round.request, round.leftover);
    }
  }

  /** A request as a client prints it: request line, field lines in some order, blank line, body. */
  function RequestText(m: Method, target: string, v: Version, order: seq<string>, headers: map<string, string>, body: string): string
    requires forall k :: k in order ==> k in headers
  {
    MethodText(m) + " " + target + " " + VersionText(v) + "\r\n" + (HeaderLines(order, headers) + "\r\n" + body)
  }

  /**
    A whole request, read by a new parser in one call or in any chunks: it ends in kdown with the
    method, version, target and headers that were printed, less what the trimming takes off a value,
    and with exactly the body left over.
   */
  lemma RequestRoundTrip(trim: Trim, m: Method, target: string, v: Version, order: seq<string>, headers: map<string, string>, body: string)
    requires m != UnknownMethod && v != UnknownVersion && ' ' !in target && '\r' !in target
    requires IsOrder(order, headers) && HeadersOk(headers)
    ensures var r := ParseBytes(trim, NEW_REQUEST, RequestText(m, target, v, order, headers, body));
            && r.ok && r.request.state == Down && r.leftover == body
            && r.request.method_ == m && r.request.version == v && r.request.url + r.request.query == target
            && ('?' in target <==> r.request.query != "") && '?' !in r.request.url
            && r.request.headers == Recovered(trim, headers)
  {
    var line, rest := MethodText(m) + " " + target + " " + VersionText(v), HeaderLines(order, headers) + "\r\n" + body;
    RequestLineRoundTrip(NEW_REQUEST, m, target, v);
    NoReturn(m, target, v);
    LineInFront(line, rest);
    var q := ParseLine(NEW_REQUEST, line).0.(state := ParseHeaderState);
    assert ParseRound(trim, NEW_REQUEST, line + "\r\n" + rest) == Round(q, rest, true, true);
    HeaderBlockParsed(trim, q, order, headers, body);
  }

  lemma NoReturn(m: Method, target: string, v: Version)
    requires m != UnknownMethod && v != UnknownVersion && '\r' !in target
    ensures '\r' !in MethodText(m) + " " + target + " " + VersionText(v)
  {
    VersionNames(v);
  }

  /** The header map itself comes back exactly when the trimming is the intended one or no value has a byte to lose. */
  lemma RoundTripIff(trim: Trim, headers: map<string, string>)
    ensures Recovered(trim, headers) == headers <==> trim == BeforeEnd || forall k :: k in headers ==> headers[k] == ""
  {
  }

  function WithLength(headers: map<string, string>, body: string): map<string, string> {
    headers[CONTENT_LENGTH := Decimal(|body|)]
  }

  lemma DecimalOk(n: nat)
    ensures ValueOk(Decimal(n)) && Decimal(n) != "" && AllDigits(Decimal(n)) && Number(Decimal(n)) == n
  {
    DecimalRoundTrip(n);
    assert forall i :: 0 <= i < |Decimal(n)| ==> Decimal(n)[i] != '\r' && Decimal(n)[i] != '\n';
  }

  lemma ContentLengthNameOk()
    ensures NameOk(CONTENT_LENGTH)
  {
  }

  lemma WithLengthOk(given: map<string, string>, body: string)
    requires HeadersOk(given)
    ensures HeadersOk(WithLength(given, body))
    ensures var length := WithLength(given, body)[CONTENT_LENGTH];
            length != "" && AllDigits(length) && Number(length) == |body|
  {
    DecimalOk(|body|);
    ContentLengthNameOk();
    forall k | k in WithLength(given, body) ensures NameOk(k) && ValueOk(WithLength(given, body)[k]) {
      if k != CONTENT_LENGTH {
        assert k in given;
      }
    }
  }

  /** What a parse of a printed response must come to. */
  ghost predicate GoodOutcome(trim: Trim, parsed: Outcome, headers: map<string, string>, body: string) {
    && parsed.ok && parsed.request.state == Down && parsed.leftover == body
    && parsed.request.headers == Recovered(trim, headers)
    && (parsed.request.headers == headers <==> trim == BeforeEnd)
    && (trim == BeforeEnd ==>
          && CONTENT_LENGTH in parsed.request.headers
          && AllDigits(parsed.request.headers[CONTENT_LENGTH])
          && Number(parsed.request.headers[CONTENT_LENGTH]) == |parsed.leftover|)
  }

  lemma GoodWhenRecovered(trim: Trim, q: Request, given: map<string, string>, body: string)
    requires HeadersOk(given)
    ensures var headers := WithLength(given, body);
            GoodOutcome(trim, Outcome(q.(headers := Recovered(trim, headers), state := Down), body, true), headers, body)
  {
    WithLengthOk(given, body);
    RoundTripIff(trim, WithLength(given, body));
  }

  /**
    The block as `response` prints it, Content-Length included. With the intended trimming the map
    comes back and its Content-Length is the length of what is left over. As written the map never
    comes back: Content-Length always has a digit to lose.
   */
  lemma ResponseRoundTrip(trim: Trim, q: Request, order: seq<string>, given: map<string, string>, body: string)
    requires q.state == ParseHeaderState && q.headers == map[] && HeadersOk(given)
    requires IsOrder(order, WithLength(given, body))
    ensures var headers := WithLength(given, body);
            GoodOutcome(trim, ParseBytes(trim, q, HeaderLines(order, headers) + "\r\n" + body), headers, body)
    ensures trim == BeforeEnd ==>
              ParseBytes(trim, q, HeaderLines(order, WithLength(given, body)) + "\r\n" + body).request.headers
              == given["Content-Length" := Decimal(|body|)]
  {
    WithLengthOk(given, body);
    HeaderBlockParsed(trim, q, order, WithLength(given, body), body);
    GoodWhenRecovered(trim, q, given, body);
  }

  // ---------------------------------------------------------------------------------------------
  // The printer
  // ---------------------------------------------------------------------------------------------

  class HttpResponse {
    var version: Version
    var stateCode: int
    var stateMessage: string
    var headers: map<string, string>
    var body: string

    constructor ()
      ensures version == Http11 && stateCode == 0 && stateMessage == "" && body == ""
      ensures headers == map["Connection" := "Keep-Alive"]
    {
      version, stateCode, stateMessage, body := Http11, 0, "", "";
      headers := map["Connection" := "Keep-Alive"];
    }

    method SetHeader(k: string, v: string)
      modifies this`headers
      ensures headers == old(headers)[k := v]
    {
      headers := headers[k := v];
    }

    /** Prints into `output`; false exactly when an append runs out of bounds, see Buffer.Append. */
    method Response(output: Buffer) returns (inBounds: bool, ghost order: seq<string>)
      requires output.Valid()
      modifies this`headers, output, output.data
      ensures output.data == old(output.data) || fresh(output.data)
      ensures headers == old(headers)["Content-Length" := Decimal(|body|)] && IsOrder(order, headers)
      ensures inBounds <==>
        ResponsePut(Some(old(output.Shape())), output.growth, StatusLine(version, stateCode, stateMessage), order, headers, body).Some?
      ensures output.growth == Intended ==> inBounds
      ensures inBounds ==> output.Valid()
      ensures inBounds ==>
        output.Readable() == old(output.Readable()) + StatusLine(version, stateCode, stateMessage)
                             + HeaderLines(order, headers) + "\r\n" + body
    {
      inBounds, order := AppendHead(output);
      if inBounds {
        Reassociate(old(output.Readable()) + StatusLine(version, stateCode, stateMessage) + HeaderLines(order, headers), "\r\n", body);
        inBounds := AppendEnd(output);
      }
    }

    /** Up to the last header. */
    method AppendHead(output: Buffer) returns (inBounds: bool, ghost order: seq<string>)
      requires output.Valid()
      modifies this`headers, output, output.data
      ensures output.data == old(output.data) || fresh(output.data)
      ensures headers == WithLength(old(headers), body) && IsOrder(order, headers)
      ensures var put := HeadersPut(Put(Some(old(output.Shape())), output.growth, StatusLine(version, stateCode, stateMessage)),
                                    output.growth, order, headers);
              if inBounds then output.Valid() && Some(output.Shape()) == put else put.None?
      ensures output.growth == Intended ==> inBounds
      ensures inBounds ==>
        output.Readable() == old(output.Readable()) + StatusLine(version, stateCode, stateMessage) + HeaderLines(order, headers)
    {
      inBounds := output.Append(StatusLine(version, stateCode, stateMessage));
      SetHeader(CONTENT_LENGTH, Decimal(|body|));
      if inBounds {
        inBounds, order := AppendHeaders(output);
      } else {
        order := WholeOrder(None, output.growth, [], headers.Keys, headers);
      }
    }

    /** The blank line and the body. */
    method AppendEnd(output: Buffer) returns (inBounds: bool)
      requires output.Valid()
      modifies output, output.data
      ensures output.data == old(output.data) || fresh(output.data)
      ensures inBounds <==> EndPut(Some(old(output.Shape())), output.growth, body).Some?
      ensures output.growth == Intended ==> inBounds
      ensures inBounds ==> output.Valid() && output.Readable() == old(output.Readable()) + ("\r\n" + body)
    {
      ghost var was := output.Readable();
      inBounds := output.Append("\r\n");
      if inBounds && body != "" {
        inBounds := output.Append(body);
        Reassociate(was, "\r\n", body);
      }
    }

    /** The header loop, in whatever order the map is walked. */
    method AppendHeaders(output: Buffer) returns (inBounds: bool, ghost order: seq<string>)
      requires output.Valid()
      modifies output, output.data
      ensures output.data == old(output.data) || fresh(output.data)
      ensures IsOrder(order, headers)
      ensures inBounds <==> HeadersPut(Some(old(output.Shape())), output.growth, order, headers).Some?
      ensures inBounds ==> output.Valid() && Some(output.Shape()) == HeadersPut(Some(old(output.Shape())), output.growth, order, headers)
      ensures output.growth == Intended ==> inBounds
      ensures inBounds ==> output.Readable() == old(output.Readable()) + HeaderLines(order, headers)
    {
      order, inBounds := [], true;
      ghost var was, before := output.Readable(), Some(output.Shape());
      var left := headers.Keys;
      while left != {} && inBounds
        invariant output.data == old(output.data) || fresh(output.data)
        invariant OrderSoFar(order, left, headers)
        invariant output.growth == Intended ==> inBounds
        invariant if inBounds then Printed(output, order, was, before) else HeadersPut(before, output.growth, order, headers).None?
        decreases |left|
      {
        var k :| k in left;
        OrderGrows(order, left, k, headers);
        inBounds := AppendNext(output, k, order, was, before);
        order := order + [k];
        left := left - {k};
      }
      order := WholeOrder(before, output.growth, order, left, headers);
    }

    /** The buffer holds the first headers of an order behind what it held, and stands where they leave it. */
    ghost predicate Printed(output: Buffer, order: seq<string>, was: string, before: Standing)
      requires forall k :: k in order ==> k in headers
      reads this, output, output.data
    {
      && output.Valid() && output.Readable() == was + HeaderLines(order, headers)
      && Some(output.Shape()) == HeadersPut(before, output.growth, order, headers)
    }

    /** One more header. */
    method AppendNext(output: Buffer, k: string, ghost order: seq<string>, ghost was: string, ghost before: Standing)
      returns (inBounds: bool)
      requires k in headers && (forall x :: x in order ==> x in headers) && Printed(output, order, was, before)
      modifies output, output.data
      ensures output.data == old(output.data) || fresh(output.data)
      ensures output.growth == Intended ==> inBounds
      ensures if inBounds then Printed(output, order + [k], was, before)
              else HeadersPut(before, output.growth, order + [k], headers).None?
    {
      HeaderLinesSnoc(order, k, headers);
      HeadersPutSnoc(before, output.growth, order, k, headers);
      Reassociate(was, HeaderLines(order, headers), FieldLine(k, headers[k]));
      inBounds := AppendField(output, k, headers[k]);
    }

    /** The body of the header loop: four appends. */
    static method AppendField(output: Buffer, k: string, v: string) returns (inBounds: bool)
      requires output.Valid()
      modifies output, output.data
      ensures output.data == old(output.data) || fresh(output.data)
      ensures inBounds <==> FieldPut(Some(old(output.Shape())), output.growth, k, v).Some?
      ensures inBounds ==> output.Valid() && Some(output.Shape()) == FieldPut(Some(old(output.Shape())), output.growth, k, v)
      ensures output.growth == Intended ==> inBounds
      ensures inBounds ==> output.Readable() == old(output.Readable()) + FieldLine(k, v)
    {
      ghost var was := output.Readable();
      inBounds := AppendTwo(output, k, ": ");
      if inBounds {
        inBounds := AppendTwo(output, v, "\r\n");
        assert was + (k + ": ") + (v + "\r\n") == was + FieldLine(k, v);
      }
    }

    static method AppendTwo(output: Buffer, first: string, second: string) returns (inBounds: bool)
      requires output.Valid()
      modifies output, output.data
      ensures output.data == old(output.data) || fresh(output.data)
      ensures inBounds <==> Put(Put(Some(old(output.Shape())), output.growth, first), output.growth, second).Some?
      ensures inBounds ==> output.Valid()
      ensures inBounds ==> Some(output.Shape()) == Put(Put(Some(old(output.Shape())), output.growth, first), output.growth, second)
      ensures output.growth == Intended ==> inBounds
      ensures inBounds ==> output.Readable() == old(output.Readable()) + (first + second)
    {
      ghost var was := output.Readable();
      inBounds := output.Append(first);
      if inBounds {
        inBounds := output.Append(second);
        assert was + first + second == was + (first + second);
      }
    }
  }
}
