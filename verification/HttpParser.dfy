/**
 The incremental HTTP request parser of http/http_context.h and the request value it fills
 (http/http_request.h).  `Parse` says what one call does to the parser and to the unread
 bytes; the lemmas say that packet boundaries do not show and that a printed request is
 recovered.
 */
module HttpParser {
  import opened Bytes
  import opened ByteBuffer

  const SPACE: byte := 32
  const COLON: byte := 58
  const QUESTION: byte := 63

  datatype Verb = Invalid | Get | Post | Head | Put | Delete
  datatype Version = Unknown | Http10 | Http11

  datatype Request = Request(verb: Verb, path: bytes, query: bytes, version: Version, headers: map<bytes, bytes>)

  const BLANK := Request(Invalid, [], [], Unknown, map[])

  datatype State = ExpectRequestLine | ExpectHeaders | GotAll

  function VerbName(v: Verb): bytes {
    match v
    case Get => [71, 69, 84]
    case Post => [80, 79, 83, 84]
    case Head => [72, 69, 65, 68]
    case Put => [80, 85, 84]
    case Delete => [68, 69, 76, 69, 84, 69]
    case Invalid => [73, 78, 86, 65, 76, 73, 68]
  }

  function VerbOf(name: bytes): Verb {
    if name == VerbName(Get) then Get
    else if name == VerbName(Post) then Post
    else if name == VerbName(Head) then Head
    else if name == VerbName(Verb.Put) then Verb.Put
    else if name == VerbName(Delete) then Delete
    else Invalid
  }

  /** "HTTP/1.0" and "HTTP/1.1". */
  function VersionName(v: Version): bytes {
    match v
    case Http10 => [72, 84, 84, 80, 47, 49, 46, 48]
    case Http11 => [72, 84, 84, 80, 47, 49, 46, 49]
    case Unknown => []
  }

  /** First position of c in s at or after `from`. */
  function IndexOf(s: bytes, c: byte, from: nat): (r: Option<nat>)
    ensures r.Some? ==> from <= r.value < |s| && s[r.value] == c
    ensures forall j :: from <= j < |s| && (r.None? || j < r.value) ==> s[j] != c
    decreases |s| - from
  {
    if from >= |s| then None
    else if s[from] == c then Some(from)
    else IndexOf(s, c, from + 1)
  }

  function Lower(c: byte): byte {
    if 65 <= c <= 90 then c + 32 else c
  }

  function LowerAll(s: bytes): (r: bytes)
    ensures |r| == |s| && forall i :: 0 <= i < |s| ==> r[i] == Lower(s[i])
  {
    seq(|s|, i requires 0 <= i < |s| => Lower(s[i]))
  }

  /** The outcome of parsing one line: accepted or not, and what the request now holds. */
  datatype Line = Line(ok: bool, request: Request)

  function ParseRequestLine(request: Request, line: bytes): Line {
    match IndexOf(line, SPACE, 0)
    case None => Line(false, request)
    case Some(sp1) =>
      var named := request.(verb := VerbOf(line[..sp1]));
      if named.verb == Invalid then
        Line(false, named)
      else
        match IndexOf(line, SPACE, sp1 + 1)
        case None => Line(false, named)
        case Some(sp2) =>
          Finish(Locate(named, line[sp1 + 1..sp2]), line[sp2 + 1..])
  }

  /** Splits the target at its first question mark. */
  function Locate(request: Request, uri: bytes): Request {
    match IndexOf(uri, QUESTION, 0)
    case None => request.(path := uri)
    case Some(q) => request.(path := uri[..q], query := uri[q + 1..])
  }

  function Finish(request: Request, name: bytes): Line {
    if name == VersionName(Http11) then Line(true, request.(version := Http11))
    else if name == VersionName(Http10) then Line(true, request.(version := Http10))
    else Line(false, request)
  }

  function SkipSpaces(line: bytes, from: nat): (r: nat)
    requires from <= |line|
    ensures from <= r <= |line|
    ensures forall j :: from <= j < r ==> line[j] == SPACE
    ensures r < |line| ==> line[r] != SPACE
    decreases |line| - from
  {
    if from < |line| && line[from] == SPACE then SkipSpaces(line, from + 1) else from
  }

  function AddHeader(request: Request, key: bytes, value: bytes): Request {
    request.(headers := request.headers[LowerAll(key) := value])
  }

  function ParseHeader(request: Request, line: bytes): Line {
    match IndexOf(line, COLON, 0)
    case None => Line(false, request)
    case Some(colon) => Line(true, AddHeader(request, line[..colon], line[SkipSpaces(line, colon + 1)..]))
  }

  datatype Outcome = Outcome(ok: bool, state: State, request: Request)

  /** What one complete line does to the parser. */
  function ParseLine(state: State, request: Request, line: bytes): Outcome {
    if state == ExpectRequestLine then
      var r := ParseRequestLine(request, line);
      Outcome(r.ok, if r.ok then ExpectHeaders else state, r.request)
    else if line == [] then
      Outcome(true, GotAll, request)
    else
      var r := ParseHeader(request, line);
      Outcome(r.ok, state, r.request)
  }

  datatype Parsed = Parsed(ok: bool, state: State, request: Request, rest: bytes)

  /** One call of parse: lines are consumed until one is incomplete, illegal, or the last. */
  function Parse(state: State, request: Request, input: bytes): Parsed
    decreases |input|
  {
    var crlf := FirstCrlf(input);
    if state == GotAll || crlf.None? then
      Parsed(true, state, request, input)
    else
      var r := ParseLine(state, request, input[..crlf.value]);
      if r.ok then Parse(r.state, r.request, input[crlf.value + 2..])
      else Parsed(false, r.state, r.request, input)
  }

  class HttpContext {
    var state: State
    var request: Request

    constructor ()
      ensures state == ExpectRequestLine && request == BLANK
    {
      state, request := ExpectRequestLine, BLANK;
    }

    method Reset()
      modifies this
      ensures state == ExpectRequestLine && request == BLANK
    {
      state, request := ExpectRequestLine, BLANK;
    }

    /** Lower-cases the key in place, octet by octet, and stores the value under it. */
    method StoreHeader(key: bytes, value: bytes)
      modifies this
      ensures request == AddHeader(old(request), key, value) && state == old(state)
    {
      var k := key;
      for i := 0 to |key|
        invariant |k| == |key|
        invariant forall j :: 0 <= j < i ==> k[j] == Lower(key[j])
        invariant forall j :: i <= j < |key| ==> k[j] == key[j]
      {
        k := k[i := Lower(k[i])];
      }
      assert k == LowerAll(key);
      request := request.(headers := request.headers[k := value]);
    }

    method StoreTarget(uri: bytes)
      modifies this
      ensures request == Locate(old(request), uri) && state == old(state)
    {
      var q := IndexOf(uri, QUESTION, 0);
      if q.Some? {
        request := request.(path := uri[..q.value]);
        request := request.(query := uri[q.value + 1..]);
      } else {
        request := request.(path := uri);
      }
    }

    method RequestLine(line: bytes) returns (ok: bool)
      modifies this
      ensures state == old(state)
      ensures Line(ok, request) == ParseRequestLine(old(request), line)
    {
      hide Locate, VerbOf, VersionName;
      var sp1 := IndexOf(line, SPACE, 0);
      if sp1.None? {
        return false;
      }
      request := request.(verb := VerbOf(line[..sp1.value]));
      if request.verb == Invalid {
        return false;
      }
      var sp2 := IndexOf(line, SPACE, sp1.value + 1);
      if sp2.None? {
        return false;
      }
      StoreTarget(line[sp1.value + 1..sp2.value]);
      var name := line[sp2.value + 1..];
      if name == VersionName(Http11) {
        request := request.(version := Http11);
      } else if name == VersionName(Http10) {
        request := request.(version := Http10);
      } else {
        return false;
      }
      return true;
    }

    method Header(line: bytes) returns (ok: bool)
      modifies this
      ensures state == old(state)
      ensures Line(ok, request) == ParseHeader(old(request), line)
    {
      var colon := IndexOf(line, COLON, 0);
      if colon.None? {
        return false;
      }
      var start := colon.value + 1;
      while start < |line| && line[start] == SPACE
        invariant colon.value + 1 <= start <= |line|
        invariant SkipSpaces(line, colon.value + 1) == SkipSpaces(line, start)
      {
        start := start + 1;
      }
      StoreHeader(line[..colon.value], line[start..]);
      return true;
    }

    method OneLine(line: bytes) returns (ok: bool)
      requires state != GotAll
      modifies this
      ensures Outcome(ok, state, request) == ParseLine(old(state), old(request), line)
    {
      hide ParseRequestLine, ParseHeader;
      if state == ExpectRequestLine {
        ok := RequestLine(line);
        if ok {
          state := ExpectHeaders;
        }
      } else if line == [] {
        state := GotAll;
        ok := true;
      } else {
        ok := Header(line);
      }
    }

    /** Consumes whole lines; terminates because every accepted line shrinks the buffer. */
    method ParseBuffer(input: Buffer) returns (ok: bool)
      requires input.Valid()
      modifies this, input
      ensures input.Valid() && input.data == old(input.data)
      ensures Parsed(ok, state, request, input.Readable()) == Parse(old(state), old(request), old(input.Readable()))
    {
      hide ParseLine, FirstCrlf;
      ok := true;
      ghost var whole := Parse(state, request, input.Readable());
      while ok && state != GotAll
        invariant input.Valid() && input.data == old(input.data)
        invariant ok ==> Parse(state, request, input.Readable()) == whole
        invariant !ok ==> Parsed(ok, state, request, input.Readable()) == whole
        decreases ok, |input.Readable()|
      {
        var crlf := input.Find();
        if crlf.None? {
          return;
        }
        var line := input.PeekString(crlf.value);
        ok := OneLine(line);
        if ok {
          ghost var before := input.Readable();
          input.Retrieve(crlf.value + 2);
          assert input.Readable() == before[crlf.value + 2..];
        }
      }
    }
  }

  // ----- packet boundaries -----

  lemma FirstCrlfExtends(a: bytes, b: bytes)
    requires FirstCrlf(a).Some?
    ensures FirstCrlf(a + b) == FirstCrlf(a)
  {
    var i := FirstCrlf(a).value;
    assert CrlfAt(a + b, i);
    forall j: nat | j < i
      ensures !CrlfAt(a + b, j)
    {
      assert !CrlfAt(a, j);
    }
  }

  /** More bytes behind a parsed prefix: after an error or a complete request they just
      wait, otherwise parsing goes on from where the prefix left it. */
  lemma {:induction false} ParseSplit(state: State, request: Request, a: bytes, b: bytes)
    ensures var r := Parse(state, request, a);
            Parse(state, request, a + b) ==
            if r.ok then Parse(r.state, r.request, r.rest + b)
            else Parsed(false, r.state, r.request, r.rest + b)
    decreases |a|
  {
    hide ParseLine;
    var crlf := FirstCrlf(a);
    if state != GotAll && crlf.Some? {
      FirstCrlfExtends(a, b);
      assert (a + b)[..crlf.value] == a[..crlf.value];
      assert (a + b)[crlf.value + 2..] == a[crlf.value + 2..] + b;
      var r := ParseLine(state, request, a[..crlf.value]);
      if r.ok {
        ParseSplit(r.state, r.request, a[crlf.value + 2..], b);
      }
    }
  }

  /** parse after every chunk until it fails; later chunks then only pile up unread. */
  function Feed(before: Parsed, chunks: seq<bytes>): Parsed
    decreases |chunks|
  {
    if chunks == [] then before
    else if !before.ok then before.(rest := before.rest + Flatten(chunks))
    else Feed(Parse(before.state, before.request, before.rest + chunks[0]), chunks[1..])
  }

  const FRESH := Parsed(true, ExpectRequestLine, BLANK, [])

  lemma {:induction false} FeedFrom(before: Parsed, seen: bytes, chunks: seq<bytes>)
    requires before == Parse(ExpectRequestLine, BLANK, seen)
    ensures Feed(before, chunks) == Parse(ExpectRequestLine, BLANK, seen + Flatten(chunks))
    decreases |chunks|
  {
    hide ParseLine, FirstCrlf;
    if chunks == [] {
      assert seen + [] == seen;
    } else if before.ok {
      ParseSplit(ExpectRequestLine, BLANK, seen, chunks[0]);
      FeedFrom(Parse(before.state, before.request, before.rest + chunks[0]), seen + chunks[0], chunks[1..]);
      assert seen + chunks[0] + Flatten(chunks[1..]) == seen + Flatten(chunks);
    } else {
      ParseSplit(ExpectRequestLine, BLANK, seen, Flatten(chunks));
    }
  }

  /** However the request is cut, state, request, verdict and unread bytes are the same. */
  lemma BoundariesDoNotMatter(chunks: seq<bytes>)
    ensures Feed(FRESH, chunks) == Parse(ExpectRequestLine, BLANK, Flatten(chunks))
  {
    FeedFrom(FRESH, [], chunks);
    assert [] + Flatten(chunks) == Flatten(chunks);
  }

  // ----- printing and parsing back -----

  /** Holds no CR LF pair; a CR or an LF alone does not end a line. */
  ghost predicate SingleLine(s: bytes) {
    forall i: nat :: !CrlfAt(s, i)
  }

  predicate Free(s: bytes, c: byte) {
    forall i :: 0 <= i < |s| ==> s[i] != c
  }

  datatype Field = Field(key: bytes, value: bytes)

  ghost predicate Target(verb: Verb, path: bytes, query: Option<bytes>, version: Version) {
    && verb != Invalid && version != Unknown
    && Free(path, SPACE) && Free(path, QUESTION) && SingleLine(path)
    && (query.Some? ==> Free(query.value, SPACE) && SingleLine(query.value))
  }

  function PrintUri(path: bytes, query: Option<bytes>): bytes {
    match query
    case None => path
    case Some(q) => path + [QUESTION] + q
  }

  function PrintRequestLine(verb: Verb, path: bytes, query: Option<bytes>, version: Version): bytes {
    VerbName(verb) + [SPACE] + PrintUri(path, query) + [SPACE] + VersionName(version)
  }

  function PrintField(f: Field): bytes {
    f.key + [COLON, SPACE] + f.value
  }

  predicate Recoverable(f: Field) {
    Free(f.key, COLON) && (f.value == [] || f.value[0] != SPACE)
  }

  ghost predicate Printable(f: Field) {
    Recoverable(f) && SingleLine(f.key) && SingleLine(f.value)
  }

  function PrintFields(fields: seq<Field>): bytes {
    if fields == [] then [CR, LF]
    else PrintField(fields[0]) + [CR, LF] + PrintFields(fields[1..])
  }

  /** Every field stored under its lower-cased key, the last duplicate winning. */
  function Collected(headers: map<bytes, bytes>, fields: seq<Field>): map<bytes, bytes>
    decreases |fields|
  {
    if fields == [] then headers
    else Collected(headers[LowerAll(fields[0].key) := fields[0].value], fields[1..])
  }

  lemma {:induction false} UnnamedHeaderUntouched(headers: map<bytes, bytes>, fields: seq<Field>, key: bytes)
    requires forall f :: f in fields ==> LowerAll(f.key) != key
    ensures key in Collected(headers, fields) <==> key in headers
    ensures key in headers ==> Collected(headers, fields)[key] == headers[key]
    decreases |fields|
  {
    hide LowerAll;
    if fields == [] {
    } else {
      assert fields[0] in fields;
      UnnamedHeaderUntouched(headers[LowerAll(fields[0].key) := fields[0].value], fields[1..], key);
    }
  }

  lemma {:induction false} LastDuplicateWins(headers: map<bytes, bytes>, fields: seq<Field>, i: nat)
    requires i < |fields|
    requires forall f :: f in fields[i + 1..] ==> LowerAll(f.key) != LowerAll(fields[i].key)
    ensures var key := LowerAll(fields[i].key);
            key in Collected(headers, fields) && Collected(headers, fields)[key] == fields[i].value
    decreases i
  {
    hide LowerAll;
    var next := headers[LowerAll(fields[0].key) := fields[0].value];
    if i == 0 {
      UnnamedHeaderUntouched(next, fields[1..], LowerAll(fields[0].key));
    } else {
      assert fields[1..][i..] == fields[i + 1..];
      LastDuplicateWins(next, fields[1..], i - 1);
    }
  }

  lemma LineEnds(line: bytes, tail: bytes)
    requires SingleLine(line)
    ensures var s := line + [CR, LF] + tail;
            FirstCrlf(s) == Some(|line|) && s[..|line|] == line && s[|line| + 2..] == tail
  {
    var s := line + [CR, LF] + tail;
    assert CrlfAt(s, |line|);
    forall j: nat | j < |line|
      ensures !CrlfAt(s, j)
    {
      assert s[j] == line[j] && !CrlfAt(line, j);
    }
  }

  /** Joined by an octet that is neither CR nor LF, two pieces break no line unless one does. */
  lemma JoinedLine(a: bytes, c: byte, b: bytes)
    requires c != CR && c != LF
    ensures SingleLine(a + [c] + b) <==> SingleLine(a) && SingleLine(b)
  {
    var s := a + [c] + b;
    assert forall i: nat :: CrlfAt(a, i) ==> CrlfAt(s, i);
    assert forall i: nat :: CrlfAt(b, i) ==> CrlfAt(s, |a| + 1 + i);
    forall i: nat | SingleLine(a) && SingleLine(b)
      ensures !CrlfAt(s, i)
    {
      assert !CrlfAt(a, i);
      assert i > |a| ==> !CrlfAt(b, i - |a| - 1);
    }
  }

  lemma FreeOfLines(s: bytes)
    requires Free(s, CR)
    ensures SingleLine(s)
  {
  }

  lemma FirstIndex(s: bytes, c: byte, from: nat, at: nat)
    requires from <= at < |s| && s[at] == c
    requires forall j :: from <= j < at ==> s[j] != c
    ensures IndexOf(s, c, from) == Some(at)
  {
  }

  /** A header line gives back its field exactly when the key holds no colon and the value
      does not begin with a space. */
  lemma FieldRoundTripIff(f: Field)
    ensures ParseHeader(BLANK, PrintField(f)) == Line(true, AddHeader(BLANK, f.key, f.value)) <==> Recoverable(f)
    ensures Recoverable(f) ==>
            forall request :: ParseHeader(request, PrintField(f)) == Line(true, AddHeader(request, f.key, f.value))
  {
    var line, n := PrintField(f), |f.key|;
    assert line[..n] == f.key && line[n] == COLON && line[n + 1] == SPACE && line[n + 2..] == f.value;
    if Free(f.key, COLON) {
      assert forall j :: 0 <= j < n ==> line[j] == f.key[j];
      FirstIndex(line, COLON, 0, n);
      var start := SkipSpaces(line, n + 1);
      assert f.value != [] ==> line[n + 2] == f.value[0];
      if !Recoverable(f) {
        assert ParseHeader(BLANK, line).request.headers[LowerAll(f.key)] == line[start..];
        assert |line[start..]| < |f.value|;
      }
    } else {
      var i :| 0 <= i < n && f.key[i] == COLON;
      assert line[i] == COLON;
      var colon := IndexOf(line, COLON, 0).value;
      var got := ParseHeader(BLANK, line).request.headers;
      assert |LowerAll(line[..colon])| < |LowerAll(f.key)|;
      assert got.Keys == {LowerAll(line[..colon])};
      assert LowerAll(f.key) !in got;
    }
  }

  /** A line of three words, the first two without spaces, splits at its first two spaces. */
  lemma ThreeWords(name: bytes, uri: bytes, last: bytes)
    requires Free(name, SPACE) && Free(uri, SPACE)
    ensures var line := name + [SPACE] + uri + [SPACE] + last;
            var sp2 := |name| + 1 + |uri|;
            && IndexOf(line, SPACE, 0) == Some(|name|)
            && IndexOf(line, SPACE, |name| + 1) == Some(sp2)
            && sp2 < |line| && line[..|name|] == name
            && line[|name| + 1..sp2] == uri
            && line[sp2 + 1..] == last
  {
    var line := name + [SPACE] + uri + [SPACE] + last;
    var sp1, sp2 := |name|, |name| + 1 + |uri|;
    assert forall j :: 0 <= j < sp1 ==> line[j] == name[j];
    FirstIndex(line, SPACE, 0, sp1);
    assert forall j :: sp1 + 1 <= j < sp2 ==> line[j] == uri[j - sp1 - 1];
    FirstIndex(line, SPACE, sp1 + 1, sp2);
  }

  lemma UriSplits(path: bytes, query: Option<bytes>)
    requires Free(path, QUESTION)
    ensures var uri := PrintUri(path, query);
            if query.None? then uri == path && IndexOf(uri, QUESTION, 0) == None
            else |path| < |uri| && IndexOf(uri, QUESTION, 0) == Some(|path|)
                 && uri[..|path|] == path && uri[|path| + 1..] == query.value
  {
    if query.Some? {
      var uri := PrintUri(path, query);
      assert forall j :: 0 <= j < |path| ==> uri[j] == path[j];
      FirstIndex(uri, QUESTION, 0, |path|);
    }
  }

  lemma VerbNames(verb: Verb)
    requires verb != Invalid
    ensures VerbOf(VerbName(verb)) == verb && Free(VerbName(verb), SPACE) && Free(VerbName(verb), CR)
  {
    assert |VerbName(Verb.Put)| == 3 && VerbName(Verb.Put)[0] == 80;
    assert |VerbName(Post)| == 4 && VerbName(Post)[0] == 80;
  }

  lemma UriFree(path: bytes, query: Option<bytes>, c: byte)
    requires c != QUESTION && Free(path, c) && (query.Some? ==> Free(query.value, c))
    ensures Free(PrintUri(path, query), c)
  {
  }

  lemma RequestLineRoundTrip(request: Request, verb: Verb, path: bytes, query: Option<bytes>, version: Version)
    requires Target(verb, path, query, version)
    ensures ParseRequestLine(request, PrintRequestLine(verb, path, query, version)) ==
            Line(true, Request(verb, path, if query.Some? then query.value else request.query, version, request.headers))
  {
    hide VerbOf, VerbName, VersionName, PrintUri, IndexOf, Free, Locate, Finish;
    var name, uri, last := VerbName(verb), PrintUri(path, query), VersionName(version);
    VerbNames(verb);
    UriFree(path, query, SPACE);
    ThreeWords(name, uri, last);
    assert ParseRequestLine(request, PrintRequestLine(verb, path, query, version))
        == Finish(Locate(request.(verb := verb), uri), last);
    UriLocated(request.(verb := verb), path, query);
    VersionFinishes(Locate(request.(verb := verb), uri), version);
  }

  lemma UriLocated(request: Request, path: bytes, query: Option<bytes>)
    requires Free(path, QUESTION)
    ensures Locate(request, PrintUri(path, query)) ==
            request.(path := path, query := if query.Some? then query.value else request.query)
  {
    hide PrintUri, IndexOf;
    UriSplits(path, query);
  }

  lemma VersionFinishes(request: Request, version: Version)
    requires version != Unknown
    ensures Finish(request, VersionName(version)) == Line(true, request.(version := version))
  {
    VersionNames();
  }

  lemma VersionNames()
    ensures VersionName(Http10) != VersionName(Http11)
    ensures Free(VersionName(Http10), CR) && Free(VersionName(Http11), CR)
  {
    assert VersionName(Http10)[7] != VersionName(Http11)[7];
  }

  lemma UriIsOneLine(path: bytes, query: Option<bytes>)
    ensures SingleLine(PrintUri(path, query)) <==> SingleLine(path) && (query.Some? ==> SingleLine(query.value))
  {
    if query.Some? {
      JoinedLine(path, QUESTION, query.value);
    }
  }

  lemma RequestLineIsOneLine(verb: Verb, path: bytes, query: Option<bytes>, version: Version)
    requires Target(verb, path, query, version)
    ensures SingleLine(PrintRequestLine(verb, path, query, version))
  {
    hide VerbOf, VerbName, VersionName, PrintUri, SingleLine, Free;
    VerbNames(verb);
    VersionNames();
    FreeOfLines(VerbName(verb));
    FreeOfLines(VersionName(version));
    UriIsOneLine(path, query);
    JoinedLine(VerbName(verb), SPACE, PrintUri(path, query));
    JoinedLine(VerbName(verb) + [SPACE] + PrintUri(path, query), SPACE, VersionName(version));
  }

  lemma FieldLine(f: Field)
    ensures PrintField(f) != []
    ensures SingleLine(PrintField(f)) <==> SingleLine(f.key) && SingleLine(f.value)
  {
    var rest := [] + [SPACE] + f.value;
    assert PrintField(f) == f.key + [COLON] + rest;
    assert SingleLine([]);
    JoinedLine([], SPACE, f.value);
    JoinedLine(f.key, COLON, rest);
  }

  lemma {:induction false} FieldsRoundTrip(request: Request, fields: seq<Field>, tail: bytes)
    requires forall f :: f in fields ==> Printable(f)
    ensures Parse(ExpectHeaders, request, PrintFields(fields) + tail) ==
            Parsed(true, GotAll, request.(headers := Collected(request.headers, fields)), tail)
    decreases |fields|
  {
    hide ParseHeader, FirstCrlf, PrintField;
    if fields == [] {
      LineEnds([], tail);
      assert [] + [CR, LF] + tail == PrintFields(fields) + tail;
    } else {
      var f := fields[0];
      assert f in fields;
      var line, more := PrintField(f), PrintFields(fields[1..]) + tail;
      FieldLine(f);
      LineEnds(line, more);
      assert line + [CR, LF] + more == PrintFields(fields) + tail;
      FieldRoundTripIff(f);
      var next := AddHeader(request, f.key, f.value);
      assert ParseHeader(request, line) == Line(true, next);
      FieldsRoundTrip(next, fields[1..], tail);
    }
  }

  /** A canonically printed request is recovered, whatever follows it in the stream and
      however the stream was cut. */
  lemma RequestRoundTrip(verb: Verb, path: bytes, query: Option<bytes>, version: Version, fields: seq<Field>,
                         tail: bytes, chunks: seq<bytes>)
    requires Target(verb, path, query, version)
    requires forall f :: f in fields ==> Printable(f)
    requires Flatten(chunks) == PrintRequestLine(verb, path, query, version) + [CR, LF] + PrintFields(fields) + tail
    ensures Feed(FRESH, chunks) ==
            Parsed(true, GotAll,
                   Request(verb, path, if query.Some? then query.value else [], version, Collected(map[], fields)),
                   tail)
  {
    hide ParseRequestLine, FirstCrlf, PrintRequestLine, PrintFields, Collected, Free, Feed;
    BoundariesDoNotMatter(chunks);
    var line, more := PrintRequestLine(verb, path, query, version), PrintFields(fields) + tail;
    assert Flatten(chunks) == line + [CR, LF] + more;
    RequestLineIsOneLine(verb, path, query, version);
    LineEnds(line, more);
    RequestLineRoundTrip(BLANK, verb, path, query, version);
    FieldsRoundTrip(ParseRequestLine(BLANK, line).request, fields, tail);
  }

  // ----- what is accepted, and under which name -----

  predicate Letter(c: byte) {
    65 <= c <= 90 || 97 <= c <= 122
  }

  /** The same octet, or the two cases of one ASCII letter. */
  predicate SameIgnoringCase(a: byte, b: byte) {
    a == b || (Letter(a) && Letter(b) && (a as int - b == 32 || b as int - a == 32))
  }

  /** Stored keys hold no capital letter, and two keys meet in one header exactly when they
      differ at most in the case of ASCII letters. */
  lemma KeysIgnoreCase(a: bytes, b: bytes)
    ensures forall i :: 0 <= i < |a| ==> !(65 <= LowerAll(a)[i] <= 90)
    ensures LowerAll(a) == LowerAll(b) <==>
            |a| == |b| && forall i :: 0 <= i < |a| ==> SameIgnoringCase(a[i], b[i])
  {
    if |a| == |b| {
      assert forall i :: 0 <= i < |a| ==> (Lower(a[i]) == Lower(b[i]) <==> SameIgnoringCase(a[i], b[i]));
      if LowerAll(a) == LowerAll(b) {
        assert forall i :: 0 <= i < |a| ==> LowerAll(a)[i] == LowerAll(b)[i];
      }
    } else {
      assert |LowerAll(a)| != |LowerAll(b)|;
    }
  }

  /** The lines that are request lines: a known method, a target without spaces, a known
      version, one space between. */
  ghost predicate IsRequestLine(line: bytes) {
    exists verb: Verb, uri: bytes, version: Version :: SpellsRequest(line, verb, uri, version)
  }

  ghost predicate SpellsRequest(line: bytes, verb: Verb, uri: bytes, version: Version) {
    && verb != Invalid && version != Unknown && Free(uri, SPACE)
    && line == VerbName(verb) + [SPACE] + uri + [SPACE] + VersionName(version)
  }

  /** Exactly those are accepted. */
  lemma RequestLineAcceptedIff(request: Request, line: bytes)
    ensures ParseRequestLine(request, line).ok <==> IsRequestLine(line)
  {
    if ParseRequestLine(request, line).ok {
      AcceptedSpells(request, line);
    }
    forall verb: Verb, uri: bytes, version: Version | SpellsRequest(line, verb, uri, version)
      ensures ParseRequestLine(request, line).ok
    {
      SpelledIsAccepted(request, line, verb, uri, version);
    }
  }

  lemma SpelledIsAccepted(request: Request, line: bytes, verb: Verb, uri: bytes, version: Version)
    requires SpellsRequest(line, verb, uri, version)
    ensures ParseRequestLine(request, line).ok
  {
    hide VerbOf, VerbName, VersionName, IndexOf, Free, Locate, Finish;
    VerbNames(verb);
    ThreeWords(VerbName(verb), uri, VersionName(version));
    VersionFinishes(Locate(request.(verb := verb), uri), version);
  }

  lemma VerbSpelled(name: bytes)
    ensures VerbOf(name) != Invalid ==> name == VerbName(VerbOf(name))
  {
  }

  lemma VersionSpelled(request: Request, name: bytes)
    ensures Finish(request, name).ok ==> exists version :: version != Unknown && name == VersionName(version)
  {
    if name == VersionName(Http11) {
      assert Http11 != Unknown;
    } else if name == VersionName(Http10) {
      assert Http10 != Unknown;
    }
  }

  lemma AcceptedSpells(request: Request, line: bytes)
    requires ParseRequestLine(request, line).ok
    ensures IsRequestLine(line)
  {
    hide VerbOf, VerbName, VersionName, Locate, Finish;
    var sp1 := IndexOf(line, SPACE, 0).value;
    var verb := VerbOf(line[..sp1]);
    var sp2 := IndexOf(line, SPACE, sp1 + 1).value;
    var uri, name := line[sp1 + 1..sp2], line[sp2 + 1..];
    VerbSpelled(line[..sp1]);
    VersionSpelled(Locate(request.(verb := verb), uri), name);
    var version :| version != Unknown && name == VersionName(version);
    assert line == line[..sp1] + [SPACE] + uri + [SPACE] + name;
    assert SpellsRequest(line, verb, uri, version);
  }

  /** A header line is accepted exactly when it has a colon. */
  lemma HeaderAcceptedIff(request: Request, line: bytes)
    ensures ParseHeader(request, line).ok <==> COLON in line
  {
  }
}
