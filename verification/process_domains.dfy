/** readDomains and the domain count of main in process_domains.go: every
    input line is trimmed, parsed, kept when its scheme is http or https, and
    stored as a canonical "scheme://host:port" key in a set, while two
    counters record the lines read and the lines accepted. */
module ProcessDomains {
  import opened Wrappers
  import opened Strings
  import opened Url
  import Tally

  /** The only schemes the normaliser keeps. */
  predicate IsWebScheme(scheme: string) {
    scheme == "http" || scheme == "https"
  }

  /** The lookup in the literal map {"http": ":80", "https": ":443"}; any
      other scheme finds Go's zero value, the empty string. */
  function DefaultPortSuffix(scheme: string): string {
    if scheme == "http" then ":80"
    else if scheme == "https" then ":443"
    else ""
  }

  /** A candidate host as the key names it: scheme, host part and the
      effective port. */
  datatype Endpoint = Endpoint(scheme: string, host: string, port: string)

  /** What every stored key describes: a web scheme and an explicit,
      all-digit port. */
  predicate ValidEndpoint(e: Endpoint) {
    IsWebScheme(e.scheme) && e.port != "" && AllDigits(e.port)
  }

  /** "host:port", the part of a key after "://". */
  function Authority(host: string, port: string): string {
    host + ":" + port
  }

  /** The textual key "scheme://host:port" of an endpoint. */
  function Render(e: Endpoint): string {
    e.scheme + "://" + Authority(e.host, e.port)
  }

  /** The web scheme a key starts with, or "" when it starts with neither. */
  function KeyScheme(key: string): string {
    if StartsWith(key, "https://") then "https"
    else if StartsWith(key, "http://") then "http"
    else ""
  }

  /** Reads a key back: the scheme in front of "://", the port after the
      last colon, the host part in between. */
  function SplitKey(key: string): (e: Option<Endpoint>)
    ensures e.Some? ==> ValidEndpoint(e.value)
  {
    var scheme := KeyScheme(key);
    if scheme == "" then None
    else
      var authority := key[|scheme| + 3..];
      var colon := LastIndexOf(authority, ':');
      if colon < 0 then None
      else
        var port := authority[colon + 1..];
        if port == "" || !AllDigits(port) then None
        else Some(Endpoint(scheme, authority[..colon], port))
  }

  lemma KeySchemeOfRender(e: Endpoint)
    requires IsWebScheme(e.scheme)
    ensures KeyScheme(Render(e)) == e.scheme
    ensures Render(e)[|e.scheme| + 3..] == Authority(e.host, e.port)
  {
    var prefix := e.scheme + "://";
    var key := prefix + Authority(e.host, e.port);
    assert key[..|prefix|] == prefix;
    if e.scheme == "http" {
      assert key[4] == ':';
      assert |key| >= 8 ==> key[..8][4] == ':';
    }
  }

  /** Digits hold no colon, so the last colon is the one in front of the port. */
  lemma {:induction false} LastColonBeforePort(host: string, port: string)
    requires AllDigits(port)
    ensures LastIndexOf(Authority(host, port), ':') == |host|
    decreases |port|
  {
    var authority := Authority(host, port);
    if port == [] {
      assert authority[|authority| - 1] == ':';
    } else {
      var init := port[..|port| - 1];
      assert IsDigit(port[|port| - 1]);
      assert authority[|authority| - 1] == port[|port| - 1];
      assert authority[..|authority| - 1] == Authority(host, init);
      LastColonBeforePort(host, init);
    }
  }

  /** A key is read back as the endpoint it was rendered from. */
  lemma SplitRender(e: Endpoint)
    requires ValidEndpoint(e)
    ensures SplitKey(Render(e)) == Some(e)
  {
    KeySchemeOfRender(e);
    LastColonBeforePort(e.host, e.port);
    var authority := Authority(e.host, e.port);
    assert authority[|e.host| + 1..] == e.port;
    assert authority[..|e.host|] == e.host;
  }

  /** Conversely, every key SplitKey accepts is the rendering of what it reads. */
  lemma RenderSplit(key: string)
    requires SplitKey(key).Some?
    ensures Render(SplitKey(key).value) == key
  {
    var scheme := KeyScheme(key);
    var n := |scheme| + 3;
    var authority := key[n..];
    var colon := LastIndexOf(authority, ':');
    var host, port := authority[..colon], authority[colon + 1..];
    assert SplitKey(key) == Some(Endpoint(scheme, host, port));
    SchemePrefix(key);
    SplitAt(key, n);
    ColonSplit(authority, colon);
  }

  lemma SchemePrefix(key: string)
    requires KeyScheme(key) != ""
    ensures key[..|KeyScheme(key)| + 3] == KeyScheme(key) + "://"
  {
    if KeyScheme(key) == "https" {
      assert key[..8] == "https://";
    } else {
      assert key[..7] == "http://";
    }
  }

  lemma ColonSplit(s: string, colon: nat)
    requires colon < |s| && s[colon] == ':'
    ensures s == Authority(s[..colon], s[colon + 1..])
  {
    SplitAt(s, colon);
    assert s[colon..] == ":" + s[colon + 1..];
  }

  /** The endpoint a parsed web URL stands for: with no port the host name and
      the scheme's default port, otherwise Host with its port split off. */
  function EndpointOf(u: ParsedUrl): (e: Endpoint)
    requires IsWebScheme(u.scheme)
    ensures ValidEndpoint(e) && e.scheme == u.scheme
    ensures u.port == "" ==> e.host == u.hostname && e.port == (if u.scheme == "http" then "80" else "443")
    ensures u.port != "" ==> e.port == u.port && u.host == Authority(e.host, e.port)
  {
    if u.port == "" then
      Endpoint(u.scheme, u.hostname, DefaultPortSuffix(u.scheme)[1..])
    else
      var h := u.host[..|u.host| - |u.port| - 1];
      SplitAt(u.host, |u.host| - |u.port| - 1);
      Endpoint(u.scheme, h, u.port)
  }

  /** The key built for an accepted URL (lines 69-73): Host verbatim when a
      port is given, otherwise the host name followed by the default port. */
  function KeyOf(u: ParsedUrl): (key: string)
    requires IsWebScheme(u.scheme)
    ensures key == Render(EndpointOf(u))
  {
    var host := if u.port == "" then u.hostname + DefaultPortSuffix(u.scheme) else u.host;
    assert u.port == "" ==> host == Authority(u.hostname, DefaultPortSuffix(u.scheme)[1..]) by {
      var suffix := DefaultPortSuffix(u.scheme);
      assert suffix == ":" + suffix[1..];
      Assoc(u.hostname, ":", suffix[1..]);
    }
    u.scheme + "://" + host
  }

  /** Two accepted URLs share a key exactly when they agree on scheme, host
      part and effective port. */
  lemma KeyIdentifiesEndpoint(u1: ParsedUrl, u2: ParsedUrl)
    requires IsWebScheme(u1.scheme) && IsWebScheme(u2.scheme)
    ensures KeyOf(u1) == KeyOf(u2) <==> EndpointOf(u1) == EndpointOf(u2)
  {
    SplitRender(EndpointOf(u1));
    SplitRender(EndpointOf(u2));
  }

  /** The scheme is part of the key: URLs that differ in scheme never
      collapse, whatever their host and port. */
  lemma SchemeIsSignificant(u1: ParsedUrl, u2: ParsedUrl)
    requires IsWebScheme(u1.scheme) && IsWebScheme(u2.scheme)
    requires u1.scheme != u2.scheme
    ensures KeyOf(u1) != KeyOf(u2)
  {
    KeyIdentifiesEndpoint(u1, u2);
  }

  /** One line of the scan (line 68 to 73): the key it contributes, or None
      when it does not parse or its scheme is neither http nor https. */
  function Normalize(line: string, parse: Parser): (r: Option<string>)
    ensures r.Some? <==> parse(TrimSpace(line)).Some? && IsWebScheme(parse(TrimSpace(line)).value.scheme)
  {
    match parse(TrimSpace(line))
    case Some(u) => if IsWebScheme(u.scheme) then Some(KeyOf(u)) else None
    case None => None
  }

  predicate Accepts(line: string, parse: Parser) {
    Normalize(line, parse).Some?
  }

  /** Every key a line yields is canonical: it reads back as the endpoint of
      the line's URL, so it names a web scheme and an explicit port. */
  lemma NormalizedKeyIsCanonical(line: string, parse: Parser)
    requires Accepts(line, parse)
    ensures SplitKey(Normalize(line, parse).value) == Some(EndpointOf(parse(TrimSpace(line)).value))
  {
    SplitRender(EndpointOf(parse(TrimSpace(line)).value));
  }

  /** White space around a line does not change its key or its rejection. */
  lemma NormalizePadded(a: string, line: string, b: string, parse: Parser)
    requires AllSpace(a) && AllSpace(b)
    ensures Normalize(a + line + b, parse) == Normalize(line, parse)
  {
    TrimSpacePadded(a, line, b);
  }

  /** The key function readDomains folds over the lines. */
  function LineKey(parse: Parser): string -> Option<string> {
    (line: string) => Normalize(line, parse)
  }

  /** The set readDomains is meant to return: the keys of all accepted lines. */
  function AcceptedKeys(lines: seq<string>, parse: Parser): set<string> {
    Tally.Keys(lines, LineKey(parse))
  }

  /** The number of accepted lines, duplicates included. */
  function CountAccepted(lines: seq<string>, parse: Parser): nat {
    Tally.Count(lines, LineKey(parse))
  }

  /** Deduplication never produces more keys than lines were accepted. */
  lemma AcceptedKeysBound(lines: seq<string>, parse: Parser)
    ensures |AcceptedKeys(lines, parse)| <= CountAccepted(lines, parse) <= |lines|
  {
    Tally.KeysBound(lines, LineKey(parse));
  }

  /** A repeated line leaves the set unchanged, yet is counted again when
      accepted. */
  lemma DuplicateLine(lines: seq<string>, line: string, parse: Parser)
    requires line in lines
    ensures AcceptedKeys(lines + [line], parse) == AcceptedKeys(lines, parse)
    ensures CountAccepted(lines + [line], parse) == CountAccepted(lines, parse) + (if Accepts(line, parse) then 1 else 0)
  {
    Tally.Repeat(lines, line, LineKey(parse));
  }

  /** The key set depends only on which lines occur, not on their order or
      how often they repeat. */
  lemma LineSetDeterminesKeys(lines1: seq<string>, lines2: seq<string>, parse: Parser)
    requires forall l :: l in lines1 <==> l in lines2
    ensures AcceptedKeys(lines1, parse) == AcceptedKeys(lines2, parse)
  {
    Tally.KeysOfSameElements(lines1, lines2, LineKey(parse));
  }

  /** The accepted-line count does not depend on the order of the lines. */
  lemma CountAcceptedPermutation(lines1: seq<string>, lines2: seq<string>, parse: Parser)
    requires multiset(lines1) == multiset(lines2)
    ensures CountAccepted(lines1, parse) == CountAccepted(lines2, parse)
  {
    Tally.CountPermutation(lines1, lines2, LineKey(parse));
  }

  datatype ScanError = EmptyInput

  /** What readDomains produces: the key set and its two counters. */
  datatype Report = Report(domains: set<string>, lineCount: nat, validCount: nat)

  /** The scanner loop of readDomains (lines 63-78): per line, bump the line
      counter and, when the line yields a key, store it and bump the valid
      counter. */
  method ScanLines(lines: seq<string>, parse: Parser) returns (report: Report)
    ensures report.domains == AcceptedKeys(lines, parse)
    ensures report.lineCount == |lines|
    ensures report.validCount == CountAccepted(lines, parse)
  {
    var domains: set<string> := {};
    var lineCount: nat := 0;
    var validCount: nat := 0;
    for i := 0 to |lines|
      invariant lineCount == i
      invariant domains == AcceptedKeys(lines[..i], parse)
      invariant validCount == CountAccepted(lines[..i], parse)
    {
      Tally.Step(lines, i, LineKey(parse));
      lineCount := lineCount + 1;
      match Normalize(lines[i], parse) {
        case Some(key) =>
          domains := domains + {key};
          validCount := validCount + 1;
        case None =>
      }
    }
    assert lines[..|lines|] == lines;
    report := Report(domains, lineCount, validCount);
  }

  /** readDomains (lines 54-91) over the lines the scanner yields: an input
      without lines is an error, anything else yields the report. */
  method ReadDomains(lines: seq<string>, parse: Parser) returns (r: Result<Report, ScanError>)
    ensures r.Failure? <==> |lines| == 0
    ensures r.Failure? ==> r.error == EmptyInput
    ensures r.Success? ==> r.value.domains == AcceptedKeys(lines, parse)
    ensures r.Success? ==> r.value.lineCount == |lines| && r.value.validCount == CountAccepted(lines, parse)
    ensures r.Success? ==> |r.value.domains| <= r.value.validCount <= r.value.lineCount
  {
    var report := ScanLines(lines, parse);
    if report.lineCount == 0 {
      return Failure(EmptyInput);
    }
    AcceptedKeysBound(lines, parse);
    return Success(report);
  }

  /** The Range loop of main (lines 43-47): visits every key once. */
  method CountDomains(domains: set<string>) returns (n: nat)
    ensures n == |domains|
  {
    n := 0;
    var rest := domains;
    while rest != {}
      invariant rest <= domains
      invariant n + |rest| == |domains|
      decreases |rest|
    {
      var key :| key in rest;
      rest := rest - {key};
      n := n + 1;
    }
  }

  /** main from line 40 on: the number of distinct keys, or the error that
      ends the program on an empty input. */
  method Run(lines: seq<string>, parse: Parser) returns (r: Result<nat, ScanError>)
    ensures r.Failure? <==> |lines| == 0
    ensures r.Success? ==> r.value == |AcceptedKeys(lines, parse)| && r.value <= CountAccepted(lines, parse)
  {
    var scanned := ReadDomains(lines, parse);
    match scanned {
      case Failure(e) =>
        return Failure(e);
      case Success(report) =>
        var count := CountDomains(report.domains);
        return Success(count);
    }
  }
}
