/** A worked input for readDomains: for some hostname h, the lines
    "http://h", "https://h:443" and "https://h", a line that is not a URL, and
    a blank line. The lines are kept symbolic; what is fixed is what net/url
    makes of each of them. */
module Scenarios {
  import opened Wrappers
  import opened Strings
  import opened Url
  import opened ProcessDomains
  import Tally

  /** How net/url reads the five lines once trimmed: "http://h" and
      "https://h" have no port, "https://h:443" keeps ":443" in its Host, and
      the fourth line, if it parses at all, has only a path and so an empty
      scheme, as the empty string the blank line trims to has. */
  predicate ParsesAsSample(lines: seq<string>, h: string, parse: Parser)
    requires |lines| == 5
  {
    && parse(TrimSpace(lines[0])) == Some(Url("http", h, h, ""))
    && parse(TrimSpace(lines[1])) == Some(Url("https", Authority(h, "443"), h, "443"))
    && parse(TrimSpace(lines[2])) == Some(Url("https", h, h, ""))
    && (parse(TrimSpace(lines[3])).Some? ==> parse(TrimSpace(lines[3])).value.scheme == "")
    && AllSpace(lines[4])
    && (parse([]).Some? ==> parse([]).value.scheme == "")
  }

  /** The keys of the two endpoints the sample names. */
  function HttpKey(h: string): string { Render(Endpoint("http", h, "80")) }
  function HttpsKey(h: string): string { Render(Endpoint("https", h, "443")) }

  lemma SampleLines(lines: seq<string>, h: string, parse: Parser)
    requires |lines| == 5 && ParsesAsSample(lines, h, parse)
    ensures Normalize(lines[0], parse) == Some(HttpKey(h))
    ensures Normalize(lines[1], parse) == Some(HttpsKey(h))
    ensures Normalize(lines[2], parse) == Some(HttpsKey(h))
    ensures Normalize(lines[3], parse) == None && Normalize(lines[4], parse) == None
  {
    var u0, u1, u2 := parse(TrimSpace(lines[0])).value, parse(TrimSpace(lines[1])).value, parse(TrimSpace(lines[2])).value;
    assert EndpointOf(u0) == Endpoint("http", h, "80");
    assert Authority(EndpointOf(u1).host, EndpointOf(u1).port) == Authority(h, "443");
    assert EndpointOf(u2) == Endpoint("https", h, "443");
    TrimSpaceEmpty(lines[4]);
  }

  /** The fold over five lines of which the first three yield a, b, b and
      the last two nothing. */
  lemma SampleFold(lines: seq<string>, f: string -> Option<string>, a: string, b: string)
    requires |lines| == 5
    requires f(lines[0]) == Some(a) && f(lines[1]) == Some(b) && f(lines[2]) == Some(b)
    requires f(lines[3]) == None && f(lines[4]) == None
    ensures Tally.Keys(lines, f) == {a, b} && Tally.Count(lines, f) == 3
  {
    assert Tally.Keys(lines[..1], f) == {a} && Tally.Count(lines[..1], f) == 1 by {
      Tally.Step(lines, 0, f);
      assert lines[..0] == [];
    }
    Tally.Step(lines, 1, f);
    Tally.Step(lines, 2, f);
    Tally.Step(lines, 3, f);
    Tally.Step(lines, 4, f);
    assert lines[..5] == lines;
  }

  /** The scheme keeps http://h and https://h apart, the default port makes
      https://h and https://h:443 one key, and the other two lines are
      dropped: two keys from three accepted lines out of five. */
  lemma SampleInput(lines: seq<string>, h: string, parse: Parser)
    requires |lines| == 5 && ParsesAsSample(lines, h, parse)
    ensures AcceptedKeys(lines, parse) == {HttpKey(h), HttpsKey(h)}
    ensures HttpKey(h) != HttpsKey(h)
    ensures CountAccepted(lines, parse) == 3
  {
    SampleLines(lines, h, parse);
    SampleFold(lines, LineKey(parse), HttpKey(h), HttpsKey(h));
    SplitRender(Endpoint("http", h, "80"));
    SplitRender(Endpoint("https", h, "443"));
  }

  /** readDomains on the sample: no error, the two keys, five lines read and
      three accepted. */
  method SampleRun(lines: seq<string>, h: string, parse: Parser) returns (r: Result<Report, ScanError>)
    requires |lines| == 5 && ParsesAsSample(lines, h, parse)
    ensures r == Success(Report({HttpKey(h), HttpsKey(h)}, 5, 3))
  {
    r := ReadDomains(lines, parse);
    SampleInput(lines, h, parse);
  }
}
