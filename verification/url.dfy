/** The result of net/url's Parse, reduced to what the normaliser reads. */
module Url {
  import opened Wrappers
  import opened Strings

  /** A parsed URL: its Scheme and Host fields, and what its Hostname() and
      Port() methods return. Host keeps any port as written ("a:8080");
      Hostname() is Host without the port; Port() is "" when none is given. */
  datatype Url = Url(scheme: string, host: string, hostname: string, port: string)

  /** `host` ends with ":" followed by `port`. */
  predicate EndsWithPort(host: string, port: string) {
    |port| < |host| && host[|host| - |port| - 1..] == [':'] + port
  }

  /** What net/url guarantees of a successfully parsed URL and the normaliser
      depends on: a port consists of decimal digits only, and a non-empty port
      is the part of Host after its final colon. */
  predicate WellFormed(u: Url) {
    AllDigits(u.port) && (u.port != "" ==> EndsWithPort(u.host, u.port))
  }

  type ParsedUrl = u: Url | WellFormed(u) witness Url("", "", "", "")

  /** net/url's Parse: a parsed URL, or None where Parse reports an error. */
  type Parser = string -> Option<ParsedUrl>
}
