# Candidate-URL normaliser of process_domains.go

`readDomains` reads a file of candidate URLs, one per line. For each line it:

1. trims the line's surrounding white space;
2. parses it with Go's `net/url`;
3. keeps it only when the scheme is exactly `http` or `https`;
4. builds the key `scheme://host:port`, where the host part and port are taken verbatim from `u.Host` when the URL has a port, and otherwise are `u.Hostname()` followed by `:80` for http or `:443` for https;
5. stores the key in a set.

Two counters run alongside. `lineCount` counts every line read. `validDomainCount` counts every accepted line, duplicates included. An input without any line ends the program with an error. `main` then counts the stored keys by ranging over the set.

The model is a pure fold over the sequence of lines:

- `wrappers.dfy`: the `Option` and `Result` types.
- `strings.dfy`: Go's `strings.TrimSpace`, using the white-space set of `unicode.IsSpace`, plus the character predicates.
- `url.dfy`: what a `*url.URL` exposes to the normaliser: `Scheme`, `Host`, `Hostname()` and `Port()`. The parser is a parameter.
- `process_domains.dfy`:
  - the per-line normalisation (`Normalize`);
  - the endpoint a key names, and a reader (`SplitKey`) that turns a key back into that endpoint;
  - the reference definitions `AcceptedKeys` (the set of accepted keys) and `CountAccepted` (the number of accepted lines);
  - the scan loop (`ScanLines`), `readDomains` (`ReadDomains`) and the count in `main` (`CountDomains`, `Run`).
- `tally.dfy`: the generic fold behind `AcceptedKeys` and `CountAccepted`. It collects the keys a partial function yields over a sequence and counts the hits. Its lemmas cover deduplication, repetition, order and the cardinality bound.
- `scenarios.dfy`: a worked five-line input.

Four consequences of the code that the model keeps:

- The host is not lower-cased. `u.Host` and `u.Hostname()` are used as written.
- The key always carries the port, the scheme's default port included.
- A URL with an empty host, such as `http://`, is accepted and yields `http://:80`.
- The scheme is part of the key: `http://a` and `https://a` are two keys.

## Model

| member | source | states |
|---|---|---|
| Strings.TrimBounds | process_domains.go:68 | The cut `strings.TrimSpace` makes leaves only white space outside it, and the kept text neither starts nor ends with white space. |
| Strings.TrimSpaceUnique | process_domains.go:68 | Any cut with that property yields exactly what `TrimSpace` returns, so the trimmed line is uniquely determined. |
| Strings.TrimSpacePadded | process_domains.go:68 | White space added before or after a line does not change its trimmed form. |
| Strings.TrimSpaceIdempotent | process_domains.go:68 | Trimming an already trimmed line changes nothing. |
| Strings.TrimSpaceEmpty | process_domains.go:68 | A line trims to the empty string exactly when every character in it is white space, so a blank line reaches the parser as "". |
| ProcessDomains.Normalize | process_domains.go:68-73 | A line yields a key if and only if its trimmed text parses and the parsed scheme is exactly "http" or "https"; parse errors and every other scheme, the empty one included, yield nothing. |
| ProcessDomains.EndpointOf | process_domains.go:69-72 | The endpoint an accepted URL stands for always has a web scheme and an explicit all-digit port. Without a port it is the host name with port 80 for http or 443 for https. With a port, the port is kept as given and `u.Host` is exactly host part + ":" + port. |
| ProcessDomains.KeyOf | process_domains.go:69-73 | The key built from an accepted URL is the text `scheme://host:port` of its endpoint. |
| ProcessDomains.SplitKey | process_domains.go:73 | Whatever a key is read back as names a web scheme and a non-empty, all-digit port. |
| ProcessDomains.SplitRender | process_domains.go:73 | Reading back the text of an endpoint gives that endpoint again. The last colon of a key is the one before the port, because a port holds no colon. |
| ProcessDomains.RenderSplit | process_domains.go:73 | Every key that can be read back is the text of the endpoint it is read as, so key text and endpoint determine each other. |
| ProcessDomains.KeyIdentifiesEndpoint | process_domains.go:69-74 | Two accepted URLs give the same key if and only if they agree on scheme, host part and effective port. So `https://a` and `https://a:443` collapse into one key. |
| ProcessDomains.SchemeIsSignificant | process_domains.go:73 | URLs with different schemes never share a key, whatever their host and port. |
| ProcessDomains.NormalizedKeyIsCanonical | process_domains.go:68-73 | Every key a line yields reads back as the endpoint of that line's parsed URL. |
| ProcessDomains.NormalizePadded | process_domains.go:68 | A line with white space added around it yields the same key, or the same rejection, as the line itself. |
| ProcessDomains.AcceptedKeysBound | process_domains.go:63-76 | The number of distinct keys is at most the number of accepted lines, which is at most the number of lines. |
| ProcessDomains.DuplicateLine | process_domains.go:74-76 | Appending a line that already occurs leaves the key set unchanged but adds one to the accepted count when the line is accepted. |
| ProcessDomains.LineSetDeterminesKeys | process_domains.go:74 | Two inputs containing the same lines, in any order and with any repetition, yield the same key set. |
| ProcessDomains.CountAcceptedPermutation | process_domains.go:76 | Reordering the lines does not change the accepted count. |
| ProcessDomains.ScanLines | process_domains.go:63-78 | The scan loop ends with the key set equal to the keys of the accepted lines, `lineCount` equal to the number of lines, and `validDomainCount` equal to the number of accepted lines, duplicates included. |
| ProcessDomains.ReadDomains | process_domains.go:54-91 | An input with no lines is the empty-input error, and only such an input is. Any other input yields the key set and both counters as above, with set size ≤ valid count ≤ line count. |
| ProcessDomains.CountDomains | process_domains.go:43-47 | Ranging over the key set once and counting gives exactly its number of elements. |
| ProcessDomains.Run | process_domains.go:40-49 | `main` reports the number of distinct keys of the accepted lines, which never exceeds the accepted count. It stops with the error exactly when the input has no lines. |
| Scenarios.SampleInput | process_domains.go:66-78 | For lines `http://h`, `https://h:443`, `https://h`, a non-URL and a blank line, parsed as net/url parses them, the keys are exactly `http://h:80` and `https://h:443`. These two keys differ, and three of the five lines are accepted. |
| Scenarios.SampleRun | process_domains.go:54-91 | On that sample `readDomains` reports no error, exactly the two keys `http://h:80` and `https://h:443`, 5 lines read and 3 valid lines. |

## Left out

- Flag parsing and logging (process_domains.go:14-38, 49-51, 75, 88): no behaviour beyond output text. The flags for the output directory, database, error threshold and refresh days are parsed but never used.
- Opening the file, `bufio.Scanner` and the read-error check (process_domains.go:56-62, 80-82): I/O. The input is the sequence of lines the scanner yields. The scanner's line splitting and its 64 KiB token limit are not modelled; in Go an over-long line ends the scan with a read error.
- `log.Fatalf`: the empty-input exit (process_domains.go:84-86) is the `EmptyInput` failure. The other two fatal exits belong to the I/O left out above.
- `sync.Map`: nothing here runs concurrently. The map is a `set<string>`, since only its keys are ever read.
- Byte strings: Go strings, and so the lines `scanner.Text()` returns (process_domains.go:68) and the keys `domains.Store` compares (process_domains.go:74), are byte sequences. The model takes lines as sequences of Unicode characters, which `strings.TrimSpace` sees the same way on valid UTF-8. A Go line that is not valid UTF-8 is not represented.
- `net/url`: the parser is a parameter of type `Parser`. The model assumes only what `WellFormed` states: a port is all digits, and a non-empty port is what follows the last colon of `Host`. Go's scheme lower-casing, IPv6 brackets and its other parsing rules are not modelled or claimed.
- Scenarios.SampleInput: the hostname and the five lines are symbolic. What net/url returns for each line is a hypothesis (`ParsesAsSample`), not derived from a model of the parser.
