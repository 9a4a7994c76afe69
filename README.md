# sns — a model of the DNS responder's cache, local list and query dispatch

sns is a small DNS server. It answers A and AAAA queries in three tiers,
in a fixed order:

- an answer cache;
- a local list of `(name, address)` entries, read at start-up from an ad
  block file (only its `0.0.0.0` sinkhole entries) and from a hosts file;
- an upstream resolver.

Every non-empty answer from the local list or the upstream is cached for
five minutes. Queries of any other type are refused with `NotImp`.

This project models that core in Dafny and proves properties of it:

- `cache.dfy`: the cache as a class over a map from `(record type, name)`
  to records and an expiry instant. It has `Get`, `Insert` and the two-pass
  sweep `Clean`, each proved against the pure functions `Lookup`, `Store`
  and `Sweep`.
- `domain.dfy`, `text.dfy`, `seqs.dfy`: the hosts-file line parser and the
  list loaders. The Rust string and iterator operations they use (`replace`,
  `trim`, `split`, `filter`, `map`, `flatten`) are defined on sequences.
- `server.dfy`: the request handler.
  - The pure function `Respond` states what one query does to the response
    and to the cache table.
  - The classes `Handler` and `Resolver` model the handler's methods.
    `Handler.HandleRequest` is proved to do exactly what `Respond` says.
  - Lemmas about `Respond` state the tier precedence, that empty answers
    are never cached, and how long a cached answer is served.
- `checker.dfy`: the start-up check on the listener flags.
- `dns.dfy`, `wrappers.dfy`: the value types of the DNS library that the
  core handles (addresses, record types, records, response codes), and
  `Option`/`Result`.

Time is an integer number of milliseconds. Each operation receives it as a
parameter, because the source compares expiry instants at millisecond
resolution. The upstream resolver is an oracle: `upstream(i, q)` is the
result of the `i`-th lookup. The handler's call log `calls` records which
queries reached the upstream.

### Boundary cases in the code

- `get` serves an entry while its expiry is at or after the current
  millisecond (`>=`), so the expiry millisecond itself is still a hit.
- `insert` always stamps a fixed five-minute lifetime (`TTL_SECS = 300`),
  whatever TTLs the records carry.
- `clean` removes only the entries whose expiry is strictly before the
  current millisecond (`<`).
- `add_to_cache` skips empty answer sets. So neither an upstream failure nor
  an empty upstream answer is cached, and the next identical query goes
  upstream again (`FailureIsRetried`).

## Model

| member | source | states |
|---|---|---|
| Checker.CheckFlags | src/checker.rs:13-20 | start-up fails exactly when neither TCP nor UDP is enabled, with the message "at least one of TCP or UDP must be enabled" |
| Cache.Lookup | src/cache.rs:39-48 | what `get` sees at a time; characterised by StoreThenLookup, MissPersists and SweepKeepsLookups |
| Cache.Sweep | src/cache.rs:24-37 | the table after `clean`; characterised by SweepRemovesExactlyExpired and SweepIsRemoval |
| Cache.Store | src/cache.rs:50-55 | the table after `insert`; characterised by StoreThenLookup, StoreOverwrites and StoreLeavesOtherKeys |
| Cache.Cache.constructor | src/cache.rs:18-22 | a new cache holds no entries |
| Cache.Cache.ExpiredKeys | src/cache.rs:27-32 | the first pass of `clean` collects each key whose entry expired before `now`, once, and no other key |
| Cache.Cache.Clean | src/cache.rs:24-37 | the table after `clean` is the sweep of the table before it; the count reported is the number of entries removed |
| Cache.Cache.Get | src/cache.rs:39-48 | the table's `Lookup` of the key at `now`: the stored records when present and not expired before `now`, and no change to the table |
| Cache.Cache.Insert | src/cache.rs:50-55 | the key now maps to the given records, expiring `TTL_SECS` seconds after `now`; other keys are untouched |
| Cache.StoreThenLookup | src/cache.rs:39-55 | a stored answer is served at every time up to and including five minutes after the store, and never after |
| Cache.StoreOverwrites | src/cache.rs:50-55 | of two inserts under one key only the second one's records and expiry remain |
| Cache.StoreLeavesOtherKeys | src/cache.rs:50-55 | an insert changes no other key's presence or entry |
| Cache.SweepRemovesExactlyExpired | src/cache.rs:24-37 | a sweep removes exactly the entries that expired before `now` and keeps the others unchanged |
| Cache.SweepKeepsLookups | src/cache.rs:24-48 | a sweep at `now` changes no lookup at `now` |
| Cache.MissPersists | src/cache.rs:39-48 | a key not served at time `t` is not served at any later time |
| Cache.SweepIsRemoval | src/cache.rs:33-35 | the swept table is the table minus the set of expired keys |
| Domain.NormalizeName | src/domain.rs:30-32 | the name ends with `.`; a `.` is appended only when missing, and nothing else changes |
| Domain.NormalizeNameIdempotent | src/domain.rs:30-32 | normalising twice is normalising once |
| Domain.Cleaned | src/domain.rs:11 | the cleaned line is no longer than the line, holds no tab, and neither starts nor ends with whitespace |
| Domain.IsSinkhole | src/domain.rs:57 | an entry is kept in the ad list exactly when its address is `0.0.0.0` |
| Domain.ParseLine | src/domain.rs:9-36 | an accepted line is neither blank nor a comment, and its name ends with `.` and holds no space |
| Domain.ParseLineOutcome | src/domain.rs:9-36 | a blank or comment line, a line with fewer than two fields, or an unparsable address gives nothing; otherwise the entry is the first field parsed as an address with the normalised second field |
| Domain.TabsAreSpaces | src/domain.rs:11 | two lines that differ only in tab versus space parse the same |
| Domain.ParseHostsLine | src/domain.rs:9-36 | `<address> <name> [more fields]` gives the parsed address and the normalised name, or nothing if the address does not parse |
| Domain.HostsLineIsClean | src/domain.rs:11 | a line of words separated by spaces is unchanged by the tab replacement and the trim |
| Domain.HostsLineFields | src/domain.rs:17-28 | the first two fields of such a line are its address text and its name |
| Domain.HostEntries | src/domain.rs:44-49 | every entry loaded from a file's contents has a name ending in `.` |
| Domain.HostEntriesOfLine | src/domain.rs:44-49 | contents without a newline give that one line's entry, if any |
| Domain.HostEntriesOfJoin | src/domain.rs:44-49 | the entries of `a + "\n" + b` are those of `a`, followed by those of `b` |
| Domain.LoadHostFile | src/domain.rs:38-51 | no path gives no entries; a readable file gives `HostEntries` of its contents; an unreadable one gives the reader's error |
| Domain.LoadDomainList | src/domain.rs:53-60 | the sinkhole entries of the file in file order, each copy of a repeated line kept (the multiset of the result is that of the sinkhole entries); a read error is returned unchanged |
| Domain.LoadHostList | src/domain.rs:62-65 | no path gives no entries; a readable file gives `HostEntries` of its contents; an unreadable one gives the reader's error |
| Text.ReplaceTabs | src/domain.rs:11 | same length; each tab becomes a space and every other character stays in place |
| Text.TrimStart | src/domain.rs:11 | a suffix of the input; only whitespace was removed; it does not start with whitespace |
| Text.TrimEnd | src/domain.rs:11 | a prefix of the input; only whitespace was removed; it does not end with whitespace |
| Text.Trim | src/domain.rs:11 | a contiguous slice of the input with only whitespace before and after it, and neither starting nor ending with whitespace |
| Text.TrimUnpadded | src/domain.rs:11 | trimming a string that has no surrounding whitespace leaves it unchanged |
| Text.Split | src/domain.rs:17 | at least one part, and no part holds the separator |
| Text.SplitJoin | src/domain.rs:45 | joining the parts with the separator gives back the input |
| Text.SplitWithoutSeparator | src/domain.rs:45 | a string without the separator is a single part |
| Text.SplitAtSeparator | src/domain.rs:45 | the parts of `a + sep + b` are those of `a` followed by those of `b` |
| Text.Fields | src/domain.rs:17 | every field is non-empty and holds no space |
| Text.FieldsAtSpace | src/domain.rs:17 | the fields of `a + " " + b` are those of `a` followed by those of `b` |
| Text.FieldsOfWord | src/domain.rs:17 | a non-empty word without spaces is one field |
| Seqs.Filter | src/domain.rs:55-58 | an order-preserving subsequence holding exactly the elements that satisfy the predicate |
| Seqs.FilterMultiset | src/domain.rs:55-58 | every copy of a kept element is kept: each count in the result equals its count in the input, or zero if the element is dropped |
| Seqs.MapSeq | src/domain.rs:47 | element `i` of the result is the function applied to element `i` of the input |
| Seqs.Flatten | src/domain.rs:48 | exactly the values of the `Some`s, and no more of them than there are elements |
| Seqs.FilterConcat | src/main.rs:157-158 | filtering distributes over concatenation |
| Seqs.FlattenConcat | src/domain.rs:44-49 | flattening distributes over concatenation |
| Server.AddrToRecord | src/main.rs:84-100 | fails exactly when the name is not a valid DNS name; otherwise an IN record with TTL 3600, type A for IPv4 and AAAA for IPv6, carrying the address |
| Server.LocalRecords | src/main.rs:154-161 | no more records than entries, and none for a type other than A and AAAA; characterised by LocalRecordsAnswer, LocalRecordsConcat and LocalRecordsOfEntry |
| Server.LocalRecordsAnswer | src/main.rs:146-163 | every local record has the queried type and name, TTL 3600 and class IN, and carries the address of a listed entry of that name and family; every such entry with a valid name contributes its record |
| Server.LocalRecordsConcat | src/main.rs:154-161 | local answers keep list order: those of `a + b` are those of `a`, then those of `b` |
| Server.LocalRecordsOfEntry | src/main.rs:154-161 | a one-entry list answers with that entry's record exactly when its family, name and name syntax match |
| Server.LocalListExample | src/main.rs:146-163 | with a sinkhole for `ads.example.`, an A query for it gives `0.0.0.0`; an AAAA query for it, or an A query for an unlisted name, gives nothing |
| Server.LocalRequest | src/main.rs:146-163 | always `NoError`; the local records for an A or AAAA query, and no records for any other type |
| Server.RemoteResponse | src/main.rs:137-143 | `NoError` with the resolver's records on success; `ServFail` with no records on failure |
| Server.CacheAnswers | src/main.rs:102-109 | an empty answer leaves the table unchanged; a non-empty one is served for five minutes under the query's key; other keys are untouched |
| Server.Respond | src/main.rs:168-203 | exactly the non-address queries are rejected, and only they get `NotImp`; `ServFail` comes only from the upstream tier, with no records and the cache unchanged; a rejected or cached answer leaves the cache unchanged; a local answer is never empty |
| Server.TypeGate | src/main.rs:173-182 | a non-address query gets `NotImp` with no records and leaves the cache unchanged |
| Server.CacheHitWins | src/main.rs:185-190 | a cached answer wins over the local list and the upstream, and leaves the cache unchanged |
| Server.LocalBeforeRemote | src/main.rs:191-196 | on a miss, a non-empty local answer is cached and returned with `NoError`, whatever the upstream would say |
| Server.RemoteTier | src/main.rs:199-202 | with no cache or local answer, an upstream failure gives `ServFail` with no records and caches nothing; a success gives its records with `NoError` and caches them if there are any |
| Server.NeverCachesEmpty | src/main.rs:191-202 | a query leaves the table unchanged, or stores the non-empty answer it returned under its own key |
| Server.RepeatIsCacheHit | src/main.rs:185-200 | a non-empty local or upstream answer is served from the cache to the same query up to five minutes after it was stored, whatever the upstream says then, and not after |
| Server.FailureIsRetried | src/main.rs:199-202 | after an upstream failure (`ServFail`) or an empty upstream answer, nothing is cached and the same query, at the same or a later time, goes upstream again |
| Server.SweepKeepsAnswers | src/cache.rs:24-48 | a sweep at the time of a query does not change how the query is answered |
| Server.StartupDomains | src/main.rs:217-222 | the handler's list is the ad file's sinkhole entries followed by the hosts file's entries; a read failure of either file stops the start-up with that file's error, the ad file being read first |
| Server.StartupAnswerOrder | src/main.rs:222 | for every query the ad file's answers come before the hosts file's |
| Server.Resolver.constructor | src/main.rs:229 | a new resolver has made no lookups |
| Server.Resolver.Lookup | src/main.rs:137 | returns the oracle's answer for this call and appends the query to the call log |
| Server.Handler.constructor | src/main.rs:76-82 | the handler holds the given resolver, entry list and cache |
| Server.Handler.AddToCache | src/main.rs:102-109 | the cache table becomes `CacheAnswers` of the old one: unchanged for an empty answer set |
| Server.Handler.GetFromCache | src/main.rs:111-115 | the cache's answer for the query's `(type, name)` key at `now` |
| Server.Handler.RemoteRequest | src/main.rs:134-144 | exactly one upstream lookup; `NoError` with its records, or `ServFail` with none |
| Server.Handler.HandleRequest | src/main.rs:168-203 | the response, the new cache table and the answering tier are those of `Respond`; the upstream is consulted once when the upstream tier answers, and never otherwise |

## Left out

- The network layer is not modelled: the command line, logging, binding the UDP and TCP listeners, and the server loop in `main`. The check on the listener flags and the composition of the entry list are modelled.
- `send_response` (building and sending the reply message) is not modelled. The handler returns the response code and the answer records it would send.
- The upstream resolver's internals (its configuration and the network lookups) are not modelled. Its answers are an oracle parameter.
- `ip_bin` (running `which ip`) is not modelled: it is a process call.
- Reading files is not modelled: `FileReader` is a parameter. So are the standard library's address parser and the DNS library's name parser, `IpParser` and `NameParser`.
- The DNS library's record internals are not modelled beyond name, type, class, TTL and address data. How the query name is printed, e.g. with a trailing dot, is taken as given.
- The periodic sweep is not modelled. `main` calls `cache.cleanup()`, which the cache module does not define. `Clean` is modelled as one sweep.
- Concurrency is not modelled. The cache's mutex, concurrent queries and their interleaving, and overlapping upstream lookups for one key are all left out. Each query runs to completion on its own.
- Cache.Cache.Clean: reads the clock once per sweep. The source reads it again for every entry.
- Server.Handler.HandleRequest: reads the clock twice. The cache lookup and the local insert share `now`, and the upstream insert gets `remoteNow`. The source reads the clock inside each cache call.
- `Domain.IsSinkhole` compares the address with `0.0.0.0`. The source compares the address's text form with `"0.0.0.0"`, and only the unspecified IPv4 address prints that way.
