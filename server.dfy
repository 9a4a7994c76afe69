/**
 * The request handler: for each query it rejects non-address types, then
 * answers from the cache, else from the local entry list, else from the
 * upstream resolver, and writes every non-empty local or upstream answer
 * back into the cache.
 *
 * The pure function `Respond` states what one query does to the response and
 * to the cache table; `Handler.HandleRequest` is proved to do exactly that.
 */
module Server {

  import opened Wrappers
  import opened Dns
  import opened Seqs
  import opened Domain
  import Cache

  /** The TTL of the records built from local entries. */
  const LOCAL_TTL: u32 := 3600

  /** `Name::from_utf8`, the protocol library's name parser, supplied by the caller. */
  type NameParser = string -> Option<Name>

  datatype NameError = InvalidName

  /** A query: the queried name (as the protocol layer prints it) and the queried type. */
  datatype Query = Query(name: string, qtype: RType)

  /** What is handed to the responder: a response code and the answer records. */
  datatype Response = Response(code: ResponseCode, answers: seq<Record>)

  /** Any failure of the upstream lookup; the handler does not tell them apart. */
  datatype ResolveError = ResolveError

  type LookupResult = Result<seq<Record>, ResolveError>

  /** Which step answered a query (the handler logs "cached", "local" or "remote" response). */
  datatype Served = Rejected | FromCache | FromLocal | FromRemote

  /** What one query produces: the response, the cache table afterwards, and the step that answered. */
  datatype Outcome = Outcome(response: Response, db: map<Cache.Key, Cache.Entry>, served: Served)

  function KeyOf(q: Query): Cache.Key
  {
    (q.qtype, q.name)
  }

  /** Only A (RFC 1035 section 3.4.1) and AAAA (RFC 3596 section 2.1) queries are served. */
  predicate IsAddressType(t: RType)
  {
    t.A? || t.AAAA?
  }

  /**
   * `addr_to_record`: the record for a local entry. It fails exactly when the
   * name is not a valid DNS name; otherwise it is an IN record with TTL 3600
   * whose type is the address family of `ip` and which carries `ip`.
   */
  function AddrToRecord(ip: IpAddr, name: string, nameFromUtf8: NameParser): (r: Result<Record, NameError>)
    ensures r.Ok? <==> nameFromUtf8(name).Some?
    ensures r.Ok? ==> r.value.name == nameFromUtf8(name).value
    ensures r.Ok? ==> r.value.ttl == LOCAL_TTL && r.value.dnsClass == IN
    ensures r.Ok? ==> (r.value.rrType == A <==> ip.V4?) && (r.value.rrType == AAAA <==> ip.V6?)
    ensures r.Ok? ==> AddressOf(r.value) == Some(ip)
  {
    match nameFromUtf8(name)
    case None => Err(InvalidName)
    case Some(n) =>
      match ip
      case V4(a) => Ok(Record(n, A, IN, LOCAL_TTL, AData(a)))
      case V6(a) => Ok(Record(n, AAAA, IN, LOCAL_TTL, AAAAData(a)))
  }

  /** The address-family test `local_request` applies for an A or AAAA query. */
  predicate FamilyMatches(qt: RType, ip: IpAddr)
  {
    (qt.A? && ip.V4?) || (qt.AAAA? && ip.V6?)
  }

  /** The `filter` closure `local_request` picks for an A or AAAA query. */
  function FamilyFilter(qt: RType): DomainEntry -> bool
  {
    (e: DomainEntry) => FamilyMatches(qt, e.ip)
  }

  function NameFilter(name: string): DomainEntry -> bool
  {
    (e: DomainEntry) => e.name == name
  }

  /** `addr_to_record` as a closure over entries, with its failures turned into `None`. */
  function ToRecord(nameFromUtf8: NameParser): DomainEntry -> Option<Record>
  {
    (e: DomainEntry) => AddrToRecord(e.ip, e.name, nameFromUtf8).ToOption()
  }

  /**
   * The records the local list gives for an address query: the entries of the
   * right family, then those with exactly the queried name, each made a record,
   * dropping those whose name is not a valid DNS name.
   */
  function LocalRecords(domains: seq<DomainEntry>, q: Query, nameFromUtf8: NameParser): (r: seq<Record>)
    ensures |r| <= |domains|
    ensures !IsAddressType(q.qtype) ==> r == []
  {
    var family := Filter(FamilyFilter(q.qtype), domains);
    assert !IsAddressType(q.qtype) ==> family == [] by {
      if family != [] {
        assert FamilyFilter(q.qtype)(family[0]);
      }
    }
    var named := Filter(NameFilter(q.name), family);
    Flatten(MapSeq(ToRecord(nameFromUtf8), named))
  }

  /**
   * Every local record answers the query: it has the queried type, TTL 3600,
   * class IN and the queried name, and carries the address of an entry with
   * that name and family. Conversely every such entry whose name is a valid
   * DNS name contributes its record.
   */
  lemma LocalRecordsAnswer(domains: seq<DomainEntry>, q: Query, nameFromUtf8: NameParser)
    ensures forall r :: r in LocalRecords(domains, q, nameFromUtf8) ==>
              && r.rrType == q.qtype && r.ttl == LOCAL_TTL && r.dnsClass == IN
              && nameFromUtf8(q.name) == Some(r.name)
              && exists e :: e in domains && e.name == q.name && FamilyMatches(q.qtype, e.ip) && AddressOf(r) == Some(e.ip)
    ensures forall e :: e in domains && e.name == q.name && FamilyMatches(q.qtype, e.ip) && nameFromUtf8(e.name).Some? ==>
              AddrToRecord(e.ip, e.name, nameFromUtf8).value in LocalRecords(domains, q, nameFromUtf8)
  {
    var family := Filter(FamilyFilter(q.qtype), domains);
    var named := Filter(NameFilter(q.name), family);
    var built := MapSeq(ToRecord(nameFromUtf8), named);
    var rs := LocalRecords(domains, q, nameFromUtf8);
    forall r | r in rs
      ensures && r.rrType == q.qtype && r.ttl == LOCAL_TTL && r.dnsClass == IN
              && nameFromUtf8(q.name) == Some(r.name)
              && exists e :: e in domains && e.name == q.name && FamilyMatches(q.qtype, e.ip) && AddressOf(r) == Some(e.ip)
    {
      assert Some(r) in built;
      var i :| 0 <= i < |built| && built[i] == Some(r);
      var e := named[i];
      assert e in named;
      assert AddrToRecord(e.ip, e.name, nameFromUtf8) == Ok(r);
    }
    forall e | e in domains && e.name == q.name && FamilyMatches(q.qtype, e.ip) && nameFromUtf8(e.name).Some?
      ensures AddrToRecord(e.ip, e.name, nameFromUtf8).value in rs
    {
      assert e in family;
      assert e in named;
      var i :| 0 <= i < |named| && named[i] == e;
      assert built[i] == Some(AddrToRecord(e.ip, e.name, nameFromUtf8).value);
    }
  }

  /** The local records keep list order: those of `a + b` are those of `a`, then those of `b`. */
  lemma LocalRecordsConcat(a: seq<DomainEntry>, b: seq<DomainEntry>, q: Query, nameFromUtf8: NameParser)
    ensures LocalRecords(a + b, q, nameFromUtf8) == LocalRecords(a, q, nameFromUtf8) + LocalRecords(b, q, nameFromUtf8)
  {
    var fa := Filter(FamilyFilter(q.qtype), a);
    var fb := Filter(FamilyFilter(q.qtype), b);
    FilterConcat(FamilyFilter(q.qtype), a, b);
    var na := Filter(NameFilter(q.name), fa);
    var nb := Filter(NameFilter(q.name), fb);
    FilterConcat(NameFilter(q.name), fa, fb);
    MapSeqConcat(ToRecord(nameFromUtf8), na, nb);
    FlattenConcat(MapSeq(ToRecord(nameFromUtf8), na), MapSeq(ToRecord(nameFromUtf8), nb));
  }

  /** A one-entry list answers with that entry's record exactly when it matches the query. */
  lemma LocalRecordsOfEntry(e: DomainEntry, q: Query, nameFromUtf8: NameParser)
    ensures LocalRecords([e], q, nameFromUtf8) ==
              if FamilyMatches(q.qtype, e.ip) && e.name == q.name && nameFromUtf8(e.name).Some?
              then [AddrToRecord(e.ip, e.name, nameFromUtf8).value]
              else []
  {
  }

  /** `local_request`: always `NoError`; no records for a type other than A and AAAA. */
  function LocalRequest(domains: seq<DomainEntry>, q: Query, nameFromUtf8: NameParser): (r: Response)
    ensures r.code == NoError
    ensures !IsAddressType(q.qtype) ==> r.answers == []
    ensures IsAddressType(q.qtype) ==> r.answers == LocalRecords(domains, q, nameFromUtf8)
  {
    if !IsAddressType(q.qtype) then Response(NoError, [])
    else Response(NoError, LocalRecords(domains, q, nameFromUtf8))
  }

  /** `remote_request` after the lookup: the resolver's records, or `ServFail` with none. */
  function RemoteResponse(outcome: LookupResult): (r: Response)
    ensures r.code == NoError <==> outcome.Ok?
    ensures r.code == ServFail <==> outcome.Err?
    ensures outcome.Ok? ==> r.answers == outcome.value
    ensures outcome.Err? ==> r.answers == []
  {
    match outcome
    case Ok(records) => Response(NoError, records)
    case Err(_) => Response(ServFail, [])
  }

  /** `add_to_cache`: stores the answers under the query's key, unless there are none. */
  function CacheAnswers(db: map<Cache.Key, Cache.Entry>, q: Query, answers: seq<Record>, now: int)
    : (r: map<Cache.Key, Cache.Entry>)
    ensures answers == [] ==> r == db
    ensures answers != [] ==> forall t :: Cache.Lookup(r, KeyOf(q), t) == if t <= now + Cache.TTL_MILLIS then Some(answers) else None
    ensures forall k :: k != KeyOf(q) ==> (k in r <==> k in db) && (k in r ==> r[k] == db[k])
  {
    if answers == [] then db else Cache.Store(db, KeyOf(q), answers, now)
  }

  /**
   * One query, start to finish: the table `db` is the cache before it, `now`
   * the time of the cache lookup and of the local step, `upstream` what the
   * resolver would answer and `remoteNow` the time its answer arrives.
   */
  function Respond(db: map<Cache.Key, Cache.Entry>, domains: seq<DomainEntry>, nameFromUtf8: NameParser,
                   q: Query, now: int, upstream: LookupResult, remoteNow: int): (r: Outcome)
    ensures r.served == Rejected <==> !IsAddressType(q.qtype)
    ensures r.response.code == NotImp <==> r.served == Rejected
    ensures r.response.code == ServFail ==> r.served == FromRemote && r.response.answers == [] && r.db == db
    ensures r.served == Rejected || r.served == FromCache ==> r.db == db
    ensures r.served == FromLocal ==> r.response.answers != []
  {
    if !IsAddressType(q.qtype) then Outcome(Response(NotImp, []), db, Rejected)
    else match Cache.Lookup(db, KeyOf(q), now)
      case Some(answers) => Outcome(Response(NoError, answers), db, FromCache)
      case None =>
        var local := LocalRequest(domains, q, nameFromUtf8);
        var db' := CacheAnswers(db, q, local.answers, now);
        if local.answers != [] then Outcome(local, db', FromLocal)
        else
          var remote := RemoteResponse(upstream);
          Outcome(remote, CacheAnswers(db', q, remote.answers, remoteNow), FromRemote)
  }

  /** A query of a type other than A and AAAA gets `NotImp` and no records, and the cache is left as it was. */
  lemma TypeGate(db: map<Cache.Key, Cache.Entry>, domains: seq<DomainEntry>, nameFromUtf8: NameParser,
                 q: Query, now: int, upstream: LookupResult, remoteNow: int)
    requires !IsAddressType(q.qtype)
    ensures Respond(db, domains, nameFromUtf8, q, now, upstream, remoteNow) ==
              Outcome(Response(NotImp, []), db, Rejected)
  {
  }

  /** A cached answer wins over the local list and the upstream, and the cache is left as it was. */
  lemma CacheHitWins(db: map<Cache.Key, Cache.Entry>, domains: seq<DomainEntry>, nameFromUtf8: NameParser,
                     q: Query, now: int, upstream: LookupResult, remoteNow: int)
    requires IsAddressType(q.qtype) && Cache.Lookup(db, KeyOf(q), now).Some?
    ensures Respond(db, domains, nameFromUtf8, q, now, upstream, remoteNow) ==
              Outcome(Response(NoError, Cache.Lookup(db, KeyOf(q), now).value), db, FromCache)
  {
  }

  /**
   * On a cache miss, a non-empty local answer is cached for five minutes and
   * returned with `NoError`; what the upstream would have answered plays no part.
   */
  lemma LocalBeforeRemote(db: map<Cache.Key, Cache.Entry>, domains: seq<DomainEntry>, nameFromUtf8: NameParser,
                          q: Query, now: int, upstream: LookupResult, remoteNow: int,
                          otherUpstream: LookupResult, otherRemoteNow: int)
    requires IsAddressType(q.qtype) && Cache.Lookup(db, KeyOf(q), now) == None
    requires LocalRecords(domains, q, nameFromUtf8) != []
    ensures var local := LocalRecords(domains, q, nameFromUtf8);
            Respond(db, domains, nameFromUtf8, q, now, upstream, remoteNow) ==
              Outcome(Response(NoError, local), Cache.Store(db, KeyOf(q), local, now), FromLocal)
    ensures Respond(db, domains, nameFromUtf8, q, now, upstream, remoteNow) ==
              Respond(db, domains, nameFromUtf8, q, now, otherUpstream, otherRemoteNow)
  {
  }

  /**
   * When neither the cache nor the local list answers, the upstream does: a
   * failure gives `ServFail` with no records and caches nothing; a success
   * gives `NoError` with the resolver's records, cached only if there are any.
   */
  lemma RemoteTier(db: map<Cache.Key, Cache.Entry>, domains: seq<DomainEntry>, nameFromUtf8: NameParser,
                   q: Query, now: int, upstream: LookupResult, remoteNow: int)
    requires IsAddressType(q.qtype) && Cache.Lookup(db, KeyOf(q), now) == None
    requires LocalRecords(domains, q, nameFromUtf8) == []
    ensures var o := Respond(db, domains, nameFromUtf8, q, now, upstream, remoteNow);
            && o.served == FromRemote
            && (upstream.Err? ==> o.response == Response(ServFail, []) && o.db == db)
            && (upstream.Ok? ==> o.response == Response(NoError, upstream.value))
            && (upstream.Ok? && upstream.value == [] ==> o.db == db)
            && (upstream.Ok? && upstream.value != [] ==> o.db == Cache.Store(db, KeyOf(q), upstream.value, remoteNow))
  {
  }

  /**
   * An empty answer is never cached: a query leaves the table as it was, or
   * stores the non-empty answer it returned, under its own key, stamped with
   * the time of the step that produced it.
   */
  lemma NeverCachesEmpty(db: map<Cache.Key, Cache.Entry>, domains: seq<DomainEntry>, nameFromUtf8: NameParser,
                         q: Query, now: int, upstream: LookupResult, remoteNow: int)
    ensures var o := Respond(db, domains, nameFromUtf8, q, now, upstream, remoteNow);
            || o.db == db
            || (&& o.served == FromLocal && o.response.answers != []
                && o.db == Cache.Store(db, KeyOf(q), o.response.answers, now))
            || (&& o.served == FromRemote && o.response.answers != []
                && o.db == Cache.Store(db, KeyOf(q), o.response.answers, remoteNow))
  {
  }

  /**
   * A non-empty answer from the local list or the upstream is served from the
   * cache to the same query exactly until five minutes after it was stored,
   * whatever the upstream would answer then.
   */
  lemma RepeatIsCacheHit(db: map<Cache.Key, Cache.Entry>, domains: seq<DomainEntry>, nameFromUtf8: NameParser,
                         q: Query, now: int, upstream: LookupResult, remoteNow: int,
                         later: int, laterUpstream: LookupResult, laterRemoteNow: int)
    requires var o := Respond(db, domains, nameFromUtf8, q, now, upstream, remoteNow);
             (o.served == FromLocal || o.served == FromRemote) && o.response.answers != []
    ensures var o := Respond(db, domains, nameFromUtf8, q, now, upstream, remoteNow);
            var storedAt := if o.served == FromLocal then now else remoteNow;
            var again := Respond(o.db, domains, nameFromUtf8, q, later, laterUpstream, laterRemoteNow);
            && (later <= storedAt + Cache.TTL_MILLIS ==>
                  again == Outcome(Response(NoError, o.response.answers), o.db, FromCache))
            && (later > storedAt + Cache.TTL_MILLIS ==> again.served != FromCache)
  {
    var o := Respond(db, domains, nameFromUtf8, q, now, upstream, remoteNow);
    var storedAt := if o.served == FromLocal then now else remoteNow;
    NeverCachesEmpty(db, domains, nameFromUtf8, q, now, upstream, remoteNow);
    Cache.StoreThenLookup(db, KeyOf(q), o.response.answers, storedAt, later);
  }

  /**
   * An upstream failure or an empty upstream answer is not cached, so the same
   * query at the same or a later time goes to the upstream again.
   */
  lemma FailureIsRetried(db: map<Cache.Key, Cache.Entry>, domains: seq<DomainEntry>, nameFromUtf8: NameParser,
                         q: Query, now: int, upstream: LookupResult, remoteNow: int,
                         later: int, laterUpstream: LookupResult, laterRemoteNow: int)
    requires IsAddressType(q.qtype) && Cache.Lookup(db, KeyOf(q), now) == None
    requires LocalRecords(domains, q, nameFromUtf8) == []
    requires upstream.Err? || upstream.value == []
    requires now <= later
    ensures var o := Respond(db, domains, nameFromUtf8, q, now, upstream, remoteNow);
            && o.response.answers == [] && o.db == db
            && (upstream.Err? ==> o.response.code == ServFail)
            && Respond(o.db, domains, nameFromUtf8, q, later, laterUpstream, laterRemoteNow).served == FromRemote
  {
    Cache.MissPersists(db, KeyOf(q), now, later);
  }

  /** A sweep at the time of a query does not change how the query is answered. */
  lemma SweepKeepsAnswers(db: map<Cache.Key, Cache.Entry>, domains: seq<DomainEntry>, nameFromUtf8: NameParser,
                          q: Query, now: int, upstream: LookupResult, remoteNow: int)
    ensures var swept := Respond(Cache.Sweep(db, now), domains, nameFromUtf8, q, now, upstream, remoteNow);
            var kept := Respond(db, domains, nameFromUtf8, q, now, upstream, remoteNow);
            swept.response == kept.response && swept.served == kept.served
  {
    Cache.SweepKeepsLookups(db, now, KeyOf(q));
  }

  /**
   * A list holding a sinkhole for `ads.example.` and an IPv6 entry for
   * `host.example.` answers an A query for `ads.example.` with `0.0.0.0`, and
   * an AAAA query for it, or an A query for an unlisted name, with nothing.
   */
  lemma LocalListExample()
    ensures var sink := DomainEntry("ads.example.", V4(Ipv4(0, 0, 0, 0)));
            var host := DomainEntry("host.example.", V6(Ipv6(1)));
            var asIs: NameParser := (n: string) => Some(n);
            && LocalRecords([sink, host], Query("ads.example.", A), asIs) ==
                 [Record("ads.example.", A, IN, LOCAL_TTL, AData(Ipv4(0, 0, 0, 0)))]
            && LocalRecords([sink, host], Query("ads.example.", AAAA), asIs) == []
            && LocalRecords([sink, host], Query("unknown.example.", A), asIs) == []
  {
    var sink := DomainEntry("ads.example.", V4(Ipv4(0, 0, 0, 0)));
    var host := DomainEntry("host.example.", V6(Ipv6(1)));
    var asIs: NameParser := (n: string) => Some(n);
    var qa, q6, qu := Query("ads.example.", A), Query("ads.example.", AAAA), Query("unknown.example.", A);
    assert [sink, host] == [sink] + [host];
    assert "unknown.example."[0] != "ads.example."[0];
    LocalRecordsConcat([sink], [host], qa, asIs);
    LocalRecordsOfEntry(sink, qa, asIs);
    LocalRecordsOfEntry(host, qa, asIs);
    LocalRecordsConcat([sink], [host], q6, asIs);
    LocalRecordsOfEntry(sink, q6, asIs);
    LocalRecordsOfEntry(host, q6, asIs);
    LocalRecordsConcat([sink], [host], qu, asIs);
    LocalRecordsOfEntry(sink, qu, asIs);
    LocalRecordsOfEntry(host, qu, asIs);
  }

  /**
   * The entry list the handler is built with at start-up: the sinkhole
   * entries of the ad file followed by all entries of the hosts file. A file
   * that cannot be read stops the start-up; the ad file is read first.
   */
  function StartupDomains(adFile: Option<string>, hostsFile: Option<string>, readFile: FileReader, parseIp: IpParser)
    : (r: Result<seq<DomainEntry>, IoError>)
    ensures var ads := LoadDomainList(adFile, readFile, parseIp);
            var hosts := LoadHostList(hostsFile, readFile, parseIp);
            && (r.Err? <==> ads.Err? || hosts.Err?)
            && (ads.Err? ==> r == Err(ads.error))
            && (ads.Ok? && hosts.Err? ==> r == Err(hosts.error))
            && (r.Ok? ==> r.value == ads.value + hosts.value)
    ensures r.Ok? ==> forall e :: e in r.value ==> EndsWithDot(e.name)
  {
    match LoadDomainList(adFile, readFile, parseIp)
    case Err(e) => Err(e)
    case Ok(ads) =>
      match LoadHostList(hostsFile, readFile, parseIp)
      case Err(e) => Err(e)
      case Ok(hosts) => Ok(ads + hosts)
  }

  /**
   * For every query the ad file's answers come first and the hosts file's
   * after them, so a name in both is answered with the sinkhole first.
   */
  lemma StartupAnswerOrder(adFile: Option<string>, hostsFile: Option<string>, readFile: FileReader, parseIp: IpParser,
                           q: Query, nameFromUtf8: NameParser)
    requires StartupDomains(adFile, hostsFile, readFile, parseIp).Ok?
    ensures LocalRecords(StartupDomains(adFile, hostsFile, readFile, parseIp).value, q, nameFromUtf8) ==
              LocalRecords(LoadDomainList(adFile, readFile, parseIp).value, q, nameFromUtf8) +
              LocalRecords(LoadHostList(hostsFile, readFile, parseIp).value, q, nameFromUtf8)
  {
    LocalRecordsConcat(LoadDomainList(adFile, readFile, parseIp).value, LoadHostList(hostsFile, readFile, parseIp).value,
                       q, nameFromUtf8);
  }

  /**
   * The upstream resolver, seen from the handler: `upstream(i, q)` is what the
   * `i`-th lookup through it returns, and `calls` lists the lookups made so far.
   */
  class Resolver {
    const upstream: (nat, Query) -> LookupResult
    var calls: seq<Query>

    constructor (upstream: (nat, Query) -> LookupResult)
      ensures this.upstream == upstream && calls == []
    {
      this.upstream := upstream;
      calls := [];
    }

    method Lookup(q: Query) returns (r: LookupResult)
      modifies this
      ensures calls == old(calls) + [q]
      ensures r == upstream(|old(calls)|, q)
    {
      r := upstream(|calls|, q);
      calls := calls + [q];
    }
  }

  class Handler {
    const resolver: Resolver
    const domains: seq<DomainEntry>
    const cache: Cache.Cache
    const nameFromUtf8: NameParser

    constructor (resolver: Resolver, domains: seq<DomainEntry>, cache: Cache.Cache, nameFromUtf8: NameParser)
      ensures this.resolver == resolver && this.domains == domains
      ensures this.cache == cache && this.nameFromUtf8 == nameFromUtf8
    {
      this.resolver := resolver;
      this.domains := domains;
      this.cache := cache;
      this.nameFromUtf8 := nameFromUtf8;
    }

    method AddToCache(q: Query, records: seq<Record>, now: int)
      modifies cache
      ensures cache.db == CacheAnswers(old(cache.db), q, records, now)
    {
      if records == [] {
        return;
      }
      cache.Insert(q.qtype, q.name, records, now);
    }

    method GetFromCache(q: Query, now: int) returns (r: Option<seq<Record>>)
      ensures r == Cache.Lookup(cache.db, KeyOf(q), now)
    {
      r := cache.Get(q.qtype, q.name, now);
    }

    method RemoteRequest(q: Query) returns (r: Response)
      modifies resolver
      ensures resolver.calls == old(resolver.calls) + [q]
      ensures var outcome := resolver.upstream(|old(resolver.calls)|, q);
              && (outcome.Err? ==> r == Response(ServFail, []))
              && (outcome.Ok? ==> r == Response(NoError, outcome.value))
    {
      var outcome := resolver.Lookup(q);
      match outcome
      case Ok(records) => r := Response(NoError, records);
      case Err(_) => r := Response(ServFail, []);
    }

    /**
     * `handle_request`: answers `q` as `Respond` says, consulting the resolver
     * only when it answers from upstream.
     */
    method HandleRequest(q: Query, now: int, remoteNow: int) returns (response: Response, served: Served)
      modifies cache, resolver
      ensures Outcome(response, cache.db, served) ==
                Respond(old(cache.db), domains, nameFromUtf8, q, now,
                        resolver.upstream(|old(resolver.calls)|, q), remoteNow)
      ensures resolver.calls == old(resolver.calls) + (if served == FromRemote then [q] else [])
    {
      if !IsAddressType(q.qtype) {
        return Response(NotImp, []), Rejected;
      }
      var cached := GetFromCache(q, now);
      if cached.Some? {
        return Response(NoError, cached.value), FromCache;
      }
      var local := LocalRequest(domains, q, nameFromUtf8);
      AddToCache(q, local.answers, now);
      if local.answers != [] {
        return local, FromLocal;
      }
      response := RemoteRequest(q);
      AddToCache(q, response.answers, remoteNow);
      served := FromRemote;
    }
  }
}
