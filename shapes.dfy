/**
  The shapes of label set that the provider's configuration test table
  uses, each decoded and assembled once for any names, ports and
  addresses: a label list and what it decodes to, what a record with such
  labels contributes, and what the builder hands over for one or two such
  records.
*/
module Shapes {
  import opened Wrappers
  import opened Strings
  import opened Tables
  import opened Dynamic
  import opened Labels
  import opened Rancher
  import opened Builder

  /** The record once its settings say it is exposed. */
  function Enabled(r: Record): Record
  {
    r.(extraConf := ExtraConf(true))
  }

  /**
    A record that is exposed by default, has no enable label, matches the
    constraint and passes the health filter takes part, and contributes
    what its decoded labels assemble to.
  */
  lemma KeptContribution(settings: Settings, raw: Record, d: Decoded, c: Configuration)
    requires settings.exposedByDefault && EnableKey !in raw.labels
    requires Matches(settings.constraint, raw.labels)
    requires settings.healthFilter ==> HealthAccepted(raw.health) && StateAccepted(raw.state)
    requires Decode(raw.labels) == Ok(d)
    requires Assemble(Enabled(raw), d) == Some(c)
    ensures Keep(settings, Prepared(settings, raw))
    ensures BuildRecord(settings, Prepared(settings, raw)) == Some(c)
  {
    assert Prepared(settings, raw) == Enabled(raw);
  }

  /** Such a record on its own: the builder hands over exactly its contribution. */
  lemma KeptSingle(settings: Settings, raw: Record, d: Decoded, c: Configuration)
    requires settings.exposedByDefault && EnableKey !in raw.labels
    requires Matches(settings.constraint, raw.labels)
    requires settings.healthFilter ==> HealthAccepted(raw.health) && StateAccepted(raw.state)
    requires Decode(raw.labels) == Ok(d)
    requires Assemble(Enabled(raw), d) == Some(c)
    ensures Build(settings, PrepareAll(settings, [raw])) == c
  {
    KeptContribution(settings, raw, d, c);
    ContributedSingle(settings, raw, c);
  }

  /** One record prepared is the one prepared record. */
  lemma PreparedOne(settings: Settings, raw: Record)
    ensures PrepareAll(settings, [raw]) == [Prepared(settings, raw)]
  {
  }

  /** Two records prepared are the two prepared records, in order. */
  lemma PreparedTwo(settings: Settings, first: Record, second: Record)
    ensures PrepareAll(settings, [first, second]) == [Prepared(settings, first), Prepared(settings, second)]
  {
  }

  /** A record on its own: the builder hands over what it contributes, or the empty configuration. */
  lemma BuiltAlone(settings: Settings, raw: Record)
    ensures Build(settings, PrepareAll(settings, [raw])) == Contributed(BuildRecord(settings, Prepared(settings, raw)))
  {
    PreparedOne(settings, raw);
    BuildSingle(settings, Prepared(settings, raw));
  }

  /** A record that contributes a configuration, on its own: the builder hands over that configuration. */
  lemma ContributedSingle(settings: Settings, raw: Record, c: Configuration)
    requires BuildRecord(settings, Prepared(settings, raw)) == Some(c)
    ensures Build(settings, PrepareAll(settings, [raw])) == c
  {
    BuiltAlone(settings, raw);
  }

  /** A record the filter drops, on its own: the builder hands over the empty configuration. */
  lemma DroppedSingle(settings: Settings, raw: Record)
    requires !Keep(settings, Prepared(settings, raw))
    ensures Build(settings, PrepareAll(settings, [raw])) == Empty
  {
    BuiltAlone(settings, raw);
  }

  /** Two records with different names that both contribute, in name order: their contributions merged. */
  lemma ContributedPair(settings: Settings, first: Record, second: Record, x: Configuration, y: Configuration)
    requires BuildRecord(settings, Prepared(settings, first)) == Some(x)
    requires BuildRecord(settings, Prepared(settings, second)) == Some(y)
    requires first.name != second.name && NotAfter(first.name, second.name)
    ensures Build(settings, PrepareAll(settings, [first, second])) == Merge(x, y)
  {
    PreparedTwo(settings, first, second);
    BuildPair(settings, Prepared(settings, first), Prepared(settings, second));
  }

  /** What a record with no label under the decoded roots contributes: a router and a service named after it. */
  function Unlabelled(raw: Record): Configuration
  {
    Configuration(
      map[raw.name := Router(raw.name, DefaultRule(raw.name), [], false)],
      map[raw.name := Service(HttpServers(raw.containers, ServicePort(raw.port)), true)],
      map[], map[], map[])
  }

  /** The conditions under which a record contributes `Unlabelled`. */
  predicate UnlabelledKept(settings: Settings, raw: Record)
  {
    && settings.exposedByDefault && EnableKey !in raw.labels
    && (forall k | k in raw.labels :: Classify(k).Unrelated?)
    && Matches(settings.constraint, raw.labels)
    && (settings.healthFilter ==> HealthAccepted(raw.health) && StateAccepted(raw.state))
    && ServicePort(raw.port) != ""
  }

  /** A kept record with no label under the decoded roots contributes a default router and service. */
  lemma UnlabelledContribution(settings: Settings, raw: Record)
    requires UnlabelledKept(settings, raw)
    ensures BuildRecord(settings, Prepared(settings, raw)) == Some(Unlabelled(raw))
  {
    DecodeNothing(raw.labels);
    AssembleDefaults(Enabled(raw));
    KeptContribution(settings, raw, NoDeclarations, Unlabelled(raw));
  }

  /** Such a record on its own: the builder hands over one router and one service, both named after it. */
  lemma UnlabelledSingle(settings: Settings, raw: Record)
    requires UnlabelledKept(settings, raw)
    ensures Build(settings, PrepareAll(settings, [raw])) == Configuration(
      map[raw.name := Router(raw.name, DefaultRule(raw.name), [], false)],
      map[raw.name := Service(HttpServers(raw.containers, ServicePort(raw.port)), true)],
      map[], map[], map[])
  {
    UnlabelledContribution(settings, raw);
    ContributedSingle(settings, raw, Unlabelled(raw));
  }

  /**
    Two such records, in name order: the builder hands over a router and a
    service for each, each service with the servers of its own record.
  */
  lemma UnlabelledPair(settings: Settings, first: Record, second: Record)
    requires UnlabelledKept(settings, first) && UnlabelledKept(settings, second)
    requires first.name != second.name && NotAfter(first.name, second.name)
    ensures Build(settings, PrepareAll(settings, [first, second])) == Configuration(
      map[first.name := Router(first.name, DefaultRule(first.name), [], false),
          second.name := Router(second.name, DefaultRule(second.name), [], false)],
      map[first.name := Service(HttpServers(first.containers, ServicePort(first.port)), true),
          second.name := Service(HttpServers(second.containers, ServicePort(second.port)), true)],
      map[], map[], map[])
  {
    UnlabelledContribution(settings, first);
    UnlabelledContribution(settings, second);
    ContributedPair(settings, first, second, Unlabelled(first), Unlabelled(second));
    UnlabelledMerged(first, second);
  }

  /** A record's defaults sit under its own name only. */
  lemma UnlabelledOwned(r: Record)
    ensures OwnedBy(Unlabelled(r), r.name)
  {
  }

  /** Kept unlabelled records each contribute their defaults, which sit under their own name. */
  lemma UnlabelledContributions(settings: Settings, records: seq<Record>)
    requires forall i | 0 <= i < |records| :: UnlabelledKept(settings, records[i])
    ensures forall r | r in records :: BuildRecord(settings, Prepared(settings, r)) == Some(Unlabelled(r)) && OwnedBy(Unlabelled(r), r.name)
  {
    forall r | r in records ensures BuildRecord(settings, Prepared(settings, r)) == Some(Unlabelled(r)) && OwnedBy(Unlabelled(r), r.name) {
      UnlabelledContribution(settings, r);
      UnlabelledOwned(r);
    }
  }

  /**
    Any number of kept unlabelled records with distinct names: the builder
    hands over a router and a service under each record's name, and under
    no other name.
  */
  lemma UnlabelledNames(settings: Settings, records: seq<Record>)
    requires forall i | 0 <= i < |records| :: UnlabelledKept(settings, records[i])
    requires DistinctNames(records)
    ensures Build(settings, PrepareAll(settings, records)).routers.Keys == NameSet(records)
    ensures Build(settings, PrepareAll(settings, records)).services.Keys == NameSet(records)
  {
    UnlabelledContributions(settings, records);
    BuildOwnedKeys(settings, records, Unlabelled);
  }

  /** The same records: each router is the record's default router, and each service has the servers of that record alone. */
  lemma UnlabelledEntries(settings: Settings, records: seq<Record>)
    requires forall i | 0 <= i < |records| :: UnlabelledKept(settings, records[i])
    requires DistinctNames(records)
    ensures forall r | r in records ::
      r.name in Build(settings, PrepareAll(settings, records)).routers &&
      Build(settings, PrepareAll(settings, records)).routers[r.name] == Router(r.name, DefaultRule(r.name), [], false)
    ensures forall r | r in records ::
      r.name in Build(settings, PrepareAll(settings, records)).services &&
      Build(settings, PrepareAll(settings, records)).services[r.name] == Service(HttpServers(r.containers, ServicePort(r.port)), true)
  {
    UnlabelledContributions(settings, records);
    BuildOwnedEntries(settings, records, Unlabelled);
  }

  /** The same records: no middleware and nothing under TCP. */
  lemma UnlabelledHttpOnly(settings: Settings, records: seq<Record>)
    requires forall i | 0 <= i < |records| :: UnlabelledKept(settings, records[i])
    requires DistinctNames(records)
    ensures Build(settings, PrepareAll(settings, records)).middlewares == map[]
    ensures Build(settings, PrepareAll(settings, records)).tcpRouters == map[]
    ensures Build(settings, PrepareAll(settings, records)).tcpServices == map[]
  {
    UnlabelledContributions(settings, records);
    BuildOwnedKeys(settings, records, Unlabelled);
  }

  /** The defaults of two records with different names merge into both routers and both services. */
  lemma UnlabelledMerged(first: Record, second: Record)
    requires first.name != second.name
    ensures Merge(Unlabelled(first), Unlabelled(second)) == Configuration(
      map[first.name := Router(first.name, DefaultRule(first.name), [], false),
          second.name := Router(second.name, DefaultRule(second.name), [], false)],
      map[first.name := Service(HttpServers(first.containers, ServicePort(first.port)), true),
          second.name := Service(HttpServers(second.containers, ServicePort(second.port)), true)],
      map[], map[], map[])
  {
    var x, y := Unlabelled(first), Unlabelled(second);
    MergeDisjoint(x, y);
    JoinOnes(first.name, x.routers[first.name], second.name, y.routers[second.name]);
    JoinOnes(first.name, x.services[first.name], second.name, y.services[second.name]);
  }

  /** A contribution without TCP labels is the HTTP services, the routers over them and the declared middlewares. */
  lemma AssembledHttp(r: Record, d: Decoded, services: map<string, Service>, routers: map<string, Router>)
    requires !HasTcp(d)
    requires HttpServices(r.name, r.containers, ServicePort(r.port), d.services) == Some(services)
    requires HttpRouters(r.name, d.routers, services.Keys) == routers
    ensures Assemble(r, d) == Some(Configuration(routers, services, d.middlewares, map[], map[]))
  {
    assert Assemble(r, d) == HttpPart(r, ServicePort(r.port), d);
  }

  /**
    HTTP labels declaring one router that has a rule and names a service,
    and one service: that router as declared, and that service.
  */
  lemma RouterAndService(r: Record, d: Decoded, router: string, service: string)
    requires d.routers.Keys == {router} && d.services.Keys == {service} && !HasTcp(d)
    requires d.routers[router].rule != "" && d.routers[router].service != ""
    requires ResolvePort(d.services[service].port, ServicePort(r.port)) != ""
    ensures Assemble(r, d) == Some(Configuration(
      d.routers,
      map[service := Service(HttpServers(r.containers, ResolvePort(d.services[service].port, ServicePort(r.port))), d.services[service].passHostHeader)],
      d.middlewares, map[], map[]))
  {
    var port := ServicePort(r.port);
    var services := map[service := Service(HttpServers(r.containers, ResolvePort(d.services[service].port, port)), d.services[service].passHostHeader)];
    HttpServicesSingle(r.name, r.containers, port, d.services, service);
    assert router in d.routers;
    HttpRoutersAsDeclared(r.name, d.routers, services.Keys);
    AssembledHttp(r, d, services, d.routers);
  }

  /** Declared routers that all have a rule and name a service are kept as they are. */
  lemma HttpRoutersAsDeclared(name: string, declared: map<string, Router>, services: set<string>)
    requires declared != map[]
    requires forall n | n in declared :: declared[n].rule != "" && declared[n].service != ""
    ensures HttpRouters(name, declared, services) == declared
  {
    assert RoutersOf(name, declared, services) == declared;
    SameEntries(HttpRouters(name, declared, services), declared);
  }

  /**
    HTTP labels declaring one router and no service: the default service
    named after the record, and the router completed with the default rule
    when it has none and sent to that service when it names none.
  */
  lemma RouterOnly(r: Record, d: Decoded, router: string, declared: Router)
    requires d.routers == map[router := declared] && d.services == map[] && !HasTcp(d)
    requires ServicePort(r.port) != ""
    ensures Assemble(r, d) == Some(Configuration(
      map[router := Router(
        if declared.service == "" then r.name else declared.service,
        if declared.rule == "" then DefaultRule(r.name) else declared.rule,
        declared.middlewares, declared.tls)],
      map[r.name := Service(HttpServers(r.containers, ServicePort(r.port)), true)],
      d.middlewares, map[], map[]))
  {
    var services := map[r.name := Service(HttpServers(r.containers, ServicePort(r.port)), true)];
    DefaultServices(r.name, r.containers, ServicePort(r.port));
    assert services.Keys == {r.name};
    HttpRoutersOne(r.name, router, declared, r.name);
    SortedSingle(r.name);
    AssembledHttp(r, d, services, map[router := FillRouter(declared, r.name, {r.name})]);
  }

  /** HTTP labels declaring one service and no router: that service, and a default router named after the record sent to it. */
  lemma ServiceOnly(r: Record, d: Decoded, service: string, labels: ServiceLabels)
    requires d.routers == map[] && d.services == map[service := labels] && !HasTcp(d)
    requires ResolvePort(labels.port, ServicePort(r.port)) != ""
    ensures Assemble(r, d) == Some(Configuration(
      map[r.name := Router(service, DefaultRule(r.name), [], false)],
      map[service := Service(HttpServers(r.containers, ResolvePort(labels.port, ServicePort(r.port))), labels.passHostHeader)],
      d.middlewares, map[], map[]))
  {
    var services := map[service := Service(HttpServers(r.containers, ResolvePort(labels.port, ServicePort(r.port))), labels.passHostHeader)];
    HttpServicesOne(r.name, r.containers, ServicePort(r.port), service, labels);
    DefaultRouterFor(r.name, service, services[service]);
    AssembledHttp(r, d, services, map[r.name := Router(service, DefaultRule(r.name), [], false)]);
  }

  /** TCP labels and no HTTP ones: the TCP services and the routers kept over them, and nothing else. */
  lemma AssembleTcpOnly(r: Record, d: Decoded, services: map<string, TcpService>)
    requires HasTcp(d) && !HasHttp(d)
    requires TcpServices(r.name, r.containers, ServicePort(r.port), d.tcpServices) == Some(services)
    ensures Assemble(r, d) == Some(Configuration(map[], map[], map[], TcpRouters(d.tcpRouters, services.Keys), services))
  {
    var port := ServicePort(r.port);
    CombineTcpOnly(HasTcp(d), HasHttp(d), TcpPart(r, port, d), HttpPart(r, port, d));
  }

  /** TCP and HTTP labels: the HTTP half with the TCP services and the routers kept over them. */
  lemma AssembleBoth(r: Record, d: Decoded, services: map<string, TcpService>, h: Configuration)
    requires HasTcp(d) && HasHttp(d)
    requires TcpServices(r.name, r.containers, ServicePort(r.port), d.tcpServices) == Some(services)
    requires HttpPart(r, ServicePort(r.port), d) == Some(h)
    ensures Assemble(r, d) == Some(h.(tcpRouters := TcpRouters(d.tcpRouters, services.Keys), tcpServices := services))
  {
    var port := ServicePort(r.port);
    TcpPartOver(r, port, d, services);
    CombineBoth(Configuration(map[], map[], map[], TcpRouters(d.tcpRouters, services.Keys), services), h);
  }

  /** The TCP routers kept depend on the set of services only. */
  lemma TcpRoutersOver(declared: map<string, TcpRouter>, services: set<string>, same: set<string>)
    requires services == same
    ensures TcpRouters(declared, services) == TcpRouters(declared, same)
  {
  }

  /**
    TCP labels and no HTTP ones, declaring no TCP service: no HTTP part,
    the one TCP service named after the record on the declared port, and
    the declared TCP routers kept over it.
  */
  lemma TcpDefault(r: Record, d: Decoded)
    requires HasTcp(d) && !HasHttp(d) && d.tcpServices == map[]
    requires ServicePort(r.port) != ""
    ensures Assemble(r, d) == Some(Configuration(map[], map[], map[],
      TcpRouters(d.tcpRouters, {r.name}),
      map[r.name := TcpService(TcpServers(r.containers, ServicePort(r.port)))]))
  {
    var services := map[r.name := TcpService(TcpServers(r.containers, ServicePort(r.port)))];
    DefaultTcpServices(r.name, r.containers, ServicePort(r.port));
    AssembleTcpOnly(r, d, services);
    assert services.Keys == {r.name};
    TcpRoutersOver(d.tcpRouters, services.Keys, {r.name});
  }

  /**
    TCP labels and no HTTP ones, declaring one TCP service: no HTTP part,
    that service on its resolved port, and the declared TCP routers kept
    over it.
  */
  lemma TcpDeclared(r: Record, d: Decoded, service: string)
    requires HasTcp(d) && !HasHttp(d) && d.tcpServices.Keys == {service}
    requires ResolvePort(d.tcpServices[service], ServicePort(r.port)) != ""
    ensures Assemble(r, d) == Some(Configuration(map[], map[], map[],
      TcpRouters(d.tcpRouters, {service}),
      map[service := TcpService(TcpServers(r.containers, ResolvePort(d.tcpServices[service], ServicePort(r.port))))]))
  {
    var services := map[service := TcpService(TcpServers(r.containers, ResolvePort(d.tcpServices[service], ServicePort(r.port))))];
    assert services.Keys == {service};
    TcpServicesSingle(r.name, r.containers, ServicePort(r.port), d.tcpServices, service);
    AssembleTcpOnly(r, d, services);
    TcpRoutersOver(d.tcpRouters, services.Keys, {service});
  }

  /** The HTTP routers kept depend on the set of services only. */
  lemma HttpRoutersOver(name: string, declared: map<string, Router>, services: set<string>, same: set<string>)
    requires services == same
    ensures HttpRouters(name, declared, services) == HttpRouters(name, declared, same)
  {
  }

  /**
    TCP labels declaring one TCP service beside HTTP labels declaring one
    service and no router: both halves, the HTTP one with a default router
    named after the record.
  */
  lemma TcpAndHttpService(r: Record, d: Decoded, tcpService: string, service: string)
    requires d.tcpServices.Keys == {tcpService} && d.routers == map[] && d.services.Keys == {service}
    requires ResolvePort(d.tcpServices[tcpService], ServicePort(r.port)) != ""
    requires ResolvePort(d.services[service].port, ServicePort(r.port)) != ""
    ensures Assemble(r, d) == Some(Configuration(
      map[r.name := Router(service, DefaultRule(r.name), [], false)],
      map[service := Service(HttpServers(r.containers, ResolvePort(d.services[service].port, ServicePort(r.port))), d.services[service].passHostHeader)],
      d.middlewares,
      TcpRouters(d.tcpRouters, {tcpService}),
      map[tcpService := TcpService(TcpServers(r.containers, ResolvePort(d.tcpServices[tcpService], ServicePort(r.port))))]))
  {
    var port := ServicePort(r.port);
    var services := map[service := Service(HttpServers(r.containers, ResolvePort(d.services[service].port, port)), d.services[service].passHostHeader)];
    var tcpServices := map[tcpService := TcpService(TcpServers(r.containers, ResolvePort(d.tcpServices[tcpService], port)))];
    var routers := map[r.name := Router(service, DefaultRule(r.name), [], false)];
    assert tcpServices.Keys == {tcpService};
    HttpServicesSingle(r.name, r.containers, port, d.services, service);
    DefaultRouterFor(r.name, service, services[service]);
    HttpPartOver(r, port, d, services);
    TcpServicesSingle(r.name, r.containers, port, d.tcpServices, tcpService);
    AssembleBoth(r, d, tcpServices, Configuration(routers, services, d.middlewares, map[], map[]));
    TcpRoutersOver(d.tcpRouters, tcpServices.Keys, {tcpService});
  }

  /**
    Labels written out from distinct paths, with every boolean one parsing,
    decode to what declaring those paths one after another gives, and hold
    no enable label.
  */
  lemma DecodedAs(entries: seq<(LabelPath, string)>, d: Decoded)
    requires DistinctPaths(entries) && BooleansParse(entries)
    requires DeclareAll(entries) == d
    ensures Decode(LabelsOf(entries)) == Ok(d)
    ensures EnableKey !in LabelsOf(entries)
  {
    EntriesOfList(entries);
    DecodeLabelsOf(entries);
    AssignmentsOfBooleans(entries);
    LabelsOfSpells(entries);
    EnableKeyUnrelated();
    SpelledLacksUnrelated(LabelsOf(entries), AssignmentsOf(entries), EnableKey);
  }

  /**
    A record whose labels are written out from such a list, exposed by
    default, matching the constraint and passing the health filter: the
    builder hands over what the list's entries assemble to.
  */
  lemma KeptLabelled(settings: Settings, raw: Record, entries: seq<(LabelPath, string)>, d: Decoded, c: Configuration)
    requires DistinctPaths(entries) && BooleansParse(entries) && DeclareAll(entries) == d
    requires raw.labels == LabelsOf(entries)
    requires settings.exposedByDefault && Matches(settings.constraint, raw.labels)
    requires settings.healthFilter ==> HealthAccepted(raw.health) && StateAccepted(raw.state)
    requires Assemble(Enabled(raw), d) == Some(c)
    ensures Build(settings, PrepareAll(settings, [raw])) == c
  {
    DecodedAs(entries, d);
    KeptSingle(settings, raw, d, c);
  }

  /** The HTTP server of one container at an address without a colon. */
  lemma HttpServersOne(ip: string, port: string)
    requires ':' !in ip
    ensures HttpServers([ip], port) == [Server("http://" + ip + ":" + port)]
  {
    var s := HttpServers([ip], port);
    assert JoinHostPort(ip, port) == ip + ":" + port;
    assert "http://" + (ip + ":" + port) == "http://" + ip + ":" + port;
    assert s == [s[0]];
  }

  /** The HTTP servers of two containers at addresses without a colon, in order. */
  lemma HttpServersTwo(ip: string, ip2: string, port: string)
    requires ':' !in ip && ':' !in ip2
    ensures HttpServers([ip, ip2], port) == [Server("http://" + ip + ":" + port), Server("http://" + ip2 + ":" + port)]
  {
    var s := HttpServers([ip, ip2], port);
    assert JoinHostPort(ip, port) == ip + ":" + port;
    assert JoinHostPort(ip2, port) == ip2 + ":" + port;
    assert "http://" + (ip + ":" + port) == "http://" + ip + ":" + port;
    assert "http://" + (ip2 + ":" + port) == "http://" + ip2 + ":" + port;
    assert s == [s[0], s[1]];
  }

  /** The TCP server of one container at an address without a colon. */
  lemma TcpServersOne(ip: string, port: string)
    requires ':' !in ip
    ensures TcpServers([ip], port) == [TcpServer(ip + ":" + port)]
  {
    var s := TcpServers([ip], port);
    assert JoinHostPort(ip, port) == ip + ":" + port;
    assert s == [s[0]];
  }

  /** The TCP servers of two containers at addresses without a colon, in order. */
  lemma TcpServersTwo(ip: string, ip2: string, port: string)
    requires ':' !in ip && ':' !in ip2
    ensures TcpServers([ip, ip2], port) == [TcpServer(ip + ":" + port), TcpServer(ip2 + ":" + port)]
  {
    var s := TcpServers([ip, ip2], port);
    assert JoinHostPort(ip, port) == ip + ":" + port;
    assert JoinHostPort(ip2, port) == ip2 + ":" + port;
    assert s == [s[0], s[1]];
  }
}
