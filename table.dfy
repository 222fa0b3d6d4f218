/**
  The provider's configuration test table, case by case: each case feeds
  its records through the settings step and the builder and states the
  configuration it expects. The cases come in two layers: one lemma per
  shape of label set, for any names, rules, ports and addresses, and one
  lemma per row of the table that instantiates it with the row's values.
*/
module ConfigTable {
  import opened Wrappers
  import opened Strings
  import opened Tables
  import opened Dynamic
  import opened Labels
  import opened Rancher
  import opened Builder
  import opened Shapes
  import opened LabelLists

  /** The provider settings of the table: exposed by default, health filter on, and the row's constraint. */
  function TestSettings(constraint: Constraint): Settings
  {
    Settings(true, constraint, true)
  }

  /** A record as discovered, before its provider settings are read (they start at their zero value). */
  function Discovered(name: string, labels: map<string, string>, port: string, containers: seq<string>, health: string, state: string): Record
  {
    Record(name, labels, port, containers, health, state, ExtraConf(false))
  }

  /** A record that the settings expose by default and that passes the constraint and the health filter. */
  predicate Admitted(settings: Settings, raw: Record)
  {
    && settings.exposedByDefault
    && Matches(settings.constraint, raw.labels)
    && (settings.healthFilter ==> HealthAccepted(raw.health) && StateAccepted(raw.state))
  }

  // ---------------------------------------------------------------------
  // The shapes of the table, for any names and values.
  // ---------------------------------------------------------------------

  /**
    A router's rule and service and that service's pass-host-header flag:
    exactly that router and that service, the service with a server per
    container on the declared port.
  */
  lemma RouterServiceCase(settings: Settings, raw: Record, router: string, rule: string, service: string, passHostHeader: string, flag: bool)
    requires ValidName(router) && ValidName(service) && ParseBool(passHostHeader) == Some(flag) && rule != ""
    requires raw.labels == LabelsOf(RouterServiceList(router, rule, service, passHostHeader))
    requires Admitted(settings, raw) && ServicePort(raw.port) != ""
    ensures Build(settings, PrepareAll(settings, [raw])) == Configuration(
      map[router := Router(service, rule, [], false)],
      map[service := Service(HttpServers(raw.containers, ServicePort(raw.port)), flag)],
      map[], map[], map[])
  {
    var d := Decoded(map[router := Router(service, rule, [], false)], map[service := ServiceLabels(flag, "")], map[], map[], map[]);
    RouterServiceListDeclared(router, rule, service, passHostHeader, flag);
    RouterAndService(Enabled(raw), d, router, service);
    KeptLabelled(settings, raw, RouterServiceList(router, rule, service, passHostHeader), d, Configuration(
      map[router := Router(service, rule, [], false)],
      map[service := Service(HttpServers(raw.containers, ServicePort(raw.port)), flag)],
      map[], map[], map[]));
  }

  /**
    A router's rule alone: that router, sent to the default service named
    after the record, which has a server per container on the declared port.
  */
  lemma RouterCase(settings: Settings, raw: Record, router: string, rule: string)
    requires ValidName(router) && rule != ""
    requires raw.labels == LabelsOf(RouterList(router, rule))
    requires Admitted(settings, raw) && ServicePort(raw.port) != ""
    ensures Build(settings, PrepareAll(settings, [raw])) == Configuration(
      map[router := Router(raw.name, rule, [], false)],
      map[raw.name := Service(HttpServers(raw.containers, ServicePort(raw.port)), true)],
      map[], map[], map[])
  {
    var d := Decoded(map[router := Router("", rule, [], false)], map[], map[], map[], map[]);
    RouterListDeclared(router, rule);
    RouterOnly(Enabled(raw), d, router, d.routers[router]);
    KeptLabelled(settings, raw, RouterList(router, rule), d, Configuration(
      map[router := Router(raw.name, rule, [], false)],
      map[raw.name := Service(HttpServers(raw.containers, ServicePort(raw.port)), true)],
      map[], map[], map[]));
  }

  /**
    A router's middleware list and a basic-auth middleware's users: the
    router completed with the default rule and the default service, its
    middlewares the comma-separated list, and the middleware with the
    comma-separated users.
  */
  lemma MiddlewareCase(settings: Settings, raw: Record, router: string, middlewares: string, middleware: string, users: string)
    requires ValidName(router) && ValidName(middleware)
    requires raw.labels == LabelsOf(MiddlewareList(router, middlewares, middleware, users))
    requires Admitted(settings, raw) && ServicePort(raw.port) != ""
    ensures Build(settings, PrepareAll(settings, [raw])) == Configuration(
      map[router := Router(raw.name, DefaultRule(raw.name), Split(middlewares, ','), false)],
      map[raw.name := Service(HttpServers(raw.containers, ServicePort(raw.port)), true)],
      map[middleware := BasicAuth(Split(users, ','))], map[], map[])
  {
    var d := Decoded(map[router := Router("", "", Split(middlewares, ','), false)], map[],
                     map[middleware := BasicAuth(Split(users, ','))], map[], map[]);
    MiddlewareListDeclared(router, middlewares, middleware, users);
    RouterOnly(Enabled(raw), d, router, d.routers[router]);
    KeptLabelled(settings, raw, MiddlewareList(router, middlewares, middleware, users), d, Configuration(
      map[router := Router(raw.name, DefaultRule(raw.name), Split(middlewares, ','), false)],
      map[raw.name := Service(HttpServers(raw.containers, ServicePort(raw.port)), true)],
      map[middleware := BasicAuth(Split(users, ','))], map[], map[]));
  }

  /**
    A service's server port alone: that service on the labelled port,
    whatever the record declares, and a default router sent to it.
  */
  lemma ServicePortCase(settings: Settings, raw: Record, service: string, port: string)
    requires ValidName(service) && port != ""
    requires raw.labels == LabelsOf(ServicePortList(service, port))
    requires Admitted(settings, raw)
    ensures Build(settings, PrepareAll(settings, [raw])) == Configuration(
      map[raw.name := Router(service, DefaultRule(raw.name), [], false)],
      map[service := Service(HttpServers(raw.containers, port), true)],
      map[], map[], map[])
  {
    var d := Decoded(map[], map[service := ServiceLabels(true, port)], map[], map[], map[]);
    ServicePortListDeclared(service, port);
    ServiceOnly(Enabled(raw), d, service, d.services[service]);
    KeptLabelled(settings, raw, ServicePortList(service, port), d, Configuration(
      map[raw.name := Router(service, DefaultRule(raw.name), [], false)],
      map[service := Service(HttpServers(raw.containers, port), true)],
      map[], map[], map[]));
  }

  /**
    A TCP router's rule and TLS marker: no HTTP entry at all, the router
    sent to the one TCP service, which is named after the record and has a
    server per container on the declared port.
  */
  lemma TcpRouterCase(settings: Settings, raw: Record, router: string, rule: string, tls: string, flag: bool)
    requires ValidName(router) && ParseBool(tls) == Some(flag) && rule != ""
    requires raw.labels == LabelsOf(TcpRouterList(router, rule, tls))
    requires Admitted(settings, raw) && ServicePort(raw.port) != ""
    ensures Build(settings, PrepareAll(settings, [raw])) == Configuration(map[], map[], map[],
      map[router := TcpRouter(raw.name, rule, flag)],
      map[raw.name := TcpService(TcpServers(raw.containers, ServicePort(raw.port)))])
  {
    var d := Decoded(map[], map[], map[], map[router := TcpRouter("", rule, flag)], map[]);
    TcpRouterListDeclared(router, rule, tls, flag);
    TcpDefault(Enabled(raw), d);
    TcpRoutersOne(router, d.tcpRouters[router], raw.name);
    KeptLabelled(settings, raw, TcpRouterList(router, rule, tls), d, Configuration(map[], map[], map[],
      map[router := TcpRouter(raw.name, rule, flag)],
      map[raw.name := TcpService(TcpServers(raw.containers, ServicePort(raw.port)))]));
  }

  /**
    A TCP router's TLS marker without a rule: the router is dropped, and
    the TCP service named after the record is still built.
  */
  lemma TcpTlsCase(settings: Settings, raw: Record, router: string, tls: string, flag: bool)
    requires ValidName(router) && ParseBool(tls) == Some(flag)
    requires raw.labels == LabelsOf(TcpTlsList(router, tls))
    requires Admitted(settings, raw) && ServicePort(raw.port) != ""
    ensures Build(settings, PrepareAll(settings, [raw])) == Configuration(map[], map[], map[],
      map[],
      map[raw.name := TcpService(TcpServers(raw.containers, ServicePort(raw.port)))])
  {
    var d := Decoded(map[], map[], map[], map[router := TcpRouter("", "", flag)], map[]);
    TcpTlsListDeclared(router, tls, flag);
    TcpDefault(Enabled(raw), d);
    TcpRoutersOne(router, d.tcpRouters[router], raw.name);
    KeptLabelled(settings, raw, TcpTlsList(router, tls), d, Configuration(map[], map[], map[],
      map[],
      map[raw.name := TcpService(TcpServers(raw.containers, ServicePort(raw.port)))]));
  }

  /**
    A TCP router's rule and a TCP service's server port: the router sent to
    that service, which has a server per container on the labelled port.
  */
  lemma TcpRouterPortCase(settings: Settings, raw: Record, router: string, rule: string, service: string, port: string)
    requires ValidName(router) && ValidName(service) && rule != "" && port != ""
    requires raw.labels == LabelsOf(TcpRouterPortList(router, rule, service, port))
    requires Admitted(settings, raw)
    ensures Build(settings, PrepareAll(settings, [raw])) == Configuration(map[], map[], map[],
      map[router := TcpRouter(service, rule, false)],
      map[service := TcpService(TcpServers(raw.containers, port))])
  {
    var d := Decoded(map[], map[], map[], map[router := TcpRouter("", rule, false)], map[service := port]);
    TcpRouterPortListDeclared(router, rule, service, port);
    TcpDeclared(Enabled(raw), d, service);
    TcpRoutersOne(router, d.tcpRouters[router], service);
    KeptLabelled(settings, raw, TcpRouterPortList(router, rule, service, port), d, Configuration(map[], map[], map[],
      map[router := TcpRouter(service, rule, false)],
      map[service := TcpService(TcpServers(raw.containers, port))]));
  }

  /** A TCP service's server port alone: that service on the labelled port, and no router of either kind. */
  lemma TcpPortCase(settings: Settings, raw: Record, service: string, port: string)
    requires ValidName(service) && port != ""
    requires raw.labels == LabelsOf(TcpPortList(service, port))
    requires Admitted(settings, raw)
    ensures Build(settings, PrepareAll(settings, [raw])) == Configuration(map[], map[], map[],
      map[],
      map[service := TcpService(TcpServers(raw.containers, port))])
  {
    var d := Decoded(map[], map[], map[], map[], map[service := port]);
    TcpPortListDeclared(service, port);
    assert d.tcpServices.Keys == {service} && d.tcpServices[service] == port;
    assert HasTcp(d) && !HasHttp(d);
    TcpDeclared(Enabled(raw), d, service);
    TcpRoutersNone({service});
    KeptLabelled(settings, raw, TcpPortList(service, port), d, Configuration(map[], map[], map[],
      map[],
      map[service := TcpService(TcpServers(raw.containers, port))]));
  }

  /** No TCP router is kept from none declared. */
  lemma TcpRoutersNone(services: set<string>)
    ensures TcpRouters(map[], services) == map[]
  {
    assert TcpRouters(map[], services).Keys == {};
  }

  /**
    A TCP router's rule and TLS marker, a TCP service's server port, and an
    HTTP service's pass-host-header flag: the TCP router sent to that TCP
    service on the labelled port, and beside it the HTTP service on the
    declared port with a default router sent to it.
  */
  lemma TcpAndHttpCase(settings: Settings, raw: Record, router: string, rule: string, tls: string, flag: bool,
                       service: string, port: string, httpService: string, passHostHeader: string, pass: bool)
    requires ValidName(router) && ValidName(service) && ValidName(httpService)
    requires ParseBool(tls) == Some(flag) && ParseBool(passHostHeader) == Some(pass)
    requires rule != "" && port != ""
    requires raw.labels == LabelsOf(TcpAndHttpList(router, rule, tls, service, port, httpService, passHostHeader))
    requires Admitted(settings, raw) && ServicePort(raw.port) != ""
    ensures Build(settings, PrepareAll(settings, [raw])) == Configuration(
      map[raw.name := Router(httpService, DefaultRule(raw.name), [], false)],
      map[httpService := Service(HttpServers(raw.containers, ServicePort(raw.port)), pass)],
      map[],
      map[router := TcpRouter(service, rule, flag)],
      map[service := TcpService(TcpServers(raw.containers, port))])
  {
    var d := Decoded(map[], map[httpService := ServiceLabels(pass, "")], map[], map[router := TcpRouter("", rule, flag)], map[service := port]);
    TcpAndHttpListDeclared(router, rule, tls, service, port, httpService, passHostHeader, flag, pass);
    TcpAndHttpService(Enabled(raw), d, service, httpService);
    TcpRoutersOne(router, d.tcpRouters[router], service);
    KeptLabelled(settings, raw, TcpAndHttpList(router, rule, tls, service, port, httpService, passHostHeader), d, Configuration(
      map[raw.name := Router(httpService, DefaultRule(raw.name), [], false)],
      map[httpService := Service(HttpServers(raw.containers, ServicePort(raw.port)), pass)],
      map[],
      map[router := TcpRouter(service, rule, flag)],
      map[service := TcpService(TcpServers(raw.containers, port))]));
  }

  // ---------------------------------------------------------------------
  // The values the rows use.
  // ---------------------------------------------------------------------

  /** The container addresses of the table hold no colon. */
  lemma Ips()
    ensures ':' !in "127.0.0.1" && ':' !in "127.0.0.2" && ':' !in "128.0.0.1"
  {
  }

  /** "80/tcp" declares container port 80. */
  lemma Port80(port: string)
    requires port == "80/tcp"
    ensures ServicePort(port) == "80"
  {
    ServicePortPlain("80", "tcp");
    assert port == "80" + "/" + "tcp";
  }

  /** A record of the table with no health or state reported and container port 80 is admitted without a constraint. */
  lemma Row80(raw: Record, name: string, labels: map<string, string>, containers: seq<string>)
    requires raw == Discovered(name, labels, "80/tcp", containers, "", "")
    ensures Admitted(TestSettings(Always), raw) && ServicePort(raw.port) == "80"
  {
    Port80(raw.port);
    Healthy(TestSettings(Always), raw);
  }

  /** A record of the table with no label, no health or state reported, and container port 80 is kept without a constraint. */
  lemma PlainKept(raw: Record, name: string, containers: seq<string>)
    requires raw == Discovered(name, map[], "80/tcp", containers, "", "")
    ensures UnlabelledKept(TestSettings(Always), raw) && ServicePort(raw.port) == "80"
  {
    Port80(raw.port);
  }

  /** The router, service and middleware names of the table are valid label names. */
  lemma Names()
    ensures ValidName("Router1") && ValidName("Service1") && ValidName("Middleware1")
    ensures ValidName("Test") && ValidName("foo")
  {
  }

  /** "true" reads as true. */
  lemma True()
    ensures ParseBool("true") == Some(true)
  {
  }

  /** A record with no health or state reported passes the health filter. */
  lemma Healthy(settings: Settings, raw: Record)
    requires settings.exposedByDefault && Matches(settings.constraint, raw.labels)
    requires raw.health == "" && raw.state == ""
    ensures Admitted(settings, raw)
  {
  }

  /** The default rule of the record named "Test". */
  lemma TestRule(name: string)
    requires name == "Test"
    ensures DefaultRule(name) == "Host(`Test.traefik.wtf`)"
  {
  }

  /** The default rules of the records named "Test1" and "Test2". */
  lemma PairRules(first: string, second: string)
    requires first == "Test1" && second == "Test2"
    ensures DefaultRule(first) == "Host(`Test1.traefik.wtf`)" && DefaultRule(second) == "Host(`Test2.traefik.wtf`)"
  {
  }

  /** The server addresses in the table. */
  lemma Addresses()
    ensures "http://" + "127.0.0.1" + ":" + "80" == "http://127.0.0.1:80"
    ensures "http://" + "127.0.0.2" + ":" + "80" == "http://127.0.0.2:80"
    ensures "http://" + "128.0.0.1" + ":" + "80" == "http://128.0.0.1:80"
    ensures "127.0.0.1" + ":" + "80" == "127.0.0.1:80"
    ensures "127.0.0.1" + ":" + "8080" == "127.0.0.1:8080"
    ensures "127.0.0.2" + ":" + "8080" == "127.0.0.2:8080"
  {
  }

  /** The label "traefik.tags" lies outside the roots the decoder reads. */
  lemma TagsUnrelated()
    ensures Classify("traefik.tags").Unrelated?
  {
    assert "traefik.tags" == "traefik" + ['.'] + "tags";
    ClassifyTwoSegments("traefik", "tags");
  }

  /** "Test1" comes before "Test2". */
  lemma NameOrder()
    ensures "Test1" != "Test2" && NotAfter("Test1", "Test2")
  {
    assert "Test1"[1..] == "est1" && "Test2"[1..] == "est2";
    assert "est1"[1..] == "st1" && "est2"[1..] == "st2";
    assert "st1"[1..] == "t1" && "st2"[1..] == "t2";
    assert "t1"[1..] == "1" && "t2"[1..] == "2";
  }

  /** A users label of two comma-free users splits into those two. */
  lemma TwoUsers(first: string, second: string)
    requires ',' !in first && ',' !in second
    ensures Split(first + "," + second, ',') == [first, second]
  {
    assert first + "," + second == first + [','] + second;
    SplitAfterPrefix(first, ',', second);
    SplitWithoutSeparator(second, ',');
  }

  /** The users of the middleware row hold no comma. */
  lemma UsersCommaFree(first: string, second: string)
    requires first == "test:$apr1$H6uskkkW$IgXLP6ewTrSuBkTrqE8wj/" && second == "test2:$apr1$d9hr9HBB$4HxwgUir3HP4EsggP/QNo0"
    ensures ',' !in first && ',' !in second
  {
  }

  /** The tags key is not the enable key. */
  lemma TagsNotEnable()
    ensures EnableKey != "traefik.tags"
  {
    assert EnableKey[8] != "traefik.tags"[8];
  }

  // ---------------------------------------------------------------------
  // The rows of the table.
  // ---------------------------------------------------------------------

  /** One service, no label: a router and a service named after it. */
  lemma OneServiceNoLabel(raw: Record)
    requires raw == Discovered("Test", map[], "80/tcp", ["127.0.0.1"], "", "")
    ensures Build(TestSettings(Always), PrepareAll(TestSettings(Always), [raw])) == Configuration(
      map["Test" := Router("Test", "Host(`Test.traefik.wtf`)", [], false)],
      map["Test" := Service([Server("http://127.0.0.1:80")], true)],
      map[], map[], map[])
  {
    Port80(raw.port);
    Ips();
    HttpServersOne("127.0.0.1", "80");
    TestRule(raw.name);
    Addresses();
    UnlabelledSingle(TestSettings(Always), raw);
  }

  /** Two services, no label: a router and a service for each. */
  lemma TwoServicesNoLabel(first: Record, second: Record)
    requires first == Discovered("Test1", map[], "80/tcp", ["127.0.0.1"], "", "")
    requires second == Discovered("Test2", map[], "80/tcp", ["127.0.0.2"], "", "")
    ensures Build(TestSettings(Always), PrepareAll(TestSettings(Always), [first, second])) == Configuration(
      map["Test1" := Router("Test1", "Host(`Test1.traefik.wtf`)", [], false),
          "Test2" := Router("Test2", "Host(`Test2.traefik.wtf`)", [], false)],
      map["Test1" := Service([Server("http://127.0.0.1:80")], true),
          "Test2" := Service([Server("http://127.0.0.2:80")], true)],
      map[], map[], map[])
  {
    PlainKept(first, "Test1", first.containers);
    PlainKept(second, "Test2", second.containers);
    Ips();
    HttpServersOne("127.0.0.1", "80");
    HttpServersOne("127.0.0.2", "80");
    PairRules(first.name, second.name);
    Addresses();
    NameOrder();
    UnlabelledPair(TestSettings(Always), first, second);
  }

  /** Two services, no label, the first with two containers: its service has a server for each, in order. */
  lemma TwoServicesMultipleContainers(first: Record, second: Record)
    requires first == Discovered("Test1", map[], "80/tcp", ["127.0.0.1", "127.0.0.2"], "", "")
    requires second == Discovered("Test2", map[], "80/tcp", ["128.0.0.1"], "", "")
    ensures Build(TestSettings(Always), PrepareAll(TestSettings(Always), [first, second])) == Configuration(
      map["Test1" := Router("Test1", "Host(`Test1.traefik.wtf`)", [], false),
          "Test2" := Router("Test2", "Host(`Test2.traefik.wtf`)", [], false)],
      map["Test1" := Service([Server("http://127.0.0.1:80"), Server("http://127.0.0.2:80")], true),
          "Test2" := Service([Server("http://128.0.0.1:80")], true)],
      map[], map[], map[])
  {
    PlainKept(first, "Test1", first.containers);
    PlainKept(second, "Test2", second.containers);
    Ips();
    HttpServersTwo("127.0.0.1", "127.0.0.2", "80");
    HttpServersOne("128.0.0.1", "80");
    PairRules(first.name, second.name);
    Addresses();
    NameOrder();
    UnlabelledPair(TestSettings(Always), first, second);
  }

  /** A router with a rule and a service, and that service's pass-host-header flag: just those two. */
  lemma SomeLabels(raw: Record, router: string, service: string)
    requires router == "Router1" && service == "Service1"
    requires raw == Discovered("Test", LabelsOf(RouterServiceList(router, "Host(`foo.com`)", service, "true")), "80/tcp", ["127.0.0.1"], "", "")
    ensures Build(TestSettings(Always), PrepareAll(TestSettings(Always), [raw])) == Configuration(
      map["Router1" := Router("Service1", "Host(`foo.com`)", [], false)],
      map["Service1" := Service([Server("http://127.0.0.1:80")], true)],
      map[], map[], map[])
  {
    Row80(raw, raw.name, raw.labels, raw.containers);
    Ips();
    HttpServersOne("127.0.0.1", "80");
    Addresses();
    Names();
    True();
    RouterServiceCase(TestSettings(Always), raw, router, "Host(`foo.com`)", service, "true", true);
  }

  /** An unhealthy service is filtered out. */
  lemma Unhealthy(raw: Record)
    requires raw == Discovered("Test", map[], "80/tcp", ["127.0.0.1"], "broken", "")
    ensures Build(TestSettings(Always), PrepareAll(TestSettings(Always), [raw])) == Empty
  {
    DroppedSingle(TestSettings(Always), raw);
  }

  /** A service whose upgrade failed is filtered out. */
  lemma UpgradeFailed(raw: Record)
    requires raw == Discovered("Test", map[], "80/tcp", ["127.0.0.1"], "", "upgradefailed")
    ensures Build(TestSettings(Always), PrepareAll(TestSettings(Always), [raw])) == Empty
  {
    DroppedSingle(TestSettings(Always), raw);
  }

  /** A router's rule on a record with a host-mapped port: the router goes to the default service, on the container port. */
  lemma RuleAndMappedPort(raw: Record, router: string, rule: string)
    requires router == "Router1" && rule == "Host(`foo.com`)"
    requires raw == Discovered("Test", LabelsOf(RouterList(router, rule)), "12345:80/tcp", ["127.0.0.1"], "", "")
    ensures Build(TestSettings(Always), PrepareAll(TestSettings(Always), [raw])) == Configuration(
      map["Router1" := Router("Test", "Host(`foo.com`)", [], false)],
      map["Test" := Service([Server("http://127.0.0.1:80")], true)],
      map[], map[], map[])
  {
    ServicePortMapped("12345", "80", "tcp");
    assert raw.port == "12345" + ":" + "80" + "/" + "tcp";
    Ips();
    HttpServersOne("127.0.0.1", "80");
    Addresses();
    Names();
    True();
    Healthy(TestSettings(Always), raw);
    RouterCase(TestSettings(Always), raw, router, rule);
  }

  /** A constraint on a label the record lacks filters it out. */
  lemma NonMatchingConstraint(raw: Record, router: string, rule: string)
    requires router == "Router1" && rule == "Host(`foo.com`)"
    requires raw == Discovered("Test", LabelsOf(RouterList(router, rule)), "12345:80/tcp", ["127.0.0.1"], "", "")
    ensures Build(TestSettings(Label("traefik.tags", "bar")), PrepareAll(TestSettings(Label("traefik.tags", "bar")), [raw])) == Empty
  {
    RouterListDeclared(router, rule);
    LabelsOfSpells(RouterList(router, rule));
    TagsUnrelated();
    SpelledLacksUnrelated(raw.labels, AssignmentsOf(RouterList(router, rule)), "traefik.tags");
    DroppedSingle(TestSettings(Label("traefik.tags", "bar")), raw);
  }

  /** A constraint the record's labels meet leaves it as if there were none. */
  lemma MatchingConstraint(raw: Record)
    requires raw == Discovered("Test", map["traefik.tags" := "foo"], "80/tcp", ["127.0.0.1"], "", "")
    ensures Build(TestSettings(Label("traefik.tags", "foo")), PrepareAll(TestSettings(Label("traefik.tags", "foo")), [raw])) == Configuration(
      map["Test" := Router("Test", "Host(`Test.traefik.wtf`)", [], false)],
      map["Test" := Service([Server("http://127.0.0.1:80")], true)],
      map[], map[], map[])
  {
    Port80(raw.port);
    Ips();
    HttpServersOne("127.0.0.1", "80");
    TestRule(raw.name);
    Addresses();
    TagsKept(TestSettings(Label("traefik.tags", "foo")), raw);
    UnlabelledSingle(TestSettings(Label("traefik.tags", "foo")), raw);
  }

  /** The record of the matching-constraint row carries only the tag the constraint asks for. */
  lemma TagsKept(settings: Settings, raw: Record)
    requires settings == TestSettings(Label("traefik.tags", "foo"))
    requires raw == Discovered("Test", map["traefik.tags" := "foo"], "80/tcp", ["127.0.0.1"], "", "")
    ensures UnlabelledKept(settings, raw)
  {
    Port80(raw.port);
    TagsOnly(raw.labels);
  }

  /** A label set holding only the tag has no key under the decoded roots and does not enable anything. */
  lemma TagsOnly(labels: map<string, string>)
    requires labels == map["traefik.tags" := "foo"]
    ensures EnableKey !in labels && forall k | k in labels :: Classify(k).Unrelated?
  {
    TagsUnrelated();
    assert labels.Keys == {"traefik.tags"};
    TagsNotEnable();
  }

  /**
    A router's middleware list and a basic-auth middleware: the default
    router with that middleware, and the middleware with both users. The
    users label is the two users joined by a comma.
  */
  lemma Middlewares(raw: Record, router: string, middleware: string, first: string, second: string)
    requires router == "Test" && middleware == "Middleware1"
    requires first == "test:$apr1$H6uskkkW$IgXLP6ewTrSuBkTrqE8wj/" && second == "test2:$apr1$d9hr9HBB$4HxwgUir3HP4EsggP/QNo0"
    requires raw == Discovered("Test", LabelsOf(MiddlewareList(router, middleware, middleware, first + "," + second)), "80/tcp", ["127.0.0.1"], "", "")
    ensures Build(TestSettings(Always), PrepareAll(TestSettings(Always), [raw])) == Configuration(
      map["Test" := Router("Test", "Host(`Test.traefik.wtf`)", ["Middleware1"], false)],
      map["Test" := Service([Server("http://127.0.0.1:80")], true)],
      map["Middleware1" := BasicAuth(["test:$apr1$H6uskkkW$IgXLP6ewTrSuBkTrqE8wj/", "test2:$apr1$d9hr9HBB$4HxwgUir3HP4EsggP/QNo0"])],
      map[], map[])
  {
    Row80(raw, raw.name, raw.labels, raw.containers);
    Ips();
    HttpServersOne("127.0.0.1", "80");
    TestRule(raw.name);
    Addresses();
    UsersCommaFree(first, second);
    TwoUsers(first, second);
    Names();
    SplitWithoutSeparator(middleware, ',');
    MiddlewareCase(TestSettings(Always), raw, router, middleware, middleware, first + "," + second);
  }

  /** A service's port label on a record that declares no port: the service uses the labelled port. */
  lemma PortInLabels(raw: Record, service: string, port: string)
    requires service == "Test" && port == "80"
    requires raw == Discovered("Test", LabelsOf(ServicePortList(service, port)), "", ["127.0.0.1"], "", "")
    ensures Build(TestSettings(Always), PrepareAll(TestSettings(Always), [raw])) == Configuration(
      map["Test" := Router("Test", "Host(`Test.traefik.wtf`)", [], false)],
      map["Test" := Service([Server("http://127.0.0.1:80")], true)],
      map[], map[], map[])
  {
    Ips();
    HttpServersOne("127.0.0.1", "80");
    TestRule(raw.name);
    Addresses();
    Names();
    True();
    Healthy(TestSettings(Always), raw);
    ServicePortCase(TestSettings(Always), raw, service, port);
  }

  /** A TCP router with a rule and TLS: that router over the default TCP service, and nothing under HTTP. */
  lemma TcpWithLabel(raw: Record, router: string, rule: string, tls: string)
    requires router == "foo" && rule == "HostSNI(`foo.bar`)" && tls == "true"
    requires raw == Discovered("Test", LabelsOf(TcpRouterList(router, rule, tls)), "80/tcp", ["127.0.0.1"], "", "")
    ensures Build(TestSettings(Always), PrepareAll(TestSettings(Always), [raw])) == Configuration(map[], map[], map[],
      map["foo" := TcpRouter("Test", "HostSNI(`foo.bar`)", true)],
      map["Test" := TcpService([TcpServer("127.0.0.1:80")])])
  {
    Row80(raw, raw.name, raw.labels, raw.containers);
    Ips();
    TcpServersOne("127.0.0.1", "80");
    Addresses();
    Names();
    True();
    TcpRouterCase(TestSettings(Always), raw, router, rule, tls, true);
  }

  /** A TCP router with TLS and no rule: the router is dropped, the default TCP service stays. */
  lemma TcpWithoutRule(raw: Record, router: string, tls: string)
    requires router == "foo" && tls == "true"
    requires raw == Discovered("Test", LabelsOf(TcpTlsList(router, tls)), "80/tcp", ["127.0.0.1"], "", "")
    ensures Build(TestSettings(Always), PrepareAll(TestSettings(Always), [raw])) == Configuration(map[], map[], map[],
      map[],
      map["Test" := TcpService([TcpServer("127.0.0.1:80")])])
  {
    Row80(raw, raw.name, raw.labels, raw.containers);
    Ips();
    TcpServersOne("127.0.0.1", "80");
    Addresses();
    Names();
    True();
    TcpTlsCase(TestSettings(Always), raw, router, tls, true);
  }

  /** A TCP router with a rule and a TCP service with a port: the router goes to that service, on that port. */
  lemma TcpWithLabelAndPort(raw: Record, router: string, rule: string, port: string)
    requires router == "foo" && rule == "HostSNI(`foo.bar`)" && port == "8080"
    requires raw == Discovered("Test", LabelsOf(TcpRouterPortList(router, rule, router, port)), "80/tcp", ["127.0.0.1"], "", "")
    ensures Build(TestSettings(Always), PrepareAll(TestSettings(Always), [raw])) == Configuration(map[], map[], map[],
      map["foo" := TcpRouter("foo", "HostSNI(`foo.bar`)", false)],
      map["foo" := TcpService([TcpServer("127.0.0.1:8080")])])
  {
    Ips();
    TcpServersOne("127.0.0.1", "8080");
    Addresses();
    Names();
    True();
    Healthy(TestSettings(Always), raw);
    TcpRouterPortCase(TestSettings(Always), raw, router, rule, router, port);
  }

  /**
    TCP labels with a rule, TLS and a port beside an HTTP service's
    pass-host-header flag: both halves, the HTTP service getting a default
    router, each service with a server per container.
  */
  lemma TcpWithLabelPortAndHttpService(raw: Record, router: string, rule: string, tls: string, port: string, service: string)
    requires router == "foo" && rule == "HostSNI(`foo.bar`)" && tls == "true" && port == "8080" && service == "Service1"
    requires raw == Discovered("Test", LabelsOf(TcpAndHttpList(router, rule, tls, router, port, service, tls)), "80/tcp", ["127.0.0.1", "127.0.0.2"], "", "")
    ensures Build(TestSettings(Always), PrepareAll(TestSettings(Always), [raw])) == Configuration(
      map["Test" := Router("Service1", "Host(`Test.traefik.wtf`)", [], false)],
      map["Service1" := Service([Server("http://127.0.0.1:80"), Server("http://127.0.0.2:80")], true)],
      map[],
      map["foo" := TcpRouter("foo", "HostSNI(`foo.bar`)", true)],
      map["foo" := TcpService([TcpServer("127.0.0.1:8080"), TcpServer("127.0.0.2:8080")])])
  {
    Row80(raw, raw.name, raw.labels, raw.containers);
    Ips();
    HttpServersTwo("127.0.0.1", "127.0.0.2", "80");
    TcpServersTwo("127.0.0.1", "127.0.0.2", "8080");
    TestRule(raw.name);
    Addresses();
    Names();
    True();
    TcpAndHttpCase(TestSettings(Always), raw, router, rule, tls, true, router, port, service, tls, true);
  }

  /** A TCP service with a port and no router: that service on that port, and no router of either kind. */
  lemma TcpServiceOnly(raw: Record, service: string, port: string)
    requires service == "foo" && port == "8080"
    requires raw == Discovered("Test", LabelsOf(TcpPortList(service, port)), "80/tcp", ["127.0.0.1"], "", "")
    ensures Build(TestSettings(Always), PrepareAll(TestSettings(Always), [raw])) == Configuration(map[], map[], map[],
      map[],
      map["foo" := TcpService([TcpServer("127.0.0.1:8080")])])
  {
    Ips();
    TcpServersOne("127.0.0.1", "8080");
    Addresses();
    Names();
    True();
    Healthy(TestSettings(Always), raw);
    TcpPortCase(TestSettings(Always), raw, service, port);
  }
}
