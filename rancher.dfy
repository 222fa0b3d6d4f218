/**
  One Rancher service record and what the provider makes of it on its own:
  whether it takes part at all, which port its servers use, and the
  routers, services and middlewares it contributes once the defaults that
  its labels leave out are filled in.
*/
module Rancher {
  import opened Wrappers
  import opened Strings
  import opened Tables
  import opened Dynamic
  import opened Labels

  /** The provider's own settings for one record, read from its labels: whether it is exposed. */
  datatype ExtraConf = ExtraConf(enable: bool)

  /**
    A discovered Rancher service: its name, its labels, its declared port
    ("80/tcp", "12345:80/tcp" or ""), the IP address of each of its
    containers in order, its health and lifecycle state as Rancher reports
    them, and the provider settings read from its labels.
  */
  datatype Record = Record(
    name: string,
    labels: map<string, string>,
    port: string,
    containers: seq<string>,
    health: string,
    state: string,
    extraConf: ExtraConf)

  /**
    A constraint expression over a record's labels. `Label(k, v)` holds when
    label `k` is present with value `v`; `Always` is the empty expression.
  */
  datatype Constraint =
    | Always
    | Label(key: string, value: string)
    | Not(operand: Constraint)
    | And(left: Constraint, right: Constraint)
    | Or(left: Constraint, right: Constraint)

  predicate Matches(c: Constraint, labels: map<string, string>)
  {
    match c
    case Always => true
    case Label(k, v) => k in labels && labels[k] == v
    case Not(e) => !Matches(e, labels)
    case And(l, r) => Matches(l, labels) && Matches(r, labels)
    case Or(l, r) => Matches(l, labels) || Matches(r, labels)
  }

  /**
    The provider settings the builder consults: whether records are exposed
    unless a label says otherwise, the constraint every record must match,
    and whether unhealthy or transitioning records are filtered out.
  */
  datatype Settings = Settings(exposedByDefault: bool, constraint: Constraint, healthFilter: bool)

  /** The label that turns exposure on or off for one record. */
  const EnableKey := "traefik.enable"

  /** The enable label lies outside the roots the label decoder reads. */
  lemma EnableKeyUnrelated()
    ensures Classify(EnableKey).Unrelated?
  {
    assert EnableKey == "traefik" + ['.'] + "enable";
    ClassifyTwoSegments("traefik", "enable");
  }

  /**
    The provider settings of a record: exposure comes from the enable label
    when there is one, and from the global default otherwise; an enable
    label that is not a boolean is an error.
  */
  function GetConfiguration(settings: Settings, labels: map<string, string>): (r: Result<ExtraConf, DecodeError>)
    ensures EnableKey !in labels ==> r == Ok(ExtraConf(settings.exposedByDefault))
    ensures EnableKey in labels ==> (r.Ok? <==> ParseBool(labels[EnableKey]).Some?)
    ensures EnableKey in labels && r.Ok? ==> r.value.enable == ParseBool(labels[EnableKey]).value
  {
    if EnableKey !in labels then Ok(ExtraConf(settings.exposedByDefault))
    else match ParseBool(labels[EnableKey])
      case Some(b) => Ok(ExtraConf(b))
      case None => Err(InvalidBoolean)
  }

  /** Health states that let a record through the health filter ("" means Rancher reported none). */
  predicate HealthAccepted(health: string)
  {
    health == "" || health == "healthy" || health == "updating-healthy"
  }

  /** Lifecycle states that let a record through the health filter. */
  predicate StateAccepted(state: string)
  {
    state == "" || state == "active" || state == "updating-active" || state == "upgraded" || state == "upgrading"
  }

  /** Whether a record takes part: it is enabled, it matches the constraint, and, when filtering, it is healthy and settled. */
  predicate Keep(settings: Settings, r: Record)
  {
    && r.extraConf.enable
    && Matches(settings.constraint, r.labels)
    && (settings.healthFilter ==> HealthAccepted(r.health) && StateAccepted(r.state))
  }

  /**
    The container port of a declared port: the protocol after "/" is
    dropped, and of "host:container" the container side is taken.
  */
  function ServicePort(port: string): string
  {
    var raw := Split(port, '/')[0];
    var hostPort := Split(raw, ':');
    if |hostPort| >= 2 then hostPort[1] else hostPort[0]
  }

  /** A declared port "<container>/<protocol>" resolves to the container port. */
  lemma ServicePortPlain(container: string, protocol: string)
    requires ':' !in container && '/' !in container
    ensures ServicePort(container + "/" + protocol) == container
  {
    assert container + "/" + protocol == container + ['/'] + protocol;
    SplitAfterPrefix(container, '/', protocol);
    SplitWithoutSeparator(container, ':');
  }

  /** A declared port "<host>:<container>/<protocol>" resolves to the container port, not the host port. */
  lemma ServicePortMapped(host: string, container: string, protocol: string)
    requires ':' !in host && '/' !in host
    requires ':' !in container && '/' !in container
    ensures ServicePort(host + ":" + container + "/" + protocol) == container
  {
    var raw := host + ":" + container;
    assert host + ":" + container + "/" + protocol == raw + ['/'] + protocol;
    assert '/' !in raw;
    SplitAfterPrefix(raw, '/', protocol);
    assert raw == host + [':'] + container;
    SplitAfterPrefix(host, ':', container);
    SplitWithoutSeparator(container, ':');
  }

  /** A record that declares no port has no port to offer. */
  lemma ServicePortEmpty()
    ensures ServicePort("") == ""
  {
  }

  /** Host and port joined as an address; an IPv6 host is put in brackets. */
  function JoinHostPort(host: string, port: string): string
  {
    if ':' in host then "[" + host + "]:" + port else host + ":" + port
  }

  /** One HTTP server per container, in container order, all on `port`. */
  function HttpServers(containers: seq<string>, port: string): (s: seq<Server>)
    ensures |s| == |containers|
    ensures forall i :: 0 <= i < |s| ==> s[i] == Server("http://" + JoinHostPort(containers[i], port))
  {
    if containers == [] then []
    else HttpServers(containers[..|containers| - 1], port) + [Server("http://" + JoinHostPort(containers[|containers| - 1], port))]
  }

  /** One TCP server per container, in container order, all on `port`. */
  function TcpServers(containers: seq<string>, port: string): (s: seq<TcpServer>)
    ensures |s| == |containers|
    ensures forall i :: 0 <= i < |s| ==> s[i] == TcpServer(JoinHostPort(containers[i], port))
  {
    if containers == [] then []
    else TcpServers(containers[..|containers| - 1], port) + [TcpServer(JoinHostPort(containers[|containers| - 1], port))]
  }

  /** A port label wins over the record's declared port. */
  function ResolvePort(labelled: string, declared: string): string
  {
    if labelled != "" then labelled else declared
  }

  /** The rule of a router that states none: the record's name under the provider's domain. */
  function DefaultRule(name: string): (rule: string)
    ensures rule != []
  {
    "Host(`" + name + ".traefik.wtf`)"
  }

  /** Every service finds a port: its own label, or else the declared one. */
  predicate PortsResolve(ports: map<string, string>, declaredPort: string)
  {
    forall n | n in ports :: ResolvePort(ports[n], declaredPort) != ""
  }

  predicate ServicePortsResolve(labels: map<string, ServiceLabels>, declaredPort: string)
  {
    forall n | n in labels :: ResolvePort(labels[n].port, declaredPort) != ""
  }

  /** The TCP services to build, with their port labels: those declared, or one named after the record. */
  function TcpPorts(name: string, declared: map<string, string>): (ports: map<string, string>)
    ensures ports.Keys == if declared == map[] then {name} else declared.Keys
  {
    if declared == map[] then map[name := ""] else declared
  }

  /**
    The TCP services of a record: each of `TcpPorts` with one server per
    container on its resolved port, or nothing when one of them has no
    port at all.
  */
  function TcpServices(name: string, containers: seq<string>, declaredPort: string, declared: map<string, string>): (r: Option<map<string, TcpService>>)
    ensures r.Some? <==> PortsResolve(TcpPorts(name, declared), declaredPort)
    ensures r.Some? ==> r.value.Keys == if declared == map[] then {name} else declared.Keys
    ensures r.Some? ==> forall n | n in r.value ::
      r.value[n].servers == TcpServers(containers, ResolvePort(TcpPorts(name, declared)[n], declaredPort))
  {
    var ports := TcpPorts(name, declared);
    if !PortsResolve(ports, declaredPort) then None
    else Some(Tabulate(ports.Keys, n => TcpService(TcpServers(containers, ResolvePort(if n in ports then ports[n] else "", declaredPort)))))
  }

  /** The port a TCP service of `TcpPorts` resolves to: its label when it has one, else the declared port. */
  lemma TcpPortOf(name: string, declaredPort: string, declared: map<string, string>, n: string)
    requires PortsResolve(TcpPorts(name, declared), declaredPort)
    requires n in TcpPorts(name, declared)
    ensures ResolvePort(TcpPorts(name, declared)[n], declaredPort) == if n in declared && declared[n] != "" then declared[n] else declaredPort
    ensures (n !in declared || declared[n] == "") ==> declaredPort != ""
  {
  }

  /**
    A TCP service has one server per container, on its port label when it
    has one and otherwise on the declared port, which is then not empty.
  */
  lemma TcpServiceAt(name: string, containers: seq<string>, declaredPort: string, declared: map<string, string>, services: map<string, TcpService>, n: string)
    requires TcpServices(name, containers, declaredPort, declared) == Some(services)
    requires n in services
    ensures services[n].servers == TcpServers(containers, if n in declared && declared[n] != "" then declared[n] else declaredPort)
    ensures (n !in declared || declared[n] == "") ==> declaredPort != ""
  {
    TcpPortOf(name, declaredPort, declared, n);
  }

  /** A router that names no service is given the only one there is. */
  function FillTcpService(router: TcpRouter, services: set<string>): TcpRouter
  {
    if router.service == "" && |services| == 1 then router.(service := Least(services)) else router
  }

  /**
    The TCP routers kept from those declared: a router without a rule is
    dropped, and so is one that names no service when there are several to
    choose from.
  */
  function TcpRouters(declared: map<string, TcpRouter>, services: set<string>): (r: map<string, TcpRouter>)
    ensures forall n :: n in r <==> n in declared && declared[n].rule != "" && (declared[n].service != "" || |services| <= 1)
    ensures forall n | n in r :: r[n] == FillTcpService(declared[n], services)
  {
    var kept := set n | n in declared && declared[n].rule != "" && (declared[n].service != "" || |services| <= 1);
    Tabulate(kept, n => FillTcpService(if n in declared then declared[n] else TcpRouter("", "", false), services))
  }

  /** The HTTP services to build, with their labels: those declared, or one named after the record that passes the host header. */
  function ServiceLabelsOf(name: string, declared: map<string, ServiceLabels>): map<string, ServiceLabels>
  {
    if declared == map[] then map[name := ServiceLabels(true, "")] else declared
  }

  /**
    The HTTP services of a record: those its labels declare, or else one
    named after the record. Each has one server per container, on its port
    label when it has one and on the declared port otherwise, and passes
    the host header unless its label says not to; when neither gives a
    port, the record has no HTTP services at all.
  */
  function HttpServices(name: string, containers: seq<string>, declaredPort: string, declared: map<string, ServiceLabels>): (r: Option<map<string, Service>>)
    ensures r.Some? <==> ServicePortsResolve(ServiceLabelsOf(name, declared), declaredPort)
    ensures r.Some? ==> r.value.Keys == (if declared == map[] then {name} else declared.Keys)
    ensures r.Some? ==> forall n | n in r.value && n in declared && declared[n].port != "" ::
      r.value[n].servers == HttpServers(containers, declared[n].port)
    ensures r.Some? ==> forall n | n in r.value && (n !in declared || declared[n].port == "") ::
      declaredPort != "" && r.value[n].servers == HttpServers(containers, declaredPort)
    ensures r.Some? ==> forall n | n in r.value :: r.value[n].passHostHeader == (n !in declared || declared[n].passHostHeader)
  {
    var labels := ServiceLabelsOf(name, declared);
    if !ServicePortsResolve(labels, declaredPort) then None
    else
      var services := Tabulate(labels.Keys, n => ServiceFrom(if n in labels then labels[n] else ServiceLabels(true, ""), containers, declaredPort));
      assert forall n | n in services && (n !in declared || declared[n].port == "") :: labels[n].port == "" && ResolvePort(labels[n].port, declaredPort) != "";
      Some(services)
  }

  function ServiceFrom(labels: ServiceLabels, containers: seq<string>, declaredPort: string): Service
  {
    Service(HttpServers(containers, ResolvePort(labels.port, declaredPort)), labels.passHostHeader)
  }

  /** The routers to complete: those declared, or else one named after the record unless there are several services. */
  function RoutersOf(name: string, declared: map<string, Router>, services: set<string>): map<string, Router>
  {
    if declared != map[] then declared
    else if |services| > 1 then map[]
    else map[name := Router("", "", [], false)]
  }

  /** A router without a rule gets the default rule; one without a service gets the only service there is. */
  function FillRouter(router: Router, name: string, services: set<string>): Router
  {
    router.(rule := if router.rule == "" then DefaultRule(name) else router.rule,
            service := if router.service == "" && |services| == 1 then Least(services) else router.service)
  }

  /**
    The HTTP routers of a record: `RoutersOf` completed by `FillRouter`,
    less those that name no service while several services exist.
  */
  function HttpRouters(name: string, declared: map<string, Router>, services: set<string>): (r: map<string, Router>)
    ensures forall n :: n in r <==> n in RoutersOf(name, declared, services) && (RoutersOf(name, declared, services)[n].service != "" || |services| <= 1)
    ensures forall n | n in r :: r[n] == FillRouter(RoutersOf(name, declared, services)[n], name, services)
  {
    var base := RoutersOf(name, declared, services);
    var kept := set n | n in base && (base[n].service != "" || |services| <= 1);
    Tabulate(kept, n => FillRouter(if n in base then base[n] else Router("", "", [], false), name, services))
  }

  /** The HTTP half over the services built, or nothing when there are none: the routers completed over them, and the declared middlewares. */
  function HttpHalf(name: string, d: Decoded, services: Option<map<string, Service>>): Option<Configuration>
  {
    if services.None? then None
    else Some(Configuration(HttpRouters(name, d.routers, services.value.Keys), services.value, d.middlewares, map[], map[]))
  }

  /** The HTTP half of a record's configuration, or nothing when a service has no port. */
  function HttpPart(r: Record, port: string, d: Decoded): Option<Configuration>
  {
    HttpHalf(r.name, d, HttpServices(r.name, r.containers, port, d.services))
  }

  /** Whether the labels declare anything under the TCP root. */
  predicate HasTcp(d: Decoded)
  {
    d.tcpRouters != map[] || d.tcpServices != map[]
  }

  /** Whether the labels declare anything under the HTTP root. */
  predicate HasHttp(d: Decoded)
  {
    d.routers != map[] || d.services != map[] || d.middlewares != map[]
  }

  /** The TCP half over the TCP services built, or nothing when there are none: the routers kept over them. */
  function TcpHalf(d: Decoded, services: Option<map<string, TcpService>>): Option<Configuration>
  {
    if services.None? then None
    else Some(Configuration(map[], map[], map[], TcpRouters(d.tcpRouters, services.value.Keys), services.value))
  }

  /** The TCP half of a record's configuration, or nothing when a TCP service has no port. */
  function TcpPart(r: Record, port: string, d: Decoded): Option<Configuration>
  {
    TcpHalf(d, TcpServices(r.name, r.containers, port, d.tcpServices))
  }

  /**
    How the two halves make up a record's configuration: the TCP half when
    there are TCP labels; the HTTP half unless there are TCP labels and no
    HTTP ones. Nothing when a half that is needed is missing.
  */
  function Combine(hasTcp: bool, hasHttp: bool, tcp: Option<Configuration>, http: Option<Configuration>): Option<Configuration>
  {
    if !hasTcp then http
    else if tcp.None? then None
    else if !hasHttp then tcp
    else if http.None? then None
    else Some(http.value.(tcpRouters := tcp.value.tcpRouters, tcpServices := tcp.value.tcpServices))
  }

  /**
    The configuration one record contributes, from what its labels declare:
    the TCP half when there are TCP labels; the HTTP half, defaults
    included, unless there are TCP labels and no HTTP ones. Nothing when a
    service it needs has no port.
  */
  function Assemble(r: Record, d: Decoded): Option<Configuration>
  {
    var port := ServicePort(r.port);
    Combine(HasTcp(d), HasHttp(d), TcpPart(r, port, d), HttpPart(r, port, d))
  }

  /**
    The configuration one record contributes, if any: nothing when the
    record is filtered out or its labels do not decode.
  */
  function BuildRecord(settings: Settings, r: Record): (c: Option<Configuration>)
    ensures !Keep(settings, r) ==> c.None?
    ensures Decode(r.labels).Err? ==> c.None?
    ensures Keep(settings, r) && Decode(r.labels).Ok? ==> c == Assemble(r, Decode(r.labels).value)
  {
    if !Keep(settings, r) then None
    else match Decode(r.labels)
      case Err(_) => None
      case Ok(d) => Assemble(r, d)
  }

  /** Where a configuration is combined with an HTTP half, that half is there and gives its HTTP entries. */
  lemma CombineHttp(hasTcp: bool, hasHttp: bool, tcp: Option<Configuration>, http: Option<Configuration>, c: Configuration)
    requires Combine(hasTcp, hasHttp, tcp, http) == Some(c)
    requires hasHttp || !hasTcp
    ensures http.Some? && http.value.routers == c.routers && http.value.services == c.services && http.value.middlewares == c.middlewares
  {
  }

  /** Where a configuration is combined with a TCP half, that half is there and gives its TCP entries. */
  lemma CombineTcp(hasTcp: bool, hasHttp: bool, tcp: Option<Configuration>, http: Option<Configuration>, c: Configuration)
    requires Combine(hasTcp, hasHttp, tcp, http) == Some(c)
    requires hasTcp
    ensures tcp.Some? && tcp.value.tcpRouters == c.tcpRouters && tcp.value.tcpServices == c.tcpServices
  {
  }

  /** TCP labels and no HTTP ones: the TCP half alone. */
  lemma CombineTcpOnly(hasTcp: bool, hasHttp: bool, tcp: Option<Configuration>, http: Option<Configuration>)
    requires hasTcp && !hasHttp
    ensures Combine(hasTcp, hasHttp, tcp, http) == tcp
  {
  }

  /** TCP and HTTP labels with both halves there: the HTTP half with the TCP entries of the other. */
  lemma CombineBoth(tcp: Configuration, http: Configuration)
    ensures Combine(true, true, Some(tcp), Some(http)) == Some(http.(tcpRouters := tcp.tcpRouters, tcpServices := tcp.tcpServices))
  {
  }

  /** The HTTP half of a contribution that has one: its services, the routers over them, and the declared middlewares. */
  lemma AssembleHttp(r: Record, d: Decoded, c: Configuration)
    requires Assemble(r, d) == Some(c)
    requires HasHttp(d) || !HasTcp(d)
    ensures HttpServices(r.name, r.containers, ServicePort(r.port), d.services) == Some(c.services)
    ensures c.routers == HttpRouters(r.name, d.routers, c.services.Keys)
    ensures c.middlewares == d.middlewares
  {
    var port := ServicePort(r.port);
    CombineHttp(HasTcp(d), HasHttp(d), TcpPart(r, port, d), HttpPart(r, port, d), c);
    HttpPartFields(r, port, d, HttpPart(r, port, d).value);
  }

  /** The HTTP half over some services: those services, the routers completed over them, and the declared middlewares. */
  lemma HttpHalfFields(name: string, d: Decoded, services: Option<map<string, Service>>, h: Configuration)
    requires HttpHalf(name, d, services) == Some(h)
    ensures services == Some(h.services)
    ensures h.routers == HttpRouters(name, d.routers, h.services.Keys)
    ensures h.middlewares == d.middlewares
    ensures h.tcpRouters == map[] && h.tcpServices == map[]
  {
  }

  /** The HTTP half itself: the services, the routers completed over them, and the declared middlewares. */
  lemma HttpPartFields(r: Record, port: string, d: Decoded, h: Configuration)
    requires HttpPart(r, port, d) == Some(h)
    ensures HttpServices(r.name, r.containers, port, d.services) == Some(h.services)
    ensures h.routers == HttpRouters(r.name, d.routers, h.services.Keys)
    ensures h.middlewares == d.middlewares
    ensures h.tcpRouters == map[] && h.tcpServices == map[]
  {
    HttpHalfFields(r.name, d, HttpServices(r.name, r.containers, port, d.services), h);
  }

  /** The TCP half over some TCP services: those services and the routers kept over them, and no HTTP entry. */
  lemma TcpHalfFields(d: Decoded, services: Option<map<string, TcpService>>, t: Configuration)
    requires TcpHalf(d, services) == Some(t)
    ensures services == Some(t.tcpServices)
    ensures t.tcpRouters == TcpRouters(d.tcpRouters, t.tcpServices.Keys)
    ensures t.routers == map[] && t.services == map[] && t.middlewares == map[]
  {
  }

  /** The HTTP half over services that build: those services, the routers over them, and the declared middlewares. */
  lemma HttpPartOver(r: Record, port: string, d: Decoded, services: map<string, Service>)
    requires HttpServices(r.name, r.containers, port, d.services) == Some(services)
    ensures HttpPart(r, port, d) == Some(Configuration(HttpRouters(r.name, d.routers, services.Keys), services, d.middlewares, map[], map[]))
  {
  }

  /** The TCP half over TCP services that build: those services and the routers kept over them. */
  lemma TcpPartOver(r: Record, port: string, d: Decoded, services: map<string, TcpService>)
    requires TcpServices(r.name, r.containers, port, d.tcpServices) == Some(services)
    ensures TcpPart(r, port, d) == Some(Configuration(map[], map[], map[], TcpRouters(d.tcpRouters, services.Keys), services))
  {
  }

  /** The TCP half itself: the TCP services and the routers kept over them, and no HTTP entry. */
  lemma TcpPartFields(r: Record, port: string, d: Decoded, t: Configuration)
    requires TcpPart(r, port, d) == Some(t)
    ensures TcpServices(r.name, r.containers, port, d.tcpServices) == Some(t.tcpServices)
    ensures t.tcpRouters == TcpRouters(d.tcpRouters, t.tcpServices.Keys)
    ensures t.routers == map[] && t.services == map[] && t.middlewares == map[]
  {
    TcpHalfFields(d, TcpServices(r.name, r.containers, port, d.tcpServices), t);
  }

  /** The TCP half of a contribution with TCP labels: its services and the routers kept over them. */
  lemma AssembleTcp(r: Record, d: Decoded, c: Configuration)
    requires Assemble(r, d) == Some(c)
    requires HasTcp(d)
    ensures TcpServices(r.name, r.containers, ServicePort(r.port), d.tcpServices) == Some(c.tcpServices)
    ensures c.tcpRouters == TcpRouters(d.tcpRouters, c.tcpServices.Keys)
  {
    var port := ServicePort(r.port);
    CombineTcp(HasTcp(d), HasHttp(d), TcpPart(r, port, d), HttpPart(r, port, d), c);
    TcpPartFields(r, port, d, TcpPart(r, port, d).value);
  }

  /** Without TCP labels a record contributes no TCP entry. */
  lemma AssembleNoTcp(r: Record, d: Decoded, c: Configuration)
    requires Assemble(r, d) == Some(c)
    requires !HasTcp(d)
    ensures c.tcpRouters == map[] && c.tcpServices == map[]
  {
    var port := ServicePort(r.port);
    assert Some(c) == HttpPart(r, port, d);
    HttpPartFields(r, port, d, c);
  }

  /** What a label set that declares nothing decodes to. */
  const NoDeclarations := Decoded(map[], map[], map[], map[], map[])

  /**
    A record whose labels declare nothing contributes one router and one
    service, both named after it: the router sends the default rule to that
    service, and the service has one server per container on the declared
    port and passes the host header. Without a declared port it contributes
    nothing.
  */
  lemma AssembleDefaults(r: Record)
    ensures ServicePort(r.port) == "" ==> Assemble(r, NoDeclarations) == None
    ensures ServicePort(r.port) != "" ==> Assemble(r, NoDeclarations) == Some(Configuration(
      map[r.name := Router(r.name, DefaultRule(r.name), [], false)],
      map[r.name := Service(HttpServers(r.containers, ServicePort(r.port)), true)],
      map[], map[], map[]))
  {
    var port := ServicePort(r.port);
    assert !HasTcp(NoDeclarations);
    assert Assemble(r, NoDeclarations) == HttpPart(r, port, NoDeclarations);
    DefaultServices(r.name, r.containers, port);
    if port != "" {
      DefaultRouter(r.name);
    }
  }

  /** Without service labels, the one service is named after the record and passes the host header. */
  lemma DefaultServices(name: string, containers: seq<string>, port: string)
    ensures port == "" ==> HttpServices(name, containers, port, map[]) == None
    ensures port != "" ==> HttpServices(name, containers, port, map[]) == Some(map[name := Service(HttpServers(containers, port), true)])
  {
    assert ServiceLabelsOf(name, map[]) == map[name := ServiceLabels(true, "")];
    if port != "" {
      SameEntries(HttpServices(name, containers, port, map[]).value, map[name := Service(HttpServers(containers, port), true)]);
    }
  }

  /** Without router labels and with one service, the one router is named after the record, with the default rule. */
  lemma DefaultRouter(name: string)
    ensures HttpRouters(name, map[], {name}) == map[name := Router(name, DefaultRule(name), [], false)]
  {
    assert Least({name}) == name;
    assert RoutersOf(name, map[], {name}) == map[name := Router("", "", [], false)];
    SameEntries(HttpRouters(name, map[], {name}), map[name := Router(name, DefaultRule(name), [], false)]);
  }

  /** A kept record with no label under the decoded roots gets the defaults of `AssembleDefaults`. */
  lemma UnlabelledRecord(settings: Settings, r: Record)
    requires Keep(settings, r)
    requires forall k | k in r.labels :: Classify(k).Unrelated?
    ensures BuildRecord(settings, r) == Assemble(r, NoDeclarations)
  {
    DecodeNothing(r.labels);
  }

  /** A set of one element holds just its least element. */
  lemma OnlyElement(s: set<string>)
    requires |s| == 1
    ensures s == {Least(s)}
  {
    var m := Least(s);
    forall x | x in s ensures x == m {
      if x != m {
        assert {x, m} <= s;
        assert |{x, m}| == 2;
        CardinalityOfSubset({x, m}, s);
      }
    }
  }

  /** A subset has no more elements than its superset. */
  lemma CardinalityOfSubset<T>(a: set<T>, b: set<T>)
    requires a <= b
    ensures |a| <= |b|
  {
    assert b == a + (b - a);
  }

  /**
    Routers declared by label replace the default one: the routers
    completed over a record's services are exactly the declared routers
    that name a service, plus those that name none when there is only one
    service, which then serve it. Each keeps its middlewares and TLS
    marker, and a router without a rule gets the default rule.
  */
  lemma DeclaredRouters(name: string, declared: map<string, Router>, services: set<string>)
    requires declared != map[] && services != {}
    ensures forall n :: n in HttpRouters(name, declared, services) <==> n in declared && (declared[n].service != "" || |services| == 1)
    ensures forall n | n in HttpRouters(name, declared, services) ::
      && HttpRouters(name, declared, services)[n].rule == (if declared[n].rule == "" then DefaultRule(name) else declared[n].rule)
      && HttpRouters(name, declared, services)[n].middlewares == declared[n].middlewares
      && HttpRouters(name, declared, services)[n].tls == declared[n].tls
    ensures forall n | n in HttpRouters(name, declared, services) && declared[n].service != "" ::
      HttpRouters(name, declared, services)[n].service == declared[n].service
    ensures forall n | n in HttpRouters(name, declared, services) && declared[n].service == "" ::
      services == {HttpRouters(name, declared, services)[n].service}
  {
    assert RoutersOf(name, declared, services) == declared;
    assert |services| >= 1;
    if |services| == 1 {
      OnlyElement(services);
    }
  }

  /**
    Labels that declare only TCP entries never bring in the default HTTP
    router or service: the record contributes no HTTP entry at all.
  */
  lemma TcpLabelsOnly(r: Record, d: Decoded, c: Configuration)
    requires Assemble(r, d) == Some(c)
    requires HasTcp(d) && !HasHttp(d)
    ensures c.routers == map[] && c.services == map[] && c.middlewares == map[]
  {
    var port := ServicePort(r.port);
    CombineTcpOnly(HasTcp(d), HasHttp(d), TcpPart(r, port, d), HttpPart(r, port, d));
    TcpPartFields(r, port, d, c);
  }

  /**
    Against a non-empty set of services, the TCP routers kept are those with
    a rule that either name a service or have only one to go to; they keep
    their rule and TLS marker, and one that names no service is sent to the
    only service.
  */
  lemma TcpRouterContribution(declared: map<string, TcpRouter>, services: set<string>)
    requires services != {}
    ensures forall n :: n in TcpRouters(declared, services) <==>
      n in declared && declared[n].rule != "" && (declared[n].service != "" || |services| == 1)
    ensures forall n | n in TcpRouters(declared, services) ::
      TcpRouters(declared, services)[n].rule == declared[n].rule && TcpRouters(declared, services)[n].tls == declared[n].tls
    ensures forall n | n in TcpRouters(declared, services) && declared[n].service != "" ::
      TcpRouters(declared, services)[n].service == declared[n].service
    ensures forall n | n in TcpRouters(declared, services) && declared[n].service == "" ::
      services == {TcpRouters(declared, services)[n].service}
  {
    var routers := TcpRouters(declared, services);
    assert |services| >= 1;
    forall n | n in routers && declared[n].service == ""
      ensures services == {routers[n].service}
    {
      assert |services| == 1;
      OnlyElement(services);
    }
  }

  /**
    Every HTTP router has a rule, and sends either to the service its label
    names or to one of the services it is completed against.
  */
  lemma HttpRoutersComplete(name: string, declared: map<string, Router>, services: set<string>)
    requires services != {}
    ensures forall n | n in HttpRouters(name, declared, services) ::
      var router := HttpRouters(name, declared, services)[n];
      router.rule != "" && (router.service in services || (n in declared && declared[n].service != "" && router.service == declared[n].service))
  {
    var routers := HttpRouters(name, declared, services);
    forall n | n in routers
      ensures routers[n].rule != "" &&
        (routers[n].service in services || (n in declared && declared[n].service != "" && routers[n].service == declared[n].service))
    {
      HttpRouterComplete(name, declared, services, n);
    }
  }

  /** `HttpRoutersComplete` for one router. */
  lemma HttpRouterComplete(name: string, declared: map<string, Router>, services: set<string>, n: string)
    requires services != {}
    requires n in HttpRouters(name, declared, services)
    ensures HttpRouters(name, declared, services)[n].rule != ""
    ensures var router := HttpRouters(name, declared, services)[n];
      router.service in services || (n in declared && declared[n].service != "" && router.service == declared[n].service)
  {
    var base := RoutersOf(name, declared, services);
    if base[n].service == "" {
      assert |services| == 1;
      assert Least(services) in services;
    } else {
      assert base == declared;
    }
  }

  /**
    Every TCP router kept has a rule, and sends either to the service its
    label names or to one of the services it is completed against.
  */
  lemma TcpRoutersComplete(declared: map<string, TcpRouter>, services: set<string>)
    requires services != {}
    ensures forall n | n in TcpRouters(declared, services) ::
      var router := TcpRouters(declared, services)[n];
      router.rule != "" && (router.service in services || (declared[n].service != "" && router.service == declared[n].service))
  {
    var routers := TcpRouters(declared, services);
    forall n | n in routers
      ensures routers[n].rule != "" && (routers[n].service in services || (declared[n].service != "" && routers[n].service == declared[n].service))
    {
      if declared[n].service == "" {
        assert |services| == 1;
      }
    }
  }

  /** A record that declares one HTTP service gets just that service, on its resolved port. */
  lemma HttpServicesOne(name: string, containers: seq<string>, port: string, service: string, labels: ServiceLabels)
    requires ResolvePort(labels.port, port) != ""
    ensures HttpServices(name, containers, port, map[service := labels]) ==
      Some(map[service := Service(HttpServers(containers, ResolvePort(labels.port, port)), labels.passHostHeader)])
  {
    var r := HttpServices(name, containers, port, map[service := labels]);
    assert r.Some?;
    SameEntries(r.value, map[service := Service(HttpServers(containers, ResolvePort(labels.port, port)), labels.passHostHeader)]);
  }

  /** `HttpServicesOne` over any map with one key. */
  lemma HttpServicesSingle(name: string, containers: seq<string>, port: string, declared: map<string, ServiceLabels>, service: string)
    requires declared.Keys == {service} && ResolvePort(declared[service].port, port) != ""
    ensures HttpServices(name, containers, port, declared) ==
      Some(map[service := Service(HttpServers(containers, ResolvePort(declared[service].port, port)), declared[service].passHostHeader)])
  {
    var expected := map[service := Service(HttpServers(containers, ResolvePort(declared[service].port, port)), declared[service].passHostHeader)];
    assert expected.Keys == {service};
    var r := HttpServices(name, containers, port, declared);
    assert r.Some?;
    SameEntries(r.value, expected);
  }

  /** One declared router over one service is kept and completed. */
  lemma HttpRoutersOne(name: string, router: string, declared: Router, service: string)
    ensures HttpRouters(name, map[router := declared], {service}) == map[router := FillRouter(declared, name, {service})]
  {
    SameEntries(HttpRouters(name, map[router := declared], {service}), map[router := FillRouter(declared, name, {service})]);
  }

  /** Without router labels, the one service gets a router named after the record with the default rule. */
  lemma DefaultRouterFor(name: string, service: string, s: Service)
    ensures HttpRouters(name, map[], map[service := s].Keys) == map[name := Router(service, DefaultRule(name), [], false)]
  {
    assert map[service := s].Keys == {service};
    assert Least({service}) == service;
    assert RoutersOf(name, map[], {service}) == map[name := Router("", "", [], false)];
    SameEntries(HttpRouters(name, map[], {service}), map[name := Router(service, DefaultRule(name), [], false)]);
  }

  /** Without TCP service labels, the one TCP service is named after the record and uses the declared port. */
  lemma DefaultTcpServices(name: string, containers: seq<string>, port: string)
    requires port != ""
    ensures TcpServices(name, containers, port, map[]) == Some(map[name := TcpService(TcpServers(containers, port))])
  {
    assert TcpPorts(name, map[]) == map[name := ""];
    var r := TcpServices(name, containers, port, map[]);
    assert r.Some? && r.value.Keys == {name};
    TcpServiceAt(name, containers, port, map[], r.value, name);
    OneEntry(r.value, name, TcpService(TcpServers(containers, port)));
  }

  /** One declared TCP service gets servers on its resolved port. */
  lemma TcpServicesOne(name: string, containers: seq<string>, port: string, service: string, labelled: string)
    requires ResolvePort(labelled, port) != ""
    ensures TcpServices(name, containers, port, map[service := labelled]) ==
      Some(map[service := TcpService(TcpServers(containers, ResolvePort(labelled, port)))])
  {
    TcpServicesSingle(name, containers, port, map[service := labelled], service);
  }

  /** `TcpServicesOne` over any map with one key. */
  lemma TcpServicesSingle(name: string, containers: seq<string>, port: string, declared: map<string, string>, service: string)
    requires declared.Keys == {service} && ResolvePort(declared[service], port) != ""
    ensures TcpServices(name, containers, port, declared) ==
      Some(map[service := TcpService(TcpServers(containers, ResolvePort(declared[service], port)))])
  {
    assert service in declared;
    var r := TcpServices(name, containers, port, declared);
    assert r.Some? && r.value.Keys == {service};
    TcpServiceAt(name, containers, port, declared, r.value, service);
    OneEntry(r.value, service, TcpService(TcpServers(containers, ResolvePort(declared[service], port))));
  }

  /** One declared TCP router over one service: dropped without a rule, otherwise kept and sent to that service if it names none. */
  lemma TcpRoutersOne(router: string, declared: TcpRouter, service: string)
    ensures TcpRouters(map[router := declared], {service}) ==
      if declared.rule == "" then map[]
      else map[router := if declared.service == "" then declared.(service := service) else declared]
  {
    assert Least({service}) == service;
    var expected := if declared.rule == "" then map[] else map[router := if declared.service == "" then declared.(service := service) else declared];
    SameEntries(TcpRouters(map[router := declared], {service}), expected);
  }
}
