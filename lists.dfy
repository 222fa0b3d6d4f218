/**
  Label lists of the shapes the provider's configuration test table uses,
  written out as label paths and values, and the entries each decodes to
  whatever its names and values, by declaring their labels one after another.
*/
module LabelLists {
  import opened Wrappers
  import opened Strings
  import opened Dynamic
  import opened Labels

  /** A router's rule. */
  function RouterList(router: string, rule: string): seq<(LabelPath, string)>
  {
    [(LabelPath(RouterRule, router), rule)]
  }

  lemma RouterListDeclared(router: string, rule: string)
    requires ValidName(router)
    ensures DistinctPaths(RouterList(router, rule)) && BooleansParse(RouterList(router, rule))
    ensures DeclareAll(RouterList(router, rule)) ==
      Decoded(map[router := Router("", rule, [], false)], map[], map[], map[], map[])
  {
    var e := RouterList(router, rule);
    assert e[..0] == [];
  }

  /** A router's rule and service, and a service's pass-host-header flag. */
  function RouterServiceList(router: string, rule: string, service: string, passHostHeader: string): seq<(LabelPath, string)>
  {
    [(LabelPath(ServicePassHostHeader, service), passHostHeader),
     (LabelPath(RouterRule, router), rule),
     (LabelPath(RouterService, router), service)]
  }

  lemma RouterServiceListDeclared(router: string, rule: string, service: string, passHostHeader: string, flag: bool)
    requires ValidName(router) && ValidName(service) && ParseBool(passHostHeader) == Some(flag)
    ensures DistinctPaths(RouterServiceList(router, rule, service, passHostHeader))
    ensures BooleansParse(RouterServiceList(router, rule, service, passHostHeader))
    ensures DeclareAll(RouterServiceList(router, rule, service, passHostHeader)) ==
      Decoded(map[router := Router(service, rule, [], false)], map[service := ServiceLabels(flag, "")], map[], map[], map[])
  {
    var e := RouterServiceList(router, rule, service, passHostHeader);
    assert e[..3] == e;
    assert DeclareAll(e[..1]) == Declare(Decoded(map[], map[], map[], map[], map[]), e[0].0, e[0].1) by {
      assert e[..1][..0] == [];
    }
    assert DeclareAll(e[..2]) == Declare(DeclareAll(e[..1]), e[1].0, e[1].1) by {
      assert e[..2][..1] == e[..1];
    }
    assert DeclareAll(e[..3]) == Declare(DeclareAll(e[..2]), e[2].0, e[2].1) by {
      assert e[..3][..2] == e[..2];
    }
  }

  /** A basic-auth middleware's users, and a router's middleware list. */
  function MiddlewareList(router: string, middlewares: string, middleware: string, users: string): seq<(LabelPath, string)>
  {
    [(LabelPath(BasicAuthUsers, middleware), users),
     (LabelPath(RouterMiddlewares, router), middlewares)]
  }

  lemma MiddlewareListDeclared(router: string, middlewares: string, middleware: string, users: string)
    requires ValidName(router) && ValidName(middleware)
    ensures DistinctPaths(MiddlewareList(router, middlewares, middleware, users))
    ensures BooleansParse(MiddlewareList(router, middlewares, middleware, users))
    ensures DeclareAll(MiddlewareList(router, middlewares, middleware, users)) ==
      Decoded(map[router := Router("", "", Split(middlewares, ','), false)], map[],
                map[middleware := BasicAuth(Split(users, ','))], map[], map[])
  {
    var e := MiddlewareList(router, middlewares, middleware, users);
    assert e[..2] == e;
    assert DeclareAll(e[..1]) == Declare(Decoded(map[], map[], map[], map[], map[]), e[0].0, e[0].1) by {
      assert e[..1][..0] == [];
    }
    assert DeclareAll(e[..2]) == Declare(DeclareAll(e[..1]), e[1].0, e[1].1) by {
      assert e[..2][..1] == e[..1];
    }
  }

  /** A service's server port. */
  function ServicePortList(service: string, port: string): seq<(LabelPath, string)>
  {
    [(LabelPath(ServiceServerPort, service), port)]
  }

  lemma ServicePortListDeclared(service: string, port: string)
    requires ValidName(service)
    ensures DistinctPaths(ServicePortList(service, port)) && BooleansParse(ServicePortList(service, port))
    ensures DeclareAll(ServicePortList(service, port)) ==
      Decoded(map[], map[service := ServiceLabels(true, port)], map[], map[], map[])
  {
    var e := ServicePortList(service, port);
    assert e[..0] == [];
  }

  /** A TCP router's rule and TLS marker. */
  function TcpRouterList(router: string, rule: string, tls: string): seq<(LabelPath, string)>
  {
    [(LabelPath(TcpRouterRule, router), rule),
     (LabelPath(TcpRouterTls, router), tls)]
  }

  lemma TcpRouterListDeclared(router: string, rule: string, tls: string, flag: bool)
    requires ValidName(router) && ParseBool(tls) == Some(flag)
    ensures DistinctPaths(TcpRouterList(router, rule, tls)) && BooleansParse(TcpRouterList(router, rule, tls))
    ensures DeclareAll(TcpRouterList(router, rule, tls)) ==
      Decoded(map[], map[], map[], map[router := TcpRouter("", rule, flag)], map[])
  {
    var e := TcpRouterList(router, rule, tls);
    assert e[..2] == e;
    assert DeclareAll(e[..1]) == Declare(Decoded(map[], map[], map[], map[], map[]), e[0].0, e[0].1) by {
      assert e[..1][..0] == [];
    }
    assert DeclareAll(e[..2]) == Declare(DeclareAll(e[..1]), e[1].0, e[1].1) by {
      assert e[..2][..1] == e[..1];
    }
  }

  /** A TCP router's TLS marker alone. */
  function TcpTlsList(router: string, tls: string): seq<(LabelPath, string)>
  {
    [(LabelPath(TcpRouterTls, router), tls)]
  }

  lemma TcpTlsListDeclared(router: string, tls: string, flag: bool)
    requires ValidName(router) && ParseBool(tls) == Some(flag)
    ensures DistinctPaths(TcpTlsList(router, tls)) && BooleansParse(TcpTlsList(router, tls))
    ensures DeclareAll(TcpTlsList(router, tls)) ==
      Decoded(map[], map[], map[], map[router := TcpRouter("", "", flag)], map[])
  {
    var e := TcpTlsList(router, tls);
    assert e[..0] == [];
  }

  /** A TCP router's rule, and a TCP service's server port. */
  function TcpRouterPortList(router: string, rule: string, service: string, port: string): seq<(LabelPath, string)>
  {
    [(LabelPath(TcpRouterRule, router), rule),
     (LabelPath(TcpServiceServerPort, service), port)]
  }

  lemma TcpRouterPortListDeclared(router: string, rule: string, service: string, port: string)
    requires ValidName(router) && ValidName(service)
    ensures DistinctPaths(TcpRouterPortList(router, rule, service, port))
    ensures BooleansParse(TcpRouterPortList(router, rule, service, port))
    ensures DeclareAll(TcpRouterPortList(router, rule, service, port)) ==
      Decoded(map[], map[], map[], map[router := TcpRouter("", rule, false)], map[service := port])
  {
    var e := TcpRouterPortList(router, rule, service, port);
    assert e[..2] == e;
    assert DeclareAll(e[..1]) == Declare(Decoded(map[], map[], map[], map[], map[]), e[0].0, e[0].1) by {
      assert e[..1][..0] == [];
    }
    assert DeclareAll(e[..2]) == Declare(DeclareAll(e[..1]), e[1].0, e[1].1) by {
      assert e[..2][..1] == e[..1];
    }
  }

  /** A TCP service's server port alone. */
  function TcpPortList(service: string, port: string): seq<(LabelPath, string)>
  {
    [(LabelPath(TcpServiceServerPort, service), port)]
  }

  lemma TcpPortListDeclared(service: string, port: string)
    requires ValidName(service)
    ensures DistinctPaths(TcpPortList(service, port)) && BooleansParse(TcpPortList(service, port))
    ensures DeclareAll(TcpPortList(service, port)) ==
      Decoded(map[], map[], map[], map[], map[service := port])
  {
    var e := TcpPortList(service, port);
    assert e[..0] == [];
  }

  /** A TCP router's rule and TLS marker, a TCP service's server port, and an HTTP service's pass-host-header flag. */
  function TcpAndHttpList(router: string, rule: string, tls: string, service: string, port: string, httpService: string, passHostHeader: string): seq<(LabelPath, string)>
  {
    [(LabelPath(TcpRouterRule, router), rule),
     (LabelPath(TcpRouterTls, router), tls),
     (LabelPath(TcpServiceServerPort, service), port),
     (LabelPath(ServicePassHostHeader, httpService), passHostHeader)]
  }

  lemma TcpAndHttpListPaths(router: string, rule: string, tls: string, service: string, port: string, httpService: string, passHostHeader: string)
    requires ValidName(router) && ValidName(service) && ValidName(httpService)
    requires ParseBool(tls).Some? && ParseBool(passHostHeader).Some?
    ensures DistinctPaths(TcpAndHttpList(router, rule, tls, service, port, httpService, passHostHeader))
    ensures BooleansParse(TcpAndHttpList(router, rule, tls, service, port, httpService, passHostHeader))
  {
  }

  lemma TcpAndHttpListDeclared(router: string, rule: string, tls: string, service: string, port: string, httpService: string, passHostHeader: string, flag: bool, pass: bool)
    requires ValidName(router) && ValidName(service) && ValidName(httpService)
    requires ParseBool(tls) == Some(flag) && ParseBool(passHostHeader) == Some(pass)
    ensures DistinctPaths(TcpAndHttpList(router, rule, tls, service, port, httpService, passHostHeader))
    ensures BooleansParse(TcpAndHttpList(router, rule, tls, service, port, httpService, passHostHeader))
    ensures DeclareAll(TcpAndHttpList(router, rule, tls, service, port, httpService, passHostHeader)) ==
      Decoded(map[], map[httpService := ServiceLabels(pass, "")], map[], map[router := TcpRouter("", rule, flag)], map[service := port])
  {
    TcpAndHttpListPaths(router, rule, tls, service, port, httpService, passHostHeader);
    TcpAndHttpListDeclares(router, rule, tls, service, port, httpService, passHostHeader, flag, pass);
  }

  /** The whole list: the TCP part, then the HTTP service with its pass-host-header flag. */
  lemma TcpAndHttpListDeclares(router: string, rule: string, tls: string, service: string, port: string, httpService: string, passHostHeader: string, flag: bool, pass: bool)
    requires ParseBool(tls) == Some(flag) && ParseBool(passHostHeader) == Some(pass)
    ensures DeclareAll(TcpAndHttpList(router, rule, tls, service, port, httpService, passHostHeader)) ==
      Decoded(map[], map[httpService := ServiceLabels(pass, "")], map[], map[router := TcpRouter("", rule, flag)], map[service := port])
  {
    var e := TcpAndHttpList(router, rule, tls, service, port, httpService, passHostHeader);
    TcpAndHttpListTcp(router, rule, tls, service, port, httpService, passHostHeader, flag);
    DeclareAllPrefix(e, 4);
    assert e[..4] == e;
  }

  /** The first three labels of that list declare the TCP router and the TCP service. */
  lemma TcpAndHttpListTcp(router: string, rule: string, tls: string, service: string, port: string, httpService: string, passHostHeader: string, flag: bool)
    requires ParseBool(tls) == Some(flag)
    ensures DeclareAll(TcpAndHttpList(router, rule, tls, service, port, httpService, passHostHeader)[..3]) ==
      Decoded(map[], map[], map[], map[router := TcpRouter("", rule, flag)], map[service := port])
  {
    var e := TcpAndHttpList(router, rule, tls, service, port, httpService, passHostHeader);
    TcpAndHttpListRouter(router, rule, tls, service, port, httpService, passHostHeader, flag);
    DeclareAllPrefix(e, 3);
  }

  /** The first two labels of that list declare the TCP router with its rule and TLS marker. */
  lemma TcpAndHttpListRouter(router: string, rule: string, tls: string, service: string, port: string, httpService: string, passHostHeader: string, flag: bool)
    requires ParseBool(tls) == Some(flag)
    ensures DeclareAll(TcpAndHttpList(router, rule, tls, service, port, httpService, passHostHeader)[..2]) ==
      Decoded(map[], map[], map[], map[router := TcpRouter("", rule, flag)], map[])
  {
    var e := TcpAndHttpList(router, rule, tls, service, port, httpService, passHostHeader);
    DeclareAllPrefix(e, 1);
    DeclareAllPrefix(e, 2);
  }
}
