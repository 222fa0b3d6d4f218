/**
  The routing configuration a provider hands to the proxy: HTTP routers,
  services and middlewares, and TCP routers and services, each a map from
  name to entry. All five maps always exist (possibly empty).
*/
module Dynamic {
  import opened Strings
  import opened Tables

  /** An HTTP router: the service it sends to, its matching rule, its middleware chain and a TLS marker. */
  datatype Router = Router(service: string, rule: string, middlewares: seq<string>, tls: bool)

  /** One backend of an HTTP load balancer. */
  datatype Server = Server(url: string)

  /** An HTTP service: a load balancer over an ordered list of servers. */
  datatype Service = Service(servers: seq<Server>, passHostHeader: bool)

  /** The one middleware kind the model decodes: basic authentication with "user:hash" entries. */
  datatype Middleware = BasicAuth(users: seq<string>)

  /** A TCP router; `tls` marks SNI-based routing, its absence means pass-through. */
  datatype TcpRouter = TcpRouter(service: string, rule: string, tls: bool)

  /** One backend of a TCP load balancer, as host:port. */
  datatype TcpServer = TcpServer(address: string)

  /** A TCP service: a load balancer over an ordered list of servers. */
  datatype TcpService = TcpService(servers: seq<TcpServer>)

  datatype Configuration = Configuration(
    routers: map<string, Router>,
    services: map<string, Service>,
    middlewares: map<string, Middleware>,
    tcpRouters: map<string, TcpRouter>,
    tcpServices: map<string, TcpService>)

  /** The configuration with all five maps present and empty. */
  const Empty := Configuration(map[], map[], map[], map[], map[])

  /**
    Adds the entries of `part` named in `names`, one at a time, to `m`: a
    name new to `m` is inserted as it is, and a name already present gets
    `combine` of the entry there and the new one.
  */
  function AddAll<V>(m: map<string, V>, part: map<string, V>, names: seq<string>, combine: (V, V) -> V): (r: map<string, V>)
    requires forall i :: 0 <= i < |names| ==> names[i] in part
  {
    if names == [] then m
    else
      var r := AddAll(m, part, names[..|names| - 1], combine);
      var n := names[|names| - 1];
      if n in r then r[n := combine(r[n], part[n])] else r[n := part[n]]
  }

  /** One more name added: the entries added so far, with that name's entry inserted or combined. */
  lemma AddAllNext<V>(m: map<string, V>, part: map<string, V>, names: seq<string>, i: nat, combine: (V, V) -> V)
    requires forall j :: 0 <= j < |names| ==> names[j] in part
    requires i < |names|
    ensures var r := AddAll(m, part, names[..i], combine);
      AddAll(m, part, names[..i + 1], combine) == if names[i] in r then r[names[i] := combine(r[names[i]], part[names[i]])] else r[names[i] := part[names[i]]]
  {
    assert names[..i + 1][..i] == names[..i];
  }

  /**
    Adding distinct names: the keys are those of `m` and `names`; an entry
    of `m` not named is kept, a named entry new to `m` is taken from
    `part`, and a named entry already in `m` is combined once.
  */
  lemma {:induction false} AddAllEntries<V>(m: map<string, V>, part: map<string, V>, names: seq<string>, combine: (V, V) -> V)
    requires forall i :: 0 <= i < |names| ==> names[i] in part
    requires forall i, j :: 0 <= i < j < |names| ==> names[i] != names[j]
    ensures AddAll(m, part, names, combine).Keys == m.Keys + set n | n in names
    ensures forall n | n in m && n !in names :: AddAll(m, part, names, combine)[n] == m[n]
    ensures forall n | n !in m && n in names :: AddAll(m, part, names, combine)[n] == part[n]
    ensures forall n | n in m && n in names :: AddAll(m, part, names, combine)[n] == combine(m[n], part[n])
  {
    if names != [] {
      var init := names[..|names| - 1];
      var last := names[|names| - 1];
      AddAllEntries(m, part, init, combine);
      assert last !in init by {
        forall i | 0 <= i < |init| ensures init[i] != last { }
      }
      assert forall n :: n in names <==> n in init || n == last;
    }
  }

  /** The entries of `part` added to `m` in ascending name order. */
  function AddMap<V>(m: map<string, V>, part: map<string, V>, combine: (V, V) -> V): (r: map<string, V>)
    ensures r.Keys == m.Keys + part.Keys
  {
    var names := Sorted(part.Keys);
    AddAllEntries(m, part, names, combine);
    AddAll(m, part, names, combine)
  }

  /**
    After adding: an entry only in `m` is kept, an entry only in `part` is
    inserted as it is, and an entry in both is combined.
  */
  lemma AddMapEntries<V>(m: map<string, V>, part: map<string, V>, combine: (V, V) -> V)
    ensures forall n | n in m && n !in part :: AddMap(m, part, combine)[n] == m[n]
    ensures forall n | n !in m && n in part :: AddMap(m, part, combine)[n] == part[n]
    ensures forall n | n in m && n in part :: AddMap(m, part, combine)[n] == combine(m[n], part[n])
  {
    AddAllEntries(m, part, Sorted(part.Keys), combine);
  }

  /** `AddMapEntries` at one name. */
  lemma AddMapAt<V>(m: map<string, V>, part: map<string, V>, combine: (V, V) -> V, k: string)
    ensures k in m && k !in part ==> AddMap(m, part, combine)[k] == m[k]
    ensures k !in m && k in part ==> AddMap(m, part, combine)[k] == part[k]
    ensures k in m && k in part ==> AddMap(m, part, combine)[k] == combine(m[k], part[k])
  {
    AddMapEntries(m, part, combine);
  }

  /** Adding entries under names all new to `m` is a plain union. */
  lemma AddMapDisjoint<V>(m: map<string, V>, part: map<string, V>, combine: (V, V) -> V)
    requires m.Keys !! part.Keys
    ensures AddMap(m, part, combine) == m + part
  {
    AddMapEntries(m, part, combine);
    SameEntries(AddMap(m, part, combine), m + part);
  }

  /** Adding entries to an empty map copies them. */
  lemma AddMapIntoEmpty<V>(part: map<string, V>, combine: (V, V) -> V)
    ensures AddMap(map[], part, combine) == part
  {
    AddMapEntries(map[], part, combine);
    SameEntries(AddMap(map[], part, combine), part);
  }

  /** Adding no entry leaves a map as it is. */
  lemma AddMapNothing<V>(m: map<string, V>, combine: (V, V) -> V)
    ensures AddMap(m, map[], combine) == m
  {
    AddMapEntries(m, map[], combine);
    SameEntries(AddMap(m, map[], combine), m);
  }

  /** A second declaration of a router or middleware leaves the first one in place. */
  function KeepFirst<V>(first: V, second: V): V
  {
    first
  }

  /** A second declaration of a service adds its servers after those already there; the other settings stay. */
  function AppendServers(first: Service, second: Service): Service
  {
    first.(servers := first.servers + second.servers)
  }

  function AppendTcpServers(first: TcpService, second: TcpService): TcpService
  {
    TcpService(first.servers + second.servers)
  }

  /**
    Adds the entries of `part` to `acc`. A name new to `acc` is inserted as
    it is; for a service already present the servers of `part` are appended
    and its other fields are kept; for any other entry already present the
    entry of `acc` is kept (first writer wins).
  */
  function Merge(acc: Configuration, part: Configuration): (m: Configuration)
    ensures m.routers.Keys == acc.routers.Keys + part.routers.Keys
    ensures m.services.Keys == acc.services.Keys + part.services.Keys
    ensures m.middlewares.Keys == acc.middlewares.Keys + part.middlewares.Keys
    ensures m.tcpRouters.Keys == acc.tcpRouters.Keys + part.tcpRouters.Keys
    ensures m.tcpServices.Keys == acc.tcpServices.Keys + part.tcpServices.Keys
  {
    Configuration(
      AddMap(acc.routers, part.routers, KeepFirst),
      AddMap(acc.services, part.services, AppendServers),
      AddMap(acc.middlewares, part.middlewares, KeepFirst),
      AddMap(acc.tcpRouters, part.tcpRouters, KeepFirst),
      AddMap(acc.tcpServices, part.tcpServices, AppendTcpServers))
  }

  /**
    After merging: an entry already accumulated is kept, except that a
    service declared again gets the new servers appended; an entry new to
    the accumulator is inserted as it is.
  */
  lemma MergeEntries(acc: Configuration, part: Configuration)
    ensures forall n | n in acc.routers :: Merge(acc, part).routers[n] == acc.routers[n]
    ensures forall n | n !in acc.routers && n in part.routers :: Merge(acc, part).routers[n] == part.routers[n]
    ensures forall n | n in acc.middlewares :: Merge(acc, part).middlewares[n] == acc.middlewares[n]
    ensures forall n | n !in acc.middlewares && n in part.middlewares :: Merge(acc, part).middlewares[n] == part.middlewares[n]
    ensures forall n | n in acc.tcpRouters :: Merge(acc, part).tcpRouters[n] == acc.tcpRouters[n]
    ensures forall n | n !in acc.tcpRouters && n in part.tcpRouters :: Merge(acc, part).tcpRouters[n] == part.tcpRouters[n]
    ensures forall n | n in acc.services && n !in part.services :: Merge(acc, part).services[n] == acc.services[n]
    ensures forall n | n !in acc.services && n in part.services :: Merge(acc, part).services[n] == part.services[n]
    ensures forall n | n in acc.services && n in part.services ::
      Merge(acc, part).services[n] == Service(acc.services[n].servers + part.services[n].servers, acc.services[n].passHostHeader)
    ensures forall n | n in acc.tcpServices && n !in part.tcpServices :: Merge(acc, part).tcpServices[n] == acc.tcpServices[n]
    ensures forall n | n !in acc.tcpServices && n in part.tcpServices :: Merge(acc, part).tcpServices[n] == part.tcpServices[n]
    ensures forall n | n in acc.tcpServices && n in part.tcpServices ::
      Merge(acc, part).tcpServices[n] == TcpService(acc.tcpServices[n].servers + part.tcpServices[n].servers)
  {
    AddMapEntries(acc.routers, part.routers, KeepFirst);
    AddMapEntries(acc.services, part.services, AppendServers);
    AddMapEntries(acc.middlewares, part.middlewares, KeepFirst);
    AddMapEntries(acc.tcpRouters, part.tcpRouters, KeepFirst);
    AddMapEntries(acc.tcpServices, part.tcpServices, AppendTcpServers);
  }

  /** Merging into the empty configuration adds every entry unchanged. */
  lemma MergeIntoEmpty(c: Configuration)
    ensures Merge(Empty, c) == c
  {
    AddMapIntoEmpty(c.routers, KeepFirst);
    AddMapIntoEmpty(c.services, AppendServers);
    AddMapIntoEmpty(c.middlewares, KeepFirst);
    AddMapIntoEmpty(c.tcpRouters, KeepFirst);
    AddMapIntoEmpty(c.tcpServices, AppendTcpServers);
  }

  /** Merging the empty configuration changes nothing. */
  lemma MergeEmpty(c: Configuration)
    ensures Merge(c, Empty) == c
  {
    AddMapNothing(c.routers, KeepFirst);
    AddMapNothing(c.services, AppendServers);
    AddMapNothing(c.middlewares, KeepFirst);
    AddMapNothing(c.tcpRouters, KeepFirst);
    AddMapNothing(c.tcpServices, AppendTcpServers);
  }

  /**
    Merging a part whose names are all new to the accumulator is a plain
    union: nothing already there changes and every new entry is kept as it is.
  */
  lemma MergeDisjoint(acc: Configuration, part: Configuration)
    requires acc.routers.Keys !! part.routers.Keys
    requires acc.services.Keys !! part.services.Keys
    requires acc.middlewares.Keys !! part.middlewares.Keys
    requires acc.tcpRouters.Keys !! part.tcpRouters.Keys
    requires acc.tcpServices.Keys !! part.tcpServices.Keys
    ensures Merge(acc, part).routers == acc.routers + part.routers
    ensures Merge(acc, part).services == acc.services + part.services
    ensures Merge(acc, part).middlewares == acc.middlewares + part.middlewares
    ensures Merge(acc, part).tcpRouters == acc.tcpRouters + part.tcpRouters
    ensures Merge(acc, part).tcpServices == acc.tcpServices + part.tcpServices
  {
    AddMapDisjoint(acc.routers, part.routers, KeepFirst);
    AddMapDisjoint(acc.services, part.services, AppendServers);
    AddMapDisjoint(acc.middlewares, part.middlewares, KeepFirst);
    AddMapDisjoint(acc.tcpRouters, part.tcpRouters, KeepFirst);
    AddMapDisjoint(acc.tcpServices, part.tcpServices, AppendTcpServers);
  }
}
