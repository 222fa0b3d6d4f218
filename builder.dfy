/**
  The provider's pass over all discovered records: reading each record's
  provider settings in place, building each kept record's contribution,
  and merging the contributions into the one configuration handed to the
  proxy.
*/
module Builder {
  import opened Wrappers
  import opened Strings
  import opened Tables
  import opened Dynamic
  import opened Labels
  import opened Rancher

  /**
    A record with its provider settings read from its labels. When the
    labels cannot be read the settings are the zero value, which leaves the
    record disabled.
  */
  function Prepared(settings: Settings, r: Record): (p: Record)
    ensures p == r.(extraConf := p.extraConf)
    ensures GetConfiguration(settings, r.labels).Err? ==> !p.extraConf.enable
    ensures GetConfiguration(settings, r.labels).Ok? ==> p.extraConf == GetConfiguration(settings, r.labels).value
  {
    match GetConfiguration(settings, r.labels)
    case Ok(conf) => r.(extraConf := conf)
    case Err(_) => r.(extraConf := ExtraConf(false))
  }

  /** Every record of `records` prepared. */
  function PrepareAll(settings: Settings, records: seq<Record>): (p: seq<Record>)
    ensures |p| == |records|
    ensures forall i | 0 <= i < |records| :: p[i] == Prepared(settings, records[i])
  {
    seq(|records|, i requires 0 <= i < |records| => Prepared(settings, records[i]))
  }

  /**
    Reads the provider settings of every record in place, in order, and
    stops at the first record whose labels cannot be read; that record is
    left disabled and the ones after it are untouched.
  */
  method PrepareRecords(settings: Settings, a: array<Record>) returns (failed: Option<nat>)
    modifies a
    ensures failed.None? ==> a[..] == PrepareAll(settings, old(a[..]))
    ensures failed.None? ==> forall i | 0 <= i < a.Length :: GetConfiguration(settings, old(a[i]).labels).Ok?
    ensures failed.Some? ==> failed.value < a.Length
    ensures failed.Some? ==> GetConfiguration(settings, old(a[failed.value]).labels).Err?
    ensures failed.Some? ==> forall i | 0 <= i < failed.value :: GetConfiguration(settings, old(a[i]).labels).Ok?
    ensures failed.Some? ==> a[..failed.value + 1] == PrepareAll(settings, old(a[..failed.value + 1]))
    ensures failed.Some? ==> a[failed.value + 1..] == old(a[failed.value + 1..])
  {
    var i := 0;
    while i < a.Length
      invariant 0 <= i <= a.Length
      invariant a[..i] == PrepareAll(settings, old(a[..i]))
      invariant a[i..] == old(a[i..])
      invariant forall j | 0 <= j < i :: GetConfiguration(settings, old(a[j]).labels).Ok?
    {
      assert a[i] == old(a[i]) by {
        assert a[i..][0] == old(a[i..])[0];
      }
      var conf := GetConfiguration(settings, a[i].labels);
      a[i] := Prepared(settings, a[i]);
      assert a[..i + 1] == PrepareAll(settings, old(a[..i + 1])) by {
        forall j | 0 <= j < i + 1 ensures a[j] == Prepared(settings, old(a[j])) {
          if j < i {
            assert a[..i][j] == a[j];
            assert old(a[..i])[j] == old(a[j]);
          }
        }
      }
      assert a[i + 1..] == old(a[i + 1..]) by {
        forall j | i + 1 <= j < a.Length ensures a[j] == old(a[j]) {
          assert a[i..][j - i] == a[j];
          assert old(a[i..])[j - i] == old(a[j]);
        }
      }
      if conf.Err? {
        return Some(i);
      }
      i := i + 1;
    }
    assert a[..] == a[..a.Length];
    assert old(a[..]) == old(a[..a.Length]);
    return None;
  }

  /** The name of each record, in order. */
  function Names(records: seq<Record>): (names: seq<string>)
    ensures |names| == |records|
    ensures forall i | 0 <= i < |records| :: names[i] == records[i].name
  {
    seq(|records|, i requires 0 <= i < |records| => records[i].name)
  }

  /** What each record contributes on its own under `settings`. */
  function Contribute(settings: Settings): Record -> Option<Configuration>
  {
    r => BuildRecord(settings, r)
  }

  /** What each record contributes on its own, in order. */
  function Contributions(records: seq<Record>, build: Record -> Option<Configuration>): (contributions: seq<Option<Configuration>>)
    ensures |contributions| == |records|
    ensures forall i | 0 <= i < |records| :: contributions[i] == build(records[i])
  {
    seq(|records|, i requires 0 <= i < |records| => build(records[i]))
  }

  /**
    The contributions present, each under its name; a later contribution
    under the same name replaces an earlier one, and an absent one leaves
    the map as it is.
  */
  function Collect(names: seq<string>, contributions: seq<Option<Configuration>>): map<string, Configuration>
    requires |names| == |contributions|
  {
    if names == [] then map[]
    else
      var configurations := Collect(names[..|names| - 1], contributions[..|names| - 1]);
      match contributions[|names| - 1]
      case None => configurations
      case Some(c) => configurations[names[|names| - 1] := c]
  }

  /** Whether no contribution after the one at `i` is present under the same name. */
  predicate LastOfName(names: seq<string>, contributions: seq<Option<Configuration>>, i: nat)
    requires |names| == |contributions| && i < |names|
  {
    forall j | i < j < |names| :: names[j] == names[i] ==> contributions[j].None?
  }

  /**
    The collected map has an entry for every name with a contribution
    present and for no other, and the entry is the last contribution
    present under that name.
  */
  lemma CollectEntries(names: seq<string>, contributions: seq<Option<Configuration>>)
    requires |names| == |contributions|
    ensures forall n :: n in Collect(names, contributions) <==>
      exists i | 0 <= i < |names| :: names[i] == n && contributions[i].Some?
    ensures forall i | 0 <= i < |names| && contributions[i].Some? && LastOfName(names, contributions, i) ::
      Collect(names, contributions)[names[i]] == contributions[i].value
  {
    CollectKeys(names, contributions);
    CollectLast(names, contributions);
  }

  /** The collected names are those with a contribution present. */
  lemma {:induction false} CollectKeys(names: seq<string>, contributions: seq<Option<Configuration>>)
    requires |names| == |contributions|
    ensures forall n :: n in Collect(names, contributions) <==>
      exists i | 0 <= i < |names| :: names[i] == n && contributions[i].Some?
  {
    if names != [] {
      var last := |names| - 1;
      var initNames, initContributions := names[..last], contributions[..last];
      CollectKeys(initNames, initContributions);
      forall n ensures n in Collect(names, contributions) <==>
        exists i | 0 <= i < |names| :: names[i] == n && contributions[i].Some?
      {
        if exists i | 0 <= i < |names| :: names[i] == n && contributions[i].Some? {
          var i :| 0 <= i < |names| && names[i] == n && contributions[i].Some?;
          if i < last {
            assert initNames[i] == n && initContributions[i].Some?;
          }
        }
      }
    }
  }

  /** The last contribution present under a name is the one collected under it. */
  lemma {:induction false} CollectLast(names: seq<string>, contributions: seq<Option<Configuration>>)
    requires |names| == |contributions|
    ensures forall i | 0 <= i < |names| && contributions[i].Some? && LastOfName(names, contributions, i) ::
      names[i] in Collect(names, contributions) && Collect(names, contributions)[names[i]] == contributions[i].value
  {
    if names != [] {
      var last := |names| - 1;
      var initNames, initContributions := names[..last], contributions[..last];
      CollectLast(initNames, initContributions);
      forall i | 0 <= i < |names| && contributions[i].Some? && LastOfName(names, contributions, i)
        ensures names[i] in Collect(names, contributions) && Collect(names, contributions)[names[i]] == contributions[i].value
      {
        if i < last {
          assert LastOfName(initNames, initContributions, i) by {
            forall j | i < j < last ensures initNames[j] == initNames[i] ==> initContributions[j].None? {
              assert names[j] == names[i] ==> contributions[j].None?;
            }
          }
          assert names[last] == names[i] ==> contributions[last].None?;
        }
      }
    }
  }

  /** Folds `Merge` over the configurations named by `names`, in that order, starting from the empty configuration. */
  function MergeSeq(names: seq<string>, configurations: map<string, Configuration>): Configuration
    requires forall i | 0 <= i < |names| :: names[i] in configurations
  {
    if names == [] then Empty
    else Merge(MergeSeq(names[..|names| - 1], configurations), configurations[names[|names| - 1]])
  }

  /** Merging one more configuration is `Merge` of the merge so far with it. */
  lemma MergeSeqLast(names: seq<string>, configurations: map<string, Configuration>)
    requires forall i | 0 <= i < |names| :: names[i] in configurations
    requires names != []
    ensures MergeSeq(names, configurations) == Merge(MergeSeq(names[..|names| - 1], configurations), configurations[names[|names| - 1]])
  {
  }

  /** Some element of a non-empty sequence has a property exactly when some element before the last has it or the last has it. */
  lemma SomeSplit(names: seq<string>, init: seq<string>, has: string -> bool)
    requires names != [] && init == names[..|names| - 1]
    ensures (exists i | 0 <= i < |names| :: has(names[i])) <==> (exists i | 0 <= i < |init| :: has(init[i])) || has(names[|names| - 1])
  {
    if exists i | 0 <= i < |names| :: has(names[i]) {
      var i :| 0 <= i < |names| && has(names[i]);
      if i < |init| {
        assert has(init[i]);
      }
    }
    if exists i | 0 <= i < |init| :: has(init[i]) {
      var i :| 0 <= i < |init| && has(init[i]);
      assert has(names[i]);
    }
  }

  /**
    For a choice of names in a configuration that merging unites, the
    merged configuration has `k` exactly when one of the merged ones has.
  */
  lemma {:induction false} MergeSeqKeysOf(names: seq<string>, configurations: map<string, Configuration>, k: string, keysOf: Configuration -> set<string>)
    requires forall i | 0 <= i < |names| :: names[i] in configurations
    requires keysOf(Empty) == {}
    requires forall a, b :: keysOf(Merge(a, b)) == keysOf(a) + keysOf(b)
    ensures k in keysOf(MergeSeq(names, configurations)) <==> exists i | 0 <= i < |names| :: k in keysOf(configurations[names[i]])
  {
    if names != [] {
      var init := names[..|names| - 1];
      MergeSeqKeysOf(init, configurations, k, keysOf);
      MergeSeqLast(names, configurations);
      SomeSplit(names, init, n => n in configurations && k in keysOf(configurations[n]));
    }
  }

  /** The merged configuration has an entry under `k` in one of its maps exactly when one of the merged configurations has. */
  lemma MergeSeqKeys(names: seq<string>, configurations: map<string, Configuration>, k: string)
    requires forall i | 0 <= i < |names| :: names[i] in configurations
    ensures k in MergeSeq(names, configurations).routers <==> exists i | 0 <= i < |names| :: k in configurations[names[i]].routers
    ensures k in MergeSeq(names, configurations).services <==> exists i | 0 <= i < |names| :: k in configurations[names[i]].services
    ensures k in MergeSeq(names, configurations).middlewares <==> exists i | 0 <= i < |names| :: k in configurations[names[i]].middlewares
    ensures k in MergeSeq(names, configurations).tcpRouters <==> exists i | 0 <= i < |names| :: k in configurations[names[i]].tcpRouters
    ensures k in MergeSeq(names, configurations).tcpServices <==> exists i | 0 <= i < |names| :: k in configurations[names[i]].tcpServices
  {
    MergeSeqKeysOf(names, configurations, k, (c: Configuration) => c.routers.Keys);
    MergeSeqKeysOf(names, configurations, k, (c: Configuration) => c.services.Keys);
    MergeSeqKeysOf(names, configurations, k, (c: Configuration) => c.middlewares.Keys);
    MergeSeqKeysOf(names, configurations, k, (c: Configuration) => c.tcpRouters.Keys);
    MergeSeqKeysOf(names, configurations, k, (c: Configuration) => c.tcpServices.Keys);
  }

  /** The servers of service `n`, none when there is no such service. */
  function ServersAt(c: Configuration, n: string): seq<Server>
  {
    ServersIn(c.services, n)
  }

  function ServersIn(services: map<string, Service>, n: string): seq<Server>
  {
    if n in services then services[n].servers else []
  }

  /** The servers of TCP service `n`, none when there is no such service. */
  function TcpServersAt(c: Configuration, n: string): seq<TcpServer>
  {
    TcpServersIn(c.tcpServices, n)
  }

  function TcpServersIn(services: map<string, TcpService>, n: string): seq<TcpServer>
  {
    if n in services then services[n].servers else []
  }

  /** What `at` finds under `k` in each configuration named by `names`, one after the other. */
  function Gathered<V>(names: seq<string>, configurations: map<string, Configuration>, at: (Configuration, string) -> seq<V>, k: string): seq<V>
    requires forall i | 0 <= i < |names| :: names[i] in configurations
  {
    if names == [] then []
    else Gathered(names[..|names| - 1], configurations, at, k) + at(configurations[names[|names| - 1]], k)
  }

  /** A list that merging concatenates is, after merging, the lists of the merged configurations concatenated in order. */
  lemma {:induction false} MergeSeqGathers<V>(names: seq<string>, configurations: map<string, Configuration>, at: (Configuration, string) -> seq<V>, k: string)
    requires forall i | 0 <= i < |names| :: names[i] in configurations
    requires at(Empty, k) == []
    requires forall a, b :: at(Merge(a, b), k) == at(a, k) + at(b, k)
    ensures at(MergeSeq(names, configurations), k) == Gathered(names, configurations, at, k)
  {
    if names != [] {
      MergeSeqGathers(names[..|names| - 1], configurations, at, k);
      MergeSeqLast(names, configurations);
    }
  }

  /** Router `n`, if declared. */
  function RouterAt(c: Configuration, n: string): Option<Router>
  {
    if n in c.routers then Some(c.routers[n]) else None
  }

  /** Middleware `n`, if declared. */
  function MiddlewareAt(c: Configuration, n: string): Option<Middleware>
  {
    if n in c.middlewares then Some(c.middlewares[n]) else None
  }

  /** TCP router `n`, if declared. */
  function TcpRouterAt(c: Configuration, n: string): Option<TcpRouter>
  {
    if n in c.tcpRouters then Some(c.tcpRouters[n]) else None
  }

  /** The host-header setting of service `n`, if declared. */
  function PassHostHeaderAt(c: Configuration, n: string): Option<bool>
  {
    if n in c.services then Some(c.services[n].passHostHeader) else None
  }

  /** One merge step keeps an earlier router. */
  lemma MergeRouterAt(a: Configuration, b: Configuration, k: string)
    ensures RouterAt(Merge(a, b), k) == if RouterAt(a, k).Some? then RouterAt(a, k) else RouterAt(b, k)
  {
    AddMapAt(a.routers, b.routers, KeepFirst, k);
  }

  /** One merge step keeps an earlier middleware. */
  lemma MergeMiddlewareAt(a: Configuration, b: Configuration, k: string)
    ensures MiddlewareAt(Merge(a, b), k) == if MiddlewareAt(a, k).Some? then MiddlewareAt(a, k) else MiddlewareAt(b, k)
  {
    AddMapAt(a.middlewares, b.middlewares, KeepFirst, k);
  }

  /** One merge step keeps an earlier TCP router. */
  lemma MergeTcpRouterAt(a: Configuration, b: Configuration, k: string)
    ensures TcpRouterAt(Merge(a, b), k) == if TcpRouterAt(a, k).Some? then TcpRouterAt(a, k) else TcpRouterAt(b, k)
  {
    AddMapAt(a.tcpRouters, b.tcpRouters, KeepFirst, k);
  }

  /** One merge step keeps the host-header setting of an earlier service. */
  lemma MergePassHostHeaderAt(a: Configuration, b: Configuration, k: string)
    ensures PassHostHeaderAt(Merge(a, b), k) == if PassHostHeaderAt(a, k).Some? then PassHostHeaderAt(a, k) else PassHostHeaderAt(b, k)
  {
    AddMapAt(a.services, b.services, AppendServers, k);
  }

  /** One merge step appends the servers of a service. */
  lemma MergeServersAt(a: Configuration, b: Configuration, k: string)
    ensures ServersAt(Merge(a, b), k) == ServersAt(a, k) + ServersAt(b, k)
  {
    MergedServices(a, b);
    AddedServers(a.services, b.services, k);
  }

  /** The services of a merge step are those of both, servers appended. */
  lemma MergedServices(a: Configuration, b: Configuration)
    ensures Merge(a, b).services == AddMap(a.services, b.services, AppendServers)
  {
  }

  /** Adding services appends the servers of a service declared by both. */
  lemma AddedServers(m: map<string, Service>, part: map<string, Service>, k: string)
    ensures ServersIn(AddMap(m, part, AppendServers), k) == ServersIn(m, k) + ServersIn(part, k)
  {
    AddMapAt(m, part, AppendServers, k);
    if k in m && k in part {
      assert AddMap(m, part, AppendServers)[k] == AppendServers(m[k], part[k]);
    }
  }

  /** One merge step appends the servers of a TCP service. */
  lemma MergeTcpServersAt(a: Configuration, b: Configuration, k: string)
    ensures TcpServersAt(Merge(a, b), k) == TcpServersAt(a, k) + TcpServersAt(b, k)
  {
    MergedTcpServices(a, b);
    AddedTcpServers(a.tcpServices, b.tcpServices, k);
  }

  /** The TCP services of a merge step are those of both, servers appended. */
  lemma MergedTcpServices(a: Configuration, b: Configuration)
    ensures Merge(a, b).tcpServices == AddMap(a.tcpServices, b.tcpServices, AppendTcpServers)
  {
  }

  /** Adding TCP services appends the servers of a TCP service declared by both. */
  lemma AddedTcpServers(m: map<string, TcpService>, part: map<string, TcpService>, k: string)
    ensures TcpServersIn(AddMap(m, part, AppendTcpServers), k) == TcpServersIn(m, k) + TcpServersIn(part, k)
  {
    AddMapAt(m, part, AppendTcpServers, k);
    if k in m && k in part {
      assert AddMap(m, part, AppendTcpServers)[k] == AppendTcpServers(m[k], part[k]);
    }
  }

  /**
    The servers of a merged service are the servers of that service in
    each merged configuration, in merge order; a name no configuration
    declares has none.
  */
  lemma MergeSeqServers(names: seq<string>, configurations: map<string, Configuration>, k: string)
    requires forall i | 0 <= i < |names| :: names[i] in configurations
    ensures ServersAt(MergeSeq(names, configurations), k) == Gathered(names, configurations, ServersAt, k)
    ensures TcpServersAt(MergeSeq(names, configurations), k) == Gathered(names, configurations, TcpServersAt, k)
  {
    forall a, b ensures ServersAt(Merge(a, b), k) == ServersAt(a, k) + ServersAt(b, k) {
      MergeServersAt(a, b, k);
    }
    forall a, b ensures TcpServersAt(Merge(a, b), k) == TcpServersAt(a, k) + TcpServersAt(b, k) {
      MergeTcpServersAt(a, b, k);
    }
    MergeSeqGathers(names, configurations, ServersAt, k);
    MergeSeqGathers(names, configurations, TcpServersAt, k);
  }

  /** What `at` finds under `k` in the first configuration named by `names` where it finds anything. */
  function First<V>(names: seq<string>, configurations: map<string, Configuration>, at: (Configuration, string) -> Option<V>, k: string): Option<V>
    requires forall i | 0 <= i < |names| :: names[i] in configurations
  {
    if names == [] then None
    else
      var earlier := First(names[..|names| - 1], configurations, at, k);
      if earlier.Some? then earlier else at(configurations[names[|names| - 1]], k)
  }

  /** `First` is the entry of the earliest configuration that has one. */
  lemma {:induction false} FirstIsEarliest<V>(names: seq<string>, configurations: map<string, Configuration>, at: (Configuration, string) -> Option<V>, k: string, i: nat)
    requires forall j | 0 <= j < |names| :: names[j] in configurations
    requires i < |names| && at(configurations[names[i]], k).Some?
    requires forall j | 0 <= j < i :: at(configurations[names[j]], k) == None
    ensures First(names, configurations, at, k) == at(configurations[names[i]], k)
  {
    var init := names[..|names| - 1];
    if i < |names| - 1 {
      assert at(configurations[init[i]], k).Some?;
      forall j | 0 <= j < i ensures at(configurations[init[j]], k) == None {
        assert at(configurations[names[j]], k) == None;
      }
      FirstIsEarliest(init, configurations, at, k, i);
    } else {
      FirstAbsent(init, configurations, at, k);
    }
  }

  /** `First` finds nothing when no configuration has an entry. */
  lemma {:induction false} FirstAbsent<V>(names: seq<string>, configurations: map<string, Configuration>, at: (Configuration, string) -> Option<V>, k: string)
    requires forall j | 0 <= j < |names| :: names[j] in configurations
    requires forall j | 0 <= j < |names| :: at(configurations[names[j]], k) == None
    ensures First(names, configurations, at, k) == None
  {
    if names != [] {
      var init := names[..|names| - 1];
      forall j | 0 <= j < |init| ensures at(configurations[init[j]], k) == None {
        assert at(configurations[names[j]], k) == None;
      }
      FirstAbsent(init, configurations, at, k);
    }
  }

  /** An entry that merging keeps from the earlier side ends up as the first entry of all merged configurations. */
  lemma {:induction false} MergeSeqFirstOf<V>(names: seq<string>, configurations: map<string, Configuration>, at: (Configuration, string) -> Option<V>, k: string)
    requires forall i | 0 <= i < |names| :: names[i] in configurations
    requires at(Empty, k) == None
    requires forall a, b :: at(Merge(a, b), k) == if at(a, k).Some? then at(a, k) else at(b, k)
    ensures at(MergeSeq(names, configurations), k) == First(names, configurations, at, k)
  {
    if names != [] {
      MergeSeqFirstOf(names[..|names| - 1], configurations, at, k);
      MergeSeqLast(names, configurations);
    }
  }

  /**
    Routers, middlewares and TCP routers are taken from the first merged
    configuration that declares them, and so is the host-header setting
    of a service.
  */
  lemma MergeSeqFirst(names: seq<string>, configurations: map<string, Configuration>, k: string)
    requires forall i | 0 <= i < |names| :: names[i] in configurations
    ensures RouterAt(MergeSeq(names, configurations), k) == First(names, configurations, RouterAt, k)
    ensures MiddlewareAt(MergeSeq(names, configurations), k) == First(names, configurations, MiddlewareAt, k)
    ensures TcpRouterAt(MergeSeq(names, configurations), k) == First(names, configurations, TcpRouterAt, k)
    ensures PassHostHeaderAt(MergeSeq(names, configurations), k) == First(names, configurations, PassHostHeaderAt, k)
  {
    forall a, b ensures RouterAt(Merge(a, b), k) == if RouterAt(a, k).Some? then RouterAt(a, k) else RouterAt(b, k) {
      MergeRouterAt(a, b, k);
    }
    forall a, b ensures MiddlewareAt(Merge(a, b), k) == if MiddlewareAt(a, k).Some? then MiddlewareAt(a, k) else MiddlewareAt(b, k) {
      MergeMiddlewareAt(a, b, k);
    }
    forall a, b ensures TcpRouterAt(Merge(a, b), k) == if TcpRouterAt(a, k).Some? then TcpRouterAt(a, k) else TcpRouterAt(b, k) {
      MergeTcpRouterAt(a, b, k);
    }
    forall a, b ensures PassHostHeaderAt(Merge(a, b), k) == if PassHostHeaderAt(a, k).Some? then PassHostHeaderAt(a, k) else PassHostHeaderAt(b, k) {
      MergePassHostHeaderAt(a, b, k);
    }
    MergeSeqFirstOf(names, configurations, RouterAt, k);
    MergeSeqFirstOf(names, configurations, MiddlewareAt, k);
    MergeSeqFirstOf(names, configurations, TcpRouterAt, k);
    MergeSeqFirstOf(names, configurations, PassHostHeaderAt, k);
  }

  /**
    The configuration handed to the proxy: the contributions of the kept
    records merged in ascending order of record name.
  */
  function Build(settings: Settings, records: seq<Record>): Configuration
  {
    Combined(Names(records), Contributions(records, Contribute(settings)))
  }

  /** The contributions collected by name and merged in ascending name order. */
  function Combined(names: seq<string>, contributions: seq<Option<Configuration>>): Configuration
    requires |names| == |contributions|
  {
    var configurations := Collect(names, contributions);
    MergeSeq(Sorted(configurations.Keys), configurations)
  }

  /** A contribution as a configuration: an absent one adds nothing. */
  function Contributed(contribution: Option<Configuration>): Configuration
  {
    match contribution
    case None => Empty
    case Some(c) => c
  }

  /** When nothing is contributed the result is the empty configuration, with all five maps present and empty. */
  lemma CombinedNothing(names: seq<string>, contributions: seq<Option<Configuration>>)
    requires |names| == |contributions|
    requires forall i | 0 <= i < |contributions| :: contributions[i].None?
    ensures Combined(names, contributions) == Empty
  {
    CollectEntries(names, contributions);
    assert Collect(names, contributions).Keys == {};
  }

  /** One contribution on its own is the whole configuration. */
  lemma CombinedSingle(name: string, contribution: Option<Configuration>)
    ensures Combined([name], [contribution]) == Contributed(contribution)
  {
    assert Collect([], []) == map[];
    match contribution {
      case None =>
      case Some(c) =>
        var configurations := map[name := c];
        assert Collect([name], [contribution]) == configurations;
        SortedSingle(name);
        assert configurations.Keys == {name};
        MergeSeqLast([name], configurations);
        MergeIntoEmpty(c);
    }
  }

  /** Two contributions under different names are merged in ascending name order, whatever their order in the input. */
  lemma CombinedPair(first: string, second: string, x: Option<Configuration>, y: Option<Configuration>)
    requires first != second
    ensures Combined([first, second], [x, y]) ==
      if NotAfter(first, second) then Merge(Contributed(x), Contributed(y)) else Merge(Contributed(y), Contributed(x))
  {
    CollectPair(first, second, x, y);
    if x.Some? && y.Some? {
      CombinedBoth(first, second, x.value, y.value);
    } else if x.Some? {
      CombinedOne(first, x.value, Collect([first, second], [x, y]));
      MergeEmpty(x.value);
      MergeIntoEmpty(x.value);
    } else if y.Some? {
      CombinedOne(second, y.value, Collect([first, second], [x, y]));
      MergeEmpty(y.value);
      MergeIntoEmpty(y.value);
    } else {
      assert Collect([first, second], [x, y]) == map[];
      MergeEmpty(Empty);
    }
  }

  /** The collected map of two contributions under different names. */
  lemma CollectPair(first: string, second: string, x: Option<Configuration>, y: Option<Configuration>)
    requires first != second
    ensures first in Collect([first, second], [x, y]) <==> x.Some?
    ensures second in Collect([first, second], [x, y]) <==> y.Some?
    ensures Collect([first, second], [x, y]).Keys <= {first, second}
    ensures x.Some? ==> Collect([first, second], [x, y])[first] == x.value
    ensures y.Some? ==> Collect([first, second], [x, y])[second] == y.value
  {
    assert [first, second][..1] == [first] && [x, y][..1] == [x];
    assert Collect([], []) == map[];
  }

  /** Only one of two names contributes: the result is its configuration. */
  lemma CombinedOne(n: string, c: Configuration, configurations: map<string, Configuration>)
    requires configurations.Keys == {n} && configurations[n] == c
    ensures MergeSeq(Sorted(configurations.Keys), configurations) == Merge(Empty, c)
  {
    SortedSingle(n);
    MergeSeqLast([n], configurations);
  }

  /** Both of two names contribute: they are merged in ascending name order. */
  lemma CombinedBoth(first: string, second: string, c: Configuration, d: Configuration)
    requires first != second
    requires Collect([first, second], [Some(c), Some(d)]).Keys == {first, second}
    requires Collect([first, second], [Some(c), Some(d)])[first] == c
    requires Collect([first, second], [Some(c), Some(d)])[second] == d
    ensures Combined([first, second], [Some(c), Some(d)]) == if NotAfter(first, second) then Merge(c, d) else Merge(d, c)
  {
    var configurations := Collect([first, second], [Some(c), Some(d)]);
    SortedPair(first, second);
    if NotAfter(first, second) {
      MergeSeqPair(first, second, configurations);
    } else {
      MergeSeqPair(second, first, configurations);
    }
    MergeIntoEmpty(c);
    MergeIntoEmpty(d);
  }

  /** Merging two named configurations is merging the first into the empty one, then the second. */
  lemma MergeSeqPair(a: string, b: string, configurations: map<string, Configuration>)
    requires a in configurations && b in configurations
    ensures MergeSeq([a, b], configurations) == Merge(Merge(Empty, configurations[a]), configurations[b])
  {
    MergeSeqOne(a, configurations);
    MergeSeqTwo(a, b, configurations);
  }

  /** Merging one named configuration is merging it into the empty one. */
  lemma MergeSeqOne(a: string, configurations: map<string, Configuration>)
    requires a in configurations
    ensures MergeSeq([a], configurations) == Merge(Empty, configurations[a])
  {
    assert [a][..0] == [];
  }

  /** Merging two named configurations is merging the second into the merge of the first. */
  lemma MergeSeqTwo(a: string, b: string, configurations: map<string, Configuration>)
    requires a in configurations && b in configurations
    ensures MergeSeq([a, b], configurations) == Merge(MergeSeq([a], configurations), configurations[b])
  {
    assert [a, b][..1] == [a];
  }

  /** With no record kept the provider hands over the empty configuration. */
  lemma BuildNothing(settings: Settings, records: seq<Record>)
    requires forall i | 0 <= i < |records| :: !Keep(settings, records[i])
    ensures Build(settings, records) == Empty
  {
    CombinedNothing(Names(records), Contributions(records, Contribute(settings)));
  }

  /** A single record yields exactly what it contributes, or the empty configuration when it contributes nothing. */
  lemma BuildSingle(settings: Settings, r: Record)
    ensures Build(settings, [r]) == Contributed(BuildRecord(settings, r))
  {
    assert Names([r]) == [r.name];
    assert Contributions([r], Contribute(settings)) == [BuildRecord(settings, r)];
    CombinedSingle(r.name, BuildRecord(settings, r));
  }

  /** Two records with different names: their contributions merged in ascending name order. */
  lemma BuildPair(settings: Settings, r: Record, s: Record)
    requires r.name != s.name
    ensures Build(settings, [r, s]) == if NotAfter(r.name, s.name)
      then Merge(Contributed(BuildRecord(settings, r)), Contributed(BuildRecord(settings, s)))
      else Merge(Contributed(BuildRecord(settings, s)), Contributed(BuildRecord(settings, r)))
  {
    assert Names([r, s]) == [r.name, s.name];
    assert Contributions([r, s], Contribute(settings)) == [BuildRecord(settings, r), BuildRecord(settings, s)];
    CombinedPair(r.name, s.name, BuildRecord(settings, r), BuildRecord(settings, s));
  }

  /** Whether no two records share a name. */
  predicate DistinctNames(records: seq<Record>)
  {
    forall i, j :: 0 <= i < j < |records| ==> records[i].name != records[j].name
  }

  /** A value held at two positions of a sequence is counted at least twice. */
  lemma TwiceCounted(s: seq<Record>, i: nat, j: nat)
    requires i < j < |s| && s[i] == s[j]
    ensures multiset(s)[s[i]] >= 2
  {
    assert s == s[..i] + [s[i]] + s[i + 1..j] + [s[j]] + s[j + 1..];
  }

  /** Records with distinct names are each counted at most once. */
  lemma {:induction false} CountedOnce(records: seq<Record>, r: Record)
    requires DistinctNames(records)
    ensures multiset(records)[r] <= 1
  {
    if records != [] {
      var init, last := records[..|records| - 1], records[|records| - 1];
      assert records == init + [last];
      CountedOnce(init, r);
      if last == r {
        forall k | 0 <= k < |init| ensures init[k] != r {
          assert init[k].name == records[k].name != records[|records| - 1].name;
        }
      }
    }
  }

  /** Reordering records with distinct names keeps their names distinct. */
  lemma DistinctNamesPermuted(records: seq<Record>, other: seq<Record>)
    requires multiset(records) == multiset(other)
    requires DistinctNames(records)
    ensures DistinctNames(other)
  {
    forall i, j | 0 <= i < j < |other| ensures other[i].name != other[j].name {
      if other[i] == other[j] {
        TwiceCounted(other, i, j);
        CountedOnce(records, other[i]);
        assert false;
      }
      assert other[i] in multiset(records) && other[j] in multiset(records);
      var p :| 0 <= p < |records| && records[p] == other[i];
      var q :| 0 <= q < |records| && records[q] == other[j];
      assert p != q;
    }
  }

  /**
    With distinct names, the collected map holds each record's
    contribution under its name when it has one, and nothing else.
  */
  lemma CollectRecords(records: seq<Record>, build: Record -> Option<Configuration>)
    requires DistinctNames(records)
    ensures forall n :: n in Collect(Names(records), Contributions(records, build)) <==>
      exists r | r in records :: r.name == n && build(r).Some?
    ensures forall r | r in records && build(r).Some? ::
      Collect(Names(records), Contributions(records, build))[r.name] == build(r).value
  {
    var names, contributions := Names(records), Contributions(records, build);
    forall i | 0 <= i < |names| ensures LastOfName(names, contributions, i) { }
    CollectEntries(names, contributions);
    forall n ensures n in Collect(names, contributions) <==> exists r | r in records :: r.name == n && build(r).Some? {
      if exists r | r in records :: r.name == n && build(r).Some? {
        var r :| r in records && r.name == n && build(r).Some?;
        var i :| 0 <= i < |records| && records[i] == r;
        assert names[i] == n && contributions[i].Some?;
      }
    }
    forall r | r in records && build(r).Some? ensures Collect(names, contributions)[r.name] == build(r).value {
      var i :| 0 <= i < |records| && records[i] == r;
      assert names[i] == r.name && contributions[i] == build(r);
    }
  }

  /** With distinct names, the configuration built does not depend on the order of the records. */
  lemma BuildPermuted(settings: Settings, records: seq<Record>, other: seq<Record>)
    requires multiset(records) == multiset(other)
    requires DistinctNames(records)
    ensures Build(settings, records) == Build(settings, other)
  {
    DistinctNamesPermuted(records, other);
    var build := Contribute(settings);
    CollectRecords(records, build);
    CollectRecords(other, build);
    var c := Collect(Names(records), Contributions(records, build));
    var d := Collect(Names(other), Contributions(other, build));
    forall r ensures r in records <==> r in other {
      assert r in records <==> r in multiset(records);
    }
    assert c.Keys == d.Keys;
    forall n | n in c ensures c[n] == d[n] {
      var r :| r in records && r.name == n && build(r).Some?;
    }
    assert c == d;
  }

  /** Whether each of a configuration's five maps holds at most the entry named `n`. */
  predicate OwnedBy(c: Configuration, n: string)
  {
    && c.routers.Keys <= {n} && c.services.Keys <= {n} && c.middlewares.Keys <= {n}
    && c.tcpRouters.Keys <= {n} && c.tcpServices.Keys <= {n}
  }

  function RouterMap(c: Configuration): map<string, Router> { c.routers }
  function ServiceMap(c: Configuration): map<string, Service> { c.services }
  function MiddlewareMap(c: Configuration): map<string, Middleware> { c.middlewares }
  function TcpRouterMap(c: Configuration): map<string, TcpRouter> { c.tcpRouters }
  function TcpServiceMap(c: Configuration): map<string, TcpService> { c.tcpServices }

  /** For each of `names`, the entry of that name in the map `part` selects from its own configuration. */
  function OwnEntries<V>(names: seq<string>, configurations: map<string, Configuration>, part: Configuration -> map<string, V>): map<string, V>
  {
    map n | n in configurations && n in names && n in part(configurations[n]) :: part(configurations[n])[n]
  }

  /** One more name adds exactly the entries its own configuration holds, and none of them was there before. */
  lemma OwnEntriesNext<V>(names: seq<string>, configurations: map<string, Configuration>, part: Configuration -> map<string, V>)
    requires names != [] && names[|names| - 1] in configurations
    requires names[|names| - 1] !in names[..|names| - 1]
    requires part(configurations[names[|names| - 1]]).Keys <= {names[|names| - 1]}
    ensures OwnEntries(names[..|names| - 1], configurations, part).Keys !! part(configurations[names[|names| - 1]]).Keys
    ensures OwnEntries(names, configurations, part) ==
      OwnEntries(names[..|names| - 1], configurations, part) + part(configurations[names[|names| - 1]])
  {
    var init, last := names[..|names| - 1], names[|names| - 1];
    assert names == init + [last];
  }

  /**
    Configurations that each hold only entries under their own name never
    meet in a merge: merging them in any order gives each one's entries
    side by side.
  */
  lemma {:induction false} MergeSeqOwned(names: seq<string>, configurations: map<string, Configuration>)
    requires forall i | 0 <= i < |names| :: names[i] in configurations
    requires forall i, j :: 0 <= i < j < |names| ==> names[i] != names[j]
    requires forall i | 0 <= i < |names| :: OwnedBy(configurations[names[i]], names[i])
    ensures MergeSeq(names, configurations) == Configuration(
      OwnEntries(names, configurations, RouterMap), OwnEntries(names, configurations, ServiceMap),
      OwnEntries(names, configurations, MiddlewareMap), OwnEntries(names, configurations, TcpRouterMap),
      OwnEntries(names, configurations, TcpServiceMap))
  {
    if names != [] {
      var init, last := names[..|names| - 1], names[|names| - 1];
      MergeSeqOwned(init, configurations);
      assert last !in init by {
        forall i | 0 <= i < |init| ensures init[i] != last {
          assert init[i] == names[i];
        }
      }
      assert OwnedBy(configurations[last], last);
      OwnEntriesNext(names, configurations, RouterMap);
      OwnEntriesNext(names, configurations, ServiceMap);
      OwnEntriesNext(names, configurations, MiddlewareMap);
      OwnEntriesNext(names, configurations, TcpRouterMap);
      OwnEntriesNext(names, configurations, TcpServiceMap);
      MergeDisjoint(MergeSeq(init, configurations), configurations[last]);
    }
  }

  /** The names of a sequence of records. */
  function NameSet(records: seq<Record>): (names: set<string>)
    ensures forall n :: n in names <==> exists r | r in records :: r.name == n
  {
    set r | r in records :: r.name
  }

  /** When every record, all with distinct names, contributes, each contribution is collected under its record's name. */
  lemma CollectAll(records: seq<Record>, build: Record -> Option<Configuration>)
    requires DistinctNames(records)
    requires forall r | r in records :: build(r).Some?
    ensures Collect(Names(records), Contributions(records, build)).Keys == NameSet(records)
    ensures forall r | r in records :: Collect(Names(records), Contributions(records, build))[r.name] == build(r).value
  {
    CollectRecords(records, build);
  }

  /**
    Records with distinct names that each contribute entries under their
    own name only are combined without ever meeting in a merge.
  */
  lemma CombinedOwned(records: seq<Record>, build: Record -> Option<Configuration>)
    requires DistinctNames(records)
    requires forall r | r in records :: build(r).Some? && OwnedBy(build(r).value, r.name)
    ensures var c := Collect(Names(records), Contributions(records, build));
      Combined(Names(records), Contributions(records, build)) == Configuration(
        OwnEntries(Sorted(c.Keys), c, RouterMap), OwnEntries(Sorted(c.Keys), c, ServiceMap),
        OwnEntries(Sorted(c.Keys), c, MiddlewareMap), OwnEntries(Sorted(c.Keys), c, TcpRouterMap),
        OwnEntries(Sorted(c.Keys), c, TcpServiceMap))
  {
    CollectAll(records, build);
    var c := Collect(Names(records), Contributions(records, build));
    var names := Sorted(c.Keys);
    forall i | 0 <= i < |names| ensures OwnedBy(c[names[i]], names[i]) {
      var r :| r in records && r.name == names[i];
    }
    MergeSeqOwned(names, c);
  }

  /** The entries of each record's own name, gathered over records with distinct names that all contribute. */
  lemma OwnEntriesOf<V>(records: seq<Record>, build: Record -> Option<Configuration>, part: Configuration -> map<string, V>)
    requires DistinctNames(records)
    requires forall r | r in records :: build(r).Some?
    ensures var c := Collect(Names(records), Contributions(records, build));
      forall n :: n in OwnEntries(Sorted(c.Keys), c, part) <==> exists r | r in records :: r.name == n && n in part(build(r).value)
    ensures var c := Collect(Names(records), Contributions(records, build));
      forall r | r in records && r.name in part(build(r).value) :: OwnEntries(Sorted(c.Keys), c, part)[r.name] == part(build(r).value)[r.name]
  {
    CollectAll(records, build);
  }

  /** Preparing records keeps their names, and so keeps them distinct. */
  lemma PreparedNames(settings: Settings, records: seq<Record>)
    requires DistinctNames(records)
    ensures DistinctNames(PrepareAll(settings, records))
    ensures forall r | r in records :: Prepared(settings, r) in PrepareAll(settings, records)
    ensures forall p | p in PrepareAll(settings, records) :: exists r | r in records :: p == Prepared(settings, r)
  {
    var prepared := PrepareAll(settings, records);
    forall i, j | 0 <= i < j < |prepared| ensures prepared[i].name != prepared[j].name {
      assert prepared[i].name == records[i].name && prepared[j].name == records[j].name;
    }
    forall r | r in records ensures Prepared(settings, r) in prepared {
      var i :| 0 <= i < |records| && records[i] == r;
      assert prepared[i] == Prepared(settings, r);
    }
    forall p | p in prepared ensures exists r | r in records :: p == Prepared(settings, r) {
      var i :| 0 <= i < |prepared| && prepared[i] == p;
      assert records[i] in records;
    }
  }

  /**
    Prepared records with distinct names that each contribute `own` of
    themselves, entries under their own name only: a name is in a map of
    the built configuration exactly when some record contributes it there.
  */
  lemma BuildOwnedKeys(settings: Settings, records: seq<Record>, own: Record -> Configuration)
    requires DistinctNames(records)
    requires forall r | r in records :: BuildRecord(settings, Prepared(settings, r)) == Some(own(r)) && OwnedBy(own(r), r.name)
    ensures forall n :: n in Build(settings, PrepareAll(settings, records)).routers <==> exists r | r in records :: r.name == n && n in own(r).routers
    ensures forall n :: n in Build(settings, PrepareAll(settings, records)).services <==> exists r | r in records :: r.name == n && n in own(r).services
    ensures forall n :: n in Build(settings, PrepareAll(settings, records)).middlewares <==> exists r | r in records :: r.name == n && n in own(r).middlewares
    ensures forall n :: n in Build(settings, PrepareAll(settings, records)).tcpRouters <==> exists r | r in records :: r.name == n && n in own(r).tcpRouters
    ensures forall n :: n in Build(settings, PrepareAll(settings, records)).tcpServices <==> exists r | r in records :: r.name == n && n in own(r).tcpServices
  {
    var prepared, build := PrepareAll(settings, records), Contribute(settings);
    PreparedNames(settings, records);
    forall p | p in prepared ensures build(p).Some? && OwnedBy(build(p).value, p.name) {
      var r :| r in records && p == Prepared(settings, r);
    }
    CombinedOwned(prepared, build);
    OwnEntriesOf(prepared, build, RouterMap);
    OwnEntriesOf(prepared, build, ServiceMap);
    OwnEntriesOf(prepared, build, MiddlewareMap);
    OwnEntriesOf(prepared, build, TcpRouterMap);
    OwnEntriesOf(prepared, build, TcpServiceMap);
  }


  /**
    The same records: each record's own entries reach the built
    configuration unchanged.
  */
  lemma BuildOwnedEntries(settings: Settings, records: seq<Record>, own: Record -> Configuration)
    requires DistinctNames(records)
    requires forall r | r in records :: BuildRecord(settings, Prepared(settings, r)) == Some(own(r)) && OwnedBy(own(r), r.name)
    ensures forall r | r in records && r.name in own(r).routers ::
      r.name in Build(settings, PrepareAll(settings, records)).routers && Build(settings, PrepareAll(settings, records)).routers[r.name] == own(r).routers[r.name]
    ensures forall r | r in records && r.name in own(r).services ::
      r.name in Build(settings, PrepareAll(settings, records)).services && Build(settings, PrepareAll(settings, records)).services[r.name] == own(r).services[r.name]
    ensures forall r | r in records && r.name in own(r).middlewares ::
      r.name in Build(settings, PrepareAll(settings, records)).middlewares && Build(settings, PrepareAll(settings, records)).middlewares[r.name] == own(r).middlewares[r.name]
    ensures forall r | r in records && r.name in own(r).tcpRouters ::
      r.name in Build(settings, PrepareAll(settings, records)).tcpRouters && Build(settings, PrepareAll(settings, records)).tcpRouters[r.name] == own(r).tcpRouters[r.name]
    ensures forall r | r in records && r.name in own(r).tcpServices ::
      r.name in Build(settings, PrepareAll(settings, records)).tcpServices && Build(settings, PrepareAll(settings, records)).tcpServices[r.name] == own(r).tcpServices[r.name]
  {
    var prepared, build := PrepareAll(settings, records), Contribute(settings);
    PreparedNames(settings, records);
    forall p | p in prepared ensures build(p).Some? && OwnedBy(build(p).value, p.name) {
      var r :| r in records && p == Prepared(settings, r);
    }
    CombinedOwned(prepared, build);
    OwnEntriesOf(prepared, build, RouterMap);
    OwnEntriesOf(prepared, build, ServiceMap);
    OwnEntriesOf(prepared, build, MiddlewareMap);
    OwnEntriesOf(prepared, build, TcpRouterMap);
    OwnEntriesOf(prepared, build, TcpServiceMap);
  }

  /** `AddMap` as the provider does it: one entry at a time, in ascending name order. */
  method AddEach<V>(m: map<string, V>, part: map<string, V>, combine: (V, V) -> V) returns (r: map<string, V>)
    ensures r == AddMap(m, part, combine)
  {
    var names := Sorted(part.Keys);
    r := m;
    for i := 0 to |names|
      invariant r == AddAll(m, part, names[..i], combine)
    {
      AddAllNext(m, part, names, i, combine);
      var n := names[i];
      if n in r {
        r := r[n := combine(r[n], part[n])];
      } else {
        r := r[n := part[n]];
      }
    }
    assert names[..|names|] == names;
  }

  /** Collects the contribution of each record that makes one under its name, in record order. */
  method CollectConfigurations(records: seq<Record>, build: Record -> Option<Configuration>) returns (configurations: map<string, Configuration>)
    ensures configurations == Collect(Names(records), Contributions(records, build))
  {
    ghost var names, contributions := Names(records), Contributions(records, build);
    configurations := map[];
    for i := 0 to |records|
      invariant configurations == Collect(names[..i], contributions[..i])
    {
      assert names[..i + 1][..i] == names[..i];
      assert contributions[..i + 1][..i] == contributions[..i];
      var r := records[i];
      var conf := build(r);
      if conf.Some? {
        configurations := configurations[r.name := conf.value];
      }
    }
    assert names[..|records|] == names;
    assert contributions[..|records|] == contributions;
  }

  /** Adds one record's configuration to the accumulated one, map by map. */
  method MergeInto(acc: Configuration, part: Configuration) returns (m: Configuration)
    ensures m == Merge(acc, part)
  {
    var routers := AddEach(acc.routers, part.routers, KeepFirst);
    var services := AddEach(acc.services, part.services, AppendServers);
    var middlewares := AddEach(acc.middlewares, part.middlewares, KeepFirst);
    var tcpRouters := AddEach(acc.tcpRouters, part.tcpRouters, KeepFirst);
    var tcpServices := AddEach(acc.tcpServices, part.tcpServices, AppendTcpServers);
    m := Configuration(routers, services, middlewares, tcpRouters, tcpServices);
  }

  /** Merges the configurations named by `names`, in that order, starting from the empty configuration. */
  method MergeConfigurations(names: seq<string>, configurations: map<string, Configuration>) returns (c: Configuration)
    requires forall i | 0 <= i < |names| :: names[i] in configurations
    ensures c == MergeSeq(names, configurations)
  {
    c := Empty;
    for j := 0 to |names|
      invariant c == MergeSeq(names[..j], configurations)
    {
      assert names[..j + 1][..j] == names[..j];
      c := MergeInto(c, configurations[names[j]]);
    }
    assert names[..|names|] == names;
  }

  /**
    Builds the configuration: collects the contribution of each kept record
    under its name, then merges them in ascending order of name.
  */
  method BuildConfiguration(settings: Settings, records: seq<Record>) returns (c: Configuration)
    ensures c == Build(settings, records)
  {
    var configurations := CollectConfigurations(records, Contribute(settings));
    c := MergeConfigurations(Sorted(configurations.Keys), configurations);
  }
}
