/**
  The label decoder: turns a record's flat, dot-delimited label map into the
  routers, services and middlewares it declares. Only the label paths of the
  `traefik.http.` and `traefik.tcp.` roots listed in `Field` are modelled.
*/
module Labels {
  import opened Wrappers
  import opened Strings
  import opened Dynamic
  import opened Tables

  /** Every label field the decoder understands. */
  datatype Field =
    | RouterRule | RouterService | RouterMiddlewares | RouterTls
    | ServicePassHostHeader | ServiceServerPort
    | BasicAuthUsers
    | TcpRouterRule | TcpRouterService | TcpRouterTls
    | TcpServiceServerPort

  /** A label key, `traefik.<root>.<collection>.<name>.<selector...>`, as a field and an entry name. */
  datatype LabelPath = LabelPath(field: Field, name: string)

  /** The `<root>.<collection>` segments a field lives under. */
  function Collection(f: Field): seq<string>
  {
    match f
    case RouterRule | RouterService | RouterMiddlewares | RouterTls => ["http", "routers"]
    case ServicePassHostHeader | ServiceServerPort => ["http", "services"]
    case BasicAuthUsers => ["http", "middlewares"]
    case TcpRouterRule | TcpRouterService | TcpRouterTls => ["tcp", "routers"]
    case TcpServiceServerPort => ["tcp", "services"]
  }

  /** The segments that follow the entry name. */
  function Selector(f: Field): seq<string>
  {
    match f
    case RouterRule => ["rule"]
    case RouterService => ["service"]
    case RouterMiddlewares => ["middlewares"]
    case RouterTls => ["tls"]
    case ServicePassHostHeader => ["loadbalancer", "passhostheader"]
    case ServiceServerPort => ["loadbalancer", "server", "port"]
    case BasicAuthUsers => ["basicauth", "users"]
    case TcpRouterRule => ["rule"]
    case TcpRouterService => ["service"]
    case TcpRouterTls => ["tls"]
    case TcpServiceServerPort => ["loadbalancer", "server", "port"]
  }

  /** The field named by a collection and a selector, if any. */
  function FieldAt(collection: seq<string>, selector: seq<string>): (f: Option<Field>)
    ensures f.Some? ==> Collection(f.value) == collection && Selector(f.value) == selector
  {
    if collection == ["http", "routers"] then
      if selector == ["rule"] then Some(RouterRule)
      else if selector == ["service"] then Some(RouterService)
      else if selector == ["middlewares"] then Some(RouterMiddlewares)
      else if selector == ["tls"] then Some(RouterTls)
      else None
    else if collection == ["http", "services"] then
      if selector == ["loadbalancer", "passhostheader"] then Some(ServicePassHostHeader)
      else if selector == ["loadbalancer", "server", "port"] then Some(ServiceServerPort)
      else None
    else if collection == ["http", "middlewares"] then
      if selector == ["basicauth", "users"] then Some(BasicAuthUsers) else None
    else if collection == ["tcp", "routers"] then
      if selector == ["rule"] then Some(TcpRouterRule)
      else if selector == ["service"] then Some(TcpRouterService)
      else if selector == ["tls"] then Some(TcpRouterTls)
      else None
    else if collection == ["tcp", "services"] then
      if selector == ["loadbalancer", "server", "port"] then Some(TcpServiceServerPort) else None
    else None
  }

  /** Every field is found again from its own collection and selector. */
  lemma FieldAtInverse(f: Field)
    ensures FieldAt(Collection(f), Selector(f)) == Some(f)
  {
  }

  /** An entry name is one non-empty segment. */
  predicate ValidName(name: string)
  {
    name != [] && '.' !in name
  }

  function Segments(p: LabelPath): seq<string>
  {
    ["traefik"] + Collection(p.field) + [p.name] + Selector(p.field)
  }

  /** The label key that sets field `p.field` of entry `p.name`. */
  function KeyOf(p: LabelPath): string
  {
    Join(Segments(p), '.')
  }

  /** A key spelled out: its root and collection, the entry name, then its selector. */
  lemma KeyOfSpelled(p: LabelPath)
    ensures KeyOf(p) == Join(["traefik"] + Collection(p.field), '.') + "." + p.name + "." + Join(Selector(p.field), '.')
  {
    var head, sel := ["traefik"] + Collection(p.field), Selector(p.field);
    JoinConcat([p.name], sel, '.');
    JoinConcat(head, [p.name] + sel, '.');
    assert Segments(p) == head + ([p.name] + sel);
  }

  /** The literal text of a field's key before the entry name. */
  function KeyPrefix(f: Field): string
  {
    match f
    case RouterRule | RouterService | RouterMiddlewares | RouterTls => "traefik.http.routers."
    case ServicePassHostHeader | ServiceServerPort => "traefik.http.services."
    case BasicAuthUsers => "traefik.http.middlewares."
    case TcpRouterRule | TcpRouterService | TcpRouterTls => "traefik.tcp.routers."
    case TcpServiceServerPort => "traefik.tcp.services."
  }

  /** The literal text of a field's key after the entry name. */
  function KeySuffix(f: Field): string
  {
    match f
    case RouterRule | TcpRouterRule => ".rule"
    case RouterService | TcpRouterService => ".service"
    case RouterMiddlewares => ".middlewares"
    case RouterTls | TcpRouterTls => ".tls"
    case ServicePassHostHeader => ".loadbalancer.passhostheader"
    case ServiceServerPort | TcpServiceServerPort => ".loadbalancer.server.port"
    case BasicAuthUsers => ".basicauth.users"
  }

  // The literal spelling of each collection prefix and selector suffix.

  lemma HttpRoutersPrefix()
    ensures Join(["traefik", "http", "routers"], '.') + "." == "traefik.http.routers."
  {
    JoinThree("traefik", "http", "routers", '.');
  }

  lemma HttpServicesPrefix()
    ensures Join(["traefik", "http", "services"], '.') + "." == "traefik.http.services."
  {
    JoinThree("traefik", "http", "services", '.');
  }

  lemma HttpMiddlewaresPrefix()
    ensures Join(["traefik", "http", "middlewares"], '.') + "." == "traefik.http.middlewares."
  {
    JoinThree("traefik", "http", "middlewares", '.');
  }

  lemma TcpRoutersPrefix()
    ensures Join(["traefik", "tcp", "routers"], '.') + "." == "traefik.tcp.routers."
  {
    JoinThree("traefik", "tcp", "routers", '.');
  }

  lemma TcpServicesPrefix()
    ensures Join(["traefik", "tcp", "services"], '.') + "." == "traefik.tcp.services."
  {
    JoinThree("traefik", "tcp", "services", '.');
  }

  lemma RuleSuffix()
    ensures "." + Join(["rule"], '.') == ".rule"
  {
  }

  lemma ServiceSuffix()
    ensures "." + Join(["service"], '.') == ".service"
  {
  }

  lemma MiddlewaresSuffix()
    ensures "." + Join(["middlewares"], '.') == ".middlewares"
  {
  }

  lemma TlsSuffix()
    ensures "." + Join(["tls"], '.') == ".tls"
  {
  }

  lemma PassHostHeaderSuffix()
    ensures "." + Join(["loadbalancer", "passhostheader"], '.') == ".loadbalancer.passhostheader"
  {
    JoinTwo("loadbalancer", "passhostheader", '.');
  }

  lemma ServerPortSuffix()
    ensures "." + Join(["loadbalancer", "server", "port"], '.') == ".loadbalancer.server.port"
  {
    JoinThree("loadbalancer", "server", "port", '.');
  }

  lemma UsersSuffix()
    ensures "." + Join(["basicauth", "users"], '.') == ".basicauth.users"
  {
    JoinTwo("basicauth", "users", '.');
  }

  /** The root and collection segments joined are the literal prefix. */
  lemma KeyPrefixJoined(f: Field)
    ensures Join(["traefik"] + Collection(f), '.') + "." == KeyPrefix(f)
  {
    var c := Collection(f);
    assert ["traefik"] + c == ["traefik", c[0], c[1]];
    match f
    case RouterRule | RouterService | RouterMiddlewares | RouterTls => HttpRoutersPrefix();
    case ServicePassHostHeader | ServiceServerPort => HttpServicesPrefix();
    case BasicAuthUsers => HttpMiddlewaresPrefix();
    case TcpRouterRule | TcpRouterService | TcpRouterTls => TcpRoutersPrefix();
    case TcpServiceServerPort => TcpServicesPrefix();
  }

  /** The selector segments joined are the literal suffix. */
  lemma KeySuffixJoined(f: Field)
    ensures "." + Join(Selector(f), '.') == KeySuffix(f)
  {
    match f
    case RouterRule | TcpRouterRule => RuleSuffix();
    case RouterService | TcpRouterService => ServiceSuffix();
    case RouterMiddlewares => MiddlewaresSuffix();
    case RouterTls | TcpRouterTls => TlsSuffix();
    case ServicePassHostHeader => PassHostHeaderSuffix();
    case ServiceServerPort | TcpServiceServerPort => ServerPortSuffix();
    case BasicAuthUsers => UsersSuffix();
  }

  /** Every label key is its field's literal prefix, the entry name, then its field's literal suffix. */
  lemma KeyOfLiteral(p: LabelPath)
    ensures KeyOf(p) == KeyPrefix(p.field) + p.name + KeySuffix(p.field)
  {
    KeyOfSpelled(p);
    KeyPrefixJoined(p.field);
    KeySuffixJoined(p.field);
  }

  /** How the decoder treats one label key. */
  datatype KeyClass =
    | Unrelated          // outside the traefik.http and traefik.tcp roots: ignored
    | Path(path: LabelPath)
    | Unknown            // under those roots but not a modelled path: a decoding error

  function Classify(key: string): KeyClass
  {
    var segs := Split(key, '.');
    if |segs| < 2 || segs[0] != "traefik" || (segs[1] != "http" && segs[1] != "tcp") then Unrelated
    else if |segs| < 5 || segs[3] == [] then Unknown
    else match FieldAt(segs[1..3], segs[4..])
      case Some(f) => Path(LabelPath(f, segs[3]))
      case None => Unknown
  }

  /** No segment of a valid path holds a dot, so the key splits back into them. */
  lemma SegmentsWithoutDots(p: LabelPath)
    requires ValidName(p.name)
    ensures forall i :: 0 <= i < |Segments(p)| ==> '.' !in Segments(p)[i]
  {
    var c, sel := Collection(p.field), Selector(p.field);
    assert forall i :: 0 <= i < |c| ==> '.' !in c[i];
    assert forall i :: 0 <= i < |sel| ==> '.' !in sel[i];
    var segs := Segments(p);
    forall i | 0 <= i < |segs| ensures '.' !in segs[i] {
      if i == 0 {
      } else if i < 1 + |c| {
        assert segs[i] == c[i - 1];
      } else if i == 1 + |c| {
      } else {
        assert segs[i] == sel[i - 2 - |c|];
      }
    }
  }

  /** Every modelled path is recognised from its key. */
  lemma ClassifyKeyOf(p: LabelPath)
    requires ValidName(p.name)
    ensures Classify(KeyOf(p)) == Path(p)
  {
    var segs := Segments(p);
    var c := Collection(p.field);
    assert |c| == 2 && (c[0] == "http" || c[0] == "tcp");
    assert segs == ["traefik"] + c + [p.name] + Selector(p.field);
    assert segs[0] == "traefik" && segs[1] == c[0] && segs[3] == p.name;
    assert segs[1..3] == c;
    assert segs[4..] == Selector(p.field);
    SegmentsWithoutDots(p);
    SplitJoin(segs, '.');
    FieldAtInverse(p.field);
  }

  /** A key recognised as a path is exactly that path's key, and its name is valid. */
  lemma KeyOfClassified(key: string)
    requires Classify(key).Path?
    ensures ValidName(Classify(key).path.name)
    ensures KeyOf(Classify(key).path) == key
  {
    var segs := Split(key, '.');
    SplitPartsFree(key, '.');
    var p := Classify(key).path;
    assert segs == ["traefik"] + segs[1..3] + [segs[3]] + segs[4..];
    assert Segments(p) == segs;
    JoinSplit(key, '.');
  }

  /** Paths and keys are in one-to-one correspondence. */
  lemma KeyOfInjective(p: LabelPath, q: LabelPath)
    requires ValidName(p.name) && ValidName(q.name)
    requires KeyOf(p) == KeyOf(q)
    ensures p == q
  {
    ClassifyKeyOf(p);
    ClassifyKeyOf(q);
  }

  /** Distinct paths have distinct keys. */
  lemma KeyOfDistinct(p: LabelPath, q: LabelPath)
    requires ValidName(p.name) && ValidName(q.name)
    requires p != q
    ensures KeyOf(p) != KeyOf(q)
  {
    ClassifyKeyOf(p);
    ClassifyKeyOf(q);
  }

  /** The kind of entry each field belongs to. */
  datatype Kind = RouterKind | ServiceKind | MiddlewareKind | TcpRouterKind | TcpServiceKind

  function KindOf(f: Field): Kind
  {
    match f
    case RouterRule | RouterService | RouterMiddlewares | RouterTls => RouterKind
    case ServicePassHostHeader | ServiceServerPort => ServiceKind
    case BasicAuthUsers => MiddlewareKind
    case TcpRouterRule | TcpRouterService | TcpRouterTls => TcpRouterKind
    case TcpServiceServerPort => TcpServiceKind
  }

  /** Fields whose value is a boolean. */
  predicate IsBoolean(f: Field)
  {
    f == RouterTls || f == ServicePassHostHeader || f == TcpRouterTls
  }

  /**
    The value each modelled path is given by the keys `keys` of `labels`,
    read in order: the first phase of decoding, from text keys to paths.
  */
  function AssignSeq(keys: seq<string>, labels: map<string, string>): (a: map<LabelPath, string>)
    requires forall i :: 0 <= i < |keys| ==> keys[i] in labels
    ensures forall p | p in a :: ValidName(p.name) && KeyOf(p) in keys && a[p] == labels[KeyOf(p)]
  {
    if keys == [] then map[]
    else
      var a := AssignSeq(keys[..|keys| - 1], labels);
      var k := keys[|keys| - 1];
      match Classify(k)
      case Path(p) =>
        KeyOfClassified(k);
        a[p := labels[k]]
      case _ => a
  }

  /** Every path whose key is among `keys` is assigned. */
  lemma {:induction false} AssignSeqComplete(keys: seq<string>, labels: map<string, string>, p: LabelPath)
    requires forall i :: 0 <= i < |keys| ==> keys[i] in labels
    requires ValidName(p.name) && KeyOf(p) in keys
    ensures p in AssignSeq(keys, labels)
  {
    var k := keys[|keys| - 1];
    if KeyOf(p) == k {
      ClassifyKeyOf(p);
    } else {
      assert KeyOf(p) in keys[..|keys| - 1];
      AssignSeqComplete(keys[..|keys| - 1], labels, p);
    }
  }

  /** The value each modelled path is given by the labels. */
  function Assignments(labels: map<string, string>): (a: map<LabelPath, string>)
    ensures forall p | p in a :: ValidName(p.name) && KeyOf(p) in labels && a[p] == labels[KeyOf(p)]
  {
    AssignSeq(Sorted(labels.Keys), labels)
  }

  /** A path is assigned exactly when its key is among the labels. */
  lemma AssignmentsComplete(labels: map<string, string>, p: LabelPath)
    requires ValidName(p.name) && KeyOf(p) in labels
    ensures p in Assignments(labels)
  {
    AssignSeqComplete(Sorted(labels.Keys), labels, p);
  }

  /** `labels` spells out `a`: each assignment under its own key, and no other key. */
  predicate Spells(labels: map<string, string>, a: map<LabelPath, string>)
  {
    && (forall p | p in a :: ValidName(p.name) && KeyOf(p) in labels && labels[KeyOf(p)] == a[p])
    && (forall k | k in labels :: exists p | p in a :: KeyOf(p) == k)
  }

  /** Only assigned paths have their key in a label set that spells out `a`. */
  lemma KeySpelled(labels: map<string, string>, a: map<LabelPath, string>, p: LabelPath)
    requires Spells(labels, a)
    requires ValidName(p.name) && KeyOf(p) in labels
    ensures p in a
  {
    var q :| q in a && KeyOf(q) == KeyOf(p);
    KeyOfInjective(p, q);
  }

  /** Every path of `a` is read back from a label set that spells out `a`. */
  lemma SpelledCovered(labels: map<string, string>, a: map<LabelPath, string>)
    requires Spells(labels, a)
    ensures forall p | p in a :: p in Assignments(labels)
  {
    forall p | p in a ensures p in Assignments(labels) {
      AssignmentsComplete(labels, p);
    }
  }

  /** Only paths of `a` are read back from a label set that spells out `a`. */
  lemma SpelledOnly(labels: map<string, string>, a: map<LabelPath, string>)
    requires Spells(labels, a)
    ensures forall p | p in Assignments(labels) :: p in a
  {
    forall p | p in Assignments(labels) ensures p in a {
      KeySpelled(labels, a, p);
    }
  }

  /** The paths read back from a label set that spells out `a` are those of `a`. */
  lemma SpelledKeys(labels: map<string, string>, a: map<LabelPath, string>)
    requires Spells(labels, a)
    ensures Assignments(labels).Keys == a.Keys
  {
    SpelledCovered(labels, a);
    SpelledOnly(labels, a);
  }

  /** Reading back a label set that spells out `a` gives `a`. */
  lemma AssignmentsSpelled(labels: map<string, string>, a: map<LabelPath, string>)
    requires Spells(labels, a)
    ensures Assignments(labels) == a
  {
    SpelledKeys(labels, a);
    SameEntries(Assignments(labels), a);
  }

  /** A label set that spells out assignments holds no unknown key. */
  lemma SpelledHasNoUnknownKey(labels: map<string, string>, a: map<LabelPath, string>)
    requires Spells(labels, a)
    ensures !HasUnknownKey(labels)
  {
    forall k | k in labels ensures !Classify(k).Unknown? {
      var p :| p in a && KeyOf(p) == k;
      ClassifyKeyOf(p);
    }
  }

  /** Adding keys outside the decoded roots changes no assignment. */
  lemma AssignmentsIgnoreUnrelated(labels: map<string, string>, other: map<string, string>)
    requires forall k | k in other :: Classify(k).Unrelated?
    ensures Assignments(labels + other) == Assignments(labels)
    ensures HasUnknownKey(labels + other) == HasUnknownKey(labels)
  {
    var a, b := Assignments(labels), Assignments(labels + other);
    forall p | p in a ensures p in b && b[p] == a[p] {
      ClassifyKeyOf(p);
      AssignmentsComplete(labels + other, p);
    }
    forall p | p in b ensures p in a {
      ClassifyKeyOf(p);
      AssignmentsComplete(labels, p);
    }
    SameEntries(b, a);
  }

  /** Names of the entries that some assignment declares with one of `fields`. */
  function NamesOf(a: map<LabelPath, string>, kind: Kind): set<string>
  {
    set p | p in a && KindOf(p.field) == kind :: p.name
  }

  /** A text field; the empty string when no label sets it. */
  function Text(a: map<LabelPath, string>, field: Field, name: string): string
  {
    var p := LabelPath(field, name);
    if p in a then a[p] else ""
  }

  /** A list field, split on commas in order; empty when no label sets it. */
  function List(a: map<LabelPath, string>, field: Field, name: string): seq<string>
  {
    var p := LabelPath(field, name);
    if p in a then Split(a[p], ',') else []
  }

  /** A boolean field; `default` when no label sets it. */
  function Flag(a: map<LabelPath, string>, field: Field, name: string, default: bool): bool
  {
    var p := LabelPath(field, name);
    if p in a then ParseBool(a[p]) == Some(true) else default
  }

  /** What the labels of an HTTP service set: its pass-host-header flag and its server port ("" if none). */
  datatype ServiceLabels = ServiceLabels(passHostHeader: bool, port: string)

  /**
    The partial configuration the labels declare. Router fields that no
    label sets are left at their zero values ("" or empty), to be filled in
    by the defaults; `tcpServices` maps each TCP service to its port label.
  */
  datatype Decoded = Decoded(
    routers: map<string, Router>,
    services: map<string, ServiceLabels>,
    middlewares: map<string, Middleware>,
    tcpRouters: map<string, TcpRouter>,
    tcpServices: map<string, string>)

  datatype DecodeError = UnknownLabel | InvalidBoolean

  /** A key under the decoded roots that names no modelled field. */
  predicate HasUnknownKey(labels: map<string, string>)
  {
    exists k | k in labels :: Classify(k).Unknown?
  }

  /** A boolean field whose value is not a boolean. */
  predicate HasInvalidBoolean(a: map<LabelPath, string>)
  {
    exists p | p in a :: IsBoolean(p.field) && ParseBool(a[p]).None?
  }

  /** The router the assignments declare under `name`; unset fields stay empty. */
  function RouterOf(a: map<LabelPath, string>, name: string): Router
  {
    Router(Text(a, RouterService, name), Text(a, RouterRule, name),
           List(a, RouterMiddlewares, name), Flag(a, RouterTls, name, false))
  }

  /** The HTTP service labels under `name`; the host header is passed unless a label says otherwise. */
  function ServiceOf(a: map<LabelPath, string>, name: string): ServiceLabels
  {
    ServiceLabels(Flag(a, ServicePassHostHeader, name, true), Text(a, ServiceServerPort, name))
  }

  function MiddlewareOf(a: map<LabelPath, string>, name: string): Middleware
  {
    BasicAuth(List(a, BasicAuthUsers, name))
  }

  function TcpRouterOf(a: map<LabelPath, string>, name: string): TcpRouter
  {
    TcpRouter(Text(a, TcpRouterService, name), Text(a, TcpRouterRule, name), Flag(a, TcpRouterTls, name, false))
  }

  /** The routers that assignments declare: one for each name with a router path, read from its fields. */
  function RouterEntries(a: map<LabelPath, string>): (m: map<string, Router>)
    ensures m.Keys == NamesOf(a, RouterKind)
    ensures forall n | n in m :: m[n] == RouterOf(a, n)
  {
    Tabulate(NamesOf(a, RouterKind), n => RouterOf(a, n))
  }

  /** The HTTP service labels that assignments declare. */
  function ServiceEntries(a: map<LabelPath, string>): (m: map<string, ServiceLabels>)
    ensures m.Keys == NamesOf(a, ServiceKind)
    ensures forall n | n in m :: m[n] == ServiceOf(a, n)
  {
    Tabulate(NamesOf(a, ServiceKind), n => ServiceOf(a, n))
  }

  /** The middlewares that assignments declare. */
  function MiddlewareEntries(a: map<LabelPath, string>): (m: map<string, Middleware>)
    ensures m.Keys == NamesOf(a, MiddlewareKind)
    ensures forall n | n in m :: m[n] == MiddlewareOf(a, n)
  {
    Tabulate(NamesOf(a, MiddlewareKind), n => MiddlewareOf(a, n))
  }

  /** The TCP routers that assignments declare. */
  function TcpRouterEntries(a: map<LabelPath, string>): (m: map<string, TcpRouter>)
    ensures m.Keys == NamesOf(a, TcpRouterKind)
    ensures forall n | n in m :: m[n] == TcpRouterOf(a, n)
  {
    Tabulate(NamesOf(a, TcpRouterKind), n => TcpRouterOf(a, n))
  }

  /** The TCP service server ports that assignments declare. */
  function TcpServiceEntries(a: map<LabelPath, string>): (m: map<string, string>)
    ensures m.Keys == NamesOf(a, TcpServiceKind)
    ensures forall n | n in m :: m[n] == Text(a, TcpServiceServerPort, n)
  {
    Tabulate(NamesOf(a, TcpServiceKind), n => Text(a, TcpServiceServerPort, n))
  }

  /** The second phase of decoding: the entries that the assignments declare. */
  function Entries(a: map<LabelPath, string>): Decoded
  {
    Decoded(RouterEntries(a), ServiceEntries(a), MiddlewareEntries(a), TcpRouterEntries(a), TcpServiceEntries(a))
  }

  /**
    Decodes a record's labels. Keys outside the two roots are ignored; an
    unknown path under them, or a boolean field that is not a boolean, makes
    the whole label set fail.
  */
  function Decode(labels: map<string, string>): Result<Decoded, DecodeError>
  {
    if HasUnknownKey(labels) then Err(UnknownLabel)
    else if HasInvalidBoolean(Assignments(labels)) then Err(InvalidBoolean)
    else Ok(Entries(Assignments(labels)))
  }

  /** Decoding a label set that spells out `a` gives the entries of `a`, or reports the bad boolean. */
  lemma DecodeSpelled(labels: map<string, string>, a: map<LabelPath, string>)
    requires Spells(labels, a)
    ensures Decode(labels) == if HasInvalidBoolean(a) then Err(InvalidBoolean) else Ok(Entries(a))
  {
    SpelledHasNoUnknownKey(labels, a);
    AssignmentsSpelled(labels, a);
  }

  /** Keys outside the decoded roots change nothing about the decoding. */
  lemma DecodeIgnoresUnrelated(labels: map<string, string>, other: map<string, string>)
    requires forall k | k in other :: Classify(k).Unrelated?
    ensures Decode(labels + other) == Decode(labels)
  {
    AssignmentsIgnoreUnrelated(labels, other);
  }

  /** The empty label set declares nothing. */
  lemma DecodeEmpty()
    ensures Decode(map[]) == Ok(Decoded(map[], map[], map[], map[], map[]))
  {
    AssignmentsOfNothing();
    EntriesOfNothing();
  }

  /** The empty label set assigns nothing. */
  lemma AssignmentsOfNothing()
    ensures Assignments(map[]) == map[]
  {
    assert Assignments(map[]).Keys == {};
  }

  /** A label set with no key under the decoded roots declares nothing. */
  lemma DecodeNothing(labels: map<string, string>)
    requires forall k | k in labels :: Classify(k).Unrelated?
    ensures Decode(labels) == Ok(Decoded(map[], map[], map[], map[], map[]))
  {
    DecodeIgnoresUnrelated(map[], labels);
    JoinEmpty(labels);
    DecodeEmpty();
  }

  /** A users label written as a comma-joined list decodes back to that list, in order. */
  lemma UsersRoundTrip(a: map<LabelPath, string>, name: string, users: seq<string>)
    requires LabelPath(BasicAuthUsers, name) in a
    requires |users| >= 1 && forall i :: 0 <= i < |users| ==> ',' !in users[i]
    requires a[LabelPath(BasicAuthUsers, name)] == Join(users, ',')
    ensures name in MiddlewareEntries(a) && MiddlewareEntries(a)[name] == BasicAuth(users)
  {
    SplitJoin(users, ',');
    assert name in NamesOf(a, MiddlewareKind);
  }

  /** A label set written out from a list of paths and values: each value under its path's key. */
  function LabelsOf(entries: seq<(LabelPath, string)>): map<string, string>
  {
    if entries == [] then map[]
    else LabelsOf(entries[..|entries| - 1])[KeyOf(entries[|entries| - 1].0) := entries[|entries| - 1].1]
  }

  /** The same list as assignments. */
  function AssignmentsOf(entries: seq<(LabelPath, string)>): (a: map<LabelPath, string>)
    ensures forall p | p in a :: exists i | 0 <= i < |entries| :: entries[i].0 == p
  {
    if entries == [] then map[]
    else
      var a := AssignmentsOf(entries[..|entries| - 1]);
      assert forall p | p in a :: exists i | 0 <= i < |entries| - 1 :: entries[i].0 == p by {
        forall p | p in a ensures exists i | 0 <= i < |entries| - 1 :: entries[i].0 == p {
          var i :| 0 <= i < |entries| - 1 && entries[..|entries| - 1][i].0 == p;
        }
      }
      a[entries[|entries| - 1].0 := entries[|entries| - 1].1]
  }

  /** Paths that are valid and pairwise distinct. */
  predicate DistinctPaths(entries: seq<(LabelPath, string)>)
  {
    && (forall i | 0 <= i < |entries| :: ValidName(entries[i].0.name))
    && (forall i, j | 0 <= i < j < |entries| :: entries[i].0 != entries[j].0)
  }

  /** Writing assignments out as labels spells them. */
  lemma {:induction false} LabelsOfSpells(entries: seq<(LabelPath, string)>)
    requires DistinctPaths(entries)
    ensures Spells(LabelsOf(entries), AssignmentsOf(entries))
  {
    if entries != [] {
      var init := entries[..|entries| - 1];
      var (p, v) := entries[|entries| - 1];
      assert DistinctPaths(init);
      LabelsOfSpells(init);
      forall i | 0 <= i < |init| ensures init[i].0 != p {
        assert init[i] == entries[i];
      }
      SpellsExtend(LabelsOf(init), AssignmentsOf(init), p, v);
    }
  }

  /** One more assignment under a new path is spelled by one more label under its key. */
  lemma SpellsExtend(labels: map<string, string>, a: map<LabelPath, string>, p: LabelPath, v: string)
    requires Spells(labels, a) && p !in a && ValidName(p.name)
    ensures Spells(labels[KeyOf(p) := v], a[p := v])
  {
    forall q | q in a ensures KeyOf(q) != KeyOf(p) {
      KeyOfDistinct(q, p);
    }
    var labels', a' := labels[KeyOf(p) := v], a[p := v];
    forall k | k in labels' ensures exists q | q in a' :: KeyOf(q) == k {
      if k != KeyOf(p) {
        var q :| q in a && KeyOf(q) == k;
        assert q in a';
      } else {
        assert p in a';
      }
    }
  }

  /** Every boolean-valued entry of the list parses as a boolean. */
  predicate BooleansParse(entries: seq<(LabelPath, string)>)
  {
    forall i | 0 <= i < |entries| :: IsBoolean(entries[i].0.field) ==> ParseBool(entries[i].1).Some?
  }

  /** A list whose boolean entries all parse gives assignments without an invalid boolean. */
  lemma {:induction false} AssignmentsOfBooleans(entries: seq<(LabelPath, string)>)
    requires BooleansParse(entries)
    ensures !HasInvalidBoolean(AssignmentsOf(entries))
  {
    if entries != [] {
      var init := entries[..|entries| - 1];
      var (p, v) := entries[|entries| - 1];
      assert BooleansParse(init) by {
        forall i | 0 <= i < |init| ensures init[i] == entries[i] { }
      }
      AssignmentsOfBooleans(init);
      var a := AssignmentsOf(init);
      forall q: LabelPath | q in a[p := v] && IsBoolean(q.field) ensures ParseBool(a[p := v][q]).Some? {
        if q == p {
          assert entries[|entries| - 1] == (p, v);
        }
      }
    }
  }

  /** Decoding labels written out from assignments gives back their entries. */
  lemma DecodeLabelsOf(entries: seq<(LabelPath, string)>)
    requires DistinctPaths(entries)
    ensures Decode(LabelsOf(entries)) ==
      if HasInvalidBoolean(AssignmentsOf(entries)) then Err(InvalidBoolean) else Ok(Entries(AssignmentsOf(entries)))
  {
    LabelsOfSpells(entries);
    DecodeSpelled(LabelsOf(entries), AssignmentsOf(entries));
  }

  /** A key outside the decoded roots is absent from a label set that spells out assignments. */
  lemma SpelledLacksUnrelated(labels: map<string, string>, a: map<LabelPath, string>, key: string)
    requires Spells(labels, a)
    requires Classify(key).Unrelated?
    ensures key !in labels
  {
    if key in labels {
      var p :| p in a && KeyOf(p) == key;
      ClassifyKeyOf(p);
    }
  }

  /** A key of two dot-free segments is outside the decoded roots unless its second segment is a root. */
  lemma ClassifyTwoSegments(first: string, second: string)
    requires '.' !in first && '.' !in second
    requires second != "http" && second != "tcp"
    ensures Classify(first + ['.'] + second).Unrelated?
  {
    SplitAfterPrefix(first, '.', second);
    SplitWithoutSeparator(second, '.');
  }

  /** The router under `n`, or one with every field unset. */
  function RouterIn(m: map<string, Router>, n: string): Router
  {
    if n in m then m[n] else Router("", "", [], false)
  }

  /** The HTTP service labels under `n`, or those of a service no label mentions. */
  function ServiceIn(m: map<string, ServiceLabels>, n: string): ServiceLabels
  {
    if n in m then m[n] else ServiceLabels(true, "")
  }

  /** The TCP router under `n`, or one with every field unset. */
  function TcpRouterIn(m: map<string, TcpRouter>, n: string): TcpRouter
  {
    if n in m then m[n] else TcpRouter("", "", false)
  }

  /** A router with the field that `f` selects set from the label value `v`. */
  function SetRouter(r: Router, f: Field, v: string): Router
  {
    match f
    case RouterRule => r.(rule := v)
    case RouterService => r.(service := v)
    case RouterMiddlewares => r.(middlewares := Split(v, ','))
    case RouterTls => r.(tls := ParseBool(v) == Some(true))
    case _ => r
  }

  function SetService(s: ServiceLabels, f: Field, v: string): ServiceLabels
  {
    match f
    case ServicePassHostHeader => s.(passHostHeader := ParseBool(v) == Some(true))
    case ServiceServerPort => s.(port := v)
    case _ => s
  }

  function SetTcpRouter(r: TcpRouter, f: Field, v: string): TcpRouter
  {
    match f
    case TcpRouterRule => r.(rule := v)
    case TcpRouterService => r.(service := v)
    case TcpRouterTls => r.(tls := ParseBool(v) == Some(true))
    case _ => r
  }

  /**
    The entries after one more label: the entry its path names is created
    if need be, and the one field its path selects is set from the value.
  */
  function Declare(d: Decoded, p: LabelPath, v: string): Decoded
  {
    var n := p.name;
    match KindOf(p.field)
    case RouterKind => d.(routers := d.routers[n := SetRouter(RouterIn(d.routers, n), p.field, v)])
    case ServiceKind => d.(services := d.services[n := SetService(ServiceIn(d.services, n), p.field, v)])
    case MiddlewareKind => d.(middlewares := d.middlewares[n := BasicAuth(Split(v, ','))])
    case TcpRouterKind => d.(tcpRouters := d.tcpRouters[n := SetTcpRouter(TcpRouterIn(d.tcpRouters, n), p.field, v)])
    case TcpServiceKind => d.(tcpServices := d.tcpServices[n := v])
  }

  /** One more assignment adds its name to the names of its kind, and to no other. */
  lemma NamesOfAfter(a: map<LabelPath, string>, p: LabelPath, v: string, kind: Kind)
    ensures NamesOf(a[p := v], kind) == NamesOf(a, kind) + (if KindOf(p.field) == kind then {p.name} else {})
  {
  }

  /** Entries of another name or another kind are untouched by one more assignment. */
  lemma OthersAfter(a: map<LabelPath, string>, p: LabelPath, v: string, n: string)
    ensures p.name != n || KindOf(p.field) != RouterKind ==> RouterOf(a[p := v], n) == RouterOf(a, n)
    ensures p.name != n || KindOf(p.field) != ServiceKind ==> ServiceOf(a[p := v], n) == ServiceOf(a, n)
    ensures p.name != n || KindOf(p.field) != MiddlewareKind ==> MiddlewareOf(a[p := v], n) == MiddlewareOf(a, n)
    ensures p.name != n || KindOf(p.field) != TcpRouterKind ==> TcpRouterOf(a[p := v], n) == TcpRouterOf(a, n)
    ensures p.name != n || KindOf(p.field) != TcpServiceKind ==> Text(a[p := v], TcpServiceServerPort, n) == Text(a, TcpServiceServerPort, n)
  {
  }

  /** The entry that one more assignment names has the field it selects set, and keeps its others. */
  lemma NamedAfter(a: map<LabelPath, string>, p: LabelPath, v: string)
    ensures KindOf(p.field) == RouterKind ==> RouterOf(a[p := v], p.name) == SetRouter(RouterOf(a, p.name), p.field, v)
    ensures KindOf(p.field) == ServiceKind ==> ServiceOf(a[p := v], p.name) == SetService(ServiceOf(a, p.name), p.field, v)
    ensures KindOf(p.field) == MiddlewareKind ==> MiddlewareOf(a[p := v], p.name) == BasicAuth(Split(v, ','))
    ensures KindOf(p.field) == TcpRouterKind ==> TcpRouterOf(a[p := v], p.name) == SetTcpRouter(TcpRouterOf(a, p.name), p.field, v)
    ensures KindOf(p.field) == TcpServiceKind ==> Text(a[p := v], TcpServiceServerPort, p.name) == v
  {
  }

  /** A name the assignments do not declare with a kind has none of that kind's paths assigned. */
  lemma Unassigned(a: map<LabelPath, string>, f: Field, n: string)
    requires n !in NamesOf(a, KindOf(f))
    ensures LabelPath(f, n) !in a
  {
  }

  /** A router the assignments do not name reads as one with every field unset. */
  lemma UnnamedRouter(a: map<LabelPath, string>, n: string)
    ensures RouterIn(RouterEntries(a), n) == RouterOf(a, n)
  {
    if n !in RouterEntries(a) {
      Unassigned(a, RouterRule, n);
      Unassigned(a, RouterService, n);
      Unassigned(a, RouterMiddlewares, n);
      Unassigned(a, RouterTls, n);
    }
  }

  /** An HTTP service the assignments do not name reads as one no label mentions. */
  lemma UnnamedService(a: map<LabelPath, string>, n: string)
    ensures ServiceIn(ServiceEntries(a), n) == ServiceOf(a, n)
  {
    if n !in ServiceEntries(a) {
      Unassigned(a, ServicePassHostHeader, n);
      Unassigned(a, ServiceServerPort, n);
    }
  }

  /** A TCP router the assignments do not name reads as one with every field unset. */
  lemma UnnamedTcpRouter(a: map<LabelPath, string>, n: string)
    ensures TcpRouterIn(TcpRouterEntries(a), n) == TcpRouterOf(a, n)
  {
    if n !in TcpRouterEntries(a) {
      TcpRouterUnset(a, n);
    }
  }

  /** The TCP router of a name no TCP router path mentions has every field unset. */
  lemma TcpRouterUnset(a: map<LabelPath, string>, n: string)
    requires n !in NamesOf(a, TcpRouterKind)
    ensures TcpRouterOf(a, n) == TcpRouter("", "", false)
  {
    Unassigned(a, TcpRouterRule, n);
    Unassigned(a, TcpRouterService, n);
    Unassigned(a, TcpRouterTls, n);
  }

  /** One more assignment leaves the routers under other names as they were. */
  lemma RouterAfterElsewhere(a: map<LabelPath, string>, p: LabelPath, v: string)
    ensures forall n | n in RouterEntries(a[p := v]) && n != p.name :: n in RouterEntries(a) && RouterEntries(a[p := v])[n] == RouterEntries(a)[n]
  {
    NamesOfAfter(a, p, v, RouterKind);
    forall n | n in RouterEntries(a[p := v]) && n != p.name
      ensures n in RouterEntries(a) && RouterEntries(a[p := v])[n] == RouterEntries(a)[n]
    {
      OthersAfter(a, p, v, n);
    }
  }

  /** One more assignment of another kind leaves the routers as they were. */
  lemma RouterAfterOther(a: map<LabelPath, string>, p: LabelPath, v: string)
    requires KindOf(p.field) != RouterKind
    ensures RouterEntries(a[p := v]) == RouterEntries(a)
  {
    NamesOfAfter(a, p, v, RouterKind);
    RouterAfterElsewhere(a, p, v);
    OthersAfter(a, p, v, p.name);
    SameEntries(RouterEntries(a[p := v]), RouterEntries(a));
  }

  /** One more assignment of a router path sets one field of the router it names, creating it if need be. */
  lemma RouterAfterSame(a: map<LabelPath, string>, p: LabelPath, v: string)
    requires KindOf(p.field) == RouterKind
    ensures RouterEntries(a[p := v]) == RouterEntries(a)[p.name := SetRouter(RouterIn(RouterEntries(a), p.name), p.field, v)]
  {
    NamesOfAfter(a, p, v, RouterKind);
    RouterAfterElsewhere(a, p, v);
    NamedAfter(a, p, v);
    UnnamedRouter(a, p.name);
    UpdatedAt(RouterEntries(a), RouterEntries(a[p := v]), p.name, RouterOf(a[p := v], p.name));
  }

  /** One more assignment leaves the services under other names as they were. */
  lemma ServiceAfterElsewhere(a: map<LabelPath, string>, p: LabelPath, v: string)
    ensures forall n | n in ServiceEntries(a[p := v]) && n != p.name :: n in ServiceEntries(a) && ServiceEntries(a[p := v])[n] == ServiceEntries(a)[n]
  {
    NamesOfAfter(a, p, v, ServiceKind);
    forall n | n in ServiceEntries(a[p := v]) && n != p.name
      ensures n in ServiceEntries(a) && ServiceEntries(a[p := v])[n] == ServiceEntries(a)[n]
    {
      OthersAfter(a, p, v, n);
    }
  }

  /** One more assignment of another kind leaves the services as they were. */
  lemma ServiceAfterOther(a: map<LabelPath, string>, p: LabelPath, v: string)
    requires KindOf(p.field) != ServiceKind
    ensures ServiceEntries(a[p := v]) == ServiceEntries(a)
  {
    NamesOfAfter(a, p, v, ServiceKind);
    ServiceAfterElsewhere(a, p, v);
    OthersAfter(a, p, v, p.name);
    SameEntries(ServiceEntries(a[p := v]), ServiceEntries(a));
  }

  /** One more assignment of a service path sets one field of the service it names, creating it if need be. */
  lemma ServiceAfterSame(a: map<LabelPath, string>, p: LabelPath, v: string)
    requires KindOf(p.field) == ServiceKind
    ensures ServiceEntries(a[p := v]) == ServiceEntries(a)[p.name := SetService(ServiceIn(ServiceEntries(a), p.name), p.field, v)]
  {
    NamesOfAfter(a, p, v, ServiceKind);
    ServiceAfterElsewhere(a, p, v);
    NamedAfter(a, p, v);
    UnnamedService(a, p.name);
    UpdatedAt(ServiceEntries(a), ServiceEntries(a[p := v]), p.name, ServiceOf(a[p := v], p.name));
  }

  /** One more assignment leaves the middlewares under other names as they were. */
  lemma MiddlewareAfterElsewhere(a: map<LabelPath, string>, p: LabelPath, v: string)
    ensures forall n | n in MiddlewareEntries(a[p := v]) && n != p.name :: n in MiddlewareEntries(a) && MiddlewareEntries(a[p := v])[n] == MiddlewareEntries(a)[n]
  {
    NamesOfAfter(a, p, v, MiddlewareKind);
    forall n | n in MiddlewareEntries(a[p := v]) && n != p.name
      ensures n in MiddlewareEntries(a) && MiddlewareEntries(a[p := v])[n] == MiddlewareEntries(a)[n]
    {
      OthersAfter(a, p, v, n);
    }
  }

  /** One more assignment of another kind leaves the middlewares as they were. */
  lemma MiddlewareAfterOther(a: map<LabelPath, string>, p: LabelPath, v: string)
    requires KindOf(p.field) != MiddlewareKind
    ensures MiddlewareEntries(a[p := v]) == MiddlewareEntries(a)
  {
    NamesOfAfter(a, p, v, MiddlewareKind);
    MiddlewareAfterElsewhere(a, p, v);
    OthersAfter(a, p, v, p.name);
    SameEntries(MiddlewareEntries(a[p := v]), MiddlewareEntries(a));
  }

  /** One more assignment of a middleware path sets one field of the middleware it names, creating it if need be. */
  lemma MiddlewareAfterSame(a: map<LabelPath, string>, p: LabelPath, v: string)
    requires KindOf(p.field) == MiddlewareKind
    ensures MiddlewareEntries(a[p := v]) == MiddlewareEntries(a)[p.name := BasicAuth(Split(v, ','))]
  {
    NamesOfAfter(a, p, v, MiddlewareKind);
    MiddlewareAfterElsewhere(a, p, v);
    NamedAfter(a, p, v);
    UpdatedAt(MiddlewareEntries(a), MiddlewareEntries(a[p := v]), p.name, MiddlewareOf(a[p := v], p.name));
  }

  /** One more assignment leaves the TCP routers under other names as they were. */
  lemma TcpRouterAfterElsewhere(a: map<LabelPath, string>, p: LabelPath, v: string)
    ensures forall n | n in TcpRouterEntries(a[p := v]) && n != p.name :: n in TcpRouterEntries(a) && TcpRouterEntries(a[p := v])[n] == TcpRouterEntries(a)[n]
  {
    NamesOfAfter(a, p, v, TcpRouterKind);
    forall n | n in TcpRouterEntries(a[p := v]) && n != p.name
      ensures n in TcpRouterEntries(a) && TcpRouterEntries(a[p := v])[n] == TcpRouterEntries(a)[n]
    {
      OthersAfter(a, p, v, n);
    }
  }

  /** One more assignment of another kind leaves the TCP routers as they were. */
  lemma TcpRouterAfterOther(a: map<LabelPath, string>, p: LabelPath, v: string)
    requires KindOf(p.field) != TcpRouterKind
    ensures TcpRouterEntries(a[p := v]) == TcpRouterEntries(a)
  {
    NamesOfAfter(a, p, v, TcpRouterKind);
    TcpRouterAfterElsewhere(a, p, v);
    OthersAfter(a, p, v, p.name);
    SameEntries(TcpRouterEntries(a[p := v]), TcpRouterEntries(a));
  }

  /** One more assignment of a TCP router path sets one field of the TCP router it names, creating it if need be. */
  lemma TcpRouterAfterSame(a: map<LabelPath, string>, p: LabelPath, v: string)
    requires KindOf(p.field) == TcpRouterKind
    ensures TcpRouterEntries(a[p := v]) == TcpRouterEntries(a)[p.name := SetTcpRouter(TcpRouterIn(TcpRouterEntries(a), p.name), p.field, v)]
  {
    NamesOfAfter(a, p, v, TcpRouterKind);
    TcpRouterAfterElsewhere(a, p, v);
    NamedAfter(a, p, v);
    UnnamedTcpRouter(a, p.name);
    UpdatedAt(TcpRouterEntries(a), TcpRouterEntries(a[p := v]), p.name, TcpRouterOf(a[p := v], p.name));
  }

  /** One more assignment leaves the TCP services under other names as they were. */
  lemma TcpServiceAfterElsewhere(a: map<LabelPath, string>, p: LabelPath, v: string)
    ensures forall n | n in TcpServiceEntries(a[p := v]) && n != p.name :: n in TcpServiceEntries(a) && TcpServiceEntries(a[p := v])[n] == TcpServiceEntries(a)[n]
  {
    NamesOfAfter(a, p, v, TcpServiceKind);
    forall n | n in TcpServiceEntries(a[p := v]) && n != p.name
      ensures n in TcpServiceEntries(a) && TcpServiceEntries(a[p := v])[n] == TcpServiceEntries(a)[n]
    {
      OthersAfter(a, p, v, n);
    }
  }

  /** One more assignment of another kind leaves the TCP services as they were. */
  lemma TcpServiceAfterOther(a: map<LabelPath, string>, p: LabelPath, v: string)
    requires KindOf(p.field) != TcpServiceKind
    ensures TcpServiceEntries(a[p := v]) == TcpServiceEntries(a)
  {
    NamesOfAfter(a, p, v, TcpServiceKind);
    TcpServiceAfterElsewhere(a, p, v);
    OthersAfter(a, p, v, p.name);
    SameEntries(TcpServiceEntries(a[p := v]), TcpServiceEntries(a));
  }

  /** One more assignment of a TCP service path sets one field of the TCP service it names, creating it if need be. */
  lemma TcpServiceAfterSame(a: map<LabelPath, string>, p: LabelPath, v: string)
    requires KindOf(p.field) == TcpServiceKind
    ensures TcpServiceEntries(a[p := v]) == TcpServiceEntries(a)[p.name := v]
  {
    NamesOfAfter(a, p, v, TcpServiceKind);
    TcpServiceAfterElsewhere(a, p, v);
    NamedAfter(a, p, v);
    UpdatedAt(TcpServiceEntries(a), TcpServiceEntries(a[p := v]), p.name, v);
  }

  /** `EntriesAfter` for one more assignment of a router path. */
  lemma EntriesAfterRouter(a: map<LabelPath, string>, p: LabelPath, v: string)
    requires KindOf(p.field) == RouterKind
    ensures Entries(a[p := v]) == Declare(Entries(a), p, v)
  {
    RouterAfterSame(a, p, v);
    ServiceAfterOther(a, p, v);
    MiddlewareAfterOther(a, p, v);
    TcpRouterAfterOther(a, p, v);
    TcpServiceAfterOther(a, p, v);
  }

  /** `EntriesAfter` for one more assignment of a service path. */
  lemma EntriesAfterService(a: map<LabelPath, string>, p: LabelPath, v: string)
    requires KindOf(p.field) == ServiceKind
    ensures Entries(a[p := v]) == Declare(Entries(a), p, v)
  {
    RouterAfterOther(a, p, v);
    ServiceAfterSame(a, p, v);
    MiddlewareAfterOther(a, p, v);
    TcpRouterAfterOther(a, p, v);
    TcpServiceAfterOther(a, p, v);
  }

  /** `EntriesAfter` for one more assignment of a middleware path. */
  lemma EntriesAfterMiddleware(a: map<LabelPath, string>, p: LabelPath, v: string)
    requires KindOf(p.field) == MiddlewareKind
    ensures Entries(a[p := v]) == Declare(Entries(a), p, v)
  {
    RouterAfterOther(a, p, v);
    ServiceAfterOther(a, p, v);
    MiddlewareAfterSame(a, p, v);
    TcpRouterAfterOther(a, p, v);
    TcpServiceAfterOther(a, p, v);
  }

  /** `EntriesAfter` for one more assignment of a TCP router path. */
  lemma EntriesAfterTcpRouter(a: map<LabelPath, string>, p: LabelPath, v: string)
    requires KindOf(p.field) == TcpRouterKind
    ensures Entries(a[p := v]) == Declare(Entries(a), p, v)
  {
    RouterAfterOther(a, p, v);
    ServiceAfterOther(a, p, v);
    MiddlewareAfterOther(a, p, v);
    TcpRouterAfterSame(a, p, v);
    TcpServiceAfterOther(a, p, v);
  }

  /** `EntriesAfter` for one more assignment of a TCP service path. */
  lemma EntriesAfterTcpService(a: map<LabelPath, string>, p: LabelPath, v: string)
    requires KindOf(p.field) == TcpServiceKind
    ensures Entries(a[p := v]) == Declare(Entries(a), p, v)
  {
    RouterAfterOther(a, p, v);
    ServiceAfterOther(a, p, v);
    MiddlewareAfterOther(a, p, v);
    TcpRouterAfterOther(a, p, v);
    TcpServiceAfterSame(a, p, v);
  }

  /** The entries of one more assignment are the entries before it with that one label declared. */
  lemma EntriesAfter(a: map<LabelPath, string>, p: LabelPath, v: string)
    ensures Entries(a[p := v]) == Declare(Entries(a), p, v)
  {
    match KindOf(p.field)
    case RouterKind => EntriesAfterRouter(a, p, v);
    case ServiceKind => EntriesAfterService(a, p, v);
    case MiddlewareKind => EntriesAfterMiddleware(a, p, v);
    case TcpRouterKind => EntriesAfterTcpRouter(a, p, v);
    case TcpServiceKind => EntriesAfterTcpService(a, p, v);
  }

  /** No assignments declare no entries. */
  lemma EntriesOfNothing()
    ensures Entries(map[]) == Decoded(map[], map[], map[], map[], map[])
  {
    assert RouterEntries(map[]).Keys == {} && ServiceEntries(map[]).Keys == {} && MiddlewareEntries(map[]).Keys == {};
    assert TcpRouterEntries(map[]).Keys == {} && TcpServiceEntries(map[]).Keys == {};
  }

  /** The entries a label list declares, one label after another from no entries at all. */
  function DeclareAll(entries: seq<(LabelPath, string)>): Decoded
  {
    if entries == [] then Decoded(map[], map[], map[], map[], map[])
    else
      var last := entries[|entries| - 1];
      Declare(DeclareAll(entries[..|entries| - 1]), last.0, last.1)
  }

  /** Declaring a prefix one label longer is declaring that label after the shorter prefix. */
  lemma DeclareAllPrefix(entries: seq<(LabelPath, string)>, k: nat)
    requires 0 < k <= |entries|
    ensures DeclareAll(entries[..k]) == Declare(DeclareAll(entries[..k - 1]), entries[k - 1].0, entries[k - 1].1)
  {
    assert entries[..k][..k - 1] == entries[..k - 1];
  }

  /** Decoding a label list is declaring its labels one after another. */
  lemma {:induction false} EntriesOfList(entries: seq<(LabelPath, string)>)
    ensures Entries(AssignmentsOf(entries)) == DeclareAll(entries)
  {
    if entries == [] {
      EntriesOfNothing();
    } else {
      var init, last := entries[..|entries| - 1], entries[|entries| - 1];
      EntriesOfList(init);
      EntriesAfter(AssignmentsOf(init), last.0, last.1);
    }
  }
}
