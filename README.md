# Rancher provider configuration builder

A Dafny model of how traefik's Rancher provider turns the services it
discovered in Rancher into one dynamic configuration. Each discovered
service (a `Record`: name, labels, port, container IPs, health, state) is

1. prepared: its `traefik.enable` label, or the provider's
   exposed-by-default setting, decides whether it is enabled;
2. filtered: it takes part only when enabled, when its labels meet the
   provider's constraint, and, with the health filter on, when its health
   and state are accepted (`broken` and `upgradefailed` are not);
3. decoded: its `traefik.http.*` and `traefik.tcp.*` labels become declared
   routers, services, basic-auth middlewares, TCP routers and TCP services;
4. completed: a service named after the record is added when none is
   declared, a router named after the record with the default rule
   ``Host(`<name>.traefik.wtf`)`` is added when no router is declared, a
   router without a service is pointed at the record's only service (and
   dropped when there are several), server addresses come from the
   container IPs and the port (the labelled port, otherwise the container
   side of the record's `host:container/protocol` port), and TCP routers
   without a rule are dropped;
5. merged: the per-service configurations are merged in ascending order
   of service name into one configuration whose five maps (routers,
   services, middlewares, TCP routers, TCP services) are always present.

Modules:

- `Wrappers`: `Option` and `Result`.
- `Strings`: split and join on a separator, boolean parsing, and the
  ordering and sorting of names.
- `Tables`: small facts about maps built from sequences.
- `Dynamic`: the dynamic configuration and the merge of two configurations.
- `Labels`: label keys, and the decoder from labels to declarations.
- `LabelLists`: the label sets the table rows use, and what they decode to.
- `Rancher`: the settings, filtering, ports, servers, defaults and the
  configuration built for one record.
- `Builder`: preparing the records in place (a method over an array), the
  collection and merge of contributions (methods with loops, each proved
  against a specification function), and the build as a whole.
- `Shapes`: what the build gives for the shapes of input the table uses.
- `ConfigTable`: one lemma per row of the table-driven test, stating the
  exact configuration that row expects.

The default rule is written out as concatenation, with the record's name
as it is: the rows expect ``Host(`Test.traefik.wtf`)`` for a service named
`Test`, so the case of the name is kept.

## Model

| member | source | states |
|---|---|---|
| Rancher.GetConfiguration | pkg/provider/rancher/config_test.go:726-730 | without an enable label the record is enabled as the provider's exposed-by-default says; with one it is enabled as the label parses, and an unparsable label is an error |
| Builder.PrepareRecords | pkg/provider/rancher/config_test.go:726-730 | updates the record array in place, giving each record its enable flag; on the first record whose labels do not parse it stops, reports that index, and leaves the records after it untouched |
| Builder.Prepared | pkg/provider/rancher/config_test.go:726-730 | a prepared record differs from the original only in its enable flag, which is the one the labels give |
| Rancher.BuildRecord | pkg/provider/rancher/config_test.go:230-275 | a record that is not kept, or whose labels do not decode, contributes nothing; otherwise it contributes the configuration assembled from its declarations |
| Rancher.UnlabelledRecord | pkg/provider/rancher/config_test.go:19-58 | a kept record whose labels are all outside the decoded roots builds as if it declared nothing |
| Rancher.AssembleDefaults | pkg/provider/rancher/config_test.go:19-58 | with no declarations the record gets one router named after it with the default rule, over one service named after it with one server per container and pass-host-header on; with no port it contributes nothing |
| Rancher.DefaultRule | pkg/provider/rancher/config_test.go:717 | the default rule is never empty |
| Rancher.ServicePortPlain | pkg/provider/rancher/config_test.go:25 | a `container/protocol` port resolves to the container port |
| Rancher.ServicePortMapped | pkg/provider/rancher/config_test.go:284 | a `host:container/protocol` port resolves to the container port, not the host port |
| Rancher.HttpServers | pkg/provider/rancher/config_test.go:160-170 | one HTTP server per container, in container order, at `http://<ip>:<port>` |
| Rancher.TcpServers | pkg/provider/rancher/config_test.go:633-640 | one TCP server per container, in container order, at `<ip>:<port>` |
| Rancher.HttpServices | pkg/provider/rancher/config_test.go:441-482 | services are the declared ones, or one named after the record; each uses its labelled port, else the record's port, and fails when neither exists; pass-host-header defaults to on |
| Rancher.DefaultServices | pkg/provider/rancher/config_test.go:44-54 | with no declared service and a port there is exactly the record-named service; with no port there is none |
| Rancher.HttpRouters | pkg/provider/rancher/config_test.go:186-229 | routers are the declared ones, or the default one; a router without a service is kept only when there is a single service, and is then pointed at it |
| Rancher.DeclaredRouters | pkg/provider/rancher/config_test.go:276-317 | a declared router suppresses the default router; a declared rule, middleware list and TLS flag are kept, an empty rule becomes the default rule, and a missing service becomes the only service |
| Rancher.DefaultRouter | pkg/provider/rancher/config_test.go:36-42 | with no declared router the default router is named after the record, uses the default rule and points at the record's service |
| Rancher.DefaultRouterFor | pkg/provider/rancher/config_test.go:644-651 | with no declared router and one declared service, the default router points at that service |
| Rancher.HttpRoutersComplete | pkg/provider/rancher/config_test.go:186-229 | every router built has a non-empty rule and a service that exists or that its labels name |
| Rancher.TcpServices | pkg/provider/rancher/config_test.go:562-603 | TCP services are the declared ones, or one named after the record, each on its labelled port or else the record's port |
| Rancher.TcpServiceAt | pkg/provider/rancher/config_test.go:586-592 | a built TCP service's servers use the service's labelled port when it has one, otherwise the record's port, which is then non-empty |
| Rancher.TcpRouters | pkg/provider/rancher/config_test.go:526-561 | a TCP router is built exactly when it has a rule and either names a service or there is a single service |
| Rancher.TcpRouterContribution | pkg/provider/rancher/config_test.go:483-525 | a built TCP router keeps its declared rule and TLS flag, and its service is the declared one or else the only TCP service |
| Rancher.TcpRoutersComplete | pkg/provider/rancher/config_test.go:526-561 | every TCP router built has a non-empty rule and a service that exists or that its labels name |
| Rancher.AssembleHttp | pkg/provider/rancher/config_test.go:186-229 | when the record has HTTP labels, or no TCP labels, its routers, services and middlewares are the completed HTTP declarations |
| Rancher.AssembleTcp | pkg/provider/rancher/config_test.go:483-525 | when the record has TCP labels, its TCP routers and services are the completed TCP declarations |
| Rancher.AssembleNoTcp | pkg/provider/rancher/config_test.go:19-58 | without TCP labels the record contributes no TCP router or TCP service |
| Rancher.TcpLabelsOnly | pkg/provider/rancher/config_test.go:671-706 | with TCP labels and no HTTP labels the record contributes no HTTP router, service or middleware |
| Rancher.CombineBoth | pkg/provider/rancher/config_test.go:604-670 | with both TCP and HTTP labels the contribution is the HTTP part with the TCP part's routers and services added |
| Rancher.HttpServicesSingle | pkg/provider/rancher/config_test.go:441-482 | a single declared service gets the servers of its resolved port and its declared pass-host-header flag |
| Rancher.TcpServicesSingle | pkg/provider/rancher/config_test.go:562-603 | a single declared TCP service gets the servers of its resolved port |
| Rancher.TcpRoutersOne | pkg/provider/rancher/config_test.go:526-561 | a single TCP router is dropped without a rule, and is otherwise kept, pointed at the only service when it names none |
| Labels.KeyOfInjective | pkg/provider/rancher/config_test.go:191-195 | distinct label paths are spelled by distinct label keys |
| Labels.ClassifyKeyOf | pkg/provider/rancher/config_test.go:191-195 | the key spelled for a label path is read back as that path |
| Labels.KeyOfClassified | pkg/provider/rancher/config_test.go:488-491 | every key read as a label path is the spelling of that path |
| Labels.KeyOfLiteral | pkg/provider/rancher/config_test.go:609-614 | every label key is the literal text of its field before the entry name, the name, then the literal text after it: `traefik.http.services.` and `.loadbalancer.passhostheader`, `traefik.tcp.routers.` and `.rule`, and so on for each field |
| Labels.AssignmentsSpelled | pkg/provider/rancher/config_test.go:191-195 | when a label map spells exactly a set of path assignments, the decoder reads back exactly those assignments |
| Labels.DecodeSpelled | pkg/provider/rancher/config_test.go:191-195 | such a label map decodes to the entries of its assignments, or fails when a boolean field does not parse |
| Labels.DecodeIgnoresUnrelated | pkg/provider/rancher/config_test.go:350-352 | labels outside the decoded roots, such as the tags a constraint reads, do not change what the labels decode to |
| Labels.DecodeNothing | pkg/provider/rancher/config_test.go:19-58 | labels all outside the decoded roots decode to no declarations |
| Labels.EntriesAfter | pkg/provider/rancher/config_test.go:606-614 | adding one label to the assignments adds exactly that declaration to the decoded entries |
| Labels.EntriesOfList | pkg/provider/rancher/config_test.go:606-614 | decoding a list of label assignments is declaring them one after another |
| Labels.DecodeLabelsOf | pkg/provider/rancher/config_test.go:606-614 | the label map built from a list of distinct paths decodes to the entries declared by that list |
| Labels.UsersRoundTrip | pkg/provider/rancher/config_test.go:394 | a basic-auth users label written as comma-joined users decodes to exactly those users, in order |
| Strings.SplitJoin | pkg/provider/rancher/config_test.go:394 | splitting comma-joined parts that hold no comma gives back the parts |
| Strings.JoinSplit | pkg/provider/rancher/config_test.go:394 | joining the parts of a split gives back the text |
| Strings.ParseBool | pkg/provider/rancher/config_test.go:490 | the accepted spellings of true and of false, and nothing else, parse as booleans |
| LabelLists.RouterServiceListDeclared | pkg/provider/rancher/config_test.go:191-195 | the router, rule, service and pass-host-header labels declare that router over that service |
| LabelLists.RouterListDeclared | pkg/provider/rancher/config_test.go:281-283 | a router rule label alone declares a router with that rule and no service |
| LabelLists.MiddlewareListDeclared | pkg/provider/rancher/config_test.go:393-396 | the router middlewares and basic-auth users labels declare the middleware list and the users, split on commas |
| LabelLists.ServicePortListDeclared | pkg/provider/rancher/config_test.go:446-448 | a service port label declares that service with that port and pass-host-header on |
| LabelLists.TcpRouterListDeclared | pkg/provider/rancher/config_test.go:488-491 | the TCP router rule and TLS labels declare that TCP router |
| LabelLists.TcpAndHttpListDeclared | pkg/provider/rancher/config_test.go:609-614 | TCP router, TCP service port and HTTP service labels together declare all three |
| Dynamic.Merge | pkg/provider/rancher/config_test.go:732 | each map of the merged configuration has the keys of both inputs |
| Dynamic.MergeEntries | pkg/provider/rancher/config_test.go:59-120 | merging keeps the first router, middleware and TCP router of each name, appends the servers of services of the same name, and keeps the first pass-host-header |
| Dynamic.AddMapEntries | pkg/provider/rancher/config_test.go:59-120 | a keyed merge keeps the entries only one side has and combines the ones both have |
| Dynamic.MergeIntoEmpty | pkg/provider/rancher/config_test.go:19-58 | merging into the empty configuration changes nothing |
| Dynamic.MergeDisjoint | pkg/provider/rancher/config_test.go:59-120 | merging configurations with no name in common unions their maps |
| Builder.AddEach | pkg/provider/rancher/config_test.go:732 | the loop adding a part's entries one by one computes the keyed merge |
| Builder.MergeInto | pkg/provider/rancher/config_test.go:732 | merging a part into the accumulated configuration computes the merge |
| Builder.CollectConfigurations | pkg/provider/rancher/config_test.go:732 | the loop over the records computes the map of their contributions by name |
| Builder.CollectEntries | pkg/provider/rancher/config_test.go:59-120 | the collected map has a name exactly when some record of that name contributes, and holds the last such contribution |
| Builder.MergeConfigurations | pkg/provider/rancher/config_test.go:732 | the loop over the sorted names computes the merge of their configurations in that order |
| Builder.MergeSeqKeys | pkg/provider/rancher/config_test.go:59-120 | a name is in a merged map exactly when some merged configuration has it |
| Builder.MergeSeqServers | pkg/provider/rancher/config_test.go:121-185 | the servers under a name in the merge are those of each configuration in merge order, concatenated |
| Builder.MergeSeqFirst | pkg/provider/rancher/config_test.go:59-120 | the router, middleware, TCP router and pass-host-header under a name in the merge are those of the first configuration that has one |
| Builder.BuildConfiguration | pkg/provider/rancher/config_test.go:732-734 | the builder method computes the build of the records |
| Builder.BuildNothing | pkg/provider/rancher/config_test.go:230-275 | when no record is kept the build is the empty configuration with all five maps present |
| Builder.BuildSingle | pkg/provider/rancher/config_test.go:19-58 | the build of one record is that record's contribution, or empty |
| Builder.BuildPair | pkg/provider/rancher/config_test.go:59-120 | the build of two differently named records merges their contributions in ascending name order |
| Builder.CollectRecords | pkg/provider/rancher/config_test.go:59-120 | with distinct names, the collected map holds exactly the names of the records that contribute, each with its own contribution |
| Builder.MergeSeqOwned | pkg/provider/rancher/config_test.go:59-120 | merging configurations whose entries are each named after their own record, under distinct names, gives each map as the union of their own entries |
| Builder.BuildOwnedKeys | pkg/provider/rancher/config_test.go:59-120 | when every record, under distinct names, contributes entries named after itself only, each map of the build has exactly the names of the records that declare an entry there |
| Builder.BuildOwnedEntries | pkg/provider/rancher/config_test.go:59-120 | under the same conditions, each map of the build holds each record's own entry unchanged |
| Builder.BuildPermuted | pkg/provider/rancher/config_test.go:59-120 | with distinct names, permuting the discovered records does not change the configuration built |
| Strings.Sorted | pkg/provider/rancher/config_test.go:59-120 | names are taken in ascending order, each exactly once |
| Shapes.DroppedSingle | pkg/provider/rancher/config_test.go:230-275 | a record that is not kept after preparation builds to the empty configuration |
| Shapes.KeptSingle | pkg/provider/rancher/config_test.go:345-387 | a record enabled by default, meeting the constraint and healthy builds to its assembled configuration |
| Shapes.UnlabelledSingle | pkg/provider/rancher/config_test.go:19-58 | a kept unlabelled record builds to its default router and default service |
| Shapes.UnlabelledPair | pkg/provider/rancher/config_test.go:59-120 | two kept unlabelled records build to both default routers and both default services |
| Shapes.UnlabelledNames | pkg/provider/rancher/config_test.go:59-120 | for any number of kept unlabelled records with distinct names and a port, the routers and the services built are named exactly after the records |
| Shapes.UnlabelledEntries | pkg/provider/rancher/config_test.go:59-120 | for any number of such records, each record's router has the default rule over the service named after it, and each service has one server per container on the record's port, with pass-host-header on |
| Shapes.UnlabelledHttpOnly | pkg/provider/rancher/config_test.go:59-120 | for any number of such records, no middleware, TCP router or TCP service is built |
| Shapes.RouterAndService | pkg/provider/rancher/config_test.go:186-229 | a declared router with rule and service, and that declared service, are built as declared |
| Shapes.RouterOnly | pkg/provider/rancher/config_test.go:276-317 | a declared router alone goes to the record-named default service, with its rule or else the default rule |
| Shapes.ServiceOnly | pkg/provider/rancher/config_test.go:441-482 | a declared service alone gets the default router pointed at it |
| Shapes.TcpDefault | pkg/provider/rancher/config_test.go:483-525 | TCP labels without a TCP service give the record-named TCP service on the record's port |
| Shapes.TcpDeclared | pkg/provider/rancher/config_test.go:562-603 | a declared TCP service is built on its labelled port, or else the record's port |
| Shapes.TcpAndHttpService | pkg/provider/rancher/config_test.go:604-670 | TCP labels and an HTTP service together give the TCP part and the default router over that HTTP service |
| ConfigTable.OneServiceNoLabel | pkg/provider/rancher/config_test.go:19-58 | the row's expected configuration: default router and service for `Test` |
| ConfigTable.TwoServicesNoLabel | pkg/provider/rancher/config_test.go:59-120 | the row's expected configuration: a default router and service for each record |
| ConfigTable.TwoServicesMultipleContainers | pkg/provider/rancher/config_test.go:121-185 | the row's expected configuration: two servers, in container order, for the first service |
| ConfigTable.SomeLabels | pkg/provider/rancher/config_test.go:186-229 | the row's expected configuration: only the declared router and service |
| ConfigTable.Unhealthy | pkg/provider/rancher/config_test.go:230-252 | the row's expected configuration: empty, because health is `broken` |
| ConfigTable.UpgradeFailed | pkg/provider/rancher/config_test.go:253-275 | the row's expected configuration: empty, because state is `upgradefailed` |
| ConfigTable.RuleAndMappedPort | pkg/provider/rancher/config_test.go:276-317 | the row's expected configuration: the declared router over the default service on container port 80 |
| ConfigTable.NonMatchingConstraint | pkg/provider/rancher/config_test.go:318-344 | the row's expected configuration: empty, because the constraint is not met |
| ConfigTable.MatchingConstraint | pkg/provider/rancher/config_test.go:345-387 | the row's expected configuration: as for an unlabelled record |
| ConfigTable.Middlewares | pkg/provider/rancher/config_test.go:388-440 | the row's expected configuration: the default router with the middleware, and both users |
| ConfigTable.PortInLabels | pkg/provider/rancher/config_test.go:441-482 | the row's expected configuration: the service on the labelled port |
| ConfigTable.TcpWithLabel | pkg/provider/rancher/config_test.go:483-525 | the row's expected configuration: the TCP router over the default TCP service |
| ConfigTable.TcpWithoutRule | pkg/provider/rancher/config_test.go:526-561 | the row's expected configuration: the default TCP service and no router |
| ConfigTable.TcpWithLabelAndPort | pkg/provider/rancher/config_test.go:562-603 | the row's expected configuration: the TCP router over the declared TCP service on port 8080 |
| ConfigTable.TcpWithLabelPortAndHttpService | pkg/provider/rancher/config_test.go:604-670 | the row's expected configuration: both the TCP part and the HTTP part |
| ConfigTable.TcpServiceOnly | pkg/provider/rancher/config_test.go:671-706 | the row's expected configuration: the declared TCP service alone |

## Left out

- The rule template engine: the default rule is the fixed text ``Host(`<name>.traefik.wtf`)``.
- Rancher.DefaultRule: uses the name unchanged, whereas traefik's `normalize` keeps the case but replaces each run of characters that are not letters or digits with `-` (a service `my_svc` gets ``Host(`my-svc.traefik.wtf`)``); names holding such characters are left unnormalized, and every row's name is letters and digits only.
- The constraint expression language: `Rancher.Constraint` models a constraint that is always met, `Label(key, value)` tests and their `Not`, `And` and `Or` combinations; the parser that reads a constraint from its text is left out.
- Label keys are matched case-sensitively, in the lower-case spelling the rows use.
- Only the label paths in `Labels.Field` are decoded; any other key under `traefik.http.` or `traefik.tcp.` makes the record's labels fail to decode, and the record is skipped.
- Dynamic.Merge: when two services declare the same router, middleware or TCP router name with different contents, the merge keeps the first rather than dropping the conflicting entry. A service declared twice whose declarations differ in anything but their servers (pass-host-header, say) is dropped by the provider, whereas `Dynamic.AppendServers` and `Dynamic.MergeEntries` append the servers and keep the first declaration's pass-host-header. No row exercises a conflict.
- Builder.Collect: two records with the same name keep the later one; no row has duplicate names.
- Logging, the provider's `Init`, the polling of the Rancher metadata service and the configuration hash are left out; discovered records are the input.
- The health and state names other than `broken` and `upgradefailed` that the filter accepts or rejects are taken from the Rancher provider's own names; the rows only use the empty strings and those two.
- Labels under the `traefik.rancher.` prefix and other provider options are not part of this model.
