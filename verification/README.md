# rancher2 provider converters, modelled in Dafny

This project models the converter layer of the Terraform provider for
Rancher 2, together with the small decision rules that sit on top of it.

Converters come in `flatten*` / `expand*` pairs:

- `flatten*` writes an API record into Terraform's attribute state, or into a
  nested block's map.
- `expand*` reads the state back into a record.

Almost every pair follows the same "omit empty" convention:

- a string, list or map is written only when it is non-empty;
- booleans are always written;
- some integers are written only when positive;
- expand copies a key only when it is present and non-empty, and otherwise
  leaves the field at its zero value.

The model states that convention member by member. It proves the round trips
`expand(flatten(x)) == x` and states, each in a lemma, the exceptions:

- a fluentd server whose weight is negative comes back with weight 0;
- an empty non-nil server list comes back as nil;
- negative backup counts are lost;
- a project logging comes back with only the config of its kind, and a
  non-positive flush interval comes back as 0;
- a project logging whose kind is already in state, but whose object lacks
  the config of that kind, comes back with an empty config of that kind;
- the LDAP and GitHub secrets are never written by flatten, so expand reads
  back the secret already in state.

The decision rules modelled are:

- the access-mode check of the auth configs;
- the "last block wins" choice of a node template's driver;
- the kind inference of a project logging;
- the preservation of the S3 secret on an etcd-backup refresh;
- the namespace move predicate and its refresh classification;
- the merge of explicit provider arguments with the Rancher CLI config file.

Layout:

- `attr.dfy` (module `Attr`): attribute values (`Str | Bool | Int | List | Map | Null`), the guarded reads every expand uses (`StrIn`, `BoolIn`, `PosIntIn`, `ListIn`, `MapIn`), and the element-wise conversions `toArrayString`, `toMapString` and friends.
- `resource_data.dfy` (module `ResourceState`): `schema.ResourceData` as a class.
  - It holds a schema, an id and the attribute map.
  - `Set` accepts a value only for a key the schema declares with that value's type.
  - `Get` of an unset key gives the zero value of its type.
  - A flatten's sequence of `d.Set` calls is a list of writes. A write is checked when the source returns its error, and `ApplyWrites` specifies the effect of the list.
- `precedence.dfy`: the "last one present wins" rule shared by node templates and project logging.
- `auth_config.dfy`: the access-mode rule shared by the auth configs.
- One file per core source file. The two role-template-binding files share `role_template_binding.dfy`, parameterised by the scope (cluster or project).

Flatten functions that change `d` in place are methods on the `ResourceData`
object. Each one is proved equal to the pure write-list specification, and the
lemmas are proved about that specification. Expand functions and nested-block
converters are functions. The two loops over fluentd servers are methods with
loop invariants.

## Model

| member | source | states |
|---|---|---|
| Attr.Zero | rancher2/structure_node_pool.go:49-56 | An attribute that was never set reads as the zero value of its schema type. |
| Attr.StrIn | rancher2/structure_node_template_azure.go:103-189 | A string field is copied only when the key is present with a non-empty string. Otherwise it stays "". |
| Attr.BoolIn | rancher2/structure_cluster_rke_config_bastion_host.go:49-71 | A boolean is copied whenever it is present. Otherwise it stays false. |
| Attr.IntIn | rancher2/structure_logging_fluentd_config.go:37-39 | An integer is copied whenever it is present, whatever its sign. |
| Attr.PosIntIn | rancher2/auth_config_ldap.go:312-358 | An integer is copied only when it is positive, so the result is never negative. |
| Attr.ListIn | rancher2/structure_node_template_azure.go:97-100 | A list is taken only when it is present and non-empty. |
| Attr.MapIn | rancher2/structure_node_pool.go:58-64 | A map is taken only when it is present and non-empty. |
| Attr.ToArrayInterface | rancher2/structure_node_template_azure.go:45-47 | The conversion to []interface{} keeps the length and each element. |
| Attr.ToArrayString | rancher2/structure_node_template_azure.go:140-142 | The conversion to []string keeps the length and each string element. |
| Attr.ToMapInterface | rancher2/structure_node_pool.go:25-33 | The conversion to map[string]interface{} keeps the keys and each value. |
| Attr.ToMapString | rancher2/structure_node_pool.go:58-64 | The conversion to map[string]string keeps the keys and each string value. |
| Attr.ArrayRoundTrip | rancher2/structure_node_template_azure.go:45-47 | A string list converted to interface{} and back is unchanged. |
| Attr.MapRoundTrip | rancher2/structure_node_pool.go:25-64 | A string map converted to interface{} and back is unchanged. |
| ResourceState.ResourceData.Get | rancher2/structure_node_pool.go:49-56 | Get returns the stored value, or the zero value of the key's type when the key is unset. |
| ResourceState.ResourceData.SetId | rancher2/structure_node_pool.go:15 | SetId replaces the id and nothing else. |
| ResourceState.ResourceData.Set | rancher2/structure_node_pool.go:15-33 | Set stores the value when the schema declares the key with the value's type. Otherwise it returns an error and leaves state unchanged. |
| ResourceState.ResourceData.SetAll | rancher2/structure_cluster_role_template_binding.go:15-62 | The loop over a flatten's Set calls leaves exactly the state and error that `ApplyWrites` specifies. |
| ResourceState.ApplyAllAdmitted | rancher2/structure_node_pool.go:15-33 | When the schema accepts every write, the run succeeds and every write lands, in order. |
| ResourceState.ApplyStopsAt | rancher2/auth_config_ldap.go:148-255 | The first rejected checked Set ends the flatten with its error, and the writes before it stay applied. |
| ResourceState.ApplyFails | rancher2/auth_config_ldap.go:148-255 | A flatten fails exactly when one of its checked Sets is rejected. |
| ResourceState.ApplyUntouched | rancher2/auth_config_ldap.go:147-258 | A key that no Set names keeps its old entry, or its absence, however the run ends. |
| ResourceState.ApplyConcat | rancher2/structure_node_template.go:16-124 | A run of Sets in two parts: the second part starts from where the first part ended, unless the first part failed. |
| ResourceState.WritesHold | rancher2/structure_node_pool.go:15-33 | Writes that cover an attribute set and are all accepted leave state overridden by exactly those attributes. |
| Precedence.LastPresentAt | rancher2/structure_node_template.go:142-226 | The name chosen is that of the last candidate present. |
| Precedence.NonePresent | rancher2/structure_node_template.go:133-135 | With no candidate present, no name is chosen. |
| Precedence.OverwriteIsLastPresent | rancher2/structure_node_template.go:142-226 | Overwriting block by block ends with the last present candidate's name, or with the starting name when none is present. |
| AuthConfigGithub.FlattenAuthConfigGithub | rancher2/structure_auth_config_github.go:12-59 | The id becomes the github constant and the attributes are written in the source's order, each Set returning its error. The name and type come from the constants, whatever the input. |
| AuthConfigGithub.SecretUntouched | rancher2/structure_auth_config_github.go:12-59 | Flatten never writes client_secret, so the secret held in state is kept. |
| AuthConfigGithub.ExpandAuthConfigGithub | rancher2/structure_auth_config_github.go:63-113 | Nil input is an error. Otherwise it fails exactly on a "required" or "restricted" access mode with no allowed principals. On success the name and type are the constants and client_secret is read from state. |
| AuthConfigGithub.RoundTrip | rancher2/structure_auth_config_github.go:12-113 | Expanding what a successful flatten stored gives the config back, with the constant name and type and with the client secret that state already held. |
| AuthConfigLdap.MergeFields | rancher2/auth_config_ldap.go:138-140 | The merged schema has every key of both tables, and the common definition wins on a collision. |
| AuthConfigLdap.FlattenAuthConfigLdap | rancher2/auth_config_ldap.go:147-258 | The attributes are written in order, and the first rejected Set ends the flatten with its error. |
| AuthConfigLdap.SecretsUntouched | rancher2/auth_config_ldap.go:147-258 | service_account_password, username and password are never written, so state keeps them. |
| AuthConfigLdap.ExpandAuthConfigLdap | rancher2/auth_config_ldap.go:262-385 | Nil input is an error. The access-mode check fails exactly on a restricting mode with no principals. The three integers come out non-negative. |
| AuthConfigLdap.ExpandStored | rancher2/auth_config_ldap.go:280-382 | A state that holds every flattened attribute expands to the config, with the password read from state. |
| AuthConfigLdap.RoundTrip | rancher2/auth_config_ldap.go:147-385 | flatten then expand gives the config back, with the state's service-account password, when the integers are not negative and the access mode is accepted. |
| ClusterRegistrationToken.TokenMap | rancher2/cluster_registration_token.go:71-80 | All ten keys are emitted, and the name is always "system". |
| ClusterRegistrationToken.FlattenToken | rancher2/cluster_registration_token.go:65-83 | Nil gives an empty list. A token gives one map with all ten keys and the name "system". |
| ClusterRegistrationToken.ExpandToken | rancher2/cluster_registration_token.go:87-114 | It fails exactly when the cluster id is empty. Otherwise the cluster id is the argument and the name is "system". An empty block gives the bare token. |
| ClusterRegistrationToken.RoundTrip | rancher2/cluster_registration_token.go:65-114 | A token flattened and expanded under its own cluster keeps its id, cluster, annotations and labels. Its name becomes "system" and the computed fields are dropped. |
| ClusterRegistrationToken.TokenId | rancher2/cluster_registration_token.go:126 | The token id starts with the cluster id, then ':', and the rest is the token name "system". |
| ClusterRegistrationToken.TokenIdInjective | rancher2/cluster_registration_token.go:126 | Distinct clusters never share a token id. |
| EtcdBackup.FlattenS3 | rancher2/structure_etcd_backup.go:21 | A nil S3 block flattens to an empty list. Otherwise it is one map holding the non-empty strings. |
| EtcdBackup.ExpandS3 | rancher2/structure_etcd_backup.go:77-79 | A non-empty secret read back is the one stored in the map. |
| EtcdBackup.S3RoundTrip | rancher2/structure_etcd_backup.go:21-79 | Every S3 field comes back. |
| EtcdBackup.BackupMap | rancher2/structure_etcd_backup.go:21 | The S3 block is present exactly when the config has one. |
| EtcdBackup.FlattenBackupConfig | rancher2/structure_etcd_backup.go:21 | A nil backup config flattens to an empty list. Otherwise it is one map. |
| EtcdBackup.ExpandBackupConfig | rancher2/structure_etcd_backup.go:77-79 | The counts come out non-negative, and the S3 block exactly when its list is non-empty. |
| EtcdBackup.BackupRoundTrip | rancher2/structure_etcd_backup.go:21-79 | A backup config comes back exactly when its counts are not negative. |
| EtcdBackup.WithStateSecret | rancher2/structure_etcd_backup.go:17-19 | With no secret in state the object is unchanged. Otherwise only the S3 secret is replaced, by the state's. |
| EtcdBackup.FlattenEtcdBackup | rancher2/structure_etcd_backup.go:10-63 | Nil leaves everything unchanged. Otherwise the caller's object gets the state's non-empty secret and nothing else changes in it; the id is set; and the attributes are written in order, each Set returning its error. |
| EtcdBackup.ExpandEtcdBackup | rancher2/structure_etcd_backup.go:67-108 | Nil gives nil. Otherwise the id and cluster_id are always copied and manual is read as a boolean. filename, name and namespace_id are read only when present and non-empty, and so are annotations and labels. backup_config is set exactly from a non-empty list, with non-negative counts. |
| EtcdBackup.StoredSecret | rancher2/structure_etcd_backup.go:17-21 | The secret read back from a written backup block is the object's own S3 secret. |
| EtcdBackup.Stored | rancher2/structure_etcd_backup.go:21-59 | When every Set lands, state holds exactly what flatten wrote over the old state. |
| EtcdBackup.SecretSurvives | rancher2/structure_etcd_backup.go:17-21 | After a refresh, the S3 secret in state is the one state held before, or the object's own when state held none. |
| EtcdBackup.RoundTrip | rancher2/structure_etcd_backup.go:10-108 | Expanding what a successful flatten stored gives the object back when its counts are not negative. |
| EtcdBackup.FixtureS3Block | rancher2/structure_etcd_backup_test.go:20-67 | The fixture's S3 block flattens to the fixture's map. |
| EtcdBackup.FixtureBackupBlock | rancher2/structure_etcd_backup_test.go:20-67 | The fixture's backup block flattens to the fixture's map. |
| EtcdBackup.FlattenFixture | rancher2/structure_etcd_backup_test.go:69-96 | Flattening the fixture into empty state succeeds and stores the fixture's attribute map. |
| EtcdBackup.ExpandCore | rancher2/structure_etcd_backup.go:67-108 | A state holding the core attributes, with no annotations or labels, expands to the object. |
| EtcdBackup.ExpandFixture | rancher2/structure_etcd_backup_test.go:98-118 | Expanding the fixture's attribute map gives the fixture object. |
| LoggingFluentd.ExpandServer | rancher2/structure_logging_fluentd_config.go:81-112 | A non-zero weight comes from a weight stored in the map. |
| LoggingFluentd.FlattenServers | rancher2/structure_logging_fluentd_config.go:9-45 | One map per server, in input order. |
| LoggingFluentd.ExpandServers | rancher2/structure_logging_fluentd_config.go:74-116 | An empty list, or one with a nil first element, gives no servers. Otherwise there is one server per element, in order. |
| LoggingFluentd.FlattenFluentServers | rancher2/structure_logging_fluentd_config.go:9-45 | The append loop builds exactly FlattenServers of its input, and the error is always nil. |
| LoggingFluentd.ExpandFluentServers | rancher2/structure_logging_fluentd_config.go:74-116 | The append loop builds exactly ExpandServers of its input, and the error is always nil. |
| LoggingFluentd.ServerOmitEmpty | rancher2/structure_logging_fluentd_config.go:13-39 | A server map holds each of its five strings exactly when that field is non-empty, standby always, and weight exactly when it is positive. No other key appears, and no entry is empty. |
| LoggingFluentd.ServerRoundTrip | rancher2/structure_logging_fluentd_config.go:9-116 | A server comes back exactly when its weight is not negative. A negative weight comes back as 0. |
| LoggingFluentd.ServersRoundTrip | rancher2/structure_logging_fluentd_config.go:9-116 | A server list comes back exactly when every weight is non-negative. |
| LoggingFluentd.FlattenFluentdConfig | rancher2/structure_logging_fluentd_config.go:47-70 | Nil gives an empty list. A config gives one map that always holds compress and enable_tls. |
| LoggingFluentd.ExpandFluentdConfig | rancher2/structure_logging_fluentd_config.go:118-147 | An empty block gives the zero config. The server list is set exactly when its list is non-empty. |
| LoggingFluentd.ForwarderOmitEmpty | rancher2/structure_logging_fluentd_config.go:47-70 | The config map holds fluent_servers exactly when the slice is non-nil, the certificate exactly when it is non-empty, and compress and enable_tls always. No other key appears. |
| LoggingFluentd.ForwarderRoundTrip | rancher2/structure_logging_fluentd_config.go:47-147 | A config comes back exactly when its server list is not an empty non-nil slice and no weight is negative. |
| Namespace.RefreshNamespace | rancher2/resource_rancher2_namespace.go:222-234 | "Not found" hands the waiter the object ByID returned, with state "removed" and no error. Only another error gives no object, with an empty state and that error. A found namespace reports itself and its own state. |
| Namespace.RefreshReachesRemoved | rancher2/resource_rancher2_namespace.go:222-234 | A single poll reports the target "removed" exactly when the namespace is not found, or is found already in state "removed". A failed lookup never does. |
| Namespace.MoveRule | rancher2/resource_rancher2_namespace.go:125-137 | There is no move into the current project and no move across clusters. A move happens when the project differs and the clusters match or the stored cluster is empty. |
| Namespace.UpdatePayload | rancher2/resource_rancher2_namespace.go:139-146 | The payload has exactly description, resourceQuota, annotations and labels, and never the project. |
| Namespace.DeleteNamespace | rancher2/resource_rancher2_namespace.go:175-219 | A missing namespace clears the id and succeeds. A lookup, delete or wait error is returned with the id kept. Success clears the id. |
| NamespaceMove.FlattenNamespaceMove | rancher2/resource_rancher2_namespace_move.go:73-107 | Nil is a no-op. Otherwise the id is set, and cluster_id is taken from the argument and written without a check. The other five attributes are written in order, each returning its error. |
| NamespaceMove.ExpandNamespaceMove | rancher2/resource_rancher2_namespace_move.go:111-134 | Nil gives nil. The id and project id are copied as they are, and the state is left empty. |
| NamespaceMove.RoundTrip | rancher2/resource_rancher2_namespace_move.go:73-134 | Expanding what a successful flatten stored gives the namespace back, and state holds the given cluster id. |
| NodePool.FlattenNodePool | rancher2/structure_node_pool.go:10-35 | Nil is a no-op. Otherwise the id and the eight scalars are written without checks, and the maps with checks. |
| NodePool.ExpandNodePool | rancher2/structure_node_pool.go:39-67 | Nil gives nil and anything else gives a pool. |
| NodePool.RoundTrip | rancher2/structure_node_pool.go:10-67 | Expanding what a successful flatten stored gives the pool back. |
| NodeTemplate.RequiredBlock | rancher2/structure_node_template.go:20-45 | The required block is generic_config exactly when the driver is not one of the five built-in drivers. |
| NodeTemplate.NamedApplied | rancher2/structure_node_template.go:16-18 | The name and driver writes ignore their errors. Each lands when the schema accepts it. |
| NodeTemplate.NameDriverKept | rancher2/structure_node_template.go:16-45 | The name and driver are in state after the write, before the block check, whatever the check decides. |
| NodeTemplate.CheckedBlock | rancher2/structure_node_template.go:20-45 | For every driver, the template is refused exactly when it lacks the block its driver requires. |
| NodeTemplate.OnlyFilled | rancher2/structure_node_template.go:47-124 | After the check, only non-empty strings, lists and maps are written, and use_internal_ip_address always. |
| NodeTemplate.FlattenNodeTemplate | rancher2/structure_node_template.go:11-127 | Nil is a no-op. A missing config block fails after the id, name and driver are set. Otherwise the remaining writes follow. |
| NodeTemplate.TemplateWritesLand | rancher2/structure_node_template.go:47-124 | When the schema accepts every write, the writes after the check succeed and state holds them. |
| NodeTemplate.ExpandNodeTemplate | rancher2/structure_node_template.go:131-237 | Nil gives (nil, nil). It fails exactly when generic_config is refused. On success the id and name are copied and generic_config is set exactly from a non-empty block. |
| NodeTemplate.DriverPrecedence | rancher2/structure_node_template.go:142-226 | The driver is that of the last non-empty block in the order amazonec2, azure, digitalocean, generic, openstack, vsphere. With no block it stays empty. |
| NodeTemplateAzure.FlattenAzureConfig | rancher2/structure_node_template_azure.go:5-92 | Nil gives an empty list. A config gives exactly one map. |
| NodeTemplateAzure.OmitEmpty | rancher2/structure_node_template_azure.go:11-89 | No key outside the Azure schema appears and no entry is empty. The four booleans are always present, and open_port exactly when the list is non-empty. |
| NodeTemplateAzure.ExpandAzureConfig | rancher2/structure_node_template_azure.go:96-192 | An empty list, or a nil first element, gives the zero config. |
| NodeTemplateAzure.RoundTrip | rancher2/structure_node_template_azure.go:5-192 | Expanding a flattened config gives it back. |
| ProjectLogging.InferFrom | rancher2/structure_project_logging.go:21-40 | The step-by-step overwrite of the kind ends at the last present config's kind. |
| ProjectLogging.InferredKind | rancher2/structure_project_logging.go:21-40 | The inferred kind is that of the last present config in the order elasticsearch, fluentd, kafka, splunk, syslog, or "" when none is present. |
| ProjectLogging.KindRules | rancher2/structure_project_logging.go:21-90 | A kind in state is used as it is. An empty one is replaced by the inference, which is a supported kind exactly when a config is present. |
| ProjectLogging.FlattenProjectLogging | rancher2/structure_project_logging.go:12-112 | Nil is a no-op. Otherwise the id, project and name are set; an inferred kind is written back; an unsupported kind fails; and otherwise the kind's config and the tail attributes are written. |
| ProjectLogging.KindKept | rancher2/structure_project_logging.go:21-22 | A kind already in state is never rewritten. |
| ProjectLogging.WithConfig | rancher2/structure_project_logging.go:129-162 | Setting the kind's config adds only that kind to the configs present and changes no other field. |
| ProjectLogging.ExpandProjectLogging | rancher2/structure_project_logging.go:116-185 | Nil is an error. An unsupported kind is an error returned with the id, project and name already filled. Otherwise the flush interval is never negative. |
| ProjectLogging.ExpandedConfig | rancher2/structure_project_logging.go:129-162 | A successful expand sets exactly the config that matches the kind. |
| ProjectLogging.RoundTrip | rancher2/structure_project_logging.go:12-185 | When every write lands, the object carries the config of the effective kind, and a forwarder config survives its own round trip, expanding what flatten stored gives the logging back. It has only the config of its kind, and the flush interval is clamped at 0. |
| ProjectLogging.MissingConfig | rancher2/structure_project_logging.go:42-162 | When the kind in state names a config the object lacks, flatten stores an empty block without error. Expand then builds an empty config of that kind, so the object does not come back. For fluentd the config is the zero forwarder config. |
| Provider.LoadConfig | rancher2/provider.go:185-201 | The path is always set. A missing file is no error and gives a config with only the path. It errs exactly on another read error or a decode error. |
| Provider.Configure | rancher2/provider.go:121-183 | The file is consulted only when named. With no URL from either side the result is an error. On success the config carries each non-empty explicit value and the file's value only where the explicit one is empty. insecure is the OR of both, and the file URL is used only as scheme://host. |
| Provider.ProviderConfigure | rancher2/provider.go:121-183 | The overwrites of the locals one by one compute exactly Configure of the arguments. |
| Provider.MissingFileIsNoFile | rancher2/provider.go:190-192 | A missing config file is no error, and configures exactly as if no file were named. |
| RkeBastionHost.FlattenBastionHost | rancher2/structure_cluster_rke_config_bastion_host.go:9-38 | Nil gives an empty list. A host gives one map that always holds ssh_agent_auth. |
| RkeBastionHost.OmitEmpty | rancher2/structure_cluster_rke_config_bastion_host.go:15-37 | Each of the five strings is in the map exactly when non-empty, ssh_agent_auth always. No other key appears, and no entry is empty. |
| RkeBastionHost.ExpandBastionHost | rancher2/structure_cluster_rke_config_bastion_host.go:42-74 | An empty list, or a nil first element, gives the zero host. |
| RkeBastionHost.RoundTrip | rancher2/structure_cluster_rke_config_bastion_host.go:9-74 | Expanding a flattened host gives it back. |
| RkeDns.FlattenDns | rancher2/structure_cluster_rke_config_dns.go:9-32 | Nil gives an empty list. A config gives exactly one map. |
| RkeDns.OmitEmpty | rancher2/structure_cluster_rke_config_dns.go:15-31 | Each of the four keys is present exactly when its field is non-empty. No other key appears, and no entry is empty. |
| RkeDns.FlattenZero | rancher2/structure_cluster_rke_config_dns.go:9-31 | A zero config flattens to a single empty map. |
| RkeDns.ExpandDns | rancher2/structure_cluster_rke_config_dns.go:36-60 | An empty list, or a nil first element, gives the zero config. |
| RkeDns.RoundTrip | rancher2/structure_cluster_rke_config_dns.go:9-60 | Expanding a flattened config gives it back. |
| RoleTemplateBinding.ScopeKey | rancher2/structure_project_role_template_binding.go:17 | A cluster binding lives under cluster_id and a project binding under project_id. |
| RoleTemplateBinding.FlattenBinding | rancher2/structure_cluster_role_template_binding.go:10-64 | Nil is a no-op. Otherwise the id is set, then the nine attributes are written in order, and the first rejected Set's error is returned. |
| RoleTemplateBinding.ExpandBinding | rancher2/structure_project_role_template_binding.go:68-95 | Nil gives nil. The id and the scope id are copied. |
| RoleTemplateBinding.RoundTrip | rancher2/structure_cluster_role_template_binding.go:10-95 | Expanding what a successful flatten stored gives the binding back. |

## Left out

- The create, read, update and delete flows of every resource are left out. They are network calls through the Rancher clients and polling with timeouts. Only the decisions inside them are modelled: the namespace move predicate, the update payload, the refresh classification and the delete outcome.
- `loadConfig`'s file read and JSON decoding are parameters (`ReadOutcome`). So are `url.Parse` in `providerConfigure` and the `ManagementClient()` probe.
- Provider.ProviderConfigure: the CLI config or empty `Config` returned alongside an error is not modelled. Only the error and the successful `Config` are.
- The helpers `toMapString`, `toMapInterface`, `toArrayString` and `toArrayInterface` are not part of this model. They are modelled as element-wise identities, and a non-string element becomes "".
- The elasticsearch, kafka, splunk and syslog logging converters are not part of this model. Their blocks are kept as attribute lists, with flatten and expand as the identity.
- The etcd backup-config and S3 converters (`flattenClusterRKEConfigServicesEtcdBackupConfig` and its expander) are not part of this model. They are modelled in the omit-empty style of the other converters.
  - The S3 fields `custom_ca` and `folder` are left out.
- `expandGenericNodeTemplateConfig` and the amazonec2, digitalocean, openstack and vsphere expanders are not part of this model. The generic expander's result is a parameter, and the other driver blocks are kept as attribute lists.
- The schema tables (`*Fields()` functions) are left out. The schema is a parameter of `ResourceData`, and `AuthConfigLdap.MergeFields` models only the merge loop.
- The text of the SDK's `Set` error is a placeholder, `SetError`.
- Go's type-assertion panics are handled in one of two ways:
  - Some are preconditions: a nested block's first element must be a map, and the provider arguments and the project-logging kind must be strings.
  - EtcdBackup.ExpandEtcdBackup requires `cluster_id` to be a string, because the source asserts it unchecked (rancher2/structure_etcd_backup.go:81).
  - NodeTemplate.ExpandNodeTemplate requires `name` to be a string (rancher2/structure_node_template.go:141).
  - ProjectLogging.Expandable requires `project_id`, `name` and `kind` to be strings, for the same reason.
  - LoggingFluentd.ServersReadable requires every element of `fluent_servers` to be a map when the first is not nil, since the source asserts each element (rancher2/structure_logging_fluentd_config.go:81-83).
  - For the other unchecked assertions in the binding, node pool and namespace expanders, a value of another type reads as the zero value.
- EtcdBackup.FlattenEtcdBackup: the source's nil-pointer panic is left out as a precondition. The method requires that, when state holds an S3 secret key, the refreshed object has a backup config with an S3 block. The source writes the secret through `in.BackupConfig.S3BackupConfig` without nil checks (rancher2/structure_etcd_backup.go:17-19), and it would panic on an object without either block.
- AuthConfigLdap.FlattenAuthConfigLdap and AuthConfigGithub.FlattenAuthConfigGithub: a nil config is left out. Both take a config that cannot be nil. The source dereferences `in` with no nil check (rancher2/auth_config_ldap.go:147-148, rancher2/structure_auth_config_github.go:12-59), so a nil config would panic.
- `Attr.ListIn` returns an empty list for a non-list value, where Go would panic.
- Nil and empty maps and slices are the same value in the model, except for the fluentd server list, where the difference is observable.
- The API's int64 fields are unbounded integers. No overflow is modelled.
- The `docker_version` attribute is written by the node-template flatten, but the expand never reads it. It is modelled as the source has it.
- `findClusterRegistrationToken`'s lookup-or-create through the client is left out. Only the id it looks up, `ClusterRegistrationToken.TokenId`, is modelled.
- ProjectLogging.ExpandProjectLogging: the other kinds' configs go through an identity expander, because those converters are not part of this model.
- EtcdBackup.FlattenFixture requires the test schema to accept every write the flatten makes. The schema table itself is not part of this model.
- Logging output (`log.Printf`) is left out.
- Namespace.RefreshReachesRemoved: the SDK's `StateChangeConf` wait (repeated polls, pending states, delay and timeout) is not modelled. The lemma covers a single poll only.
- Some constants are assumed, because the files that define them are not part of this model: the github auth config name "github" and type "githubConfig"; the driver names "amazonec2", "azure", "digitalocean", "openstack" and "vmwarevsphere"; and the logging kind names.
