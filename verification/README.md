# kubeadm kubeconfig assembly and heketi `node` argument checks, in Dafny

This project models two small pieces of the vendored Go code.

**kubeadm kubeconfig assembly.** A kubeconfig (`Config`) has three name-keyed maps: clusters, users
(`AuthInfos`) and contexts. It also names the current context. `CreateBasicClientConfig` makes a config
with one cluster. `MakeClientConfigWithCerts` and `MakeClientConfigWithToken` add a user and the context
`user@cluster`, and make that context current. `createClientCertsAndConfigs` builds the `kubelet` and
`admin` configs on top of one base config. `WriteKubeconfigIfNotExists` writes a config to
`<prefix>/<name>.conf`, but only if that file does not exist yet.

The Go helpers take a `*Config` and mutate it in place. To make that sharing visible, the model keeps
every allocated config in an explicit store. The store is `Heap = seq<Config>`, and a pointer is a
`Ref`, which is an index into it. Two pointers are the same object exactly when their `Ref`s are equal.
An update writes `h[r := c]`. Everything stays a pure function or a method over values.

**heketi `node` subcommands.** `node add` checks its four flags in a fixed order and builds a
`NodeAddRequest`. `delete`, `enable`, `disable` and `info` take the node id from the first positional
argument. `enable` asks for state `online` and `disable` asks for state `offline`. `RunNode` returns
either the error a subcommand reports before contacting the server, or the one server call it makes.

Modules: `Results` (result and option types), `ClientCmdApi` (config types and the object store),
`KubeadmApi` (bootstrap parameters), `KubeadmUtil` (pkg/kubeadm/util/kubeconfig.go), `KubeadmMaster`
(pkg/kubeadm/master/kubeconfig.go) and `HeketiNode` (client/cli/go/cmds/node.go).

## Model

| member | source | states |
|---|---|---|
| ClientCmdApi.Alloc | vendor/k8s.io/kubernetes/pkg/kubeadm/util/kubeconfig.go:35-38 | allocating a config object yields a new pointer one past every existing object, holding the given config, with every existing object unchanged |
| KubeadmUtil.ContextName | vendor/k8s.io/kubernetes/pkg/kubeadm/util/kubeconfig.go:43 | the context name is the user name, then one '@', then the cluster name, with its length the sum of both plus one |
| KubeadmUtil.DistinctUsersDistinctContexts | vendor/k8s.io/kubernetes/pkg/kubeadm/util/kubeconfig.go:62 | on one cluster, distinct user names give distinct context names, so one user never overwrites another's context |
| KubeadmUtil.CertAuthInfo | vendor/k8s.io/kubernetes/pkg/kubeadm/util/kubeconfig.go:45-47 | a certificate user carries exactly the given client key and certificate data, and no token |
| KubeadmUtil.TokenAuthInfo | vendor/k8s.io/kubernetes/pkg/kubeadm/util/kubeconfig.go:64-65 | a token user carries exactly the given token, with empty key and certificate data |
| KubeadmUtil.KubeconfigPath | vendor/k8s.io/kubernetes/pkg/kubeadm/util/kubeconfig.go:85 | the target file is `join(prefix, name + ".conf")`, where a missing "prefix" parameter reads as "" |
| KubeadmUtil.CreateBasicClientConfig | vendor/k8s.io/kubernetes/pkg/kubeadm/util/kubeconfig.go:30-39 | returns a freshly allocated object and leaves every existing object alone; the new config has exactly one cluster, `clusterName`, with the given server URL and CA data, and no users, no contexts and an empty current context |
| KubeadmUtil.SetUser | vendor/k8s.io/kubernetes/pkg/kubeadm/util/kubeconfig.go:53-55 | the three map writes: the user is set to the given credentials, context `user@cluster` points at that cluster and user and becomes current, clusters are untouched and every other user and context keeps its value |
| KubeadmUtil.MakeClientConfigWithCerts | vendor/k8s.io/kubernetes/pkg/kubeadm/util/kubeconfig.go:41-58 | returns the very pointer it was given, mutated in place, with every other object unchanged; the user then holds exactly the client key and certificate and no token, and context and current-context rules are as in SetUser |
| KubeadmUtil.MakeClientConfigWithToken | vendor/k8s.io/kubernetes/pkg/kubeadm/util/kubeconfig.go:60-76 | same pointer and context rules as the certificate variant, but the user carries only the token, with empty key and certificate data |
| KubeadmUtil.UserAddedUnique | vendor/k8s.io/kubernetes/pkg/kubeadm/util/kubeconfig.go:53-55 | the "what is set / nothing else changes" relation fixes the resulting config completely |
| KubeadmUtil.MakeClientConfigWithCertsIdempotent | vendor/k8s.io/kubernetes/pkg/kubeadm/util/kubeconfig.go:53-55 | applying the certificate registration twice with the same arguments gives the same store and pointer as applying it once |
| KubeadmUtil.MakeClientConfigWithTokenIdempotent | vendor/k8s.io/kubernetes/pkg/kubeadm/util/kubeconfig.go:71-73 | applying the token registration twice with the same arguments gives the same store and pointer as applying it once |
| KubeadmUtil.UserAddedIdempotent | vendor/k8s.io/kubernetes/pkg/kubeadm/util/kubeconfig.go:53-55 | adding a user a second time with the same credentials leaves the config as the first addition left it |
| KubeadmUtil.SetUserOrder | vendor/k8s.io/kubernetes/pkg/kubeadm/util/kubeconfig.go:53-55 | registering two distinct users in either order gives the same clusters, users and contexts; only the current context differs, and it names the user registered last |
| KubeadmUtil.SplitContextName | vendor/k8s.io/kubernetes/pkg/kubeadm/util/kubeconfig.go:43 | reference reading of a context name: it fails exactly when there is no '@', and otherwise yields an '@'-free user and a cluster that rebuild the name |
| KubeadmUtil.ContextNameRoundTrip | vendor/k8s.io/kubernetes/pkg/kubeadm/util/kubeconfig.go:43 | a `user@cluster` name splits back into its user and cluster when the user has no '@' |
| KubeadmUtil.ContextNameInjective | vendor/k8s.io/kubernetes/pkg/kubeadm/util/kubeconfig.go:62 | two '@'-free users get the same context name only when user and cluster both coincide |
| KubeadmUtil.ContextNameCollision | vendor/k8s.io/kubernetes/pkg/kubeadm/util/kubeconfig.go:43 | without that condition the naming is ambiguous: user `a@b` on cluster `c` and user `a` on cluster `b@c` share a context name |
| KubeadmApi.EnvParam | vendor/k8s.io/kubernetes/pkg/kubeadm/util/kubeconfig.go:85 | a parameter lookup yields the stored value, or "" when the key is absent |
| KubeadmUtil.WriteKubeconfigIfNotExists | vendor/k8s.io/kubernetes/pkg/kubeadm/util/kubeconfig.go:84-101 | targets `join(prefix, name + ".conf")`; if that file exists it reports the conflict and changes no file; otherwise it adds exactly that file and keeps all others. The file holds the serialised config, or stays empty with the serialisation error reported |
| KubeadmUtil.WriteKubeconfigExclusive | vendor/k8s.io/kubernetes/pkg/kubeadm/util/kubeconfig.go:78-94 | whatever a first write did, a second write to the same name is refused and leaves every file as it was |
| KubeadmMaster.ServerURL | vendor/k8s.io/kubernetes/pkg/kubeadm/master/kubeconfig.go:35 | the base config's server is "https://", then the listen IP unchanged, then ":443" |
| KubeadmMaster.BuildStep | vendor/k8s.io/kubernetes/pkg/kubeadm/master/kubeconfig.go:42-54 | one successful loop round adds that client's user and context to the shared base, keeps the earlier ones, and makes that client's context current |
| KubeadmMaster.SharedStep | vendor/k8s.io/kubernetes/pkg/kubeadm/master/kubeconfig.go:47-54 | each round stores the base pointer under the new client's key and allocates nothing, so the map entries so far all point at the one base object |
| KubeadmMaster.BuiltBoth | vendor/k8s.io/kubernetes/pkg/kubeadm/master/kubeconfig.go:41 | after both rounds the base holds exactly the users `kubelet` and `admin`, the two matching contexts, and `admin@kubernetes` as current context |
| KubeadmMaster.CreateClientCertsAndConfigs | vendor/k8s.io/kubernetes/pkg/kubeadm/master/kubeconfig.go:31-57 | allocates one base config with cluster `kubernetes` at `https://<ListenIP>:443`; it succeeds exactly when both key generations do, and otherwise returns the first generation error and no map. On success the keys are exactly `kubelet` and `admin` whatever `clientNames` holds. Both entries are the one base object, which holds both users with their PEM credentials, both contexts, and current context `admin@kubernetes` |
| KubeadmMaster.SharedBaseLeaksAdmin | vendor/k8s.io/kubernetes/pkg/kubeadm/master/kubeconfig.go:33-54 | registering `admin` on the shared base rewrites the config already returned for `kubelet`: it now selects `admin@kubernetes` and holds the admin credentials |
| KubeadmMaster.FreshClient | vendor/k8s.io/kubernetes/pkg/kubeadm/master/kubeconfig.go:47-53 | a client registered on a fresh base config is that config's only user and context, and is the current one |
| KubeadmMaster.CreateClientCertsAndConfigsSeparate | vendor/k8s.io/kubernetes/pkg/kubeadm/master/kubeconfig.go:31-57 | corrected construction with one base per client: same success and error behaviour, but `kubelet` and `admin` are distinct objects, and each holds only its own user and context, with that context current |
| HeketiNode.CheckNodeAdd | vendor/github.com/heketi/heketi/client/cli/go/cmds/node.go:68-88 | checks zone, then management hostname, then storage hostname, then cluster id, and reports only the first one missing. Only zone -1 counts as missing. When all pass, the request carries the cluster id, one management hostname, one storage hostname and the zone |
| HeketiNode.DefaultFlagsMissZone | vendor/github.com/heketi/heketi/client/cli/go/cmds/node.go:43-46 | with every flag at its default, `node add` fails with "Missing zone" |
| HeketiNode.CheckNodeAddSound | vendor/github.com/heketi/heketi/client/cli/go/cmds/node.go:84-88 | every accepted flag set gives a well-formed request from which the flags are read back exactly |
| HeketiNode.CheckNodeAddComplete | vendor/github.com/heketi/heketi/client/cli/go/cmds/node.go:70-88 | every well-formed request is what its own flags produce |
| HeketiNode.NodeIdArg | vendor/github.com/heketi/heketi/client/cli/go/cmds/node.go:130-138 | fails with "Node id missing" exactly when there is no positional argument, and otherwise yields the first one |
| HeketiNode.TargetState | vendor/github.com/heketi/heketi/client/cli/go/cmds/node.go:173-207 | enable asks for "online", disable for "offline" |
| HeketiNode.RunNode | vendor/github.com/heketi/heketi/client/cli/go/cmds/node.go:68-230 | `add` fails exactly as the flag check does and otherwise sends the built request. The other subcommands fail with "Node id missing" exactly when there is no positional argument, before any call. Otherwise delete, enable, disable and info make their one call on the first argument, with state "online" or "offline" for enable and disable |
| HeketiNode.ExtraArgumentsIgnored | vendor/github.com/heketi/heketi/client/cli/go/cmds/node.go:138-167 | arguments after the node id never change the outcome, and `add` ignores positional arguments altogether |
| HeketiNode.FlagsOnlyReadByAdd | vendor/github.com/heketi/heketi/client/cli/go/cmds/node.go:29-34 | the `node add` flags have no effect on delete, enable, disable or info |
| HeketiNode.EnableDisableOpposite | vendor/github.com/heketi/heketi/client/cli/go/cmds/node.go:173-207 | for the same arguments, enable and disable address the same node but request different states |

## Left out

- The AWS CloudFormation waiter tables (vendor/github.com/aws/aws-sdk-go/service/cloudformation/waiters.go) are generated configuration. They are interpreted by a polling engine, aws-sdk-go/private/waiter, which is not part of this model. Modelling its acceptor semantics would mean inventing them.
- The scheduled-job end-to-end test (vendor/k8s.io/kubernetes/test/e2e/scheduledjob.go) needs a live cluster, and its wait loop is `wait.Poll`, which is not part of this model.
- The init-master and join-node commands (pkg/kubeadm/cmd/manual.go) are left out. They orchestrate code that is not part of this model: token files, static pods, PKI assets, TLS bootstrap and host-IP detection. The empty `user` command (pkg/kubeadm/cmd/user.go) has no logic.
- The Python example (client/examples/python/clusters.py) does JWT signing and HTTP calls. It is left out as cryptography plus network.
- Key generation, certificate signing and PEM encoding are uninterpreted function fields of `KubeadmMaster.Tls`. Generation is random, so it is an oracle indexed by call number.
- `path.Join` and `clientcmd.WriteToFile`'s serialisation are function fields of `KubeadmUtil.FileIo`. The file system is an abstract map from path to bytes. The file mode 0600 is not modelled.
- KubeadmUtil.WriteKubeconfigIfNotExists: models only one refusal of the exclusive create, "file exists". Other `os.OpenFile` failures are not modelled: permission errors and missing directories depend on the operating system.
- The client configuration types have more fields than the ones modelled: preferences, extensions, insecure-skip-verify, and others. Only the fields this code reads or writes are kept, and the others are never touched.
- Nil pointers: `MakeClientConfigWith*` requires a `Ref` into the store, because Go would panic on a nil config. `BootstrapParams.discovery` is always present.
- KubeadmUtil.MakeClientConfigWithCerts and KubeadmUtil.MakeClientConfigWithToken: a Go config not built by `NewConfig` can have nil maps, and then the map writes at util/kubeconfig.go:53-54 and 71-72 panic. A Dafny map cannot be nil, so in the model these always succeed. The only caller here, master/kubeconfig.go:46-52, passes a config built by `CreateBasicClientConfig`; `MakeClientConfigWithToken` has no caller in this code.
- KubeadmUtil.WriteKubeconfigIfNotExists: requires a pointer into the store. In Go a nil kubeconfig first creates and closes the empty file, and only then panics when it is dereferenced for the write. That path is not modelled. cmd/manual.go:89 and :145 pass configs returned by `CreatePKIAssets` and `PerformTLSBootstrap` after checking their errors; whether those can be nil is outside this model.
- KubeadmUtil.WriteKubeconfigIfNotExists: `FileIo.serialize` stands for the whole outcome of `WriteToFile`. Any failure there, whether in serialisation, directory creation or the write itself, is modelled as one error that leaves the empty file behind. A partially written file is not modelled.
- KubeadmMaster.CreateClientCertsAndConfigs: on a key-generation error, the contract says only that one object was allocated and the others are untouched. It does not describe the partially updated base object, which the caller never sees.
- heketi's HTTP client calls, the JSON output and the human-readable output are left out. The model stops at the single call a subcommand would make.
- Cobra's global flag variables become the explicit `NodeAddFlags` record, with `DefaultNodeAddFlags` as the registered defaults. Flag parsing itself belongs to Cobra and is left out. The Go `int` zone is an unbounded `int`, because it is only compared with -1 and copied.

## Findings

| source | as written | input that shows it | evidently intended | confidence | as-written member | corrected member |
|---|---|---|---|---|---|---|
| vendor/k8s.io/kubernetes/pkg/kubeadm/master/kubeconfig.go:33-54 | both map entries are the one base object, because `MakeClientConfigWithCerts` mutates its argument. The `kubelet` config therefore also holds the `admin` user, and its current context is `admin@kubernetes` | any run in which both key generations succeed | each client gets its own config, with only its own user and its own context current | medium; not executed | KubeadmMaster.SharedBaseLeaksAdmin | KubeadmMaster.CreateClientCertsAndConfigsSeparate |
