/** The slice of the client configuration types (the kubeconfig API) that
    the kubeadm code reads and writes, plus an explicit store of
    configuration objects so that Go pointer sharing is observable.

    Only the fields the kubeadm code touches are modelled; the
    constructors `NewCluster`, `NewAuthInfo`, `NewContext` and `NewConfig`
    give every modelled field its zero value and every map is empty. */
module ClientCmdApi {

  /** One byte of certificate, key or file data. */
  newtype byte = b: int | 0 <= b < 256

  type Bytes = seq<byte>

  /** A cluster entry: where the API server is and which CA signs it. */
  datatype Cluster = Cluster(server: string, certificateAuthorityData: Bytes)

  /** A user entry: either client certificate credentials or a bearer token. */
  datatype AuthInfo = AuthInfo(clientKeyData: Bytes, clientCertificateData: Bytes, token: string)

  /** A context pairs a cluster name with a user (AuthInfo) name. */
  datatype Context = Context(cluster: string, authInfo: string)

  /** A kubeconfig: three name-keyed maps and the name of the current context. */
  datatype Config = Config(
    clusters: map<string, Cluster>,
    authInfos: map<string, AuthInfo>,
    contexts: map<string, Context>,
    currentContext: string)

  function NewCluster(): Cluster {
    Cluster("", [])
  }

  function NewAuthInfo(): AuthInfo {
    AuthInfo([], [], "")
  }

  function NewContext(): Context {
    Context("", "")
  }

  function NewConfig(): Config {
    Config(map[], map[], map[], "")
  }

  /** The address of a heap-allocated `*Config`. Two pointers are the same
      object exactly when their `Ref`s are equal. */
  type Ref = nat

  /** All `*Config` objects allocated so far; `h[r]` is the object at `r`. */
  type Heap = seq<Config>

  /** The store after an operation, with the `*Config` the operation returned. */
  datatype Handle = Handle(heap: Heap, config: Ref)

  /** Allocates `c` as a fresh object; every existing object is left alone. */
  function Alloc(h: Heap, c: Config): (res: Handle)
    ensures res.config == |h| && |res.heap| == |h| + 1
    ensures res.heap[..|h|] == h && res.heap[res.config] == c
  {
    Handle(h + [c], |h|)
  }
}
