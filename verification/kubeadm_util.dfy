/** kubeadm's kubeconfig helpers: building a one-cluster base config,
    registering a user with a context for it, and writing a config to a
    file that must not exist yet. */
module KubeadmUtil {
  import opened Results
  import opened ClientCmdApi
  import opened KubeadmApi

  /** The context name `user@cluster` built with `%s@%s`. */
  function ContextName(userName: string, clusterName: string): (n: string)
    ensures |n| == |userName| + 1 + |clusterName|
    ensures n[..|userName|] == userName && n[|userName|] == '@'
    ensures n[|userName| + 1..] == clusterName
  {
    userName + "@" + clusterName
  }

  /** Index of the first '@' in `s`, or `|s|` when there is none. */
  function IndexOfAt(s: string): (i: nat)
    ensures i <= |s|
    ensures forall j :: 0 <= j < i ==> s[j] != '@'
    ensures i < |s| ==> s[i] == '@'
  {
    if |s| == 0 then 0
    else if s[0] == '@' then 0
    else 1 + IndexOfAt(s[1..])
  }

  /** Reference reading of a context name: split at the first '@'. */
  function SplitContextName(name: string): (r: Option<(string, string)>)
    ensures r.None? <==> '@' !in name
    ensures r.Some? ==> '@' !in r.value.0 && ContextName(r.value.0, r.value.1) == name
  {
    var i := IndexOfAt(name);
    if i == |name| then None
    else
      assert name == name[..i] + "@" + name[i + 1..];
      Some((name[..i], name[i + 1..]))
  }

  /** A context name is read back as the user and cluster it was built
      from, as long as the user name has no '@'. */
  lemma ContextNameRoundTrip(userName: string, clusterName: string)
    requires '@' !in userName
    ensures SplitContextName(ContextName(userName, clusterName)) == Some((userName, clusterName))
  {
  }

  /** Distinct '@'-free user names never share a context name on one
      cluster, and so never overwrite each other's context. */
  lemma ContextNameInjective(u1: string, c1: string, u2: string, c2: string)
    requires '@' !in u1 && '@' !in u2
    requires ContextName(u1, c1) == ContextName(u2, c2)
    ensures u1 == u2 && c1 == c2
  {
    ContextNameRoundTrip(u1, c1);
    ContextNameRoundTrip(u2, c2);
  }

  /** Without that condition the `%s@%s` naming is ambiguous: user "a@b"
      on cluster "c" and user "a" on cluster "b@c" get the same context. */
  lemma ContextNameCollision()
    ensures ContextName("a@b", "c") == ContextName("a", "b@c")
  {
  }

  /** Builds a config holding the single cluster `clusterName` and returns
      a pointer to a freshly allocated object. */
  function CreateBasicClientConfig(h: Heap, clusterName: string, serverURL: string, caCert: Bytes): (res: Handle)
    ensures res.config == |h| && |res.heap| == |h| + 1 && res.heap[..|h|] == h
    ensures res.heap[res.config].clusters.Keys == {clusterName}
    ensures res.heap[res.config].clusters[clusterName].server == serverURL
    ensures res.heap[res.config].clusters[clusterName].certificateAuthorityData == caCert
    ensures res.heap[res.config].authInfos == map[] && res.heap[res.config].contexts == map[]
    ensures res.heap[res.config].currentContext == ""
  {
    var cluster := NewCluster().(server := serverURL, certificateAuthorityData := caCert);
    var config := NewConfig();
    Alloc(h, config.(clusters := config.clusters[clusterName := cluster]))
  }

  /** `after` is `before` with user `userName` set to `authInfo`, the context
      `userName@clusterName` pointing at them and made current, and nothing
      else changed. */
  ghost predicate UserAdded(before: Config, after: Config, clusterName: string, userName: string, authInfo: AuthInfo)
  {
    var name := ContextName(userName, clusterName);
    && after.clusters == before.clusters
    && after.authInfos.Keys == before.authInfos.Keys + {userName}
    && after.authInfos[userName] == authInfo
    && (forall u :: u in before.authInfos && u != userName ==> after.authInfos[u] == before.authInfos[u])
    && after.contexts.Keys == before.contexts.Keys + {name}
    && after.contexts[name] == Context(clusterName, userName)
    && (forall n :: n in before.contexts && n != name ==> after.contexts[n] == before.contexts[n])
    && after.currentContext == name
  }

  /** The three writes shared by both `MakeClientConfigWith*` functions. */
  function SetUser(c: Config, clusterName: string, userName: string, authInfo: AuthInfo): (r: Config)
    ensures UserAdded(c, r, clusterName, userName, authInfo)
  {
    var name := ContextName(userName, clusterName);
    var context := NewContext().(cluster := clusterName, authInfo := userName);
    c.(authInfos := c.authInfos[userName := authInfo],
       contexts := c.contexts[name := context],
       currentContext := name)
  }

  /** `UserAdded` pins the new config down completely. */
  lemma UserAddedUnique(before: Config, a1: Config, a2: Config, clusterName: string, userName: string, authInfo: AuthInfo)
    requires UserAdded(before, a1, clusterName, userName, authInfo)
    requires UserAdded(before, a2, clusterName, userName, authInfo)
    ensures a1 == a2
  {
  }

  /** The credentials a certificate user carries: key and certificate only. */
  function CertAuthInfo(clientKey: Bytes, clientCert: Bytes): (a: AuthInfo)
    ensures a.clientKeyData == clientKey && a.clientCertificateData == clientCert && a.token == ""
  {
    NewAuthInfo().(clientKeyData := clientKey, clientCertificateData := clientCert)
  }

  /** The credentials a token user carries: the token only. */
  function TokenAuthInfo(token: string): (a: AuthInfo)
    ensures a.token == token && a.clientKeyData == [] && a.clientCertificateData == []
  {
    NewAuthInfo().(token := token)
  }

  /** Adds a certificate user and its context to the config at `config`,
      mutating that object in place and returning the same pointer. */
  function MakeClientConfigWithCerts(h: Heap, config: Ref, clusterName: string, userName: string,
                                     clientKey: Bytes, clientCert: Bytes): (res: Handle)
    requires config < |h|
    ensures res.config == config
    ensures |res.heap| == |h| && forall r :: 0 <= r < |h| && r != config ==> res.heap[r] == h[r]
    ensures UserAdded(h[config], res.heap[config], clusterName, userName, CertAuthInfo(clientKey, clientCert))
  {
    Handle(h[config := SetUser(h[config], clusterName, userName, CertAuthInfo(clientKey, clientCert))], config)
  }

  /** Adds a token user and its context to the config at `config`,
      mutating that object in place and returning the same pointer. */
  function MakeClientConfigWithToken(h: Heap, config: Ref, clusterName: string, userName: string,
                                     token: string): (res: Handle)
    requires config < |h|
    ensures res.config == config
    ensures |res.heap| == |h| && forall r :: 0 <= r < |h| && r != config ==> res.heap[r] == h[r]
    ensures UserAdded(h[config], res.heap[config], clusterName, userName, TokenAuthInfo(token))
  {
    Handle(h[config := SetUser(h[config], clusterName, userName, TokenAuthInfo(token))], config)
  }

  /** Repeating a certificate registration changes nothing. */
  lemma MakeClientConfigWithCertsIdempotent(h: Heap, config: Ref, clusterName: string, userName: string,
                                            clientKey: Bytes, clientCert: Bytes)
    requires config < |h|
    ensures var once := MakeClientConfigWithCerts(h, config, clusterName, userName, clientKey, clientCert);
            MakeClientConfigWithCerts(once.heap, once.config, clusterName, userName, clientKey, clientCert) == once
  {
    var once := MakeClientConfigWithCerts(h, config, clusterName, userName, clientKey, clientCert);
    var twice := MakeClientConfigWithCerts(once.heap, once.config, clusterName, userName, clientKey, clientCert);
    UserAddedIdempotent(h[config], once.heap[config], twice.heap[config], clusterName, userName, CertAuthInfo(clientKey, clientCert));
    assert twice.heap == once.heap;
  }

  /** Repeating a token registration changes nothing. */
  lemma MakeClientConfigWithTokenIdempotent(h: Heap, config: Ref, clusterName: string, userName: string, token: string)
    requires config < |h|
    ensures var once := MakeClientConfigWithToken(h, config, clusterName, userName, token);
            MakeClientConfigWithToken(once.heap, once.config, clusterName, userName, token) == once
  {
    var once := MakeClientConfigWithToken(h, config, clusterName, userName, token);
    var twice := MakeClientConfigWithToken(once.heap, once.config, clusterName, userName, token);
    UserAddedIdempotent(h[config], once.heap[config], twice.heap[config], clusterName, userName, TokenAuthInfo(token));
    assert twice.heap == once.heap;
  }

  /** Adding the same user twice lands where adding it once did. */
  lemma UserAddedIdempotent(c0: Config, c1: Config, c2: Config, clusterName: string, userName: string, authInfo: AuthInfo)
    requires UserAdded(c0, c1, clusterName, userName, authInfo)
    requires UserAdded(c1, c2, clusterName, userName, authInfo)
    ensures c2 == c1
  {
  }

  /** Registering two distinct users in either order yields the same
      users and contexts; only the current context differs, and it names
      whichever user was registered last. */
  lemma SetUserOrder(c: Config, clusterName: string, u1: string, a1: AuthInfo, u2: string, a2: AuthInfo)
    requires u1 != u2
    ensures var x := SetUser(SetUser(c, clusterName, u1, a1), clusterName, u2, a2);
            var y := SetUser(SetUser(c, clusterName, u2, a2), clusterName, u1, a1);
            && x.clusters == y.clusters && x.authInfos == y.authInfos && x.contexts == y.contexts
            && x.currentContext == ContextName(u2, clusterName)
            && y.currentContext == ContextName(u1, clusterName)
  {
    DistinctUsersDistinctContexts(u1, u2, clusterName);
    var n1 := ContextName(u1, clusterName);
    var n2 := ContextName(u2, clusterName);
    assert c.authInfos[u1 := a1][u2 := a2] == c.authInfos[u2 := a2][u1 := a1];
    assert c.contexts[n1 := Context(clusterName, u1)][n2 := Context(clusterName, u2)]
        == c.contexts[n2 := Context(clusterName, u2)][n1 := Context(clusterName, u1)];
  }

  /** On one cluster, distinct users get distinct context names. */
  lemma DistinctUsersDistinctContexts(u1: string, u2: string, clusterName: string)
    requires u1 != u2
    ensures ContextName(u1, clusterName) != ContextName(u2, clusterName)
  {
  }

  /** Abstract file contents by path. */
  type FileSystem = map<string, Bytes>

  /** The collaborators the file write relies on: `path.Join`, and
      `clientcmd.WriteToFile` as the bytes it writes or the error it reports. */
  datatype FileIo = FileIo(join: (string, string) -> string, serialize: Config -> Result<Bytes>)

  datatype WriteError =
    | FileExists(path: string)            // the exclusive create was refused
    | WriteFailed(path: string, reason: string)

  /** The file system after a write, and the error the write reported, if any. */
  datatype WriteOutcome = WriteOutcome(files: FileSystem, err: Option<WriteError>)

  /** `<prefix>/<name>.conf`, with a missing "prefix" read as "". */
  function KubeconfigPath(io: FileIo, params: BootstrapParams, name: string): (p: string)
    ensures "prefix" in params.envParams ==> p == io.join(params.envParams["prefix"], name + ".conf")
    ensures "prefix" !in params.envParams ==> p == io.join("", name + ".conf")
  {
    io.join(EnvParam(params, "prefix"), name + ".conf")
  }

  /** Creates the kubeconfig file only if it does not exist yet, then
      writes the serialised config into it. The empty file made by the
      exclusive create stays behind when serialisation fails. */
  function WriteKubeconfigIfNotExists(fs: FileSystem, io: FileIo, params: BootstrapParams, name: string,
                                      h: Heap, kubeconfig: Ref): (res: WriteOutcome)
    requires kubeconfig < |h|
    ensures var path := KubeconfigPath(io, params, name);
            && (path in fs ==> res.files == fs && res.err == Some(FileExists(path)))
            && (path !in fs ==>
                  && res.files.Keys == fs.Keys + {path}
                  && (forall p :: p in fs ==> res.files[p] == fs[p])
                  && (io.serialize(h[kubeconfig]).Ok? ==>
                        res.files[path] == io.serialize(h[kubeconfig]).value && res.err == None)
                  && (io.serialize(h[kubeconfig]).Err? ==>
                        res.files[path] == [] && res.err == Some(WriteFailed(path, io.serialize(h[kubeconfig]).error))))
  {
    var filename := KubeconfigPath(io, params, name);
    if filename in fs then WriteOutcome(fs, Some(FileExists(filename)))
    else
      var created := fs[filename := []];
      match io.serialize(h[kubeconfig])
      case Err(e) => WriteOutcome(created, Some(WriteFailed(filename, e)))
      case Ok(data) => WriteOutcome(created[filename := data], None)
  }

  /** Whatever the first write did, a second write of the same name is
      refused and leaves every file as it was. */
  lemma WriteKubeconfigExclusive(fs: FileSystem, io: FileIo, params: BootstrapParams, name: string,
                                 h: Heap, first: Ref, second: Ref)
    requires first < |h| && second < |h|
    ensures var fs1 := WriteKubeconfigIfNotExists(fs, io, params, name, h, first).files;
            WriteKubeconfigIfNotExists(fs1, io, params, name, h, second)
              == WriteOutcome(fs1, Some(FileExists(KubeconfigPath(io, params, name))))
  {
  }
}
