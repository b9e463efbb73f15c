/** kubeadm master: the `kubelet` and `admin` kubeconfigs built on one
    shared base config. */
module KubeadmMaster {
  import opened Results
  import opened ClientCmdApi
  import opened KubeadmApi
  import opened KubeadmUtil

  /** An RSA private key and an X.509 certificate, as opaque material. */
  datatype PrivateKey = PrivateKey(material: Bytes)
  datatype Certificate = Certificate(der: Bytes)
  datatype KeyAndCert = KeyAndCert(key: PrivateKey, cert: Certificate)

  /** Key generation and PEM encoding, left uninterpreted. Generation is
      random, so its outcome is given per call: `newClientKeyAndCert(ca,
      caKey, i)` is what the `i`-th call (counting from 0) returns. */
  datatype Tls = Tls(
    newClientKeyAndCert: (Certificate, PrivateKey, nat) -> Result<KeyAndCert>,
    encodePrivateKeyPEM: PrivateKey -> Bytes,
    encodeCertificatePEM: Certificate -> Bytes)

  const ClusterName: string := "kubernetes"

  /** The clients whose configs are built, in the order they are built. */
  const Clients: seq<string> := ["kubelet", "admin"]

  /** The base config's API server address. */
  function ServerURL(params: BootstrapParams): (u: string)
    ensures |u| == |params.discovery.listenIP| + 12
    ensures u[..8] == "https://" && u[|u| - 4..] == ":443"
    ensures u[8..|u| - 4] == params.discovery.listenIP
  {
    "https://" + params.discovery.listenIP + ":443"
  }

  /** `c` holds the certificate user `user` with its `user@kubernetes`
      context, carrying the PEM encodings of `kc`. */
  ghost predicate HasClient(c: Config, tls: Tls, user: string, kc: KeyAndCert)
  {
    var name := ContextName(user, ClusterName);
    && user in c.authInfos
    && c.authInfos[user] == CertAuthInfo(tls.encodePrivateKeyPEM(kc.key), tls.encodeCertificatePEM(kc.cert))
    && name in c.contexts
    && c.contexts[name] == Context(ClusterName, user)
  }

  /** The client names registered after the first `i` loop rounds. */
  function ClientsUpTo(i: nat): set<string>
    requires i <= |Clients|
  {
    set j | 0 <= j < i :: Clients[j]
  }

  /** The context names registered after the first `i` loop rounds. */
  function ContextsUpTo(i: nat): set<string>
    requires i <= |Clients|
  {
    set j | 0 <= j < i :: ContextName(Clients[j], ClusterName)
  }

  /** Each loop round adds its own client and context to the names so far. */
  lemma UpToStep(i: nat)
    requires i < |Clients|
    ensures ClientsUpTo(i + 1) == ClientsUpTo(i) + {Clients[i]}
    ensures ContextsUpTo(i + 1) == ContextsUpTo(i) + {ContextName(Clients[i], ClusterName)}
  {
  }

  /** Both rounds register exactly `kubelet` and `admin` with their contexts. */
  lemma UpToBoth()
    ensures ClientsUpTo(2) == {"kubelet", "admin"}
    ensures ContextsUpTo(2) == {"kubelet@kubernetes", "admin@kubernetes"}
  {
    assert Clients[0] == "kubelet" && Clients[1] == "admin";
    assert ContextName("kubelet", ClusterName) == "kubelet@kubernetes";
    assert ContextName("admin", ClusterName) == "admin@kubernetes";
    forall n | n in ClientsUpTo(2) ensures n in {"kubelet", "admin"} {
      var j :| 0 <= j < 2 && Clients[j] == n;
    }
    forall n | n in ContextsUpTo(2) ensures n in {"kubelet@kubernetes", "admin@kubernetes"} {
      var j :| 0 <= j < 2 && ContextName(Clients[j], ClusterName) == n;
    }
  }

  /** The shared base config after the first `i` loop rounds succeeded. */
  ghost predicate Built(c: Config, params: BootstrapParams, caCert: Certificate, caKey: PrivateKey, tls: Tls, i: nat)
    requires i <= |Clients|
  {
    && c.clusters.Keys == {ClusterName}
    && c.clusters[ClusterName] == Cluster(ServerURL(params), tls.encodeCertificatePEM(caCert))
    && c.authInfos.Keys == ClientsUpTo(i)
    && c.contexts.Keys == ContextsUpTo(i)
    && (forall j :: 0 <= j < i ==>
          && tls.newClientKeyAndCert(caCert, caKey, j).Ok?
          && HasClient(c, tls, Clients[j], tls.newClientKeyAndCert(caCert, caKey, j).value))
    && (i > 0 ==> c.currentContext == ContextName(Clients[i - 1], ClusterName))
  }

  /** One successful loop round extends what has been built by one client. */
  lemma BuildStep(c: Config, c': Config, params: BootstrapParams, caCert: Certificate, caKey: PrivateKey, tls: Tls, i: nat)
    requires i < |Clients|
    requires Built(c, params, caCert, caKey, tls, i)
    requires tls.newClientKeyAndCert(caCert, caKey, i).Ok?
    requires var kc := tls.newClientKeyAndCert(caCert, caKey, i).value;
             UserAdded(c, c', ClusterName, Clients[i],
                       CertAuthInfo(tls.encodePrivateKeyPEM(kc.key), tls.encodeCertificatePEM(kc.cert)))
    ensures Built(c', params, caCert, caKey, tls, i + 1)
  {
  }

  /** After both rounds the base config holds exactly the two clients. */
  lemma BuiltBoth(c: Config, params: BootstrapParams, caCert: Certificate, caKey: PrivateKey, tls: Tls)
    requires Built(c, params, caCert, caKey, tls, 2)
    ensures c.authInfos.Keys == {"kubelet", "admin"}
    ensures c.contexts.Keys == {"kubelet@kubernetes", "admin@kubernetes"}
    ensures HasClient(c, tls, "kubelet", tls.newClientKeyAndCert(caCert, caKey, 0).value)
    ensures HasClient(c, tls, "admin", tls.newClientKeyAndCert(caCert, caKey, 1).value)
    ensures c.currentContext == "admin@kubernetes"
  {
    UpToBoth();
  }

  /** The store and map after the first `i` rounds on the shared base: the
      only new object is the base at `|h|`, and every map entry so far
      points at it. */
  ghost predicate SharedBuilt(h': Heap, h: Heap, configs: map<string, Ref>, i: nat)
    requires i <= |Clients|
  {
    && |h'| == |h| + 1 && h'[..|h|] == h
    && configs.Keys == ClientsUpTo(i)
    && (forall k :: k in configs ==> configs[k] == |h|)
  }

  /** Before any round the fresh base config satisfies the loop invariant. */
  lemma SharedStart(h': Heap, h: Heap, params: BootstrapParams, caCert: Certificate, caKey: PrivateKey, tls: Tls)
    requires |h'| == |h| + 1 && h'[..|h|] == h
    requires h'[|h|].clusters.Keys == {ClusterName}
    requires h'[|h|].clusters[ClusterName] == Cluster(ServerURL(params), tls.encodeCertificatePEM(caCert))
    requires h'[|h|].authInfos == map[] && h'[|h|].contexts == map[]
    ensures SharedBuilt(h', h, map[], 0)
    ensures Built(h'[|h|], params, caCert, caKey, tls, 0)
  {
  }

  /** One successful round on the shared base: the base object is updated
      in place, every other object is untouched, and the base pointer is
      recorded under the new client. */
  lemma SharedStep(h1: Heap, h2: Heap, h: Heap, configs: map<string, Ref>, i: nat)
    requires i < |Clients|
    requires SharedBuilt(h1, h, configs, i)
    requires |h2| == |h1| && forall r :: 0 <= r < |h1| && r != |h| ==> h2[r] == h1[r]
    ensures SharedBuilt(h2, h, configs[Clients[i] := |h|], i + 1)
  {
  }

  /** After both rounds on the shared base: the map has exactly the two
      clients, both pointing at the base, which holds both of them. */
  lemma SharedBoth(h': Heap, h: Heap, configs: map<string, Ref>, params: BootstrapParams,
                   caCert: Certificate, caKey: PrivateKey, tls: Tls)
    requires SharedBuilt(h', h, configs, 2)
    requires Built(h'[|h|], params, caCert, caKey, tls, 2)
    ensures configs.Keys == {"kubelet", "admin"}
    ensures configs["kubelet"] == configs["admin"] == |h|
    ensures var c := h'[|h|];
            && c.clusters.Keys == {ClusterName}
            && c.clusters[ClusterName] == Cluster(ServerURL(params), tls.encodeCertificatePEM(caCert))
            && c.authInfos.Keys == {"kubelet", "admin"}
            && c.contexts.Keys == {"kubelet@kubernetes", "admin@kubernetes"}
            && HasClient(c, tls, "kubelet", tls.newClientKeyAndCert(caCert, caKey, 0).value)
            && HasClient(c, tls, "admin", tls.newClientKeyAndCert(caCert, caKey, 1).value)
            && c.currentContext == "admin@kubernetes"
  {
    UpToBoth();
    BuiltBoth(h'[|h|], params, caCert, caKey, tls);
  }

  /** Builds a client certificate and config for `kubelet` and then
      `admin`. The `clientNames` argument is not consulted. Both configs
      are the one base object, updated in place, so each holds both users
      and both contexts, and its current context is the last one written.
      The first failed key generation aborts with its error and no map. */
  method CreateClientCertsAndConfigs(h: Heap, params: BootstrapParams, clientNames: seq<string>,
                                     caCert: Certificate, caKey: PrivateKey, tls: Tls)
    returns (h': Heap, r: Result<map<string, Ref>>)
    ensures |h'| == |h| + 1 && h'[..|h|] == h
    ensures r.Ok? <==> tls.newClientKeyAndCert(caCert, caKey, 0).Ok? && tls.newClientKeyAndCert(caCert, caKey, 1).Ok?
    ensures tls.newClientKeyAndCert(caCert, caKey, 0).Err? ==>
              r == Err(tls.newClientKeyAndCert(caCert, caKey, 0).error)
    ensures tls.newClientKeyAndCert(caCert, caKey, 0).Ok? && tls.newClientKeyAndCert(caCert, caKey, 1).Err? ==>
              r == Err(tls.newClientKeyAndCert(caCert, caKey, 1).error)
    ensures r.Ok? ==> r.value.Keys == {"kubelet", "admin"}
    ensures r.Ok? ==> r.value["kubelet"] == r.value["admin"] == |h|
    ensures r.Ok? ==>
              var c := h'[|h|];
              && c.clusters.Keys == {ClusterName}
              && c.clusters[ClusterName] == Cluster(ServerURL(params), tls.encodeCertificatePEM(caCert))
              && c.authInfos.Keys == {"kubelet", "admin"}
              && c.contexts.Keys == {"kubelet@kubernetes", "admin@kubernetes"}
              && HasClient(c, tls, "kubelet", tls.newClientKeyAndCert(caCert, caKey, 0).value)
              && HasClient(c, tls, "admin", tls.newClientKeyAndCert(caCert, caKey, 1).value)
              && c.currentContext == "admin@kubernetes"
  {
    var basic := CreateBasicClientConfig(h, ClusterName, ServerURL(params), tls.encodeCertificatePEM(caCert));
    var basicClientConfig := basic.config;
    h' := basic.heap;
    SharedStart(h', h, params, caCert, caKey, tls);
    var configs: map<string, Ref> := map[];
    var i := 0;
    while i < |Clients|
      invariant 0 <= i <= |Clients|
      invariant basicClientConfig == |h|
      invariant SharedBuilt(h', h, configs, i)
      invariant Built(h'[|h|], params, caCert, caKey, tls, i)
    {
      var kc := tls.newClientKeyAndCert(caCert, caKey, i);
      if kc.Err? {
        return h', Err(kc.error);
      }
      var made := MakeClientConfigWithCerts(h', basicClientConfig, ClusterName, Clients[i],
                                            tls.encodePrivateKeyPEM(kc.value.key), tls.encodeCertificatePEM(kc.value.cert));
      BuildStep(h'[|h|], made.heap[|h|], params, caCert, caKey, tls, i);
      SharedStep(h', made.heap, h, configs, i);
      h' := made.heap;
      configs := configs[Clients[i] := made.config];
      i := i + 1;
    }
    SharedBoth(h', h, configs, params, caCert, caKey, tls);
    r := Ok(configs);
  }

  /** As written, registering `admin` on the shared base also rewrites the
      config already handed out for `kubelet`: it is the same object, so
      the kubelet's config now holds the admin credentials and selects the
      admin context. */
  lemma SharedBaseLeaksAdmin(h: Heap, base: Ref, kubeletKey: Bytes, kubeletCert: Bytes,
                             adminKey: Bytes, adminCert: Bytes)
    requires base < |h|
    ensures var kubelet := MakeClientConfigWithCerts(h, base, ClusterName, "kubelet", kubeletKey, kubeletCert);
            var admin := MakeClientConfigWithCerts(kubelet.heap, base, ClusterName, "admin", adminKey, adminCert);
            && kubelet.config == admin.config
            && admin.heap[kubelet.config].currentContext == "admin@kubernetes"
            && admin.heap[kubelet.config].authInfos["admin"] == CertAuthInfo(adminKey, adminCert)
  {
  }

  /** The config one client gets when it is built on a base of its own:
      the `kubernetes` cluster, that client's user and context, and that
      context selected. */
  ghost predicate SoleClient(c: Config, params: BootstrapParams, caCert: Certificate, tls: Tls, user: string, kc: KeyAndCert)
  {
    && c.clusters.Keys == {ClusterName}
    && c.clusters[ClusterName] == Cluster(ServerURL(params), tls.encodeCertificatePEM(caCert))
    && c.authInfos.Keys == {user}
    && c.contexts.Keys == {ContextName(user, ClusterName)}
    && HasClient(c, tls, user, kc)
    && c.currentContext == ContextName(user, ClusterName)
  }

  /** A client registered on a fresh base config is that config's only client. */
  lemma FreshClient(base: Config, c: Config, params: BootstrapParams, caCert: Certificate, tls: Tls, user: string, kc: KeyAndCert)
    requires base.clusters.Keys == {ClusterName}
    requires base.clusters[ClusterName] == Cluster(ServerURL(params), tls.encodeCertificatePEM(caCert))
    requires base.authInfos == map[] && base.contexts == map[]
    requires UserAdded(base, c, ClusterName, user,
                       CertAuthInfo(tls.encodePrivateKeyPEM(kc.key), tls.encodeCertificatePEM(kc.cert)))
    ensures SoleClient(c, params, caCert, tls, user, kc)
  {
  }

  /** The first `i` rounds of the corrected construction succeeded: round
      `j` allocated the object `|h| + j`, which holds client `j` alone. */
  ghost predicate SeparateBuilt(h': Heap, h: Heap, configs: map<string, Ref>, params: BootstrapParams,
                                caCert: Certificate, caKey: PrivateKey, tls: Tls, i: nat)
    requires i <= |Clients|
  {
    && |h'| == |h| + i && h'[..|h|] == h
    && configs.Keys == ClientsUpTo(i)
    && forall j :: 0 <= j < i ==>
         && configs[Clients[j]] == |h| + j
         && tls.newClientKeyAndCert(caCert, caKey, j).Ok?
         && SoleClient(h'[|h| + j], params, caCert, tls, Clients[j], tls.newClientKeyAndCert(caCert, caKey, j).value)
  }

  /** One successful round of the corrected construction extends it by one client. */
  lemma SeparateStep(h1: Heap, h2: Heap, h: Heap, configs: map<string, Ref>, params: BootstrapParams,
                     caCert: Certificate, caKey: PrivateKey, tls: Tls, i: nat)
    requires i < |Clients|
    requires SeparateBuilt(h1, h, configs, params, caCert, caKey, tls, i)
    requires tls.newClientKeyAndCert(caCert, caKey, i).Ok?
    requires |h2| == |h1| + 1 && h2[..|h1|] == h1
    requires SoleClient(h2[|h1|], params, caCert, tls, Clients[i], tls.newClientKeyAndCert(caCert, caKey, i).value)
    ensures SeparateBuilt(h2, h, configs[Clients[i] := |h1|], params, caCert, caKey, tls, i + 1)
  {
    UpToStep(i);
  }

  /** After both corrected rounds there are two distinct single-client configs. */
  lemma SeparateBoth(h': Heap, h: Heap, configs: map<string, Ref>, params: BootstrapParams,
                     caCert: Certificate, caKey: PrivateKey, tls: Tls)
    requires SeparateBuilt(h', h, configs, params, caCert, caKey, tls, 2)
    ensures configs.Keys == {"kubelet", "admin"}
    ensures configs["kubelet"] != configs["admin"]
    ensures configs["kubelet"] < |h'| && configs["admin"] < |h'|
    ensures SoleClient(h'[configs["kubelet"]], params, caCert, tls, "kubelet", tls.newClientKeyAndCert(caCert, caKey, 0).value)
    ensures SoleClient(h'[configs["admin"]], params, caCert, tls, "admin", tls.newClientKeyAndCert(caCert, caKey, 1).value)
  {
    UpToBoth();
  }

  /** Corrected construction: each client's config is made on a fresh
      base config, so the `kubelet` and `admin` configs are distinct
      objects and each carries only its own credentials and context. */
  method CreateClientCertsAndConfigsSeparate(h: Heap, params: BootstrapParams, clientNames: seq<string>,
                                             caCert: Certificate, caKey: PrivateKey, tls: Tls)
    returns (h': Heap, r: Result<map<string, Ref>>)
    ensures |h'| >= |h| && h'[..|h|] == h
    ensures r.Ok? <==> tls.newClientKeyAndCert(caCert, caKey, 0).Ok? && tls.newClientKeyAndCert(caCert, caKey, 1).Ok?
    ensures tls.newClientKeyAndCert(caCert, caKey, 0).Err? ==>
              r == Err(tls.newClientKeyAndCert(caCert, caKey, 0).error)
    ensures tls.newClientKeyAndCert(caCert, caKey, 0).Ok? && tls.newClientKeyAndCert(caCert, caKey, 1).Err? ==>
              r == Err(tls.newClientKeyAndCert(caCert, caKey, 1).error)
    ensures r.Ok? ==> r.value.Keys == {"kubelet", "admin"}
    ensures r.Ok? ==> r.value["kubelet"] != r.value["admin"]
    ensures r.Ok? ==> r.value["kubelet"] < |h'| && r.value["admin"] < |h'|
    ensures r.Ok? ==> SoleClient(h'[r.value["kubelet"]], params, caCert, tls, "kubelet",
                                 tls.newClientKeyAndCert(caCert, caKey, 0).value)
    ensures r.Ok? ==> SoleClient(h'[r.value["admin"]], params, caCert, tls, "admin",
                                 tls.newClientKeyAndCert(caCert, caKey, 1).value)
  {
    h' := h;
    var configs: map<string, Ref> := map[];
    var i := 0;
    while i < |Clients|
      invariant 0 <= i <= |Clients|
      invariant SeparateBuilt(h', h, configs, params, caCert, caKey, tls, i)
    {
      var kc := tls.newClientKeyAndCert(caCert, caKey, i);
      if kc.Err? {
        return h', Err(kc.error);
      }
      var basic := CreateBasicClientConfig(h', ClusterName, ServerURL(params), tls.encodeCertificatePEM(caCert));
      var made := MakeClientConfigWithCerts(basic.heap, basic.config, ClusterName, Clients[i],
                                            tls.encodePrivateKeyPEM(kc.value.key), tls.encodeCertificatePEM(kc.value.cert));
      FreshClient(basic.heap[basic.config], made.heap[basic.config], params, caCert, tls, Clients[i], kc.value);
      assert made.heap[..|h'|] == h' by {
        assert forall j :: 0 <= j < |h'| ==> made.heap[j] == basic.heap[j] == h'[j];
      }
      SeparateStep(h', made.heap, h, configs, params, caCert, caKey, tls, i);
      h' := made.heap;
      configs := configs[Clients[i] := made.config];
      i := i + 1;
    }
    SeparateBoth(h', h, configs, params, caCert, caKey, tls);
    r := Ok(configs);
  }
}
