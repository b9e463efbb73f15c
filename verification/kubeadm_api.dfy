/** The bootstrap parameters kubeadm threads through its commands. */
module KubeadmApi {

  /** Out-of-band discovery settings; only `listenIP` is read by the
      kubeconfig code, the rest are kept for fidelity. */
  datatype OutOfBandDiscovery = OutOfBandDiscovery(
    apiServerURLs: string,
    caCertFile: string,
    bearerToken: string,
    apiServerDNSName: string,
    listenIP: string)

  datatype BootstrapParams = BootstrapParams(
    discovery: OutOfBandDiscovery,
    envParams: map<string, string>)

  /** Go's `m[k]` on a missing key yields the zero value, here "". */
  function EnvParam(p: BootstrapParams, key: string): (v: string)
    ensures key in p.envParams ==> v == p.envParams[key]
    ensures key !in p.envParams ==> v == ""
  {
    if key in p.envParams then p.envParams[key] else ""
  }
}
