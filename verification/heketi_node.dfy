/** heketi-cli `node` subcommands: the argument checks each command runs
    before contacting the server, and the request it then sends. */
module HeketiNode {
  import opened Results

  /** The flags of `node add`. */
  datatype NodeAddFlags = NodeAddFlags(
    zone: int,
    managementHostName: string,
    storageHostName: string,
    clusterId: string)

  /** Flag values when none is given on the command line. */
  const DefaultNodeAddFlags := NodeAddFlags(-1, "", "", "")

  datatype HostAddresses = HostAddresses(manage: seq<string>, storage: seq<string>)

  datatype NodeAddRequest = NodeAddRequest(zone: int, hostnames: HostAddresses, clusterId: string)

  datatype StateRequest = StateRequest(state: string)

  /** The single server call a subcommand makes once its arguments pass. */
  datatype ClientCall =
    | NodeAdd(request: NodeAddRequest)
    | NodeDelete(id: string)
    | NodeState(id: string, stateRequest: StateRequest)
    | NodeInfo(id: string)

  datatype NodeSubcommand = Add | Delete | Enable | Disable | Info

  const MissingZone := "Missing zone"
  const MissingManagementHostname := "Missing management hostname"
  const MissingStorageHostname := "Missing storage hostname"
  const MissingClusterId := "Missing cluster id"
  const NodeIdMissing := "Node id missing"

  const Online := "online"
  const Offline := "offline"

  /** Checks the `node add` flags in order (zone, management hostname,
      storage hostname, cluster id), reports the first one missing, and
      otherwise builds the add request. A zone is missing only when it is
      -1; every other integer is accepted. */
  function CheckNodeAdd(f: NodeAddFlags): (r: Result<NodeAddRequest>)
    ensures r == Err(MissingZone) <==> f.zone == -1
    ensures r == Err(MissingManagementHostname) <==> f.zone != -1 && f.managementHostName == ""
    ensures r == Err(MissingStorageHostname) <==>
              f.zone != -1 && f.managementHostName != "" && f.storageHostName == ""
    ensures r == Err(MissingClusterId) <==>
              f.zone != -1 && f.managementHostName != "" && f.storageHostName != "" && f.clusterId == ""
    ensures r.Ok? <==>
              f.zone != -1 && f.managementHostName != "" && f.storageHostName != "" && f.clusterId != ""
    ensures r.Ok? ==>
              && r.value.clusterId == f.clusterId
              && r.value.hostnames.manage == [f.managementHostName]
              && r.value.hostnames.storage == [f.storageHostName]
              && r.value.zone == f.zone
  {
    if f.zone == -1 then Err(MissingZone)
    else if f.managementHostName == "" then Err(MissingManagementHostname)
    else if f.storageHostName == "" then Err(MissingStorageHostname)
    else if f.clusterId == "" then Err(MissingClusterId)
    else
      Ok(NodeAddRequest(f.zone, HostAddresses([f.managementHostName], [f.storageHostName]), f.clusterId))
  }

  /** With no flags given, `node add` stops at the zone check. */
  lemma DefaultFlagsMissZone()
    ensures CheckNodeAdd(DefaultNodeAddFlags) == Err(MissingZone)
  {
  }

  /** The request `node add` can build: one management and one storage
      hostname, both non-empty, a zone other than -1 and a cluster id. */
  predicate WellFormedAddRequest(req: NodeAddRequest)
  {
    && req.zone != -1
    && |req.hostnames.manage| == 1 && req.hostnames.manage[0] != ""
    && |req.hostnames.storage| == 1 && req.hostnames.storage[0] != ""
    && req.clusterId != ""
  }

  /** The flags a request was built from. */
  function FlagsOf(req: NodeAddRequest): (f: NodeAddFlags)
    requires |req.hostnames.manage| == 1 && |req.hostnames.storage| == 1
    ensures f.zone == req.zone && f.clusterId == req.clusterId
    ensures f.managementHostName == req.hostnames.manage[0] && f.storageHostName == req.hostnames.storage[0]
  {
    NodeAddFlags(req.zone, req.hostnames.manage[0], req.hostnames.storage[0], req.clusterId)
  }

  /** Every accepted flag set yields a well-formed request that records
      the flags exactly. */
  lemma CheckNodeAddSound(f: NodeAddFlags)
    requires CheckNodeAdd(f).Ok?
    ensures WellFormedAddRequest(CheckNodeAdd(f).value)
    ensures FlagsOf(CheckNodeAdd(f).value) == f
  {
  }

  /** Every well-formed request is produced from its own flags. */
  lemma CheckNodeAddComplete(req: NodeAddRequest)
    requires WellFormedAddRequest(req)
    ensures CheckNodeAdd(FlagsOf(req)) == Ok(req)
  {
    assert req.hostnames.manage == [req.hostnames.manage[0]];
    assert req.hostnames.storage == [req.hostnames.storage[0]];
  }

  /** The node id argument shared by delete, enable, disable and info: the
      first positional argument; any further ones are ignored. */
  function NodeIdArg(args: seq<string>): (r: Result<string>)
    ensures r.Err? <==> |args| == 0
    ensures r.Err? ==> r.error == NodeIdMissing
    ensures r.Ok? ==> r.value == args[0]
  {
    if |args| < 1 then Err(NodeIdMissing) else Ok(args[0])
  }

  /** The state each of enable and disable asks for. */
  function TargetState(cmd: NodeSubcommand): (s: string)
    requires cmd == Enable || cmd == Disable
    ensures cmd == Enable ==> s == Online
    ensures cmd == Disable ==> s == Offline
  {
    if cmd == Enable then Online else Offline
  }

  /** What a `node` subcommand does with its flags and positional
      arguments: the error it returns before any server call, or the one
      call it makes. `add` reads only the flags; the others read only the
      positional arguments. */
  function RunNode(cmd: NodeSubcommand, flags: NodeAddFlags, args: seq<string>): (r: Result<ClientCall>)
    ensures cmd == Add ==>
              && (r.Err? <==> CheckNodeAdd(flags).Err?)
              && (r.Err? ==> r.error == CheckNodeAdd(flags).error)
              && (r.Ok? ==> r.value == NodeAdd(CheckNodeAdd(flags).value))
    ensures cmd != Add ==> (r.Err? <==> |args| == 0)
    ensures cmd != Add && r.Err? ==> r.error == NodeIdMissing
    ensures cmd == Delete && r.Ok? ==> r.value == NodeDelete(args[0])
    ensures cmd == Enable && r.Ok? ==> r.value == NodeState(args[0], StateRequest("online"))
    ensures cmd == Disable && r.Ok? ==> r.value == NodeState(args[0], StateRequest("offline"))
    ensures cmd == Info && r.Ok? ==> r.value == NodeInfo(args[0])
  {
    if cmd == Add then
      match CheckNodeAdd(flags)
      case Err(e) => Err(e)
      case Ok(req) => Ok(NodeAdd(req))
    else
      match NodeIdArg(args)
      case Err(e) => Err(e)
      case Ok(nodeId) =>
        match cmd
        case Delete => Ok(NodeDelete(nodeId))
        case Enable => Ok(NodeState(nodeId, StateRequest(TargetState(cmd))))
        case Disable => Ok(NodeState(nodeId, StateRequest(TargetState(cmd))))
        case Info => Ok(NodeInfo(nodeId))
  }

  /** Positional arguments after the node id never change the outcome, and
      `add` ignores positional arguments altogether. */
  lemma ExtraArgumentsIgnored(cmd: NodeSubcommand, flags: NodeAddFlags, id: string, rest: seq<string>)
    ensures RunNode(cmd, flags, [id] + rest) == RunNode(cmd, flags, [id])
    ensures cmd == Add ==> RunNode(cmd, flags, rest) == RunNode(cmd, flags, [])
  {
  }

  /** Only `add` reads the flags. */
  lemma FlagsOnlyReadByAdd(cmd: NodeSubcommand, f1: NodeAddFlags, f2: NodeAddFlags, args: seq<string>)
    requires cmd != Add
    ensures RunNode(cmd, f1, args) == RunNode(cmd, f2, args)
  {
  }

  /** enable and disable address the same node but ask for opposite states. */
  lemma EnableDisableOpposite(flags: NodeAddFlags, args: seq<string>)
    requires |args| > 0
    ensures RunNode(Enable, flags, args).value.id == RunNode(Disable, flags, args).value.id == args[0]
    ensures RunNode(Enable, flags, args).value.stateRequest != RunNode(Disable, flags, args).value.stateRequest
  {
  }
}
