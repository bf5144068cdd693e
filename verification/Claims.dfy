/** The stored objects: the two kinds of claim with their specs and statuses, and the objects an
    administrator supplies (sites and addon profiles). */
module Claims {
  import opened Basics

  // ---- Conditions -------------------------------------------------------------------------

  datatype Condition = Condition(ctype: string, status: bool, reason: string)

  function IndexOf(cs: seq<Condition>, ctype: string): (i: nat)
    ensures i <= |cs|
    ensures i < |cs| ==> cs[i].ctype == ctype
    ensures forall j :: 0 <= j < i ==> cs[j].ctype != ctype
  {
    if cs == [] || cs[0].ctype == ctype then 0 else 1 + IndexOf(cs[1..], ctype)
  }

  /** What setCondition leaves in the list: the first entry of that type rewritten, or a new last entry. */
  function SetCondition(cs: seq<Condition>, ctype: string, status: bool, reason: string): seq<Condition> {
    var i := IndexOf(cs, ctype);
    if i < |cs| then cs[i := Condition(ctype, status, reason)] else cs + [Condition(ctype, status, reason)]
  }

  function Lookup(cs: seq<Condition>, ctype: string): Option<Condition> {
    var i := IndexOf(cs, ctype);
    if i < |cs| then Some(cs[i]) else None
  }

  predicate IsTrue(cs: seq<Condition>, ctype: string) {
    var c := Lookup(cs, ctype);
    c.Some? && c.value.status
  }

  // ---- Claims -----------------------------------------------------------------------------

  /** The delete-at annotation: missing, not a timestamp, or a time in nanoseconds. */
  datatype DeleteAt = NoDeadline | Unparsable | Deadline(time: int)

  datatype Meta = Meta(finalizer: bool, deleting: bool, deleteAt: DeleteAt)

  datatype Phase = Pending | Provisioning | ClusterReady | AddonsReady | Ready | Failed

  datatype ClusterSpec = ClusterSpec(machineClass: string, machineCount: nat, site: string, profile: string)

  datatype ClusterStatus = ClusterStatus(
    phase: Phase,
    conditions: seq<Condition>,
    cpIP: string, cpDNS: string,
    whIP: string, whDNS: string,
    ipamIDs: seq<int>,
    machineIDs: seq<int>,
    osdDevices: map<string, seq<string>>,
    kubeconfig: string,
    clusterRef: Option<string>)

  datatype ServerSpec = ServerSpec(machineClass: string, site: string)

  datatype ServerStatus = ServerStatus(
    phase: Phase,
    conditions: seq<Condition>,
    ip: string, dns: string,
    ipamID: int,
    machineID: int)

  datatype Claim =
    | Cluster(meta: Meta, spec: ClusterSpec, st: ClusterStatus)
    | Server(meta: Meta, sspec: ServerSpec, sst: ServerStatus)

  function WithMeta(c: Claim, m: Meta): Claim {
    match c
    case Cluster(_, spec, st) => Cluster(m, spec, st)
    case Server(_, sspec, sst) => Server(m, sspec, sst)
  }

  const EMPTY_CLUSTER_STATUS :=
    ClusterStatus(Pending, [], "", "", "", "", [], [], map[], "", None)

  const EMPTY_SERVER_STATUS := ServerStatus(Pending, [], "", "", 0, 0)

  const NEW_META := Meta(false, false, NoDeadline)

  /** The machine and the address IDs a claim records. */
  datatype Resource = Machine | Address

  function Recorded(which: Resource, c: Claim): seq<int> {
    match (which, c)
    case (Machine, Cluster(_, _, st)) => st.machineIDs
    case (Address, Cluster(_, _, st)) => st.ipamIDs
    case (Machine, Server(_, _, sst)) => if sst.machineID == 0 then [] else [sst.machineID]
    case (Address, Server(_, _, sst)) => if sst.ipamID == 0 then [] else [sst.ipamID]
  }

  // ---- Administrator objects --------------------------------------------------------------

  datatype Site = Site(slug: string, zone: string, oidcIssuer: string, pool: string)

  datatype HelmRef = HelmRef(repo: string, chart: string, version: string, values: string)

  datatype Component = Component(name: string, required: bool, order: int, helm: HelmRef)

  datatype Profile = Profile(components: seq<Component>, requiredTags: seq<string>)
}
