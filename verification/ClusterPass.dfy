/** One pass of ClusterClaimReconciler, step by step, as functions of the world. */
module ClusterPass {
  import opened Basics
  import opened Text
  import opened Claims
  import opened Environment
  import opened Inventory
  import opened ApiServer
  import opened Passes
  import opened RoleRules
  import RookValues

  // ---- Working on the status --------------------------------------------------------------

  function Mark(st: ClusterStatus, ctype: string, status: bool, reason: string): ClusterStatus {
    st.(conditions := SetCondition(st.conditions, ctype, status, reason))
  }

  function Fail(e: Env, w: World, key: Key, ver: nat, c: Claim, reason: string): Flow
    requires c.Cluster?
  {
    SaveAndStop(e, w, key, ver, c.(st := Mark(c.st.(phase := Failed), "Validated", false, reason)), Finished)
  }

  // ---- Step 1: validate -------------------------------------------------------------------

  predicate SomeHasTag(devs: seq<Device>, tag: string) {
    exists i :: 0 <= i < |devs| && tag in devs[i].tags
  }

  function Validated(st: ClusterStatus): ClusterStatus {
    Mark(st.(phase := Provisioning), "Validated", true, "ValidationPassed")
  }

  function Validate(e: Env, w: World, key: Key, ver: nat, c: Claim): Flow
    requires c.Cluster?
  {
    var p := Get(e, w.kube, w.kube.profiles, c.spec.profile);
    if !p.read.Found? then Fail(e, w.(kube := p.k), key, ver, c, "AddonProfileNotFound")
    else
      var s := Get(e, p.k, p.k.sites, c.spec.site);
      if !s.read.Found? then Fail(e, w.(kube := s.k), key, ver, c, "SiteConfigNotFound")
      else CheckMachines(e, w.(kube := s.k), key, ver, c, s.read.value, p.read.value)
  }

  function CheckMachines(e: Env, w: World, key: Key, ver: nat, c: Claim, site: Site, profile: Profile): Flow
    requires c.Cluster?
  {
    var a := ListAvailable(e, w.nb, site.slug, c.spec.machineClass);
    var w1 := w.(nb := a.nb);
    if a.value.None? then Stop(w1, Error)
    else
      var devs := a.value.value;
      if |devs| < c.spec.machineCount then Fail(e, w1, key, ver, c, "InsufficientMachines")
      else if exists t :: t in profile.requiredTags && !SomeHasTag(devs[..c.spec.machineCount], t)
      then Fail(e, w1, key, ver, c, "MachineClassIncompatible")
      else SaveAndStop(e, w1, key, ver, c.(st := Validated(c.st)), Requeue)
  }

  // ---- Step 2: provision ------------------------------------------------------------------

  function AllocateControlPlaneIP(e: Env, w: World, key: Key, ver: nat, c: Claim, site: Site): Flow
    requires c.Cluster?
  {
    if c.st.cpIP != "" then Go(w, ver, c)
    else
      var a := AllocateIP(e, w.nb);
      var w1 := w.(nb := a.nb);
      if a.value.None? then Stop(w1, Error)
      else
        Save(e, w1, key, ver, c.(st := c.st.(
          cpIP := StripPrefix(a.value.value.address),
          cpDNS := key.name + "-api." + TenantSlug(key.ns) + "." + site.zone,
          ipamIDs := c.st.ipamIDs + [a.value.value.id])))
  }

  function AllocateWebhookIP(e: Env, w: World, key: Key, ver: nat, c: Claim, site: Site): Flow
    requires c.Cluster?
  {
    if c.st.whIP != "" then Go(w, ver, c)
    else
      var a := AllocateIP(e, w.nb);
      var w1 := w.(nb := a.nb);
      if a.value.None? then Stop(w1, Error)
      else
        Save(e, w1, key, ver, c.(st := c.st.(
          whIP := StripPrefix(a.value.value.address),
          whDNS := key.name + "-wh." + TenantSlug(key.ns) + "." + site.zone,
          ipamIDs := c.st.ipamIDs + [a.value.value.id])))
  }

  function Min(a: nat, b: nat): nat { if a <= b then a else b }

  function AllocateMachines(e: Env, w: World, key: Key, ver: nat, c: Claim, site: Site): Flow
    requires c.Cluster?
  {
    if c.st.machineIDs != [] then Go(w, ver, c)
    else
      var a := ListAvailable(e, w.nb, site.slug, c.spec.machineClass);
      if a.value.None? then Stop(w.(nb := a.nb), Error)
      else
        var devs := a.value.value;
        var s := Stage(e, a.nb, devs, Min(c.spec.machineCount, |devs|), TenantSlug(key.ns), true);
        var w1 := w.(nb := s.nb);
        if !s.ok then Stop(w1, Error)
        else Save(e, w1, key, ver, c.(st := c.st.(machineIDs := s.ids, osdDevices := s.osd)))
  }

  function RunJob(e: Env, w: World, key: Key, ver: nat, c: Claim, site: Site): Flow
    requires c.Cluster?
  {
    var got := Get(e, w.kube, w.kube.jobs, JobOf(key));
    var w1 := w.(kube := got.k);
    match got.read
    case Broken => Stop(w1, Error)
    case NotFound =>
      var d := CreateJob(e, got.k, JobOf(key));
      Stop(w.(kube := d.k), if d.ok then After(10 * SECOND) else Error)
    case Found(job) =>
      if !job.completed then Stop(w1, After(10 * SECOND))
      else if job.failed then Fail(e, w1, key, ver, c, "MachineCfgFailed")
      else EnsureCluster(e, w1, key, ver, c, site)
  }

  function CAPICluster(key: Key): Obj { Obj("Cluster", key.ns, key.name) }

  /** Go's conversion of an int to an int32. */
  function Int32(n: int): (r: int)
    ensures -0x8000_0000 <= r < 0x8000_0000 && (r - n) % 0x1_0000_0000 == 0
    ensures -0x8000_0000 <= n < 0x8000_0000 ==> r == n
  {
    (n + 0x8000_0000) % 0x1_0000_0000 - 0x8000_0000
  }

  function Deployment(key: Key): Obj { Obj("MachineDeployment", key.ns, key.name + "-md") }

  function Balancer(key: Key): Obj { Obj("Service", key.ns, key.name + "-control-plane-lb") }

  /** An object a pass wants; with `update`, one that CreateOrUpdate sets again when it is there. */
  datatype Want = Want(obj: Obj, body: Body, update: bool)

  /** The objects behind a cluster in creation order. */
  function CAPIObjects(key: Key, c: Claim, site: Site): seq<Want>
    requires c.Cluster?
  {
    [Want(Obj("TenantControlPlane", key.ns, key.name + "-control-plane"), Plain, false),
     Want(Obj("TinkerbellCluster", key.ns, key.name + "-infra"), Plain, false),
     Want(CAPICluster(key), References(key.name + "-infra", key.name + "-control-plane"), true),
     Want(Obj("TinkerbellMachineTemplate", key.ns, key.name + "-mt"), Plain, false),
     Want(Deployment(key), Replicas(Int32(c.spec.machineCount)), true),
     Want(Balancer(key), LoadBalancer(c.st.cpIP, site.pool), true)]
  }

  function EnsureAll(e: Env, k: Kube, objs: seq<Want>, n: nat): Did
    requires n <= |objs|
  {
    if n == 0 then Did(k, true)
    else
      var d := EnsureAll(e, k, objs, n - 1);
      if !d.ok then d else Ensure(e, d.k, objs[n - 1].obj, objs[n - 1].body, objs[n - 1].update)
  }

  function Configured(st: ClusterStatus, name: string, ready: bool): ClusterStatus {
    var st1 := st.(clusterRef := Some(name));
    var st2 := if ready then Mark(st1.(phase := ClusterReady), "CAPIReady", true, "ControlPlaneReady") else st1;
    Mark(st2, "MachineCfgDone", true, "MachineCfgComplete")
  }

  function EnsureCluster(e: Env, w: World, key: Key, ver: nat, c: Claim, site: Site): Flow
    requires c.Cluster?
  {
    if site.oidcIssuer == "" then Stop(w, Error)
    else
      var objs := CAPIObjects(key, c, site);
      var d := EnsureAll(e, w.kube, objs, |objs|);
      if !d.ok then Stop(w.(kube := d.k), Error)
      else
        var got := Get(e, d.k, d.k.objects, CAPICluster(key));
        var w1 := w.(kube := got.k);
        if !got.read.Found? then Stop(w1, Error)
        else
          var ready := got.read.value.ready;
          SaveAndStop(e, w1, key, ver, c.(st := Configured(c.st, key.name, ready)),
                      if ready then Requeue else After(30 * SECOND))
  }

  function Provision(e: Env, w: World, key: Key, ver: nat, c: Claim): Flow
    requires c.Cluster?
  {
    var s := Get(e, w.kube, w.kube.sites, c.spec.site);
    var w1 := w.(kube := s.k);
    if !s.read.Found? then Stop(w1, Error)
    else
      var f1 := AllocateControlPlaneIP(e, w1, key, ver, c, s.read.value);
      if f1.Stop? then f1
      else
        var f2 := AllocateWebhookIP(e, f1.w, key, f1.ver, f1.c, s.read.value);
        if f2.Stop? then f2
        else
          var f3 := AllocateMachines(e, f2.w, key, f2.ver, f2.c, s.read.value);
          if f3.Stop? then f3 else RunJob(e, f3.w, key, f3.ver, f3.c, s.read.value)
  }

  // ---- Step 3: addons ---------------------------------------------------------------------

  const ROOK := "rook-ceph"

  function ReleaseOf(key: Key, component: string): Obj {
    Obj("HelmRelease", key.ns, key.name + "-" + component)
  }

  /** The release of one component; rook-ceph gets the recorded disks appended to its values. */
  function ReleaseBody(e: Env, calls: nat, key: Key, st: ClusterStatus, comp: Component): Body {
    var values :=
      if comp.name == ROOK && st.osdDevices != map[]
      then comp.helm.values + "\n" + RookValues.Text(st.osdDevices, e.keys(calls, st.osdDevices))
      else comp.helm.values;
    Helm(key.name, comp.helm.(values := values), comp.order == 1)
  }

  function Install(e: Env, k: Kube, key: Key, st: ClusterStatus, comps: seq<Component>, n: nat): Did
    requires n <= |comps|
  {
    if n == 0 then Did(k, true)
    else
      var d := Install(e, k, key, st, comps, n - 1);
      if !d.ok then d
      else
        var comp := comps[n - 1];
        Ensure(e, d.k, ReleaseOf(key, comp.name), ReleaseBody(e, d.k.calls, key, st, comp), false)
  }

  datatype Readiness = Readiness(k: Kube, ok: bool, all: bool)

  /** Are the required components among the first n ready? A release that is missing is not ready. */
  function CheckReady(e: Env, k: Kube, key: Key, comps: seq<Component>, n: nat): Readiness
    requires n <= |comps|
  {
    if n == 0 then Readiness(k, true, true)
    else
      var r := CheckReady(e, k, key, comps, n - 1);
      if !r.ok || !comps[n - 1].required then r
      else
        var got := Get(e, r.k, r.k.objects, ReleaseOf(key, comps[n - 1].name));
        Readiness(got.k, !got.read.Broken?, r.all && got.read.Found? && got.read.value.ready)
  }

  function WatchAddons(e: Env, w: World, key: Key, ver: nat, c: Claim): Flow
    requires c.Cluster?
  {
    var p := Get(e, w.kube, w.kube.profiles, c.spec.profile);
    if !p.read.Found? then Stop(w.(kube := p.k), Error)
    else
      var comps := e.sort(p.k.calls, p.read.value.components);
      var d := Install(e, p.k, key, c.st, comps, |comps|);
      if !d.ok then Stop(w.(kube := d.k), Error)
      else
        var r := CheckReady(e, d.k, key, comps, |comps|);
        var w1 := w.(kube := r.k);
        if !r.ok then Stop(w1, Error)
        else if !r.all then Stop(w1, After(30 * SECOND))
        else
          SaveAndStop(e, w1, key, ver,
                      c.(st := Mark(c.st.(phase := AddonsReady), "AddonsReady", true, "AllAddonsReady")), Requeue)
  }

  // ---- Step 4: expose the kubeconfig ------------------------------------------------------

  function SecretOf(key: Key): string { key.name + "-kubeconfig" }

  function ExposeKubeconfig(e: Env, w: World, key: Key, ver: nat, c: Claim): Flow
    requires c.Cluster?
  {
    var got := Get(e, w.kube, w.kube.roles, key.ns);
    var w1 := w.(kube := got.k);
    match got.read
    case Broken => Stop(w1, Error)
    case NotFound => Stop(w1, After(10 * SECOND))
    case Found(rules) =>
      var i := SecretsRule(rules);
      if i == |rules| then Stop(w1, After(10 * SECOND))
      else
        var d := if SecretOf(key) in rules[i].names then Did(got.k, true)
                 else PutRole(e, got.k, key.ns, Grant(rules, SecretOf(key)));
        var w2 := w.(kube := d.k);
        if !d.ok then Stop(w2, Error)
        else
          SaveAndStop(e, w2, key, ver, c.(st := c.st.(phase := Ready, kubeconfig := SecretOf(key))), Finished)
  }

  // ---- Step 5: steady state ---------------------------------------------------------------

  function ScaleUp(e: Env, w: World, key: Key, ver: nat, c: Claim, delta: nat): Flow
    requires c.Cluster?
  {
    var s := Get(e, w.kube, w.kube.sites, c.spec.site);
    var w1 := w.(kube := s.k);
    if !s.read.Found? then Stop(w1, Error) else Grow(e, w1, key, ver, c, s.read.value, delta)
  }

  function Grow(e: Env, w: World, key: Key, ver: nat, c: Claim, site: Site, delta: nat): Flow
    requires c.Cluster?
  {
    var a := ListAvailable(e, w.nb, site.slug, c.spec.machineClass);
    if a.value.None? then Stop(w.(nb := a.nb), Error)
    else if |a.value.value| < delta then
      SaveAndStop(e, w.(nb := a.nb), key, ver,
                  c.(st := Mark(c.st, "ScaleUpBlocked", true, "InsufficientMachines")), After(300 * SECOND))
    else
      var t := Stage(e, a.nb, a.value.value, delta, TenantSlug(key.ns), false);
      if !t.ok then Stop(w.(nb := t.nb), Error)
      else
        SaveAndStop(e, w.(nb := t.nb), key, ver,
                    c.(st := c.st.(machineIDs := c.st.machineIDs + t.ids)), After(300 * SECOND))
  }

  predicate UsesRook(p: Profile) {
    exists i :: 0 <= i < |p.components| && p.components[i].name == ROOK
  }

  function ScaleDown(e: Env, w: World, key: Key, ver: nat, c: Claim, delta: nat): Flow
    requires c.Cluster? && delta <= |c.st.machineIDs|
  {
    var p := Get(e, w.kube, w.kube.profiles, c.spec.profile);
    var w1 := w.(kube := p.k);
    if !p.read.Found? then Stop(w1, Error)
    else if UsesRook(p.read.value) then
      SaveAndStop(e, w1, key, ver,
                  c.(st := Mark(c.st, "ScaleDownBlocked", true, "RookCephPresent")), Finished)
    else Shrink(e, w1, key, ver, c, delta)
  }

  /** Release the last `delta` machines and record the others. */
  function Shrink(e: Env, w: World, key: Key, ver: nat, c: Claim, delta: nat): Flow
    requires c.Cluster? && delta <= |c.st.machineIDs|
  {
    var keep := |c.st.machineIDs| - delta;
    var d := ReleaseUntilError(e, w.nb, c.st.machineIDs[keep..], delta);
    if !d.ok then Stop(w.(nb := d.nb), Error)
    else
      SaveAndStop(e, w.(nb := d.nb), key, ver,
                  c.(st := c.st.(machineIDs := c.st.machineIDs[..keep])), After(300 * SECOND))
  }

  function Scale(e: Env, w: World, key: Key, ver: nat, c: Claim): Flow
    requires c.Cluster?
  {
    var desired, actual := c.spec.machineCount, |c.st.machineIDs|;
    if desired > actual then ScaleUp(e, w, key, ver, c, desired - actual)
    else if desired < actual then ScaleDown(e, w, key, ver, c, actual - desired)
    else Stop(w, After(300 * SECOND))
  }

  function SteadyState(e: Env, w: World, key: Key, ver: nat, c: Claim): Flow
    requires c.Cluster?
  {
    match c.meta.deleteAt
    case Deadline(t) =>
      if e.clock(w.ticks) > t then
        var d := DeleteClaim(e, w.kube, key);
        Stop(w.(kube := d.k, ticks := w.ticks + 1), if d.ok then Finished else Error)
      else Stop(w.(ticks := w.ticks + 2), After(t - e.clock(w.ticks + 1) + SECOND))
    case _ => Scale(e, w, key, ver, c)
  }

  // ---- Finalizer --------------------------------------------------------------------------

  /** Take the claim's secret out of the tenant Role; every error is ignored. */
  function RevokeKubeconfig(e: Env, k: Kube, key: Key, secret: string): Kube {
    if secret == "" then k
    else
      var got := Get(e, k, k.roles, key.ns);
      if !got.read.Found? then got.k else PutRole(e, got.k, key.ns, Revoke(got.read.value, secret)).k
  }

  function Finalize(e: Env, w: World, key: Key, ver: nat, c: Claim): Flow
    requires c.Cluster?
  {
    var nb1 := ReleaseIPs(e, w.nb, c.st.ipamIDs, |c.st.ipamIDs|);
    var nb2 := ReleaseEach(e, nb1, c.st.machineIDs, |c.st.machineIDs|);
    var d := WriteClaim(e, RevokeKubeconfig(e, w.kube, key, c.st.kubeconfig), key, ver, None);
    Stop(w.(nb := nb2, kube := d.k), if d.ok then Finished else Error)
  }

  // ---- The pass ---------------------------------------------------------------------------

  function Step(e: Env, w: World, key: Key, ver: nat, c: Claim): Flow
    requires c.Cluster?
  {
    if c.meta.deleting then Finalize(e, w, key, ver, c)
    else if !c.meta.finalizer then
      SaveAndStop(e, w, key, ver, WithMeta(c, c.meta.(finalizer := true)), Finished)
    else
      match c.st.phase
      case Pending => Validate(e, w, key, ver, c)
      case Provisioning => Provision(e, w, key, ver, c)
      case ClusterReady => WatchAddons(e, w, key, ver, c)
      case AddonsReady => ExposeKubeconfig(e, w, key, ver, c)
      case Ready => SteadyState(e, w, key, ver, c)
      case Failed => Stop(w, Finished)
  }
}
