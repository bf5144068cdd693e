/** ClusterClaimReconciler as it runs: a working copy edited in place, loops over devices, disks, components and rules,
    calls for effect. Every method is proved to do exactly what the function of the same step in ClusterPass says. */
module ClusterController {
  import opened Basics
  import opened Text
  import opened Claims
  import opened Environment
  import opened Inventory
  import opened ApiServer
  import opened Passes
  import opened RoleRules
  import RookValues
  import ClusterPass
  import Runs

  /** The reconciler's copy of a claim; a write to the API server moves its version on. */
  class WorkingCopy {
    var meta: Meta
    const spec: ClusterSpec
    var status: ClusterStatus
    var version: nat

    function Value(): Claim
      reads this
    {
      Cluster(meta, spec, status)
    }

    constructor (c: Claim, ver: nat)
      requires c.Cluster?
      ensures Value() == c && version == ver
    {
      meta, spec, status, version := c.meta, c.spec, c.st, ver;
    }

    /** Rewrite the first condition of that type in place, or append one. */
    method SetCondition(ctype: string, value: bool, reason: string)
      modifies this`status
      ensures status == ClusterPass.Mark(old(status), ctype, value, reason)
    {
      var i := 0;
      while i < |status.conditions|
        invariant i <= |status.conditions| && status == old(status)
        invariant forall j :: 0 <= j < i ==> status.conditions[j].ctype != ctype
      {
        if status.conditions[i].ctype == ctype {
          status := status.(conditions := status.conditions[i := Condition(ctype, value, reason)]);
          return;
        }
        i := i + 1;
      }
      status := status.(conditions := status.conditions + [Condition(ctype, value, reason)]);
    }
  }

  /** Drop every s from the slice, writing over the buffer that is being read; the rest of the buffer
      keeps its old contents. */
  method RemoveString(slice: array<string>, s: string) returns (n: nat)
    modifies slice
    ensures n <= slice.Length && slice[..n] == Without(old(slice[..]), s)
    ensures slice[n..] == old(slice[n..])
  {
    n := 0;
    ghost var was := slice[..];
    for i := 0 to slice.Length
      invariant n <= i && slice[..n] == Without(was[..i], s)
      invariant slice[i..] == was[i..]
      invariant slice[n..] == was[n..]
    {
      assert was[..i + 1][..i] == was[..i];
      assert slice[i] == slice[i..][0] == was[i];
      if slice[i] != s {
        slice[n] := slice[i];
        n := n + 1;
        assert slice[..n] == slice[..n - 1] + [was[i]];
      }
    }
    assert was[..slice.Length] == was;
  }

  method MachinesHaveTag(machines: seq<Device>, tag: string) returns (found: bool)
    ensures found == ClusterPass.SomeHasTag(machines, tag)
  {
    for i := 0 to |machines|
      invariant forall j :: 0 <= j < i ==> tag !in machines[j].tags
    {
      for t := 0 to |machines[i].tags|
        invariant tag !in machines[i].tags[..t]
      {
        if machines[i].tags[t] == tag { return true; }
      }
      assert machines[i].tags[..|machines[i].tags|] == machines[i].tags;
    }
    return false;
  }

  method LacksSomeTag(machines: seq<Device>, tags: seq<string>) returns (lacks: bool)
    ensures lacks <==> exists t :: t in tags && !ClusterPass.SomeHasTag(machines, t)
  {
    for i := 0 to |tags|
      invariant forall j :: 0 <= j < i ==> ClusterPass.SomeHasTag(machines, tags[j])
    {
      var has := MachinesHaveTag(machines, tags[i]);
      if !has {
        assert tags[i] in tags;
        return true;
      }
    }
    return false;
  }

  method BuildDisks(disks: seq<string>) returns (text: string)
    ensures text == RookValues.DisksText(disks)
  {
    hide RookValues.DiskText;
    text := "";
    for d := 0 to |disks|
      invariant text == RookValues.DisksText(disks[..d])
    {
      assert disks[..d + 1][..d] == disks[..d];
      text := text + RookValues.DiskText(disks[d]);
    }
    assert disks[..|disks|] == disks;
  }

  /** The rook-ceph values text, visiting the map's keys in the given order. */
  method BuildRookValues(osd: map<string, seq<string>>, order: seq<string>) returns (text: string)
    ensures text == RookValues.Text(osd, order)
  {
    hide RookValues.NodeText, RookValues.DisksText;
    var nodes := "";
    for i := 0 to |order|
      invariant nodes == RookValues.NodesText(osd, order[..i])
    {
      assert order[..i + 1][..i] == order[..i];
      var disks := BuildDisks(RookValues.DisksAt(osd, order[i]));
      nodes := nodes + RookValues.NodeText(order[i]) + disks;
    }
    assert order[..|order|] == order;
    text := RookValues.HEADER + nodes;
  }

  /** Append the disk names one by one under a machine's key; no disk, no key. */
  method CollectDisks(osd: map<string, seq<string>>, node: string, names: seq<string>) returns (r: map<string, seq<string>>)
    ensures r == if names == [] then osd else osd[node := (if node in osd then osd[node] else []) + names]
  {
    r := osd;
    ghost var before := if node in osd then osd[node] else [];
    for d := 0 to |names|
      invariant r == if d == 0 then osd else osd[node := before + names[..d]]
    {
      assert names[..d + 1] == names[..d] + [names[d]];
      assert before + names[..d] + [names[d]] == before + names[..d + 1];
      assert before + names[..d] == if node in r then r[node] else [];
      r := r[node := (if node in r then r[node] else []) + [names[d]]];
      assert r == osd[node := before + names[..d + 1]];
    }
    assert names[..|names|] == names;
  }

  /** Once staging has failed it stays where it is. */
  lemma {:induction false} Halted(e: Env, nb: Netbox, devs: seq<Device>, i: nat, n: nat, slug: string, disks: bool)
    requires i <= n <= |devs| && !Stage(e, nb, devs, i, slug, disks).ok
    ensures Stage(e, nb, devs, n, slug, disks) == Stage(e, nb, devs, i, slug, disks)
  {
    if i < n { Halted(e, nb, devs, i, n - 1, slug, disks); }
  }

  lemma {:induction false} EnsureHalted(e: Env, k: Kube, objs: seq<ClusterPass.Want>, i: nat, n: nat)
    requires i <= n <= |objs| && !ClusterPass.EnsureAll(e, k, objs, i).ok
    ensures ClusterPass.EnsureAll(e, k, objs, n) == ClusterPass.EnsureAll(e, k, objs, i)
  {
    if i < n { EnsureHalted(e, k, objs, i, n - 1); }
  }

  lemma {:induction false} InstallHalted(e: Env, k: Kube, key: Key, st: ClusterStatus, comps: seq<Component>, i: nat, n: nat)
    requires i <= n <= |comps| && !ClusterPass.Install(e, k, key, st, comps, i).ok
    ensures ClusterPass.Install(e, k, key, st, comps, n) == ClusterPass.Install(e, k, key, st, comps, i)
  {
    if i < n { InstallHalted(e, k, key, st, comps, i, n - 1); }
  }

  lemma {:induction false} CheckHalted(e: Env, k: Kube, key: Key, comps: seq<Component>, i: nat, n: nat)
    requires i <= n <= |comps| && !ClusterPass.CheckReady(e, k, key, comps, i).ok
    ensures ClusterPass.CheckReady(e, k, key, comps, n) == ClusterPass.CheckReady(e, k, key, comps, i)
  {
    if i < n { CheckHalted(e, k, key, comps, i, n - 1); }
  }

  lemma {:induction false} ReleaseHalted(e: Env, nb: Netbox, ids: seq<int>, i: nat, n: nat)
    requires i <= n <= |ids| && !ReleaseUntilError(e, nb, ids, i).ok
    ensures ReleaseUntilError(e, nb, ids, n) == ReleaseUntilError(e, nb, ids, i)
  {
    if i < n { ReleaseHalted(e, nb, ids, i, n - 1); }
  }

  class ClusterClaimReconciler {
    const netbox: NetboxClient
    const client: KubeClient
    var ticks: nat

    ghost predicate Valid()
      reads netbox, client
    {
      netbox.env == client.env && UniqueIDs(netbox.devices)
    }

    ghost function State(): World
      reads this, netbox, client
    {
      World(netbox.State(), client.State(), ticks)
    }

    /** Where a step has got to: on its way with the working copy, or stopped with a reply. */
    ghost function Reached(cc: WorkingCopy, reply: Option<Reply>): Flow
      reads this, netbox, client, cc
    {
      if reply.Some? then Stop(State(), reply.value) else Go(State(), cc.version, cc.Value())
    }

    constructor (netbox: NetboxClient, client: KubeClient)
      requires netbox.env == client.env && UniqueIDs(netbox.devices)
      ensures Valid() && this.netbox == netbox && this.client == client && ticks == 0
    {
      this.netbox, this.client, ticks := netbox, client, 0;
    }

    method Save(key: Key, cc: WorkingCopy) returns (reply: Option<Reply>)
      requires Valid()
      modifies client, cc`version
      ensures Valid()
      ensures Reached(cc, reply) == Passes.Save(client.env, old(State()), key, old(cc.version), old(cc.Value()))
    {
      var ok := client.Write(key, cc.version, Some(cc.Value()));
      if !ok { return Some(Error); }
      cc.version := cc.version + 1;
      return None;
    }

    method SaveAndStop(key: Key, cc: WorkingCopy, reply: Reply) returns (r: Reply)
      requires Valid()
      modifies client
      ensures Valid()
      ensures Stop(State(), r) == Passes.SaveAndStop(client.env, old(State()), key, cc.version, cc.Value(), reply)
    {
      var ok := client.Write(key, cc.version, Some(cc.Value()));
      r := if ok then reply else Error;
    }

    method Fail(key: Key, cc: WorkingCopy, reason: string) returns (r: Reply)
      requires Valid()
      modifies client, cc
      ensures Valid()
      ensures Stop(State(), r) == ClusterPass.Fail(client.env, old(State()), key, old(cc.version), old(cc.Value()), reason)
    {
      cc.status := cc.status.(phase := Failed);
      cc.SetCondition("Validated", false, reason);
      r := SaveAndStop(key, cc, Finished);
    }

    method StepValidate(key: Key, cc: WorkingCopy) returns (r: Reply)
      requires Valid()
      modifies netbox, client, cc
      ensures Valid()
      ensures Stop(State(), r) == ClusterPass.Validate(client.env, old(State()), key, old(cc.version), old(cc.Value()))
    {
      hide ClusterPass.Fail, Passes.SaveAndStop, ClusterPass.CheckMachines;
      var ap := client.Fetch(client.profiles, cc.spec.profile);
      if !ap.Found? {
        r := Fail(key, cc, "AddonProfileNotFound");
        return;
      }
      var site := client.Fetch(client.sites, cc.spec.site);
      if !site.Found? {
        r := Fail(key, cc, "SiteConfigNotFound");
        return;
      }
      r := CheckMachines(key, cc, site.value, ap.value);
    }

    method CheckMachines(key: Key, cc: WorkingCopy, site: Site, profile: Profile) returns (r: Reply)
      requires Valid()
      modifies netbox, client, cc
      ensures Valid()
      ensures Stop(State(), r)
           == ClusterPass.CheckMachines(client.env, old(State()), key, old(cc.version), old(cc.Value()), site, profile)
    {
      hide ClusterPass.Fail, Passes.SaveAndStop, ClusterPass.SomeHasTag, AvailableDevices;
      var available := netbox.ListAvailableDevices(site.slug, cc.spec.machineClass);
      if available.None? { return Error; }
      var count := cc.spec.machineCount;
      if |available.value| < count {
        r := Fail(key, cc, "InsufficientMachines");
        return;
      }
      var missing := LacksSomeTag(available.value[..count], profile.requiredTags);
      if missing {
        r := Fail(key, cc, "MachineClassIncompatible");
        return;
      }
      cc.status := cc.status.(phase := Provisioning);
      cc.SetCondition("Validated", true, "ValidationPassed");
      r := SaveAndStop(key, cc, Requeue);
    }

    // ---- Provisioning -----------------------------------------------------------------------

    method AllocateControlPlaneIP(key: Key, cc: WorkingCopy, site: Site) returns (reply: Option<Reply>)
      requires Valid()
      modifies netbox, client, cc
      ensures Valid()
      ensures Reached(cc, reply)
           == ClusterPass.AllocateControlPlaneIP(client.env, old(State()), key, old(cc.version), old(cc.Value()), site)
    {
      hide Passes.Save, StripPrefix, TenantSlug;
      if cc.status.cpIP != "" { return None; }
      var dns := key.name + "-api." + TenantSlug(key.ns) + "." + site.zone;
      var ip := netbox.Allocate();
      if ip.None? { return Some(Error); }
      cc.status := cc.status.(cpIP := StripPrefix(ip.value.address));
      cc.status := cc.status.(cpDNS := dns);
      cc.status := cc.status.(ipamIDs := cc.status.ipamIDs + [ip.value.id]);
      reply := Save(key, cc);
    }

    method AllocateWebhookIP(key: Key, cc: WorkingCopy, site: Site) returns (reply: Option<Reply>)
      requires Valid()
      modifies netbox, client, cc
      ensures Valid()
      ensures Reached(cc, reply)
           == ClusterPass.AllocateWebhookIP(client.env, old(State()), key, old(cc.version), old(cc.Value()), site)
    {
      hide Passes.Save, StripPrefix, TenantSlug;
      if cc.status.whIP != "" { return None; }
      var dns := key.name + "-wh." + TenantSlug(key.ns) + "." + site.zone;
      var ip := netbox.Allocate();
      if ip.None? { return Some(Error); }
      cc.status := cc.status.(whIP := StripPrefix(ip.value.address));
      cc.status := cc.status.(whDNS := dns);
      cc.status := cc.status.(ipamIDs := cc.status.ipamIDs + [ip.value.id]);
      reply := Save(key, cc);
    }

    /** Stage the first n machines offered and append their IDs to the status as it goes; with `disks`
        also collect their OSD disks. The first error ends it. */
    method StageMachines(cc: WorkingCopy, machines: seq<Device>, n: nat, slug: string, disks: bool)
      returns (osd: map<string, seq<string>>, ok: bool)
      requires Valid() && n <= |machines|
      modifies netbox, cc`status
      ensures Valid()
      ensures var s := Stage(client.env, old(netbox.State()), machines, n, slug, disks);
              && Staging(netbox.State(), s.ids, osd, ok) == s
              && cc.status == old(cc.status).(machineIDs := old(cc.status.machineIDs) + s.ids)
    {
      hide SetDeviceStatus, ListDisks;
      osd, ok := map[], true;
      ghost var nb, before := netbox.State(), cc.status;
      var i := 0;
      while i < n
        invariant i <= n && Valid() && ok
        invariant var s := Stage(client.env, nb, machines, i, slug, disks);
                  && Staging(netbox.State(), s.ids, osd, ok) == s
                  && cc.status == before.(machineIDs := before.machineIDs + s.ids)
      {
        ghost var s := Stage(client.env, nb, machines, i, slug, disks);
        ok := netbox.SetStatus(machines[i].id, Staged, slug);
        if !ok {
          Halted(client.env, nb, machines, i + 1, n, slug, disks);
          return;
        }
        cc.status := cc.status.(machineIDs := cc.status.machineIDs + [machines[i].id]);
        assert before.machineIDs + s.ids + [machines[i].id] == before.machineIDs + (s.ids + [machines[i].id]);
        if disks {
          var names := netbox.ListOSDDisks(machines[i].id);
          if names.None? {
            ok := false;
            Halted(client.env, nb, machines, i + 1, n, slug, disks);
            return;
          }
          osd := CollectDisks(osd, Decimal(machines[i].id), names.value);
        }
        i := i + 1;
      }
    }

    method AllocateMachines(key: Key, cc: WorkingCopy, site: Site) returns (reply: Option<Reply>)
      requires Valid()
      modifies netbox, client, cc
      ensures Valid()
      ensures Reached(cc, reply)
           == ClusterPass.AllocateMachines(client.env, old(State()), key, old(cc.version), old(cc.Value()), site)
    {
      hide Passes.Save, TenantSlug, Stage, ListAvailable;
      if cc.status.machineIDs != [] { return None; }
      var machines := netbox.ListAvailableDevices(site.slug, cc.spec.machineClass);
      if machines.None? { return Some(Error); }
      var n := ClusterPass.Min(cc.spec.machineCount, |machines.value|);
      ghost var nb := netbox.State();
      var osd, ok := StageMachines(cc, machines.value, n, TenantSlug(key.ns), true);
      ghost var s := Stage(client.env, nb, machines.value, n, TenantSlug(key.ns), true);
      assert [] + s.ids == s.ids;
      if !ok { return Some(Error); }
      cc.status := cc.status.(osdDevices := osd);
      reply := Save(key, cc);
    }

    /** Create what is missing of the objects behind the cluster, in order, up to the first error. */
    method EnsureObjects(key: Key, cc: WorkingCopy, site: Site) returns (ok: bool)
      requires Valid()
      modifies client
      ensures Valid()
      ensures var objs := ClusterPass.CAPIObjects(key, cc.Value(), site);
              Did(client.State(), ok) == ClusterPass.EnsureAll(client.env, old(client.State()), objs, |objs|)
    {
      hide Ensure, ClusterPass.CAPIObjects;
      var objs := ClusterPass.CAPIObjects(key, cc.Value(), site);
      ghost var k := client.State();
      ok := true;
      var i := 0;
      while i < |objs| && ok
        invariant i <= |objs| && Valid()
        invariant Did(client.State(), ok) == ClusterPass.EnsureAll(client.env, k, objs, i)
      {
        ok := client.EnsureObject(objs[i].obj, objs[i].body, objs[i].update);
        i := i + 1;
      }
      if !ok { EnsureHalted(client.env, k, objs, i, |objs|); }
    }

    method EnsureCluster(key: Key, cc: WorkingCopy, site: Site) returns (r: Reply)
      requires Valid()
      modifies client, cc
      ensures Valid()
      ensures Stop(State(), r)
           == ClusterPass.EnsureCluster(client.env, old(State()), key, old(cc.version), old(cc.Value()), site)
    {
      hide Passes.SaveAndStop, ClusterPass.EnsureAll, ClusterPass.CAPIObjects;
      if site.oidcIssuer == "" { return Error; }
      var ok := EnsureObjects(key, cc, site);
      if !ok { return Error; }
      cc.status := cc.status.(clusterRef := Some(key.name));
      var existing := client.Fetch(client.objects, ClusterPass.CAPICluster(key));
      if !existing.Found? { return Error; }
      if existing.value.ready {
        cc.status := cc.status.(phase := ClusterReady);
        cc.SetCondition("CAPIReady", true, "ControlPlaneReady");
      }
      cc.SetCondition("MachineCfgDone", true, "MachineCfgComplete");
      r := SaveAndStop(key, cc, if existing.value.ready then Requeue else After(30 * SECOND));
    }

    method RunJob(key: Key, cc: WorkingCopy, site: Site) returns (r: Reply)
      requires Valid()
      modifies client, cc
      ensures Valid()
      ensures Stop(State(), r)
           == ClusterPass.RunJob(client.env, old(State()), key, old(cc.version), old(cc.Value()), site)
    {
      hide ClusterPass.Fail, ClusterPass.EnsureCluster, CreateJob;
      var job := client.Fetch(client.jobs, JobOf(key));
      match job {
        case NotFound =>
          var ok := client.NewJob(JobOf(key));
          return if ok then After(10 * SECOND) else Error;
        case Broken =>
          return Error;
        case Found(job) =>
          if !job.completed { return After(10 * SECOND); }
          if job.failed {
            r := Fail(key, cc, "MachineCfgFailed");
            return;
          }
          r := EnsureCluster(key, cc, site);
      }
    }

    method StepProvision(key: Key, cc: WorkingCopy) returns (r: Reply)
      requires Valid()
      modifies netbox, client, cc
      ensures Valid()
      ensures Stop(State(), r) == ClusterPass.Provision(client.env, old(State()), key, old(cc.version), old(cc.Value()))
    {
      hide ClusterPass.AllocateControlPlaneIP, ClusterPass.AllocateWebhookIP, ClusterPass.AllocateMachines, ClusterPass.RunJob;
      var site := client.Fetch(client.sites, cc.spec.site);
      if !site.Found? { return Error; }
      var stopped := AllocateControlPlaneIP(key, cc, site.value);
      if stopped.Some? { return stopped.value; }
      stopped := AllocateWebhookIP(key, cc, site.value);
      if stopped.Some? { return stopped.value; }
      stopped := AllocateMachines(key, cc, site.value);
      if stopped.Some? { return stopped.value; }
      r := RunJob(key, cc, site.value);
    }

    // ---- Addons -----------------------------------------------------------------------------

    method EnsureHelmRelease(key: Key, cc: WorkingCopy, comp: Component) returns (ok: bool)
      requires Valid()
      modifies client
      ensures Valid()
      ensures Did(client.State(), ok)
           == Ensure(client.env, old(client.State()), ClusterPass.ReleaseOf(key, comp.name),
                     ClusterPass.ReleaseBody(client.env, old(client.calls), key, cc.status, comp), false)
    {
      hide Ensure, RookValues.Text, ClusterPass.ReleaseOf;
      var values := comp.helm.values;
      if comp.name == ClusterPass.ROOK && cc.status.osdDevices != map[] {
        var rook := BuildRookValues(cc.status.osdDevices, client.env.keys(client.calls, cc.status.osdDevices));
        values := values + "\n" + rook;
      }
      var body := Helm(key.name, comp.helm.(values := values), comp.order == 1);
      ok := client.EnsureObject(ClusterPass.ReleaseOf(key, comp.name), body, false);
    }

    method InstallAddons(key: Key, cc: WorkingCopy, comps: seq<Component>) returns (ok: bool)
      requires Valid()
      modifies client
      ensures Valid()
      ensures Did(client.State(), ok)
           == ClusterPass.Install(client.env, old(client.State()), key, cc.status, comps, |comps|)
    {
      hide Ensure, ClusterPass.ReleaseOf, ClusterPass.ReleaseBody;
      ghost var k := client.State();
      ok := true;
      var i := 0;
      while i < |comps| && ok
        invariant i <= |comps| && Valid()
        invariant Did(client.State(), ok) == ClusterPass.Install(client.env, k, key, cc.status, comps, i)
      {
        ok := EnsureHelmRelease(key, cc, comps[i]);
        i := i + 1;
      }
      if !ok { InstallHalted(client.env, k, key, cc.status, comps, i, |comps|); }
    }

    method CheckAddons(key: Key, comps: seq<Component>) returns (ok: bool, all: bool)
      requires Valid()
      modifies client
      ensures Valid()
      ensures ClusterPass.Readiness(client.State(), ok, all)
           == ClusterPass.CheckReady(client.env, old(client.State()), key, comps, |comps|)
    {
      hide ClusterPass.ReleaseOf;
      ghost var k := client.State();
      ok, all := true, true;
      var i := 0;
      while i < |comps| && ok
        invariant i <= |comps| && Valid()
        invariant ClusterPass.Readiness(client.State(), ok, all) == ClusterPass.CheckReady(client.env, k, key, comps, i)
      {
        if comps[i].required {
          var hr := client.Fetch(client.objects, ClusterPass.ReleaseOf(key, comps[i].name));
          ok := !hr.Broken?;
          if !hr.Found? || !hr.value.ready { all := false; }
        }
        i := i + 1;
      }
      if !ok { CheckHalted(client.env, k, key, comps, i, |comps|); }
    }

    method StepWatchAddons(key: Key, cc: WorkingCopy) returns (r: Reply)
      requires Valid()
      modifies client, cc
      ensures Valid()
      ensures Stop(State(), r) == ClusterPass.WatchAddons(client.env, old(State()), key, old(cc.version), old(cc.Value()))
    {
      hide Passes.SaveAndStop, ClusterPass.Install, ClusterPass.CheckReady;
      var ap := client.Fetch(client.profiles, cc.spec.profile);
      if !ap.Found? { return Error; }
      var comps := client.env.sort(client.calls, ap.value.components);
      var ok := InstallAddons(key, cc, comps);
      if !ok { return Error; }
      var all;
      ok, all := CheckAddons(key, comps);
      if !ok { return Error; }
      if !all { return After(30 * SECOND); }
      cc.status := cc.status.(phase := AddonsReady);
      cc.SetCondition("AddonsReady", true, "AllAddonsReady");
      r := SaveAndStop(key, cc, Requeue);
    }

    // ---- Kubeconfig -------------------------------------------------------------------------

    method StepExposeKubeconfig(key: Key, cc: WorkingCopy) returns (r: Reply)
      requires Valid()
      modifies client, cc
      ensures Valid()
      ensures Stop(State(), r)
           == ClusterPass.ExposeKubeconfig(client.env, old(State()), key, old(cc.version), old(cc.Value()))
    {
      hide Passes.SaveAndStop, PutRole;
      var secret := ClusterPass.SecretOf(key);
      var role := client.Fetch(client.roles, key.ns);
      if role.Broken? { return Error; }
      if role.NotFound? { return After(10 * SECOND); }
      var rules := role.value;
      var i := 0;
      while i < |rules| && !CoversSecrets(rules[i])
        invariant i <= |rules| && forall j :: 0 <= j < i ==> !CoversSecrets(rules[j])
      {
        i := i + 1;
      }
      if i == |rules| { return After(10 * SECOND); }
      if secret !in rules[i].names {
        var ok := client.UpdateRole(key.ns, rules[i := rules[i].(names := rules[i].names + [secret])]);
        if !ok { return Error; }
      }
      cc.status := cc.status.(phase := Ready);
      cc.status := cc.status.(kubeconfig := secret);
      r := SaveAndStop(key, cc, Finished);
    }

    // ---- Steady state -----------------------------------------------------------------------

    method ScaleUp(key: Key, cc: WorkingCopy, delta: nat) returns (r: Reply)
      requires Valid()
      modifies netbox, client, cc
      ensures Valid()
      ensures Stop(State(), r) == ClusterPass.ScaleUp(client.env, old(State()), key, old(cc.version), old(cc.Value()), delta)
    {
      hide Passes.SaveAndStop, TenantSlug, Stage, ListAvailable;
      var site := client.Fetch(client.sites, cc.spec.site);
      if !site.Found? { return Error; }
      var available := netbox.ListAvailableDevices(site.value.slug, cc.spec.machineClass);
      if available.None? { return Error; }
      if |available.value| < delta {
        cc.SetCondition("ScaleUpBlocked", true, "InsufficientMachines");
        r := SaveAndStop(key, cc, After(300 * SECOND));
        return;
      }
      var _, ok := StageMachines(cc, available.value, delta, TenantSlug(key.ns), false);
      if !ok { return Error; }
      r := SaveAndStop(key, cc, After(300 * SECOND));
    }

    /** Release machines one by one up to the first error. */
    method ReleaseMachines(ids: seq<int>) returns (ok: bool)
      requires Valid()
      modifies netbox
      ensures Valid()
      ensures Done(netbox.State(), ok) == ReleaseUntilError(client.env, old(netbox.State()), ids, |ids|)
    {
      hide SetDeviceStatus;
      ghost var nb := netbox.State();
      ok := true;
      var i := 0;
      while i < |ids| && ok
        invariant i <= |ids| && Valid()
        invariant Done(netbox.State(), ok) == ReleaseUntilError(client.env, nb, ids, i)
      {
        ok := netbox.SetStatus(ids[i], Active, "");
        i := i + 1;
      }
      if !ok { ReleaseHalted(client.env, nb, ids, i, |ids|); }
    }

    method ScaleDown(key: Key, cc: WorkingCopy, delta: nat) returns (r: Reply)
      requires Valid() && delta <= |cc.status.machineIDs|
      modifies netbox, client, cc
      ensures Valid()
      ensures Stop(State(), r) == ClusterPass.ScaleDown(client.env, old(State()), key, old(cc.version), old(cc.Value()), delta)
    {
      hide Passes.SaveAndStop, ReleaseUntilError;
      var ap := client.Fetch(client.profiles, cc.spec.profile);
      if !ap.Found? { return Error; }
      var i := 0;
      while i < |ap.value.components| && ap.value.components[i].name != ClusterPass.ROOK
        invariant i <= |ap.value.components|
        invariant forall j :: 0 <= j < i ==> ap.value.components[j].name != ClusterPass.ROOK
      {
        i := i + 1;
      }
      if i < |ap.value.components| {
        cc.SetCondition("ScaleDownBlocked", true, "RookCephPresent");
        r := SaveAndStop(key, cc, Finished);
        return;
      }
      var keep := |cc.status.machineIDs| - delta;
      var ok := ReleaseMachines(cc.status.machineIDs[keep..]);
      if !ok { return Error; }
      cc.status := cc.status.(machineIDs := cc.status.machineIDs[..keep]);
      r := SaveAndStop(key, cc, After(300 * SECOND));
    }

    method Now() returns (t: int)
      modifies this`ticks
      ensures t == client.env.clock(old(ticks)) && ticks == old(ticks) + 1
    {
      t := client.env.clock(ticks);
      ticks := ticks + 1;
    }

    method StepReconcileReady(key: Key, cc: WorkingCopy) returns (r: Reply)
      requires Valid()
      modifies this`ticks, netbox, client, cc
      ensures Valid()
      ensures Stop(State(), r) == ClusterPass.SteadyState(client.env, old(State()), key, old(cc.version), old(cc.Value()))
    {
      hide ClusterPass.ScaleUp, ClusterPass.ScaleDown, DeleteClaim;
      if cc.meta.deleteAt.Deadline? {
        var t := cc.meta.deleteAt.time;
        var now := Now();
        if now > t {
          var ok := client.Delete(key);
          return if ok then Finished else Error;
        }
        now := Now();
        return After(t - now + SECOND);
      }
      var desired, actual := cc.spec.machineCount, |cc.status.machineIDs|;
      if desired > actual {
        r := ScaleUp(key, cc, desired - actual);
      } else if desired < actual {
        r := ScaleDown(key, cc, actual - desired);
      } else {
        r := After(300 * SECOND);
      }
    }

    // ---- Finalizer --------------------------------------------------------------------------

    method ReleaseEverything(ips: seq<int>, machines: seq<int>)
      requires Valid()
      modifies netbox
      ensures Valid()
      ensures netbox.State()
           == ReleaseEach(client.env, ReleaseIPs(client.env, old(netbox.State()), ips, |ips|), machines, |machines|)
    {
      hide SetDeviceStatus, ReleaseIP;
      ghost var nb := netbox.State();
      for i := 0 to |ips|
        invariant Valid() && netbox.State() == ReleaseIPs(client.env, nb, ips, i)
      {
        var _ := netbox.Release(ips[i]);
      }
      nb := netbox.State();
      for i := 0 to |machines|
        invariant Valid() && netbox.State() == ReleaseEach(client.env, nb, machines, i)
      {
        var _ := netbox.SetStatus(machines[i], Active, "");
      }
    }

    /** Filter the secret out of every rule about secrets, in each rule's own buffer. */
    method RevokeSecret(key: Key, secret: string)
      requires Valid()
      modifies client
      ensures Valid()
      ensures client.State() == ClusterPass.RevokeKubeconfig(client.env, old(client.State()), key, secret)
    {
      hide PutRole, Without;
      if secret == "" { return; }
      var role := client.Fetch(client.roles, key.ns);
      if !role.Found? { return; }
      var rules := role.value;
      for i := 0 to |rules|
        invariant Valid() && client.State() == Get(client.env, old(client.State()), old(client.roles), key.ns).k
        invariant |rules| == |role.value|
        invariant forall j :: 0 <= j < |rules| ==>
                    rules[j] == if j < i then RevokeIn(role.value[j], secret) else role.value[j]
      {
        if CoversSecrets(rules[i]) {
          var names := rules[i].names;
          var buffer := new string[|names|](k requires 0 <= k < |names| => names[k]);
          assert buffer[..] == names;
          var n := RemoveString(buffer, secret);
          rules := rules[i := rules[i].(names := buffer[..n])];
        }
      }
      assert rules == Revoke(role.value, secret);
      var _ := client.UpdateRole(key.ns, rules);
    }

    method ReconcileDelete(key: Key, cc: WorkingCopy) returns (r: Reply)
      requires Valid()
      modifies netbox, client
      ensures Valid()
      ensures Stop(State(), r) == ClusterPass.Finalize(client.env, old(State()), key, cc.version, cc.Value())
    {
      hide ReleaseEach, ReleaseIPs, ClusterPass.RevokeKubeconfig;
      ReleaseEverything(cc.status.ipamIDs, cc.status.machineIDs);
      RevokeSecret(key, cc.status.kubeconfig);
      var ok := client.Write(key, cc.version, None);
      r := if ok then Finished else Error;
    }

    // ---- The pass ---------------------------------------------------------------------------

    method Step(key: Key, cc: WorkingCopy) returns (r: Reply)
      requires Valid()
      modifies this`ticks, netbox, client, cc
      ensures Valid()
      ensures Stop(State(), r) == ClusterPass.Step(client.env, old(State()), key, old(cc.version), old(cc.Value()))
    {
      hide ClusterPass.Finalize, ClusterPass.Validate, ClusterPass.Provision, ClusterPass.WatchAddons,
        ClusterPass.ExposeKubeconfig, ClusterPass.SteadyState, Passes.SaveAndStop;
      if cc.meta.deleting {
        r := ReconcileDelete(key, cc);
        return;
      }
      if !cc.meta.finalizer {
        cc.meta := cc.meta.(finalizer := true);
        r := SaveAndStop(key, cc, Finished);
        return;
      }
      match cc.status.phase {
        case Pending => r := StepValidate(key, cc);
        case Provisioning => r := StepProvision(key, cc);
        case ClusterReady => r := StepWatchAddons(key, cc);
        case AddonsReady => r := StepExposeKubeconfig(key, cc);
        case Ready => r := StepReconcileReady(key, cc);
        case Failed => r := Finished;
      }
    }

    /** One pass. Under this kind of key the API server serves cluster claims only. */
    method Reconcile(key: Key, ver: nat) returns (r: Reply)
      requires Valid()
      requires ver < |HistoryOf(client.store, key)| && HistoryOf(client.store, key)[ver].Some?
               ==> HistoryOf(client.store, key)[ver].value.Cluster?
      modifies this`ticks, netbox, client
      ensures Valid()
      ensures Runs.PassResult(State(), r) == Runs.Reconcile(client.env, old(State()), key, ver)
    {
      hide ClusterPass.Step;
      var read := client.Read(key, ver);
      match read {
        case Broken => return Error;
        case NotFound => return Finished;
        case Found(c) =>
          var cc := new WorkingCopy(c, ver);
          r := Step(key, cc);
      }
    }
  }
}
