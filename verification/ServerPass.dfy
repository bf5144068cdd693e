/** One pass of ServerClaimReconciler, step by step, as functions of the world. */
module ServerPass {
  import opened Basics
  import opened Text
  import opened Claims
  import opened Environment
  import opened Inventory
  import opened ApiServer
  import opened Passes

  /** Unlike the cluster reconciler, this one appends a condition each time. */
  function Fail(e: Env, w: World, key: Key, ver: nat, c: Claim, reason: string): Flow
    requires c.Server?
  {
    SaveAndStop(e, w, key, ver,
                c.(sst := c.sst.(phase := Failed, conditions := c.sst.conditions + [Condition("Ready", false, reason)])),
                Finished)
  }

  function Validate(e: Env, w: World, key: Key, ver: nat, c: Claim): Flow
    requires c.Server?
  {
    var s := Get(e, w.kube, w.kube.sites, c.sspec.site);
    var w1 := w.(kube := s.k);
    if !s.read.Found? then Fail(e, w1, key, ver, c, "SiteConfigNotFound")
    else
      var a := ListAvailable(e, w1.nb, s.read.value.slug, c.sspec.machineClass);
      var w2 := w1.(nb := a.nb);
      if a.value.None? then Stop(w2, Error)
      else if a.value.value == [] then Fail(e, w2, key, ver, c, "InsufficientMachines")
      else SaveAndStop(e, w2, key, ver, c.(sst := c.sst.(phase := Provisioning)), Requeue)
  }

  function AllocateServerIP(e: Env, w: World, key: Key, ver: nat, c: Claim, site: Site): Flow
    requires c.Server?
  {
    if c.sst.ip != "" then Go(w, ver, c)
    else
      var a := AllocateIP(e, w.nb);
      var w1 := w.(nb := a.nb);
      if a.value.None? then Stop(w1, Error)
      else
        Save(e, w1, key, ver, c.(sst := c.sst.(
          ip := StripPrefix(a.value.value.address),
          dns := key.name + "." + TenantSlug(key.ns) + "." + site.zone,
          ipamID := a.value.value.id)))
  }

  function AllocateMachine(e: Env, w: World, key: Key, ver: nat, c: Claim, site: Site): Flow
    requires c.Server?
  {
    if c.sst.machineID != 0 then Go(w, ver, c)
    else
      var a := ListAvailable(e, w.nb, site.slug, c.sspec.machineClass);
      TakeMachine(e, w.(nb := a.nb), key, ver, c, a.value)
  }

  /** The pass after its listing was answered: stage the first machine offered and record it. */
  function TakeMachine(e: Env, w: World, key: Key, ver: nat, c: Claim, offer: Option<seq<Device>>): Flow
    requires c.Server?
  {
    if offer.None? then Stop(w, Error)
    else if offer.value == [] then Fail(e, w, key, ver, c, "InsufficientMachines")
    else
      var s := Stage(e, w.nb, offer.value, 1, TenantSlug(key.ns), false);
      var w1 := w.(nb := s.nb);
      if !s.ok then Stop(w1, Error)
      else Save(e, w1, key, ver, c.(sst := c.sst.(machineID := offer.value[0].id)))
  }

  function RunJob(e: Env, w: World, key: Key, ver: nat, c: Claim): Flow
    requires c.Server?
  {
    var got := Get(e, w.kube, w.kube.jobs, JobOf(key));
    var w1 := w.(kube := got.k);
    match got.read
    case Broken => Stop(w1, Error)
    case NotFound =>
      var d := CreateJob(e, got.k, JobOf(key));
      Stop(w.(kube := d.k), if d.ok then After(10 * SECOND) else Error)
    case Found(job) =>
      if job.failed then Fail(e, w1, key, ver, c, "MachineCfgFailed")
      else if !job.completed then Stop(w1, After(10 * SECOND))
      else SaveAndStop(e, w1, key, ver, c.(sst := c.sst.(phase := Ready)), Finished)
  }

  function Provision(e: Env, w: World, key: Key, ver: nat, c: Claim): Flow
    requires c.Server?
  {
    var s := Get(e, w.kube, w.kube.sites, c.sspec.site);
    var w1 := w.(kube := s.k);
    if !s.read.Found? then Stop(w1, Error)
    else
      var f1 := AllocateServerIP(e, w1, key, ver, c, s.read.value);
      if f1.Stop? then f1
      else
        var f2 := AllocateMachine(e, f1.w, key, f1.ver, f1.c, s.read.value);
        if f2.Stop? then f2 else RunJob(e, f2.w, key, f2.ver, f2.c)
  }

  function Finalize(e: Env, w: World, key: Key, ver: nat, c: Claim): Flow
    requires c.Server?
  {
    var ips, ids := Recorded(Address, c), Recorded(Machine, c);
    var nb2 := ReleaseEach(e, ReleaseIPs(e, w.nb, ips, |ips|), ids, |ids|);
    var d := WriteClaim(e, w.kube, key, ver, None);
    Stop(w.(nb := nb2, kube := d.k), if d.ok then Finished else Error)
  }

  function Step(e: Env, w: World, key: Key, ver: nat, c: Claim): Flow
    requires c.Server?
  {
    if c.meta.deleting then Finalize(e, w, key, ver, c)
    else if !c.meta.finalizer then
      SaveAndStop(e, w, key, ver, WithMeta(c, c.meta.(finalizer := true)), Finished)
    else
      match c.sst.phase
      case Pending => Validate(e, w, key, ver, c)
      case Provisioning => Provision(e, w, key, ver, c)
      case _ => Stop(w, Finished)
  }
}
