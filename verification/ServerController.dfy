/** ServerClaimReconciler as it runs, each method proved to do what the same step of ServerPass says. */
module ServerController {
  import opened Basics
  import opened Text
  import opened Claims
  import opened Inventory
  import opened ApiServer
  import opened Passes
  import ServerPass
  import Runs

  class WorkingCopy {
    var meta: Meta
    const spec: ServerSpec
    var status: ServerStatus
    var version: nat

    function Value(): Claim
      reads this
    {
      Server(meta, spec, status)
    }

    constructor (c: Claim, ver: nat)
      requires c.Server?
      ensures Value() == c && version == ver
    {
      meta, spec, status, version := c.meta, c.sspec, c.sst, ver;
    }
  }

  class ServerClaimReconciler {
    const netbox: NetboxClient
    const client: KubeClient
    /** This reconciler never looks at the clock. */
    ghost const ticks: nat

    ghost predicate Valid()
      reads netbox, client
    {
      netbox.env == client.env && UniqueIDs(netbox.devices)
    }

    ghost function State(): World
      reads netbox, client
    {
      World(netbox.State(), client.State(), ticks)
    }

    ghost function Reached(sc: WorkingCopy, reply: Option<Reply>): Flow
      reads netbox, client, sc
    {
      if reply.Some? then Stop(State(), reply.value) else Go(State(), sc.version, sc.Value())
    }

    constructor (netbox: NetboxClient, client: KubeClient, ghost ticks: nat)
      requires netbox.env == client.env && UniqueIDs(netbox.devices)
      ensures Valid() && this.netbox == netbox && this.client == client && this.ticks == ticks
    {
      this.netbox, this.client, this.ticks := netbox, client, ticks;
    }

    method Save(key: Key, sc: WorkingCopy) returns (reply: Option<Reply>)
      requires Valid()
      modifies client, sc`version
      ensures Valid()
      ensures Reached(sc, reply) == Passes.Save(client.env, old(State()), key, old(sc.version), old(sc.Value()))
    {
      var ok := client.Write(key, sc.version, Some(sc.Value()));
      if !ok { return Some(Error); }
      sc.version := sc.version + 1;
      return None;
    }

    method SaveAndStop(key: Key, sc: WorkingCopy, reply: Reply) returns (r: Reply)
      requires Valid()
      modifies client
      ensures Valid()
      ensures Stop(State(), r) == Passes.SaveAndStop(client.env, old(State()), key, sc.version, sc.Value(), reply)
    {
      var ok := client.Write(key, sc.version, Some(sc.Value()));
      r := if ok then reply else Error;
    }

    method Fail(key: Key, sc: WorkingCopy, reason: string) returns (r: Reply)
      requires Valid()
      modifies client, sc
      ensures Valid()
      ensures Stop(State(), r) == ServerPass.Fail(client.env, old(State()), key, old(sc.version), old(sc.Value()), reason)
    {
      sc.status := sc.status.(phase := Failed);
      sc.status := sc.status.(conditions := sc.status.conditions + [Condition("Ready", false, reason)]);
      r := SaveAndStop(key, sc, Finished);
    }

    method StepValidate(key: Key, sc: WorkingCopy) returns (r: Reply)
      requires Valid()
      modifies netbox, client, sc
      ensures Valid()
      ensures Stop(State(), r) == ServerPass.Validate(client.env, old(State()), key, old(sc.version), old(sc.Value()))
    {
      hide ServerPass.Fail, Passes.SaveAndStop, AvailableDevices;
      var site := client.Fetch(client.sites, sc.spec.site);
      if !site.Found? {
        r := Fail(key, sc, "SiteConfigNotFound");
        return;
      }
      var available := netbox.ListAvailableDevices(site.value.slug, sc.spec.machineClass);
      if available.None? { return Error; }
      if available.value == [] {
        r := Fail(key, sc, "InsufficientMachines");
        return;
      }
      sc.status := sc.status.(phase := Provisioning);
      r := SaveAndStop(key, sc, Requeue);
    }

    method AllocateServerIP(key: Key, sc: WorkingCopy, site: Site) returns (reply: Option<Reply>)
      requires Valid()
      modifies netbox, client, sc
      ensures Valid()
      ensures Reached(sc, reply)
           == ServerPass.AllocateServerIP(client.env, old(State()), key, old(sc.version), old(sc.Value()), site)
    {
      hide Passes.Save, StripPrefix, TenantSlug;
      if sc.status.ip != "" { return None; }
      var dns := key.name + "." + TenantSlug(key.ns) + "." + site.zone;
      var ip := netbox.Allocate();
      if ip.None? { return Some(Error); }
      sc.status := sc.status.(ip := StripPrefix(ip.value.address));
      sc.status := sc.status.(dns := dns);
      sc.status := sc.status.(ipamID := ip.value.id);
      reply := Save(key, sc);
    }

    method AllocateMachine(key: Key, sc: WorkingCopy, site: Site) returns (reply: Option<Reply>)
      requires Valid()
      modifies netbox, client, sc
      ensures Valid()
      ensures Reached(sc, reply)
           == ServerPass.AllocateMachine(client.env, old(State()), key, old(sc.version), old(sc.Value()), site)
    {
      hide ServerPass.Fail, Passes.Save, TenantSlug, AvailableDevices, SetDeviceStatus;
      if sc.status.machineID != 0 { return None; }
      var available := netbox.ListAvailableDevices(site.slug, sc.spec.machineClass);
      if available.None? { return Some(Error); }
      if available.value == [] {
        var r := Fail(key, sc, "InsufficientMachines");
        return Some(r);
      }
      var m := available.value[0];
      ghost var nb := netbox.State();
      assert Stage(client.env, nb, available.value, 0, TenantSlug(key.ns), false) == Staging(nb, [], map[], true);
      var ok := netbox.SetStatus(m.id, Staged, TenantSlug(key.ns));
      if !ok { return Some(Error); }
      sc.status := sc.status.(machineID := m.id);
      reply := Save(key, sc);
    }

    method RunJob(key: Key, sc: WorkingCopy) returns (r: Reply)
      requires Valid()
      modifies client, sc
      ensures Valid()
      ensures Stop(State(), r) == ServerPass.RunJob(client.env, old(State()), key, old(sc.version), old(sc.Value()))
    {
      hide ServerPass.Fail, Passes.SaveAndStop, CreateJob;
      var job := client.Fetch(client.jobs, JobOf(key));
      match job {
        case NotFound =>
          var ok := client.NewJob(JobOf(key));
          return if ok then After(10 * SECOND) else Error;
        case Broken =>
          return Error;
        case Found(job) =>
          if job.failed {
            r := Fail(key, sc, "MachineCfgFailed");
            return;
          }
          if !job.completed { return After(10 * SECOND); }
          sc.status := sc.status.(phase := Ready);
          r := SaveAndStop(key, sc, Finished);
      }
    }

    method StepProvision(key: Key, sc: WorkingCopy) returns (r: Reply)
      requires Valid()
      modifies netbox, client, sc
      ensures Valid()
      ensures Stop(State(), r) == ServerPass.Provision(client.env, old(State()), key, old(sc.version), old(sc.Value()))
    {
      hide ServerPass.AllocateServerIP, ServerPass.AllocateMachine, ServerPass.RunJob;
      var site := client.Fetch(client.sites, sc.spec.site);
      if !site.Found? { return Error; }
      var stopped := AllocateServerIP(key, sc, site.value);
      if stopped.Some? { return stopped.value; }
      stopped := AllocateMachine(key, sc, site.value);
      if stopped.Some? { return stopped.value; }
      r := RunJob(key, sc);
    }

    method ReconcileDelete(key: Key, sc: WorkingCopy) returns (r: Reply)
      requires Valid()
      modifies netbox, client
      ensures Valid()
      ensures Stop(State(), r) == ServerPass.Finalize(client.env, old(State()), key, sc.version, sc.Value())
    {
      hide SetDeviceStatus, ReleaseIP;
      ghost var nb := netbox.State();
      assert ReleaseIPs(client.env, nb, Recorded(Address, sc.Value()), 0) == nb;
      if sc.status.ipamID != 0 {
        var _ := netbox.Release(sc.status.ipamID);
      }
      ghost var nb1 := netbox.State();
      assert ReleaseEach(client.env, nb1, Recorded(Machine, sc.Value()), 0) == nb1;
      if sc.status.machineID != 0 {
        var _ := netbox.SetStatus(sc.status.machineID, Active, "");
      }
      var ok := client.Write(key, sc.version, None);
      r := if ok then Finished else Error;
    }

    method Step(key: Key, sc: WorkingCopy) returns (r: Reply)
      requires Valid()
      modifies netbox, client, sc
      ensures Valid()
      ensures Stop(State(), r) == ServerPass.Step(client.env, old(State()), key, old(sc.version), old(sc.Value()))
    {
      hide ServerPass.Finalize, ServerPass.Validate, ServerPass.Provision, Passes.SaveAndStop;
      if sc.meta.deleting {
        r := ReconcileDelete(key, sc);
        return;
      }
      if !sc.meta.finalizer {
        sc.meta := sc.meta.(finalizer := true);
        r := SaveAndStop(key, sc, Finished);
        return;
      }
      match sc.status.phase {
        case Pending => r := StepValidate(key, sc);
        case Provisioning => r := StepProvision(key, sc);
        case _ => r := Finished;
      }
    }

    /** One pass. Under this kind of key the API server serves server claims only. */
    method Reconcile(key: Key, ver: nat) returns (r: Reply)
      requires Valid()
      requires ver < |HistoryOf(client.store, key)| && HistoryOf(client.store, key)[ver].Some?
               ==> HistoryOf(client.store, key)[ver].value.Server?
      modifies netbox, client
      ensures Valid()
      ensures Runs.PassResult(State(), r) == Runs.Reconcile(client.env, old(State()), key, ver)
    {
      hide ServerPass.Step;
      var read := client.Read(key, ver);
      match read {
        case Broken => return Error;
        case NotFound => return Finished;
        case Found(c) =>
          var sc := new WorkingCopy(c, ver);
          r := Step(key, sc);
      }
    }
  }
}
