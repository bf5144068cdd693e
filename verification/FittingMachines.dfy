/** The machines a claim gets are of its class and on its site, and a pass that nothing disturbs takes the first ones in
    the inventory, as many as asked for. */
module FittingMachines {
  import opened Basics
  import opened Text
  import opened Claims
  import opened Environment
  import opened Inventory
  import opened ApiServer
  import opened Passes
  import opened Holdings
  import opened Exclusivity
  import opened MachineAccounts
  import ClusterPass
  import ServerPass
  import opened Runs

  function SiteOf(c: Claim): string { if c.Cluster? then c.spec.site else c.sspec.site }

  function ClassOf(c: Claim): string { if c.Cluster? then c.spec.machineClass else c.sspec.machineClass }

  /** The device is what a query for the claim's class on its site selects. */
  predicate Fits(sem: Semantics, k: Kube, c: Claim, d: Device) {
    SiteOf(c) in k.sites && Selects(sem, d, k.sites[SiteOf(c)].slug, ClassOf(c))
  }

  /** Whatever was free before and has been staged since fits. */
  ghost predicate DrawsFitting(w: World, nb': Netbox, c: Claim) {
    && |nb'.devices| == |w.nb.devices|
    && forall i :: 0 <= i < |w.nb.devices| && IsDrawn(w.nb.devices[i], nb'.devices[i]) ==> Fits(w.nb.sem, w.kube, c, w.nb.devices[i])
  }

  // ---- Staging what was offered -----------------------------------------------------------

  lemma StageFitting(e: Env, w: World, c: Claim, nb: Netbox, devs: seq<Device>, n: nat, slug: string, disks: bool)
    requires SiteOf(c) in w.kube.sites && UniqueIDs(nb.devices) && nb.devices == w.nb.devices && nb.sem == w.nb.sem && n <= |devs|
    requires devs == [] || devs == AvailableDevices(nb.sem, nb.devices, w.kube.sites[SiteOf(c)].slug, ClassOf(c))
    ensures DrawsFitting(w, Stage(e, nb, devs, n, slug, disks).nb, c)
  {
    hide Stage;
    StageTouches(e, nb, devs, n, slug, disks);
    var nb' := Stage(e, nb, devs, n, slug, disks).nb;
    forall i | 0 <= i < |nb.devices| && IsDrawn(nb.devices[i], nb'.devices[i]) ensures Fits(w.nb.sem, w.kube, c, nb.devices[i]) {
      var j :| 0 <= j < n && devs[j].id == nb.devices[i].id;
      assert devs[j] in devs;
      SelectedHere(nb.sem, nb.devices, w.kube.sites[SiteOf(c)].slug, ClassOf(c), devs[j], i);
    }
  }

  lemma SelectedHere(sem: Semantics, ds: seq<Device>, site: string, model: string, d: Device, i: nat)
    requires UniqueIDs(ds) && d in AvailableDevices(sem, ds, site, model) && i < |ds| && ds[i].id == d.id
    ensures ds[i] == d && Selects(sem, d, site, model)
  {
    assert d in Selected(sem, ds, site, model);
    var j :| 0 <= j < |ds| && ds[j] == d;
    assert i == j;
  }

  lemma SameDraw(w: World, nb': Netbox, c: Claim)
    requires nb'.devices == w.nb.devices
    ensures DrawsFitting(w, nb', c)
  {
  }

  /** What came before left the devices and the sites alone. */
  lemma DrawsOn(w: World, w1: World, nb': Netbox, c: Claim, c1: Claim)
    requires w1.nb.devices == w.nb.devices && w1.nb.sem == w.nb.sem && w1.kube.sites == w.kube.sites
    requires SiteOf(c1) == SiteOf(c) && ClassOf(c1) == ClassOf(c) && DrawsFitting(w1, nb', c1)
    ensures DrawsFitting(w, nb', c)
  {
  }

  lemma AllocateMachinesFits(e: Env, w: World, key: Key, ver: nat, c: Claim)
    requires c.Cluster? && c.spec.site in w.kube.sites && UniqueIDs(w.nb.devices)
    ensures var f := ClusterPass.AllocateMachines(e, w, key, ver, c, w.kube.sites[c.spec.site]);
            DrawsFitting(w, f.w.nb, c) && (f.Go? ==> f.c.Cluster?)
  {
    hide AvailableDevices, Stage, TenantSlug, DrawsFitting, WriteClaim;
    var site := w.kube.sites[c.spec.site];
    var a := ListAvailable(e, w.nb, site.slug, c.spec.machineClass);
    SameDraw(w, w.nb, c);
    SameDraw(w, a.nb, c);
    if a.value.Some? {
      StageFitting(e, w, c, a.nb, a.value.value, ClusterPass.Min(c.spec.machineCount, |a.value.value|), TenantSlug(key.ns), true);
    }
  }

  lemma GrowFits(e: Env, w: World, key: Key, ver: nat, c: Claim, delta: nat)
    requires c.Cluster? && c.spec.site in w.kube.sites && UniqueIDs(w.nb.devices)
    ensures DrawsFitting(w, ClusterPass.Grow(e, w, key, ver, c, w.kube.sites[c.spec.site], delta).w.nb, c)
  {
    hide AvailableDevices, Stage, TenantSlug, DrawsFitting, WriteClaim, SetCondition;
    var site := w.kube.sites[c.spec.site];
    var a := ListAvailable(e, w.nb, site.slug, c.spec.machineClass);
    SameDraw(w, a.nb, c);
    if a.value.Some? && |a.value.value| >= delta {
      StageFitting(e, w, c, a.nb, a.value.value, delta, TenantSlug(key.ns), false);
    }
  }

  lemma AllocateMachineFits(e: Env, w: World, key: Key, ver: nat, c: Claim)
    requires c.Server? && c.sspec.site in w.kube.sites && UniqueIDs(w.nb.devices)
    ensures var f := ServerPass.AllocateMachine(e, w, key, ver, c, w.kube.sites[c.sspec.site]);
            DrawsFitting(w, f.w.nb, c) && (f.Go? ==> f.c.Server?)
  {
    hide AvailableDevices, Stage, TenantSlug, DrawsFitting, WriteClaim;
    var site := w.kube.sites[c.sspec.site];
    var a := ListAvailable(e, w.nb, site.slug, c.sspec.machineClass);
    SameDraw(w, w.nb, c);
    SameDraw(w, a.nb, c);
    if a.value.Some? && a.value.value != [] {
      StageFitting(e, w, c, a.nb, a.value.value, 1, TenantSlug(key.ns), false);
    }
  }

  // ---- The passes that take machines ------------------------------------------------------

  /** Only calls, addresses and the store have moved, and the claim asks for the same. */
  predicate SameOffer(w: World, c: Claim, f: Flow) {
    && f.w.nb.devices == w.nb.devices && f.w.nb.sem == w.nb.sem && f.w.kube.sites == w.kube.sites
    && (f.Go? ==> SiteOf(f.c) == SiteOf(c) && ClassOf(f.c) == ClassOf(c) && f.c.Cluster? == c.Cluster?)
  }

  lemma AddressesOffer(e: Env, w: World, key: Key, ver: nat, c: Claim, site: Site)
    requires c.Cluster?
    ensures SameOffer(w, c, ClusterPass.AllocateControlPlaneIP(e, w, key, ver, c, site))
    ensures SameOffer(w, c, ClusterPass.AllocateWebhookIP(e, w, key, ver, c, site))
  {
    hide TenantSlug, StripPrefix, WriteClaim;
    WriteSites(e);
  }

  lemma ServerIPOffer(e: Env, w: World, key: Key, ver: nat, c: Claim, site: Site)
    requires c.Server?
    ensures SameOffer(w, c, ServerPass.AllocateServerIP(e, w, key, ver, c, site))
  {
    hide TenantSlug, StripPrefix, WriteClaim;
    WriteSites(e);
  }

  lemma WriteSites(e: Env)
    ensures forall k: Kube, key: Key, ver: nat, v: Option<Claim> :: WriteClaim(e, k, key, ver, v).k.sites == k.sites
  {
  }

  lemma RunJobDevices(e: Env, w: World, key: Key, ver: nat, c: Claim, site: Site)
    ensures c.Cluster? ==> ClusterPass.RunJob(e, w, key, ver, c, site).w.nb == w.nb
    ensures c.Server? ==> ServerPass.RunJob(e, w, key, ver, c).w.nb == w.nb
  {
    hide WriteClaim, CreateJob, SetCondition, ClusterPass.EnsureAll, ClusterPass.CAPIObjects;
  }

  lemma ProvisionFits(e: Env, w: World, key: Key, ver: nat, c: Claim)
    requires c.Cluster? && UniqueIDs(w.nb.devices)
    ensures DrawsFitting(w, ClusterPass.Provision(e, w, key, ver, c).w.nb, c)
  {
    hide DrawsFitting, ClusterPass.AllocateControlPlaneIP, ClusterPass.AllocateWebhookIP, ClusterPass.AllocateMachines, ClusterPass.RunJob;
    var s := Get(e, w.kube, w.kube.sites, c.spec.site);
    var w1, f := w.(kube := s.k), ClusterPass.Provision(e, w, key, ver, c);
    SameDraw(w, w.nb, c);
    if s.read.Found? {
      var site := s.read.value;
      AddressesOffer(e, w1, key, ver, c, site);
      var f1 := ClusterPass.AllocateControlPlaneIP(e, w1, key, ver, c, site);
      SameDraw(w, f1.w.nb, c);
      if f1.Go? {
        AddressesOffer(e, f1.w, key, f1.ver, f1.c, site);
        var f2 := ClusterPass.AllocateWebhookIP(e, f1.w, key, f1.ver, f1.c, site);
        SameDraw(w, f2.w.nb, c);
        if f2.Go? {
          assert f2.c.spec.site == c.spec.site;
          AllocateMachinesFits(e, f2.w, key, f2.ver, f2.c);
          var f3 := ClusterPass.AllocateMachines(e, f2.w, key, f2.ver, f2.c, site);
          DrawsOn(w, f2.w, f3.w.nb, c, f2.c);
          if f3.Go? { RunJobDevices(e, f3.w, key, f3.ver, f3.c, site); }
        }
      }
    }
  }

  lemma ServerProvisionFits(e: Env, w: World, key: Key, ver: nat, c: Claim)
    requires c.Server? && UniqueIDs(w.nb.devices)
    ensures DrawsFitting(w, ServerPass.Provision(e, w, key, ver, c).w.nb, c)
  {
    hide DrawsFitting, ServerPass.AllocateServerIP, ServerPass.AllocateMachine, ServerPass.RunJob;
    var s := Get(e, w.kube, w.kube.sites, c.sspec.site);
    var w1 := w.(kube := s.k);
    SameDraw(w, w.nb, c);
    if s.read.Found? {
      var site := s.read.value;
      ServerIPOffer(e, w1, key, ver, c, site);
      var f1 := ServerPass.AllocateServerIP(e, w1, key, ver, c, site);
      SameDraw(w, f1.w.nb, c);
      if f1.Go? {
        assert f1.c.sspec.site == c.sspec.site;
        AllocateMachineFits(e, f1.w, key, f1.ver, f1.c);
        var f2 := ServerPass.AllocateMachine(e, f1.w, key, f1.ver, f1.c, site);
        DrawsOn(w, f1.w, f2.w.nb, c, f1.c);
        if f2.Go? { RunJobDevices(e, f2.w, key, f2.ver, f2.c, site); }
      }
    }
  }

  lemma ScaleFits(e: Env, w: World, key: Key, ver: nat, c: Claim)
    requires c.Cluster? && c.spec.machineCount > |c.st.machineIDs| && UniqueIDs(w.nb.devices)
    ensures DrawsFitting(w, ClusterPass.SteadyState(e, w, key, ver, c).w.nb, c)
  {
    hide DrawsFitting, ClusterPass.Grow, DeleteClaim;
    var s := Get(e, w.kube, w.kube.sites, c.spec.site);
    SameDraw(w, w.nb, c);
    if s.read.Found? {
      var w1, delta := w.(kube := s.k), c.spec.machineCount - |c.st.machineIDs|;
      GrowFits(e, w1, key, ver, c, delta);
      DrawsOn(w, w1, ClusterPass.Grow(e, w1, key, ver, c, s.read.value, delta).w.nb, c, c);
    }
  }

  /** A pass that takes machines at all takes fitting ones. */
  lemma WantingFits(e: Env, w: World, key: Key, ver: nat, c: Claim)
    requires Seen(w.kube.store, key, ver) == Some(c) && Wanted(c) > 0 && UniqueIDs(w.nb.devices)
    ensures DrawsFitting(w, Next(e, w, Pass(key, ver)).nb, c)
  {
    hide DrawsFitting, ClusterPass.Provision, ClusterPass.SteadyState, ServerPass.Provision;
    var got := ReadClaim(e, w.kube, key, ver);
    var w1 := w.(kube := got.k);
    SameDraw(w, w.nb, c);
    if got.read.Found? {
      if c.Server? {
        ServerProvisionFits(e, w1, key, ver, c);
      } else if c.st.phase == Provisioning {
        ProvisionFits(e, w1, key, ver, c);
      } else {
        ScaleFits(e, w1, key, ver, c);
      }
      DrawsOn(w, w1, Next(e, w, Pass(key, ver)).nb, c, c);
    }
  }

  /** A pass draws nothing unless its claim wants something, and only what fits. */
  lemma PassFits(e: Env, w: World, key: Key, ver: nat, c: Claim)
    requires Seen(w.kube.store, key, ver) == Some(c) && UniqueIDs(w.nb.devices) && TenantSlug(key.ns) != ""
    ensures DrawsFitting(w, Next(e, w, Pass(key, ver)).nb, c)
  {
    hide Reconcile, TenantSlug, Wanted, AllMove, Fits;
    if Wanted(c) > 0 {
      WantingFits(e, w, key, ver, c);
    } else {
      PassAccount(e, w, key, ver);
      DrawsNone(w, Next(e, w, Pass(key, ver)), Reconcile(e, w, key, ver).reply, key, c);
    }
  }

  lemma DrawsNone(w: World, w': World, reply: Reply, key: Key, c: Claim)
    requires LooseAccount(w, Stop(w', reply), key, 0)
    ensures DrawsFitting(w, w'.nb, c)
  {
    hide TenantSlug, Fits, Moves;
    assert Drawn(w.nb.devices, w'.nb.devices) == {};
    assert forall i :: 0 <= i < |w.nb.devices| ==> w.nb.devices[i].id !in Drawn(w.nb.devices, w'.nb.devices);
  }

  // ---- Over runs --------------------------------------------------------------------------

  /** In every run, whatever fails: a machine that a claim of either kind newly records was free and is what a query
      for the class and site of the version the pass saw selects; with the HTTP client it has exactly that model and
      is on exactly that site. */
  lemma {:induction false} RecordsFitting(e: Env, r: Run, n: nat, key: Key, ver: nat, c: Claim, id: int) returns (i: nat)
    requires IsRun(e, r) && n < |r.events| && r.events[n] == Pass(key, ver) && TenantSlug(key.ns) != ""
    requires UniqueIDs(r.worlds[n].nb.devices) && Seen(r.worlds[n].kube.store, key, ver) == Some(c)
    requires id in Held(r.worlds[n + 1].kube.store, Machine, key) && id !in Held(r.worlds[n].kube.store, Machine, key)
    ensures var w := r.worlds[n];
            && i < |w.nb.devices| && w.nb.devices[i].id == id && Available(w.nb.devices[i]) && Fits(w.nb.sem, w.kube, c, w.nb.devices[i])
            && (w.nb.sem == Real ==> w.nb.devices[i].site == w.kube.sites[SiteOf(c)].slug && w.nb.devices[i].model == ClassOf(c))
  {
    hide Reconcile, TenantSlug, Wanted;
    var w, w' := r.worlds[n], r.worlds[n + 1];
    assert Linked(e, r, n);
    PassFits(e, w, key, ver, c);
    PassAccount(e, w, key, ver);
    i := NewlyDrawn(w, w', Reconcile(e, w, key, ver).reply, key, WantedBy(w, key, ver), id);
  }

  lemma NewlyDrawn(w: World, w': World, reply: Reply, key: Key, limit: nat, id: int) returns (i: nat)
    requires LooseAccount(w, Stop(w', reply), key, limit)
    requires id in Held(w'.kube.store, Machine, key) && id !in Held(w.kube.store, Machine, key)
    ensures i < |w.nb.devices| && |w'.nb.devices| == |w.nb.devices| && w.nb.devices[i].id == id && IsDrawn(w.nb.devices[i], w'.nb.devices[i])
  {
    hide TenantSlug, Moves;
    assert id in SetOf(Held(w'.kube.store, Machine, key)) && id !in SetOf(Held(w.kube.store, Machine, key));
    assert id in Drawn(w.nb.devices, w'.nb.devices);
    i :| i < |w.nb.devices| && w.nb.devices[i].id == id && IsDrawn(w.nb.devices[i], w'.nb.devices[i]);
  }
}
