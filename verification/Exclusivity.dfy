/** Exclusive ownership over all runs: what every step of every pass does to the holdings invariant.
    Under the real client the weak invariant survives everything: refused and half-done calls, passes
    that stop anywhere, and stale reads. Under either client the strong invariant survives exactly as
    long as a pass that releases machines also gets its claim written. */
module Exclusivity {
  import opened Basics
  import opened Text
  import opened Claims
  import opened Environment
  import opened Inventory
  import opened ApiServer
  import opened Passes
  import opened Holdings
  import ClusterPass
  import RoleRules
  import ServerPass
  import opened Runs

  /** Nothing the invariant speaks of has changed. */
  lemma Frame(strong: bool, w: World, w': World, key: Key, ver: nat, c: Claim, c': Claim)
    requires FlowInv(strong, Go(w, ver, c), key)
    requires w'.nb.devices == w.nb.devices && w'.nb.nextIP == w.nb.nextIP && w'.nb.sem == w.nb.sem
    requires w'.kube.store == w.kube.store
    requires Recorded(Machine, c') == Recorded(Machine, c) && Recorded(Address, c') == Recorded(Address, c)
    ensures FlowInv(strong, Go(w', ver, c'), key)
    ensures Inv(strong, w')
  {
    assert forall k :: Held(w'.kube.store, Machine, k) == Held(w.kube.store, Machine, k);
    forall k: Key ensures Issued(w'.nb, Held(w'.kube.store, Address, k)) {
      assert Issued(w.nb, Held(w.kube.store, Address, k));
    }
  }

  // ---- Addresses --------------------------------------------------------------------------

  lemma AllocateIPKeeps(strong: bool, e: Env, w: World, key: Key, ver: nat, c: Claim, c': Claim)
    requires FlowInv(strong, Go(w, ver, c), key)
    requires Recorded(Machine, c') == Recorded(Machine, c)
    requires Recorded(Address, c') == Recorded(Address, c) + [w.nb.nextIP] || Recorded(Address, c') == [w.nb.nextIP]
    ensures var a := AllocateIP(e, w.nb);
            && Inv(strong, w.(nb := a.nb))
            && (a.value.Some? ==> FlowInv(strong, Go(w.(nb := a.nb), ver, c'), key))
  {
    var a := AllocateIP(e, w.nb);
    var w' := w.(nb := a.nb);
    forall k: Key ensures Issued(a.nb, Held(w.kube.store, Address, k)) {
      assert Issued(w.nb, Held(w.kube.store, Address, k));
    }
    if a.value.Some? && IsCurrent(w.kube.store, key, ver) {
      var ids := Recorded(Address, c);
      assert Fits(w.kube.store, Address, key, ids) && Issued(w.nb, ids);
      assert forall i :: 0 <= i < |ids| ==> ids[i] in ids;
      assert NoDup(Recorded(Address, c'));
      forall k | k != key ensures Apart(Recorded(Address, c'), Held(w.kube.store, Address, k)) {
        assert Issued(w.nb, Held(w.kube.store, Address, k));
      }
    }
  }

  lemma ControlPlaneIPKeeps(strong: bool, e: Env, w: World, key: Key, ver: nat, c: Claim, site: Site)
    requires c.Cluster? && FlowInv(strong, Go(w, ver, c), key)
    ensures FlowInv(strong, ClusterPass.AllocateControlPlaneIP(e, w, key, ver, c, site), key)
  {
    if c.st.cpIP == "" {
      var a := AllocateIP(e, w.nb);
      var c' := c.(st := c.st.(
        cpIP := StripPrefix(e.address(w.nb.nextIP)),
        cpDNS := key.name + "-api." + TenantSlug(key.ns) + "." + site.zone,
        ipamIDs := c.st.ipamIDs + [w.nb.nextIP]));
      AllocateIPKeeps(strong, e, w, key, ver, c, c');
      if a.value.Some? {
        SaveKeepsInv(strong, e, w.(nb := a.nb), key, ver, c');
      }
    }
  }

  lemma WebhookIPKeeps(strong: bool, e: Env, w: World, key: Key, ver: nat, c: Claim, site: Site)
    requires c.Cluster? && FlowInv(strong, Go(w, ver, c), key)
    ensures FlowInv(strong, ClusterPass.AllocateWebhookIP(e, w, key, ver, c, site), key)
  {
    if c.st.whIP == "" {
      var a := AllocateIP(e, w.nb);
      var c' := c.(st := c.st.(
        whIP := StripPrefix(e.address(w.nb.nextIP)),
        whDNS := key.name + "-wh." + TenantSlug(key.ns) + "." + site.zone,
        ipamIDs := c.st.ipamIDs + [w.nb.nextIP]));
      AllocateIPKeeps(strong, e, w, key, ver, c, c');
      if a.value.Some? {
        SaveKeepsInv(strong, e, w.(nb := a.nb), key, ver, c');
      }
    }
  }

  lemma ServerIPKeeps(strong: bool, e: Env, w: World, key: Key, ver: nat, c: Claim, site: Site)
    requires c.Server? && FlowInv(strong, Go(w, ver, c), key)
    ensures FlowInv(strong, ServerPass.AllocateServerIP(e, w, key, ver, c, site), key)
  {
    if c.sst.ip == "" {
      var a := AllocateIP(e, w.nb);
      var c' := c.(sst := c.sst.(
        ip := StripPrefix(e.address(w.nb.nextIP)),
        dns := key.name + "." + TenantSlug(key.ns) + "." + site.zone,
        ipamID := w.nb.nextIP));
      AllocateIPKeeps(strong, e, w, key, ver, c, c');
      if a.value.Some? {
        SaveKeepsInv(strong, e, w.(nb := a.nb), key, ver, c');
      }
    }
  }

  // ---- Machines ---------------------------------------------------------------------------

  lemma ListingOffers(e: Env, nb: Netbox, site: string, model: string)
    requires UniqueIDs(nb.devices)
    ensures var a := ListAvailable(e, nb, site, model);
            && a.nb == nb.(calls := nb.calls + 1)
            && (a.value.Some? ==> Offered(nb.devices, a.value.value))
  {
    ListedAreAvailable(e, nb, site, model);
  }

  /** Staging for a claim, then adding what was staged to what it records. */
  lemma StageKeeps(strong: bool, e: Env, w: World, key: Key, ver: nat, c: Claim, nb: Netbox,
                   devs: seq<Device>, n: nat, disks: bool, c': Claim)
    requires FlowInv(strong, Go(w, ver, c), key) && TenantSlug(key.ns) != ""
    requires nb.devices == w.nb.devices && nb.nextIP == w.nb.nextIP && nb.sem == w.nb.sem
    requires Offered(nb.devices, devs) && n <= |devs|
    requires var s := Stage(e, nb, devs, n, TenantSlug(key.ns), disks);
             && Recorded(Machine, c') == Recorded(Machine, c) + s.ids
             && Recorded(Address, c') == Recorded(Address, c)
    ensures var s := Stage(e, nb, devs, n, TenantSlug(key.ns), disks);
            && Inv(strong, w.(nb := s.nb))
            && FlowInv(strong, Go(w.(nb := s.nb), ver, c'), key)
  {
    var s := Stage(e, nb, devs, n, TenantSlug(key.ns), disks);
    StageFacts(e, nb, devs, n, TenantSlug(key.ns), disks);
    StagingKeepsInv(strong, w, s.nb, TenantSlug(key.ns));
    if IsCurrent(w.kube.store, key, ver) {
      StagedFit(strong, w, key, nb, devs, n, e, disks, Recorded(Machine, c));
    }
  }

  lemma AllocateMachinesKeeps(strong: bool, e: Env, w: World, key: Key, ver: nat, c: Claim, site: Site)
    requires c.Cluster? && FlowInv(strong, Go(w, ver, c), key) && TenantSlug(key.ns) != ""
    ensures FlowInv(strong, ClusterPass.AllocateMachines(e, w, key, ver, c, site), key)
  {
    if c.st.machineIDs == [] {
      ListingOffers(e, w.nb, site.slug, c.spec.machineClass);
      var a := ListAvailable(e, w.nb, site.slug, c.spec.machineClass);
      if a.value.None? {
        Frame(strong, w, w.(nb := a.nb), key, ver, c, c);
      } else {
        var n := ClusterPass.Min(c.spec.machineCount, |a.value.value|);
        var s := Stage(e, a.nb, a.value.value, n, TenantSlug(key.ns), true);
        var c' := c.(st := c.st.(machineIDs := s.ids, osdDevices := s.osd));
        assert Recorded(Machine, c) + s.ids == s.ids;
        StageKeeps(strong, e, w, key, ver, c, a.nb, a.value.value, n, true, c');
        SaveKeepsInv(strong, e, w.(nb := s.nb), key, ver, c');
      }
    }
  }

  lemma ScaleUpKeeps(strong: bool, e: Env, w: World, key: Key, ver: nat, c: Claim, delta: nat)
    requires c.Cluster? && FlowInv(strong, Go(w, ver, c), key) && TenantSlug(key.ns) != ""
    ensures FlowInv(strong, ClusterPass.ScaleUp(e, w, key, ver, c, delta), key)
  {
    var s := Get(e, w.kube, w.kube.sites, c.spec.site);
    var w1 := w.(kube := s.k);
    Frame(strong, w, w1, key, ver, c, c);
    if s.read.Found? {
      ListingOffers(e, w1.nb, s.read.value.slug, c.spec.machineClass);
      var a := ListAvailable(e, w1.nb, s.read.value.slug, c.spec.machineClass);
      var blocked := c.(st := ClusterPass.Mark(c.st, "ScaleUpBlocked", true, "InsufficientMachines"));
      Frame(strong, w1, w1.(nb := a.nb), key, ver, c, blocked);
      if a.value.Some? {
        if |a.value.value| < delta {
          SaveKeepsInv(strong, e, w1.(nb := a.nb), key, ver, blocked);
        } else {
          var t := Stage(e, a.nb, a.value.value, delta, TenantSlug(key.ns), false);
          var c' := c.(st := c.st.(machineIDs := c.st.machineIDs + t.ids));
          StageKeeps(strong, e, w1, key, ver, c, a.nb, a.value.value, delta, false, c');
          SaveKeepsInv(strong, e, w1.(nb := t.nb), key, ver, c');
        }
      }
    }
  }

  lemma AllocateMachineKeeps(strong: bool, e: Env, w: World, key: Key, ver: nat, c: Claim, site: Site)
    requires c.Server? && FlowInv(strong, Go(w, ver, c), key) && TenantSlug(key.ns) != ""
    ensures FlowInv(strong, ServerPass.AllocateMachine(e, w, key, ver, c, site), key)
  {
    if c.sst.machineID == 0 {
      ListingOffers(e, w.nb, site.slug, c.sspec.machineClass);
      var a := ListAvailable(e, w.nb, site.slug, c.sspec.machineClass);
      Frame(strong, w, w.(nb := a.nb), key, ver, c, c);
      if a.value.Some? {
        if a.value.value == [] {
          ServerFailKeeps(strong, e, w.(nb := a.nb), key, ver, c, "InsufficientMachines");
        } else {
          var s := Stage(e, a.nb, a.value.value, 1, TenantSlug(key.ns), false);
          StageFacts(e, a.nb, a.value.value, 1, TenantSlug(key.ns), false);
          var c' := c.(sst := c.sst.(machineID := a.value.value[0].id));
          if s.ok {
            assert s.ids == [a.value.value[0].id];
            StageKeeps(strong, e, w, key, ver, c, a.nb, a.value.value, 1, false, c');
            SaveKeepsInv(strong, e, w.(nb := s.nb), key, ver, c');
          } else {
            StagingKeepsInv(strong, w, s.nb, TenantSlug(key.ns));
          }
        }
      }
    }
  }

  // ---- Steps that leave the holdings alone ------------------------------------------------

  lemma FailKeeps(strong: bool, e: Env, w: World, key: Key, ver: nat, c: Claim, reason: string)
    requires c.Cluster? && FlowInv(strong, Go(w, ver, c), key)
    ensures FlowInv(strong, ClusterPass.Fail(e, w, key, ver, c, reason), key)
  {
    var c' := c.(st := ClusterPass.Mark(c.st.(phase := Failed), "Validated", false, reason));
    Frame(strong, w, w, key, ver, c, c');
    SaveKeepsInv(strong, e, w, key, ver, c');
  }

  lemma ServerFailKeeps(strong: bool, e: Env, w: World, key: Key, ver: nat, c: Claim, reason: string)
    requires c.Server? && FlowInv(strong, Go(w, ver, c), key)
    ensures FlowInv(strong, ServerPass.Fail(e, w, key, ver, c, reason), key)
  {
    var c' := c.(sst := c.sst.(phase := Failed, conditions := c.sst.conditions + [Condition("Ready", false, reason)]));
    Frame(strong, w, w, key, ver, c, c');
    SaveKeepsInv(strong, e, w, key, ver, c');
  }

  lemma ValidateKeeps(strong: bool, e: Env, w: World, key: Key, ver: nat, c: Claim)
    requires c.Cluster? && FlowInv(strong, Go(w, ver, c), key)
    ensures FlowInv(strong, ClusterPass.Validate(e, w, key, ver, c), key)
  {
    hide ClusterPass.Fail, WriteClaim, Inv;
    var p := Get(e, w.kube, w.kube.profiles, c.spec.profile);
    Frame(strong, w, w.(kube := p.k), key, ver, c, c);
    if !p.read.Found? {
      FailKeeps(strong, e, w.(kube := p.k), key, ver, c, "AddonProfileNotFound");
    } else {
      var s := Get(e, p.k, p.k.sites, c.spec.site);
      var w1 := w.(kube := s.k);
      Frame(strong, w, w1, key, ver, c, c);
      if !s.read.Found? {
        FailKeeps(strong, e, w1, key, ver, c, "SiteConfigNotFound");
      } else {
        var a := ListAvailable(e, w1.nb, s.read.value.slug, c.spec.machineClass);
        var w2 := w1.(nb := a.nb);
        var c' := c.(st := ClusterPass.Validated(c.st));
        Frame(strong, w1, w2, key, ver, c, c);
        Frame(strong, w1, w2, key, ver, c, c');
        FailKeeps(strong, e, w2, key, ver, c, "InsufficientMachines");
        FailKeeps(strong, e, w2, key, ver, c, "MachineClassIncompatible");
        SaveKeepsInv(strong, e, w2, key, ver, c');
      }
    }
  }

  /** The object is as it was, or `set_` and it now says `body`; its readiness is nobody's but the outside's. */
  predicate SetOrSame(o: Object, o': Object, set_: bool, body: Body) {
    o' == o || (set_ && o' == o.(body := body))
  }

  lemma EnsureFrame(e: Env, k: Kube, obj: Obj, body: Body, update: bool)
    ensures var k' := Ensure(e, k, obj, body, update).k;
            k' == k.(objects := k'.objects, calls := k'.calls)
    ensures var d := Ensure(e, k, obj, body, update);
            && (d.ok ==> obj in d.k.objects)
            && (forall o :: o in k.objects ==> o in d.k.objects && SetOrSame(k.objects[o], d.k.objects[o], update && o == obj, body))
            && (forall o :: o in d.k.objects && o !in k.objects ==>
                  o == obj && d.k.objects[o] == Object(body, false))
    ensures NoFaults(e) ==> Ensure(e, k, obj, body, update).ok
  {
    hide Ensure;
    EnsureCases(e, k, obj, body, update);
  }

  /** One Ensure leaves the objects alone, sets the one that is there, or creates it. */
  lemma EnsureCases(e: Env, k: Kube, obj: Obj, body: Body, update: bool)
    ensures var d := Ensure(e, k, obj, body, update);
            && d.k == k.(objects := d.k.objects, calls := d.k.calls)
            && (|| d.k.objects == k.objects
                || (obj in k.objects && update && d.k.objects == k.objects[obj := k.objects[obj].(body := body)])
                || (obj !in k.objects && d.k.objects == k.objects[obj := Object(body, false)]))
            && (d.ok ==> obj in d.k.objects) && (NoFaults(e) ==> d.ok)
  {
  }

  lemma {:induction false} EnsureAllFrame(e: Env, k: Kube, objs: seq<ClusterPass.Want>, n: nat)
    requires n <= |objs|
    ensures var k' := ClusterPass.EnsureAll(e, k, objs, n).k;
            k' == k.(objects := k'.objects, calls := k'.calls)
  {
    hide Ensure;
    if n > 0 {
      EnsureAllFrame(e, k, objs, n - 1);
      EnsureFrame(e, ClusterPass.EnsureAll(e, k, objs, n - 1).k, objs[n - 1].obj, objs[n - 1].body, objs[n - 1].update);
    }
  }

  lemma {:induction false} InstallFrame(e: Env, k: Kube, key: Key, st: ClusterStatus, comps: seq<Component>, n: nat)
    requires n <= |comps|
    ensures var k' := ClusterPass.Install(e, k, key, st, comps, n).k;
            k' == k.(objects := k'.objects, calls := k'.calls)
  {
    hide Ensure, ClusterPass.ReleaseOf, ClusterPass.ReleaseBody;
    if n > 0 {
      InstallFrame(e, k, key, st, comps, n - 1);
      var d := ClusterPass.Install(e, k, key, st, comps, n - 1);
      EnsureFrame(e, d.k, ClusterPass.ReleaseOf(key, comps[n - 1].name),
                  ClusterPass.ReleaseBody(e, d.k.calls, key, st, comps[n - 1]), false);
    }
  }

  lemma {:induction false} CheckReadyFrame(e: Env, k: Kube, key: Key, comps: seq<Component>, n: nat)
    requires n <= |comps|
    ensures var k' := ClusterPass.CheckReady(e, k, key, comps, n).k;
            k' == k.(calls := k'.calls)
  {
    hide ClusterPass.ReleaseOf;
    if n > 0 { CheckReadyFrame(e, k, key, comps, n - 1); }
  }

  lemma RunJobKeeps(strong: bool, e: Env, w: World, key: Key, ver: nat, c: Claim, site: Site)
    requires c.Cluster? && FlowInv(strong, Go(w, ver, c), key)
    ensures FlowInv(strong, ClusterPass.RunJob(e, w, key, ver, c, site), key)
  {
    var got := Get(e, w.kube, w.kube.jobs, JobOf(key));
    var w1 := w.(kube := got.k);
    Frame(strong, w, w1, key, ver, c, c);
    match got.read {
      case Broken =>
      case NotFound =>
        Frame(strong, w, w.(kube := CreateJob(e, got.k, JobOf(key)).k), key, ver, c, c);
      case Found(job) =>
        FailKeeps(strong, e, w1, key, ver, c, "MachineCfgFailed");
        EnsureClusterKeeps(strong, e, w1, key, ver, c, site);
    }
  }

  lemma EnsureClusterKeeps(strong: bool, e: Env, w: World, key: Key, ver: nat, c: Claim, site: Site)
    requires c.Cluster? && FlowInv(strong, Go(w, ver, c), key)
    ensures FlowInv(strong, ClusterPass.EnsureCluster(e, w, key, ver, c, site), key)
  {
    var objs := ClusterPass.CAPIObjects(key, c, site);
    EnsureAllFrame(e, w.kube, objs, |objs|);
    var d := ClusterPass.EnsureAll(e, w.kube, objs, |objs|);
    Frame(strong, w, w.(kube := d.k), key, ver, c, c);
    var got := Get(e, d.k, d.k.objects, ClusterPass.CAPICluster(key));
    Frame(strong, w, w.(kube := got.k), key, ver, c, c);
    if got.read.Found? {
      var c' := c.(st := ClusterPass.Configured(c.st, key.name, got.read.value.ready));
      Frame(strong, w, w.(kube := got.k), key, ver, c, c');
      SaveKeepsInv(strong, e, w.(kube := got.k), key, ver, c');
    }
  }

  lemma WatchAddonsKeeps(strong: bool, e: Env, w: World, key: Key, ver: nat, c: Claim)
    requires c.Cluster? && FlowInv(strong, Go(w, ver, c), key)
    ensures FlowInv(strong, ClusterPass.WatchAddons(e, w, key, ver, c), key)
  {
    var p := Get(e, w.kube, w.kube.profiles, c.spec.profile);
    Frame(strong, w, w.(kube := p.k), key, ver, c, c);
    if p.read.Found? {
      var comps := e.sort(p.k.calls, p.read.value.components);
      var d := ClusterPass.Install(e, p.k, key, c.st, comps, |comps|);
      InstallFrame(e, p.k, key, c.st, comps, |comps|);
      Frame(strong, w, w.(kube := d.k), key, ver, c, c);
      var r := ClusterPass.CheckReady(e, d.k, key, comps, |comps|);
      CheckReadyFrame(e, d.k, key, comps, |comps|);
      Frame(strong, w, w.(kube := r.k), key, ver, c, c);
      var c' := c.(st := ClusterPass.Mark(c.st.(phase := AddonsReady), "AddonsReady", true, "AllAddonsReady"));
      Frame(strong, w, w.(kube := r.k), key, ver, c, c');
      SaveKeepsInv(strong, e, w.(kube := r.k), key, ver, c');
    }
  }

  lemma ExposeKeeps(strong: bool, e: Env, w: World, key: Key, ver: nat, c: Claim)
    requires c.Cluster? && FlowInv(strong, Go(w, ver, c), key)
    ensures FlowInv(strong, ClusterPass.ExposeKubeconfig(e, w, key, ver, c), key)
  {
    var f := ClusterPass.ExposeKubeconfig(e, w, key, ver, c);
    var got := Get(e, w.kube, w.kube.roles, key.ns);
    Frame(strong, w, w.(kube := got.k), key, ver, c, c);
    if got.read.Found? {
      var c' := c.(st := c.st.(phase := Ready, kubeconfig := ClusterPass.SecretOf(key)));
      var put := PutRole(e, got.k, key.ns, RoleRules.Grant(got.read.value, ClusterPass.SecretOf(key)));
      Frame(strong, w, w.(kube := put.k), key, ver, c, c');
      Frame(strong, w, w.(kube := got.k), key, ver, c, c');
      SaveKeepsInv(strong, e, w.(kube := put.k), key, ver, c');
      SaveKeepsInv(strong, e, w.(kube := got.k), key, ver, c');
    }
  }

  lemma ProvisionKeeps(strong: bool, e: Env, w: World, key: Key, ver: nat, c: Claim)
    requires c.Cluster? && FlowInv(strong, Go(w, ver, c), key) && TenantSlug(key.ns) != ""
    ensures FlowInv(strong, ClusterPass.Provision(e, w, key, ver, c), key)
  {
    hide ClusterPass.RunJob, Stage, WriteClaim, ListAvailable, AllocateIP;
    var s := Get(e, w.kube, w.kube.sites, c.spec.site);
    var w1 := w.(kube := s.k);
    Frame(strong, w, w1, key, ver, c, c);
    if s.read.Found? {
      var site := s.read.value;
      ControlPlaneIPKeeps(strong, e, w1, key, ver, c, site);
      var f1 := ClusterPass.AllocateControlPlaneIP(e, w1, key, ver, c, site);
      if f1.Go? {
        WebhookIPKeeps(strong, e, f1.w, key, f1.ver, f1.c, site);
        var f2 := ClusterPass.AllocateWebhookIP(e, f1.w, key, f1.ver, f1.c, site);
        if f2.Go? {
          AllocateMachinesKeeps(strong, e, f2.w, key, f2.ver, f2.c, site);
          var f3 := ClusterPass.AllocateMachines(e, f2.w, key, f2.ver, f2.c, site);
          if f3.Go? {
            RunJobKeeps(strong, e, f3.w, key, f3.ver, f3.c, site);
          }
        }
      }
    }
  }

  // ---- Releasing --------------------------------------------------------------------------

  /** Releasing touches only the machines named, and with the real client no tenant at all. */
  ghost predicate OnlyReleased(sem: Semantics, ds: seq<Device>, ds': seq<Device>, ids: seq<int>) {
    && |ds'| == |ds|
    && (forall i :: 0 <= i < |ds| ==>
          ds'[i] == ds[i] || (ds[i].id in ids && ds'[i] == Patch(sem, ds[i], Active, "")))
  }

  lemma {:induction false} ReleaseEachFacts(e: Env, nb: Netbox, ids: seq<int>, n: nat)
    requires n <= |ids|
    ensures var nb' := ReleaseEach(e, nb, ids, n);
            && nb' == nb.(devices := nb'.devices, calls := nb'.calls)
            && OnlyReleased(nb.sem, nb.devices, nb'.devices, ids)
  {
    if n > 0 { ReleaseEachFacts(e, nb, ids, n - 1); }
  }

  lemma {:induction false} ReleaseUntilErrorFacts(e: Env, nb: Netbox, ids: seq<int>, n: nat)
    requires n <= |ids|
    ensures var nb' := ReleaseUntilError(e, nb, ids, n).nb;
            && nb' == nb.(devices := nb'.devices, calls := nb'.calls)
            && OnlyReleased(nb.sem, nb.devices, nb'.devices, ids)
  {
    if n > 0 { ReleaseUntilErrorFacts(e, nb, ids, n - 1); }
  }

  lemma {:induction false} ReleaseIPsFacts(e: Env, nb: Netbox, ids: seq<int>, n: nat)
    requires n <= |ids|
    ensures var nb' := ReleaseIPs(e, nb, ids, n);
            nb' == nb.(released := nb'.released, calls := nb'.calls)
  {
    if n > 0 { ReleaseIPsFacts(e, nb, ids, n - 1); }
  }

  lemma ReleaseKeepsIDs(sem: Semantics, ds: seq<Device>, ds': seq<Device>, ids: seq<int>)
    requires OnlyReleased(sem, ds, ds', ids)
    ensures forall i :: 0 <= i < |ds| ==> ds'[i].id == ds[i].id
    ensures UniqueIDs(ds) ==> UniqueIDs(ds')
    ensures forall id :: HasDevice(ds, id) ==> HasDevice(ds', id)
  {
    forall id | HasDevice(ds, id) ensures HasDevice(ds', id) {
      var i :| 0 <= i < |ds| && ds[i].id == id;
      assert ds'[i].id == id;
    }
  }

  /** The machines of `ids` that nobody holds may change; weakly, so may any under the real client. */
  ghost predicate Spares(strong: bool, sem: Semantics, ds: seq<Device>, ds': seq<Device>, held: seq<int>) {
    || (!strong && sem == Real)
    || (forall i :: 0 <= i < |ds| && i < |ds'| && ds'[i] != ds[i] ==> ds[i].id !in held)
  }

  lemma ReleaseKeepsSecured(strong: bool, sem: Semantics, ds: seq<Device>, ds': seq<Device>, ids: seq<int>,
                            slug: string, held: seq<int>)
    requires OnlyReleased(sem, ds, ds', ids) && Secured(strong, ds, slug, held) && Spares(strong, sem, ds, ds', held)
    ensures Secured(strong, ds', slug, held)
  {
    ReleaseKeepsIDs(sem, ds, ds', ids);
  }

  lemma ReleaseKeepsInv(strong: bool, w: World, nb': Netbox, ids: seq<int>)
    requires Inv(strong, w) && OnlyReleased(w.nb.sem, w.nb.devices, nb'.devices, ids)
    requires nb'.nextIP == w.nb.nextIP && nb'.sem == w.nb.sem
    requires forall k :: Spares(strong, w.nb.sem, w.nb.devices, nb'.devices, Held(w.kube.store, Machine, k))
    ensures Inv(strong, w.(nb := nb'))
  {
    ReleaseKeepsIDs(w.nb.sem, w.nb.devices, nb'.devices, ids);
    forall k: Key ensures Secured(strong, nb'.devices, TenantSlug(k.ns), Held(w.kube.store, Machine, k)) {
      ReleaseKeepsSecured(strong, w.nb.sem, w.nb.devices, nb'.devices, ids, TenantSlug(k.ns), Held(w.kube.store, Machine, k));
    }
    forall k: Key ensures Issued(nb', Held(w.kube.store, Address, k)) {
      assert Issued(w.nb, Held(w.kube.store, Address, k));
    }
  }

  /** Release `ids` and then write v: the invariant survives when the machines v still records, and
      those of every other claim, are spared. */
  lemma ReleaseThenWriteKeeps(strong: bool, w: World, nb': Netbox, ids: seq<int>, key: Key, v: Option<Claim>)
    requires Inv(strong, w) && OnlyReleased(w.nb.sem, w.nb.devices, nb'.devices, ids)
    requires nb'.nextIP == w.nb.nextIP && nb'.sem == w.nb.sem
    requires v.Some? ==> Writable(strong, w, key, v.value)
    requires forall k :: k != key ==> Apart(ids, Held(w.kube.store, Machine, k))
    requires v.Some? ==> Apart(ids, Recorded(Machine, v.value))
    ensures Inv(strong, World(nb', w.kube.(store := Append(w.kube.store, key, v)), w.ticks))
  {
    AppendKeepsInv(strong, w, key, v);
    var w1 := w.(kube := w.kube.(store := Append(w.kube.store, key, v)));
    HeldAfter(w.kube.store, key, v);
    forall k ensures Spares(strong, w.nb.sem, w.nb.devices, nb'.devices, Held(w1.kube.store, Machine, k)) {
    }
    ReleaseKeepsInv(strong, w1, nb', ids);
  }

  // ---- Passes that release ----------------------------------------------------------------

  /** May a pass that starts from this version release machines? */
  predicate MayRelease(c: Claim) {
    || c.meta.deleting
    || (c.Cluster? && c.meta.finalizer && c.st.phase == Ready && c.spec.machineCount < |c.st.machineIDs|)
  }

  /** The pass got its claim written. */
  ghost predicate Written(w: World, w': World, key: Key) {
    |HistoryOf(w'.kube.store, key)| > |HistoryOf(w.kube.store, key)|
  }

  /** No machine that somebody holds was changed. */
  ghost predicate SparedHeld(w: World, w': World) {
    forall i, k ::
      0 <= i < |w.nb.devices| && i < |w'.nb.devices| && w.nb.devices[i].id in Held(w.kube.store, Machine, k)
      ==> w'.nb.devices[i] == w.nb.devices[i]
  }

  /** Under which circumstances a releasing pass keeps the invariant. */
  ghost predicate Settles(strong: bool, w: World, w': World, key: Key) {
    !strong || Written(w, w', key) || SparedHeld(w, w')
  }

  /** What a releasing pass comes down to: release some of the machines recorded in the version it
      read, change at most call counters, jobs and roles, and try to write v. */
  ghost predicate ReleasesAndWrites(w: World, w': World, key: Key, ver: nat, ids: seq<int>, v: Option<Claim>) {
    && OnlyReleased(w.nb.sem, w.nb.devices, w'.nb.devices, ids)
    && w'.nb.nextIP == w.nb.nextIP && w'.nb.sem == w.nb.sem
    && (|| w'.kube.store == w.kube.store
        || (IsCurrent(w.kube.store, key, ver) && w'.kube.store == Append(w.kube.store, key, v)))
  }

  lemma ReleasingPassKeeps(strong: bool, w: World, w': World, key: Key, ver: nat, c: Claim, ids: seq<int>, v: Option<Claim>)
    requires FlowInv(strong, Go(w, ver, c), key) && ReleasesAndWrites(w, w', key, ver, ids, v)
    requires Settles(strong, w, w', key)
    requires forall id :: id in ids ==> id in Recorded(Machine, c)
    requires v.Some? ==>
      && (IsCurrent(w.kube.store, key, ver) ==> Writable(strong, w, key, v.value))
      && Apart(ids, Recorded(Machine, v.value))
    ensures Inv(strong, w')
  {
    if w'.kube.store == w.kube.store {
      forall k ensures Spares(strong, w.nb.sem, w.nb.devices, w'.nb.devices, Held(w.kube.store, Machine, k)) {
      }
      ReleaseKeepsInv(strong, w, w'.nb, ids);
      SameInv(strong, w.(nb := w'.nb), w', key, c);
    } else {
      assert Fits(w.kube.store, Machine, key, Recorded(Machine, c));
      forall k | k != key ensures Apart(ids, Held(w.kube.store, Machine, k)) {
        assert Apart(Recorded(Machine, c), Held(w.kube.store, Machine, k));
      }
      ReleaseThenWriteKeeps(strong, w, w'.nb, ids, key, v);
      SameInv(strong, World(w'.nb, w.kube.(store := Append(w.kube.store, key, v)), w.ticks), w', key, c);
    }
  }

  /** The converse: a releasing pass that changed a machine somebody still holds breaks the strong invariant. */
  lemma UnsettledBreaks(w: World, w': World, key: Key, ver: nat, ids: seq<int>, v: Option<Claim>)
    requires Inv(true, w) && ReleasesAndWrites(w, w', key, ver, ids, v)
    requires !Written(w, w', key) && !SparedHeld(w, w')
    ensures !Inv(true, w')
  {
    var i, k :| 0 <= i < |w.nb.devices| && i < |w'.nb.devices|
      && w.nb.devices[i].id in Held(w.kube.store, Machine, k) && w'.nb.devices[i] != w.nb.devices[i];
    assert w'.kube.store == w.kube.store by {
      HeldAfter(w.kube.store, key, v);
    }
    assert w'.nb.devices[i].status == Active;
    assert !Secured(true, w'.nb.devices, TenantSlug(k.ns), Held(w'.kube.store, Machine, k));
  }

  lemma RevokeFrame(e: Env, k: Kube, key: Key, secret: string)
    ensures ClusterPass.RevokeKubeconfig(e, k, key, secret).store == k.store
  {
  }

  lemma FinalizeShape(e: Env, w: World, key: Key, ver: nat, c: Claim)
    ensures var w' := (if c.Cluster? then ClusterPass.Finalize(e, w, key, ver, c) else ServerPass.Finalize(e, w, key, ver, c)).w;
            ReleasesAndWrites(w, w', key, ver, Recorded(Machine, c), None)
  {
    var ips, ids := Recorded(Address, c), Recorded(Machine, c);
    var nb1 := ReleaseIPs(e, w.nb, ips, |ips|);
    ReleaseIPsFacts(e, w.nb, ips, |ips|);
    ReleaseEachFacts(e, nb1, ids, |ids|);
    if c.Cluster? {
      RevokeFrame(e, w.kube, key, c.st.kubeconfig);
    }
  }

  lemma ScaleDownShape(e: Env, w: World, key: Key, ver: nat, c: Claim, delta: nat)
    requires c.Cluster? && delta <= |c.st.machineIDs|
    ensures var w' := ClusterPass.ScaleDown(e, w, key, ver, c, delta).w;
            var keep := |c.st.machineIDs| - delta;
            var blocked := c.(st := ClusterPass.Mark(c.st, "ScaleDownBlocked", true, "RookCephPresent"));
            || ReleasesAndWrites(w, w', key, ver, [], Some(blocked))
            || ReleasesAndWrites(w, w', key, ver, c.st.machineIDs[keep..],
                                 Some(c.(st := c.st.(machineIDs := c.st.machineIDs[..keep]))))
  {
    var keep := |c.st.machineIDs| - delta;
    ReleaseUntilErrorFacts(e, w.nb, c.st.machineIDs[keep..], delta);
  }

  lemma FinalizeKeeps(strong: bool, e: Env, w: World, key: Key, ver: nat, c: Claim)
    requires FlowInv(strong, Go(w, ver, c), key)
    requires var f := if c.Cluster? then ClusterPass.Finalize(e, w, key, ver, c) else ServerPass.Finalize(e, w, key, ver, c);
             Settles(strong, w, f.w, key)
    ensures var f := if c.Cluster? then ClusterPass.Finalize(e, w, key, ver, c) else ServerPass.Finalize(e, w, key, ver, c);
            Inv(strong, f.w)
  {
    var f := if c.Cluster? then ClusterPass.Finalize(e, w, key, ver, c) else ServerPass.Finalize(e, w, key, ver, c);
    FinalizeShape(e, w, key, ver, c);
    ReleasingPassKeeps(strong, w, f.w, key, ver, c, Recorded(Machine, c), None);
  }

  lemma ShrunkFits(strong: bool, w: World, key: Key, c: Claim, keep: nat)
    requires c.Cluster? && keep <= |c.st.machineIDs| && Writable(strong, w, key, c)
    ensures Writable(strong, w, key, c.(st := c.st.(machineIDs := c.st.machineIDs[..keep])))
    ensures Apart(c.st.machineIDs[keep..], c.st.machineIDs[..keep])
  {
    var ids := c.st.machineIDs;
    assert Recorded(Machine, c) == ids;
    forall x | x in ids[keep..] ensures x !in ids[..keep] {
      var i :| keep <= i < |ids| && ids[i] == x;
    }
  }

  lemma ScaleDownKeeps(strong: bool, e: Env, w: World, key: Key, ver: nat, c: Claim, delta: nat)
    requires c.Cluster? && delta <= |c.st.machineIDs| && FlowInv(strong, Go(w, ver, c), key)
    requires Settles(strong, w, ClusterPass.ScaleDown(e, w, key, ver, c, delta).w, key)
    ensures Inv(strong, ClusterPass.ScaleDown(e, w, key, ver, c, delta).w)
  {
    var w' := ClusterPass.ScaleDown(e, w, key, ver, c, delta).w;
    var keep := |c.st.machineIDs| - delta;
    var blocked := c.(st := ClusterPass.Mark(c.st, "ScaleDownBlocked", true, "RookCephPresent"));
    Frame(strong, w, w, key, ver, c, blocked);
    ScaleDownShape(e, w, key, ver, c, delta);
    if ReleasesAndWrites(w, w', key, ver, [], Some(blocked)) {
      ReleasingPassKeeps(strong, w, w', key, ver, c, [], Some(blocked));
    } else {
      var shrunk := c.(st := c.st.(machineIDs := c.st.machineIDs[..keep]));
      if IsCurrent(w.kube.store, key, ver) {
        ShrunkFits(strong, w, key, c, keep);
        ReleasingPassKeeps(strong, w, w', key, ver, c, c.st.machineIDs[keep..], Some(shrunk));
      } else {
        forall k ensures Spares(strong, w.nb.sem, w.nb.devices, w'.nb.devices, Held(w.kube.store, Machine, k)) {
        }
        ReleaseKeepsInv(strong, w, w'.nb, c.st.machineIDs[keep..]);
        SameInv(strong, w.(nb := w'.nb), w', key, c);
      }
    }
  }

  lemma SteadyStateKeeps(strong: bool, e: Env, w: World, key: Key, ver: nat, c: Claim)
    requires c.Cluster? && FlowInv(strong, Go(w, ver, c), key) && TenantSlug(key.ns) != ""
    requires c.spec.machineCount < |c.st.machineIDs| ==>
               Settles(strong, w, ClusterPass.SteadyState(e, w, key, ver, c).w, key)
    ensures Inv(strong, ClusterPass.SteadyState(e, w, key, ver, c).w)
  {
    hide Inv, ClusterPass.ScaleUp, ClusterPass.ScaleDown, Settles;
    match c.meta.deleteAt {
      case Deadline(t) =>
        DeleteKeeps(strong, e, w, key);
        var d := DeleteClaim(e, w.kube, key);
        Frame(strong, w, w.(ticks := w.ticks + 2), key, ver, c, c);
        SameInv(strong, w.(kube := d.k), w.(kube := d.k, ticks := w.ticks + 1), key, c);
      case _ =>
        var desired, actual := c.spec.machineCount, |c.st.machineIDs|;
        if desired > actual {
          ScaleUpKeeps(strong, e, w, key, ver, c, desired - actual);
        } else if desired < actual {
          ScaleDownKeeps(strong, e, w, key, ver, c, actual - desired);
        }
    }
  }

  /** A change of the current claim that leaves what it records alone. */
  lemma TouchKeeps(strong: bool, w: World, key: Key, c': Claim)
    requires Inv(strong, w) && Current(w.kube.store, key).Some?
    requires forall which: Resource :: Recorded(which, c') == Held(w.kube.store, which, key)
    ensures Inv(strong, Put(w, key, Some(c')))
  {
    assert Fits(w.kube.store, Machine, key, Held(w.kube.store, Machine, key));
    assert Fits(w.kube.store, Address, key, Held(w.kube.store, Address, key));
    assert Recorded(Machine, c') == Held(w.kube.store, Machine, key);
    assert Recorded(Address, c') == Held(w.kube.store, Address, key);
    assert Secured(strong, w.nb.devices, TenantSlug(key.ns), Held(w.kube.store, Machine, key));
    assert Issued(w.nb, Held(w.kube.store, Address, key));
    AppendKeepsInv(strong, w, key, Some(c'));
  }

  lemma DeletedKeeps(strong: bool, w: World, key: Key)
    requires Inv(strong, w) && Current(w.kube.store, key).Some?
    ensures Inv(strong, Put(w, key, Deleted(Current(w.kube.store, key).value)))
  {
    var c := Current(w.kube.store, key).value;
    if c.meta.finalizer {
      TouchKeeps(strong, w, key, WithMeta(c, c.meta.(deleting := true)));
    } else {
      AppendKeepsInv(strong, w, key, None);
    }
  }

  lemma DeleteKeeps(strong: bool, e: Env, w: World, key: Key)
    requires Inv(strong, w)
    ensures Inv(strong, w.(kube := DeleteClaim(e, w.kube, key).k))
  {
    var d := DeleteClaim(e, w.kube, key);
    if Current(w.kube.store, key).Some? {
      DeletedKeeps(strong, w, key);
      var c := Current(w.kube.store, key).value;
      SameInv(strong, Put(w, key, Deleted(c)), w.(kube := w.kube.(calls := w.kube.calls + 1, store := Append(w.kube.store, key, Deleted(c)))), key, c);
      SameInv(strong, w, w.(kube := w.kube.(calls := w.kube.calls + 1)), key, c);
    } else {
      var any := Cluster(NEW_META, ClusterSpec("", 0, "", ""), EMPTY_CLUSTER_STATUS);
      SameInv(strong, w, w.(kube := d.k), key, any);
    }
  }

  // ---- The pass and the run ---------------------------------------------------------------

  lemma ClusterStepKeeps(strong: bool, e: Env, w: World, key: Key, ver: nat, c: Claim)
    requires c.Cluster? && FlowInv(strong, Go(w, ver, c), key) && TenantSlug(key.ns) != ""
    requires MayRelease(c) ==> Settles(strong, w, ClusterPass.Step(e, w, key, ver, c).w, key)
    ensures Inv(strong, ClusterPass.Step(e, w, key, ver, c).w)
  {
    if c.meta.deleting {
      FinalizeKeeps(strong, e, w, key, ver, c);
    } else if !c.meta.finalizer {
      var c' := WithMeta(c, c.meta.(finalizer := true));
      Frame(strong, w, w, key, ver, c, c');
      SaveKeepsInv(strong, e, w, key, ver, c');
    } else {
      match c.st.phase {
        case Pending => ValidateKeeps(strong, e, w, key, ver, c);
        case Provisioning => ProvisionKeeps(strong, e, w, key, ver, c);
        case ClusterReady => WatchAddonsKeeps(strong, e, w, key, ver, c);
        case AddonsReady => ExposeKeeps(strong, e, w, key, ver, c);
        case Ready => SteadyStateKeeps(strong, e, w, key, ver, c);
        case Failed =>
      }
    }
  }

  lemma ServerValidateKeeps(strong: bool, e: Env, w: World, key: Key, ver: nat, c: Claim)
    requires c.Server? && FlowInv(strong, Go(w, ver, c), key)
    ensures FlowInv(strong, ServerPass.Validate(e, w, key, ver, c), key)
  {
    var s := Get(e, w.kube, w.kube.sites, c.sspec.site);
    var w1 := w.(kube := s.k);
    Frame(strong, w, w1, key, ver, c, c);
    ServerFailKeeps(strong, e, w1, key, ver, c, "SiteConfigNotFound");
    if s.read.Found? {
      var w2 := w1.(nb := ListAvailable(e, w1.nb, s.read.value.slug, c.sspec.machineClass).nb);
      var c' := c.(sst := c.sst.(phase := Provisioning));
      Frame(strong, w1, w2, key, ver, c, c);
      Frame(strong, w1, w2, key, ver, c, c');
      ServerFailKeeps(strong, e, w2, key, ver, c, "InsufficientMachines");
      SaveKeepsInv(strong, e, w2, key, ver, c');
    }
  }

  lemma ServerJobKeeps(strong: bool, e: Env, w: World, key: Key, ver: nat, c: Claim)
    requires c.Server? && FlowInv(strong, Go(w, ver, c), key)
    ensures FlowInv(strong, ServerPass.RunJob(e, w, key, ver, c), key)
  {
    var got := Get(e, w.kube, w.kube.jobs, JobOf(key));
    var w1 := w.(kube := got.k);
    var c' := c.(sst := c.sst.(phase := Ready));
    Frame(strong, w, w1, key, ver, c, c);
    Frame(strong, w, w1, key, ver, c, c');
    Frame(strong, w, w.(kube := CreateJob(e, got.k, JobOf(key)).k), key, ver, c, c);
    ServerFailKeeps(strong, e, w1, key, ver, c, "MachineCfgFailed");
    SaveKeepsInv(strong, e, w1, key, ver, c');
  }

  lemma ServerProvisionKeeps(strong: bool, e: Env, w: World, key: Key, ver: nat, c: Claim)
    requires c.Server? && FlowInv(strong, Go(w, ver, c), key) && TenantSlug(key.ns) != ""
    ensures FlowInv(strong, ServerPass.Provision(e, w, key, ver, c), key)
  {
    hide ServerPass.RunJob, Stage, WriteClaim, ListAvailable, AllocateIP;
    var s := Get(e, w.kube, w.kube.sites, c.sspec.site);
    var w1 := w.(kube := s.k);
    Frame(strong, w, w1, key, ver, c, c);
    if s.read.Found? {
      ServerIPKeeps(strong, e, w1, key, ver, c, s.read.value);
      var f1 := ServerPass.AllocateServerIP(e, w1, key, ver, c, s.read.value);
      if f1.Go? {
        AllocateMachineKeeps(strong, e, f1.w, key, f1.ver, f1.c, s.read.value);
        var f2 := ServerPass.AllocateMachine(e, f1.w, key, f1.ver, f1.c, s.read.value);
        if f2.Go? {
          ServerJobKeeps(strong, e, f2.w, key, f2.ver, f2.c);
        }
      }
    }
  }

  lemma ServerStepKeeps(strong: bool, e: Env, w: World, key: Key, ver: nat, c: Claim)
    requires c.Server? && FlowInv(strong, Go(w, ver, c), key) && TenantSlug(key.ns) != ""
    requires MayRelease(c) ==> Settles(strong, w, ServerPass.Step(e, w, key, ver, c).w, key)
    ensures Inv(strong, ServerPass.Step(e, w, key, ver, c).w)
  {
    if c.meta.deleting {
      FinalizeKeeps(strong, e, w, key, ver, c);
    } else if !c.meta.finalizer {
      var c' := WithMeta(c, c.meta.(finalizer := true));
      Frame(strong, w, w, key, ver, c, c');
      SaveKeepsInv(strong, e, w, key, ver, c');
    } else {
      match c.sst.phase {
        case Pending => ServerValidateKeeps(strong, e, w, key, ver, c);
        case Provisioning => ServerProvisionKeeps(strong, e, w, key, ver, c);
        case _ =>
      }
    }
  }

  /** The claim a pass finds in its cache, if any. */
  function Seen(s: Store, key: Key, ver: nat): Option<Claim> {
    if ver < |HistoryOf(s, key)| then HistoryOf(s, key)[ver] else None
  }

  /** A pass that may release machines settles. */
  ghost predicate Settling(strong: bool, e: Env, w: World, key: Key, ver: nat) {
    var c := Seen(w.kube.store, key, ver);
    c.Some? && MayRelease(c.value) ==> Settles(strong, w, Next(e, w, Pass(key, ver)), key)
  }

  lemma PassKeeps(strong: bool, e: Env, w: World, key: Key, ver: nat)
    requires Inv(strong, w) && TenantSlug(key.ns) != "" && Settling(strong, e, w, key, ver)
    ensures Inv(strong, Next(e, w, Pass(key, ver)))
  {
    var got := ReadClaim(e, w.kube, key, ver);
    var w1 := w.(kube := got.k);
    var any := Cluster(NEW_META, ClusterSpec("", 0, "", ""), EMPTY_CLUSTER_STATUS);
    SameInv(strong, w, w1, key, any);
    if got.read.Found? {
      var c := got.read.value;
      if IsCurrent(w.kube.store, key, ver) {
        forall which: Resource ensures Held(w.kube.store, which, key) == Recorded(which, c) {}
        assert Fits(w.kube.store, Machine, key, Held(w.kube.store, Machine, key));
        assert Fits(w.kube.store, Address, key, Held(w.kube.store, Address, key));
        assert Secured(strong, w.nb.devices, TenantSlug(key.ns), Held(w.kube.store, Machine, key));
        assert Issued(w.nb, Held(w.kube.store, Address, key));
        assert Writable(strong, w, key, c);
      }
      SameInv(strong, w, w1, key, c);
      if c.Cluster? {
        ClusterStepKeeps(strong, e, w1, key, ver, c);
      } else {
        ServerStepKeeps(strong, e, w1, key, ver, c);
      }
    }
  }

  lemma OutsideKeeps(strong: bool, e: Env, w: World, ev: Event)
    requires Inv(strong, w) && !ev.Pass?
    ensures Inv(strong, Next(e, w, ev))
  {
    hide Inv;
    var any := Cluster(NEW_META, ClusterSpec("", 0, "", ""), EMPTY_CLUSTER_STATUS);
    if ev.Change? {
      SameInv(strong, w, Next(e, w, ev), Key(ClusterKind, "", ""), any);
    } else {
      var now := Current(w.kube.store, ev.key);
      match ev {
        case CreateCluster(key, spec) =>
          if now.None? { AppendKeepsInv(strong, w, key, Some(Cluster(NEW_META, spec, EMPTY_CLUSTER_STATUS))); }
        case CreateServer(key, sspec) =>
          if now.None? { AppendKeepsInv(strong, w, key, Some(Server(NEW_META, sspec, EMPTY_SERVER_STATUS))); }
        case EditSpec(key, spec) =>
          if now.Some? && now.value.Cluster? { TouchKeeps(strong, w, key, now.value.(spec := spec)); }
        case Annotate(key, deleteAt) =>
          if now.Some? { TouchKeeps(strong, w, key, WithMeta(now.value, now.value.meta.(deleteAt := deleteAt))); }
        case Delete(key) =>
          if now.Some? { DeletedKeeps(strong, w, key); }
      }
    }
  }

  lemma StartInv(strong: bool, w: World)
    requires Start(w) && (strong || w.nb.sem == Real)
    ensures Inv(strong, w)
  {
  }
}
