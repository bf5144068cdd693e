/** The account of a pass: what it takes from the pool of machines, at any version and with any failure,
    how much that is at most, and what of it ends up recorded in the claim. Every step of every pass
    keeps the account. */
module MachineAccounts {
  import opened Basics
  import opened Text
  import opened Claims
  import opened Environment
  import opened Inventory
  import opened ApiServer
  import opened Passes
  import opened Holdings
  import opened Exclusivity
  import AddressLedger
  import RoleRules
  import ClusterPass
  import ServerPass
  import opened Runs

  // ---- What a pass does to the pool -------------------------------------------------------

  /** The device was free and has been staged for a tenant. */
  predicate IsDrawn(d: Device, d': Device) {
    Available(d) && d'.tenant.Some?
  }

  /** A pass leaves a device alone, stages it if it was free, or releases it. */
  predicate Moves(sem: Semantics, d: Device, d': Device, slug: string) {
    d' == d || (Available(d) && d' == StagedFor(d, slug)) || d' == Patch(sem, d, Active, "")
  }

  ghost function Drawn(ds: seq<Device>, ds': seq<Device>): (r: set<int>)
    requires |ds'| == |ds|
    ensures forall id :: id in r <==> exists i :: 0 <= i < |ds| && ds[i].id == id && IsDrawn(ds[i], ds'[i])
  {
    set i | 0 <= i < |ds| && IsDrawn(ds[i], ds'[i]) :: ds[i].id
  }

  ghost predicate AllMove(sem: Semantics, ds: seq<Device>, ds': seq<Device>, slug: string) {
    |ds'| == |ds| && forall i :: 0 <= i < |ds| ==> Moves(sem, ds[i], ds'[i], slug)
  }

  /** The account of a pass that began at w0, so far; and of one that drops nothing its claim held. */
  ghost predicate Account(w0: World, f: Flow, key: Key, limit: nat) {
    && LooseAccount(w0, f, key, limit)
    && SetOf(Held(w0.kube.store, Machine, key)) <= SetOf(Held(f.w.kube.store, Machine, key))
  }

  ghost predicate LooseAccount(w0: World, f: Flow, key: Key, limit: nat) {
    && UniqueIDs(f.w.nb.devices) && f.w.nb.sem == w0.nb.sem
    && AllMove(w0.nb.sem, w0.nb.devices, f.w.nb.devices, TenantSlug(key.ns))
    && (forall k :: k != key ==> HistoryOf(f.w.kube.store, k) == HistoryOf(w0.kube.store, k))
    && Settled(w0, f, key, limit)
    && (f.Go? && IsCurrent(f.w.kube.store, key, f.ver) ==> Recorded(Machine, f.c) == Held(f.w.kube.store, Machine, key))
  }

  /** What is newly held was drawn; what was drawn is held, unless the pass ended in an error; and no more was
      drawn than the claim asks for. */
  ghost predicate Settled(w0: World, f: Flow, key: Key, limit: nat)
    requires |f.w.nb.devices| == |w0.nb.devices|
  {
    var drawn, held := Drawn(w0.nb.devices, f.w.nb.devices), SetOf(Held(f.w.kube.store, Machine, key));
    && held <= SetOf(Held(w0.kube.store, Machine, key)) + drawn
    && (drawn <= held || (f.Stop? && f.reply == Error))
    && |drawn| <= limit
  }

  // ---- Parts that leave the devices alone -------------------------------------------------

  lemma CarryAccount(w0: World, w: World, w': World, key: Key, ver: nat, c: Claim, limit: nat)
    requires Account(w0, Go(w, ver, c), key, limit)
    requires w'.nb.devices == w.nb.devices && w'.nb.sem == w.nb.sem && w'.kube.store == w.kube.store
    ensures Account(w0, Go(w', ver, c), key, limit)
    ensures forall reply :: Account(w0, Stop(w', reply), key, limit)
  {
  }

  lemma SaveAccount(w0: World, e: Env, w: World, key: Key, ver: nat, c: Claim, c': Claim, limit: nat)
    requires Account(w0, Go(w, ver, c), key, limit) && Recorded(Machine, c') == Recorded(Machine, c)
    ensures Account(w0, Save(e, w, key, ver, c'), key, limit)
    ensures forall reply :: Account(w0, SaveAndStop(e, w, key, ver, c', reply), key, limit)
  {
    hide AllMove, TenantSlug, Drawn;
    HeldAfter(w.kube.store, key, Some(c'));
  }

  /** A pass that has touched nothing yet. */
  lemma StartAccount(w: World, key: Key, ver: nat, c: Claim)
    requires UniqueIDs(w.nb.devices) && Seen(w.kube.store, key, ver) == Some(c)
    ensures Account(w, Go(w, ver, c), key, 0)
  {
    NothingDrawn(w.nb.devices);
  }

  lemma NothingDrawn(ds: seq<Device>)
    ensures Drawn(ds, ds) == {}
  {
  }

  // ---- Staging ----------------------------------------------------------------------------

  lemma {:induction false} StageTouches(e: Env, nb: Netbox, devs: seq<Device>, n: nat, slug: string, disks: bool)
    requires n <= |devs|
    ensures var s := Stage(e, nb, devs, n, slug, disks);
            |s.nb.devices| == |nb.devices| &&
            forall i :: 0 <= i < |nb.devices| ==>
              s.nb.devices[i].id == nb.devices[i].id &&
              (s.nb.devices[i] == nb.devices[i] || exists j :: 0 <= j < n && devs[j].id == nb.devices[i].id)
  {
    hide StageOne;
    if n > 0 {
      StageTouches(e, nb, devs, n - 1, slug, disks);
      var s := Stage(e, nb, devs, n - 1, slug, disks);
      if s.ok { StageOneTouches(e, s, devs[n - 1].id, slug, disks); }
    }
  }

  lemma StageOneTouches(e: Env, s: Staging, id: int, slug: string, disks: bool)
    ensures var ds, ds' := s.nb.devices, StageOne(e, s, id, slug, disks).nb.devices;
            |ds'| == |ds| && forall i :: 0 <= i < |ds| ==> ds'[i].id == ds[i].id && (ds'[i] == ds[i] || ds[i].id == id)
  {
    hide DisksOf, AddDisks;
  }

  /** No more is drawn than the loop was told to stage. */
  lemma DrawnAtMost(e: Env, nb: Netbox, devs: seq<Device>, n: nat, slug: string, disks: bool)
    requires n <= |devs|
    ensures |Stage(e, nb, devs, n, slug, disks).nb.devices| == |nb.devices|
    ensures |Drawn(nb.devices, Stage(e, nb, devs, n, slug, disks).nb.devices)| <= n
  {
    hide Stage;
    StageTouches(e, nb, devs, n, slug, disks);
    var ds' := Stage(e, nb, devs, n, slug, disks).nb.devices;
    var ids := seq(n, j requires 0 <= j < n => devs[j].id);
    SetOfSize(ids);
    forall id | id in Drawn(nb.devices, ds') ensures id in SetOf(ids) {
      var i :| 0 <= i < |nb.devices| && nb.devices[i].id == id && IsDrawn(nb.devices[i], ds'[i]);
      var j :| 0 <= j < n && devs[j].id == nb.devices[i].id;
      assert ids[j] == id;
    }
    SubsetSize(Drawn(nb.devices, ds'), SetOf(ids));
  }

  /** What a staging loop leaves: an account that balances once the claim is written with what it staged. */
  lemma StageAccount(w0: World, e: Env, w: World, key: Key, ver: nat, c: Claim, nb: Netbox, devs: seq<Device>, n: nat, disks: bool, c': Claim)
    requires Account(w0, Go(w, ver, c), key, 0) && w.nb.devices == w0.nb.devices == nb.devices && nb.sem == w.nb.sem
    requires Offered(nb.devices, devs) && n <= |devs| && TenantSlug(key.ns) != ""
    requires var t := Stage(e, nb, devs, n, TenantSlug(key.ns), disks);
             t.ok ==> Recorded(Machine, c') == Recorded(Machine, c) + t.ids
    ensures var t := Stage(e, nb, devs, n, TenantSlug(key.ns), disks);
            var w1 := w.(nb := t.nb);
            && Account(w0, Stop(w1, Error), key, n)
            && (t.ok ==> Account(w0, Save(e, w1, key, ver, c'), key, n))
            && (t.ok ==> forall reply :: Account(w0, SaveAndStop(e, w1, key, ver, c', reply), key, n))
  {
    hide Stage, TenantSlug;
    var slug := TenantSlug(key.ns);
    var t := Stage(e, nb, devs, n, slug, disks);
    var w1 := w.(nb := t.nb);
    StageFacts(e, nb, devs, n, slug, disks);
    DrawnAtMost(e, nb, devs, n, slug, disks);
    OnlyStagedKeepsIDs(nb.devices, t.nb.devices, slug);
    NothingDrawn(w0.nb.devices);
    StoppedAccount(w0, w, w1, key, ver, c, n);
    if t.ok {
      DrawnAreStaged(nb.devices, t.nb.devices, t.ids, devs, slug);
      RecordAccount(w0, e, w, w1, key, ver, c, c', t.ids, n);
    }
  }

  lemma StoppedAccount(w0: World, w: World, w1: World, key: Key, ver: nat, c: Claim, n: nat)
    requires Account(w0, Go(w, ver, c), key, 0) && w.nb.devices == w0.nb.devices && w1.kube == w.kube
    requires w1.nb.sem == w.nb.sem && UniqueIDs(w1.nb.devices) && OnlyStaged(w0.nb.devices, w1.nb.devices, TenantSlug(key.ns))
    requires |Drawn(w0.nb.devices, w1.nb.devices)| <= n
    ensures Account(w0, Stop(w1, Error), key, n)
  {
    hide TenantSlug;
    NothingDrawn(w0.nb.devices);
  }

  lemma DrawnAreStaged(ds: seq<Device>, ds': seq<Device>, ids: seq<int>, devs: seq<Device>, slug: string)
    requires OnlyStaged(ds, ds', slug) && |ids| <= |devs| && Offered(ds, devs)
    requires forall i :: 0 <= i < |ids| ==> ids[i] == devs[i].id
    requires forall i :: 0 <= i < |ds| && ds[i].id in ids ==> ds'[i] == StagedFor(ds[i], slug)
    requires forall i :: 0 <= i < |ds| && ds[i].id !in ids ==> ds'[i] == ds[i]
    requires UniqueIDs(ds)
    ensures Drawn(ds, ds') == SetOf(ids)
  {
    forall id | id in ids ensures id in Drawn(ds, ds') {
      var x :| 0 <= x < |ids| && ids[x] == id;
      assert devs[x] in devs;
      var i :| 0 <= i < |ds| && ds[i] == devs[x];
      assert IsDrawn(ds[i], ds'[i]);
    }
    forall id | id in Drawn(ds, ds') ensures id in ids {
      var i :| 0 <= i < |ds| && ds[i].id == id && IsDrawn(ds[i], ds'[i]);
    }
  }

  lemma RecordAccount(w0: World, e: Env, w: World, w1: World, key: Key, ver: nat, c: Claim, c': Claim, ids: seq<int>, n: nat)
    requires Account(w0, Go(w, ver, c), key, 0) && w.nb.devices == w0.nb.devices
    requires Account(w0, Stop(w1, Error), key, n) && w1.kube == w.kube
    requires Drawn(w0.nb.devices, w1.nb.devices) == SetOf(ids) && Recorded(Machine, c') == Recorded(Machine, c) + ids
    ensures Account(w0, Save(e, w1, key, ver, c'), key, n)
    ensures forall reply :: Account(w0, SaveAndStop(e, w1, key, ver, c', reply), key, n)
  {
    hide Account;
    var w2 := w1.(kube := WriteClaim(e, w1.kube, key, ver, Some(c')).k);
    if w2.kube.store == w1.kube.store {
      StayedAccount(w0, w1, w2, key, n);
    } else {
      WrittenAccount(w0, w, w1, w2, key, ver, c, c', ids, n);
    }
  }

  lemma StayedAccount(w0: World, w1: World, w2: World, key: Key, n: nat)
    requires Account(w0, Stop(w1, Error), key, n) && w2.nb == w1.nb && w2.kube.store == w1.kube.store
    ensures Account(w0, Stop(w2, Error), key, n)
  {
    hide TenantSlug, AllMove, Drawn;
  }

  lemma UnionSet(a: seq<int>, b: seq<int>)
    ensures SetOf(a + b) == SetOf(a) + SetOf(b)
  {
  }

  lemma WrittenSettled(w0: World, w: World, w1: World, w2: World, key: Key, ver: nat, c: Claim, c': Claim, ids: seq<int>, n: nat)
    requires |w.nb.devices| == |w0.nb.devices| && Settled(w0, Go(w, ver, c), key, 0) && w.nb.devices == w0.nb.devices
    requires SetOf(Held(w0.kube.store, Machine, key)) <= SetOf(Held(w.kube.store, Machine, key))
    requires |w1.nb.devices| == |w0.nb.devices| && Settled(w0, Stop(w1, Error), key, n)
    requires Drawn(w0.nb.devices, w1.nb.devices) == SetOf(ids) && w2.nb == w1.nb
    requires Held(w2.kube.store, Machine, key) == Held(w.kube.store, Machine, key) + ids
    ensures Settled(w0, Go(w2, ver + 1, c'), key, n) && forall reply :: Settled(w0, Stop(w2, reply), key, n)
    ensures SetOf(Held(w0.kube.store, Machine, key)) <= SetOf(Held(w2.kube.store, Machine, key))
  {
    hide Held, Drawn, SetOf;
    NothingDrawn(w0.nb.devices);
    UnionSet(Held(w.kube.store, Machine, key), ids);
  }

  lemma WrittenAccount(w0: World, w: World, w1: World, w2: World, key: Key, ver: nat, c: Claim, c': Claim, ids: seq<int>, n: nat)
    requires Account(w0, Go(w, ver, c), key, 0) && w.nb.devices == w0.nb.devices && IsCurrent(w.kube.store, key, ver)
    requires Account(w0, Stop(w1, Error), key, n) && w1.kube == w.kube
    requires Drawn(w0.nb.devices, w1.nb.devices) == SetOf(ids) && Recorded(Machine, c') == Recorded(Machine, c) + ids
    requires w2.nb == w1.nb && w2.kube.store == Append(w.kube.store, key, Some(c'))
    ensures Account(w0, Go(w2, ver + 1, c'), key, n)
    ensures forall reply :: Account(w0, Stop(w2, reply), key, n)
  {
    hide TenantSlug, Moves, Recorded, Settled, UniqueIDs, Append, SetOf;
    HeldAfter(w.kube.store, key, Some(c'));
    assert Held(w2.kube.store, Machine, key) == Held(w.kube.store, Machine, key) + ids;
    WrittenSettled(w0, w, w1, w2, key, ver, c, c', ids, n);
  }

  // ---- The cluster steps ------------------------------------------------------------------

  /** An account with nothing drawn yet, in the pass's own inventory. */
  ghost predicate Untapped(w0: World, w: World, key: Key, ver: nat, c: Claim) {
    && Account(w0, Go(w, ver, c), key, 0)
    && w.nb.devices == w0.nb.devices && w.nb.sem == w0.nb.sem && TenantSlug(key.ns) != ""
  }

  lemma RaiseLimit(w0: World, f: Flow, key: Key, limit: nat, more: nat)
    requires Account(w0, f, key, limit) && limit <= more
    ensures Account(w0, f, key, more)
  {
  }

  lemma FailAccount(w0: World, e: Env, w: World, key: Key, ver: nat, c: Claim, reason: string, limit: nat)
    requires c.Cluster? && Account(w0, Go(w, ver, c), key, limit)
    ensures Account(w0, ClusterPass.Fail(e, w, key, ver, c, reason), key, limit)
  {
    hide Account, Passes.SaveAndStop;
    SaveAccount(w0, e, w, key, ver, c, c.(st := ClusterPass.Mark(c.st.(phase := Failed), "Validated", false, reason)), limit);
  }

  lemma ValidateAccount(w0: World, e: Env, w: World, key: Key, ver: nat, c: Claim)
    requires c.Cluster? && Account(w0, Go(w, ver, c), key, 0)
    ensures Account(w0, ClusterPass.Validate(e, w, key, ver, c), key, 0)
  {
    hide Account, Passes.SaveAndStop, ClusterPass.Fail, SetCondition;
    var p := Get(e, w.kube, w.kube.profiles, c.spec.profile);
    CarryAccount(w0, w, w.(kube := p.k), key, ver, c, 0);
    FailAccount(w0, e, w.(kube := p.k), key, ver, c, "AddonProfileNotFound", 0);
    if p.read.Found? {
      var s := Get(e, p.k, p.k.sites, c.spec.site);
      CarryAccount(w0, w, w.(kube := s.k), key, ver, c, 0);
      FailAccount(w0, e, w.(kube := s.k), key, ver, c, "SiteConfigNotFound", 0);
      if s.read.Found? {
        var w1 := w.(kube := s.k, nb := ListAvailable(e, w.nb, s.read.value.slug, c.spec.machineClass).nb);
        CarryAccount(w0, w, w1, key, ver, c, 0);
        FailAccount(w0, e, w1, key, ver, c, "InsufficientMachines", 0);
        FailAccount(w0, e, w1, key, ver, c, "MachineClassIncompatible", 0);
        SaveAccount(w0, e, w1, key, ver, c, c.(st := ClusterPass.Validated(c.st)), 0);
      }
    }
  }

  lemma AddressesAccount(w0: World, e: Env, w: World, key: Key, ver: nat, c: Claim, site: Site)
    requires c.Cluster? && Untapped(w0, w, key, ver, c)
    ensures var f := ClusterPass.AllocateControlPlaneIP(e, w, key, ver, c, site);
            Account(w0, f, key, 0) && (f.Go? ==> f.c.Cluster? && f.c.spec == c.spec && Untapped(w0, f.w, key, f.ver, f.c))
    ensures var f := ClusterPass.AllocateWebhookIP(e, w, key, ver, c, site);
            Account(w0, f, key, 0) && (f.Go? ==> f.c.Cluster? && f.c.spec == c.spec && Untapped(w0, f.w, key, f.ver, f.c))
  {
    hide Account, TenantSlug, StripPrefix, WriteClaim;
    var a := AllocateIP(e, w.nb);
    var w1 := w.(nb := a.nb);
    CarryAccount(w0, w, w1, key, ver, c, 0);
    if a.value.Some? {
      var ip, id := StripPrefix(a.value.value.address), a.value.value.id;
      SaveAccount(w0, e, w1, key, ver, c, c.(st := c.st.(
        cpIP := ip, cpDNS := key.name + "-api." + TenantSlug(key.ns) + "." + site.zone, ipamIDs := c.st.ipamIDs + [id])), 0);
      SaveAccount(w0, e, w1, key, ver, c, c.(st := c.st.(
        whIP := ip, whDNS := key.name + "-wh." + TenantSlug(key.ns) + "." + site.zone, ipamIDs := c.st.ipamIDs + [id])), 0);
    }
  }

  lemma MachinesAccount(w0: World, e: Env, w: World, key: Key, ver: nat, c: Claim, site: Site)
    requires c.Cluster? && Untapped(w0, w, key, ver, c) && UniqueIDs(w.nb.devices)
    ensures var f := ClusterPass.AllocateMachines(e, w, key, ver, c, site);
            Account(w0, f, key, c.spec.machineCount) && (f.Go? ==> f.c.Cluster?)
  {
    hide Account, TenantSlug, WriteClaim, Stage;
    RaiseLimit(w0, Go(w, ver, c), key, 0, c.spec.machineCount);
    if c.st.machineIDs == [] {
      ListingOffers(e, w.nb, site.slug, c.spec.machineClass);
      var a := ListAvailable(e, w.nb, site.slug, c.spec.machineClass);
      CarryAccount(w0, w, w.(nb := a.nb), key, ver, c, c.spec.machineCount);
      if a.value.Some? {
        var n := ClusterPass.Min(c.spec.machineCount, |a.value.value|);
        var t := Stage(e, a.nb, a.value.value, n, TenantSlug(key.ns), true);
        var c' := c.(st := c.st.(machineIDs := t.ids, osdDevices := t.osd));
        assert [] + t.ids == t.ids;
        StageAccount(w0, e, w, key, ver, c, a.nb, a.value.value, n, true, c');
        RaiseLimit(w0, Stop(w.(nb := t.nb), Error), key, n, c.spec.machineCount);
        if t.ok {
          RaiseLimit(w0, Save(e, w.(nb := t.nb), key, ver, c'), key, n, c.spec.machineCount);
        }
      }
    }
  }

  lemma EnsureClusterAccount(w0: World, e: Env, w: World, key: Key, ver: nat, c: Claim, site: Site, limit: nat)
    requires c.Cluster? && Account(w0, Go(w, ver, c), key, limit)
    ensures Account(w0, ClusterPass.EnsureCluster(e, w, key, ver, c, site), key, limit)
  {
    hide Account, ClusterPass.EnsureAll, WriteClaim, SetCondition;
    CarryAccount(w0, w, w, key, ver, c, limit);
    var objs := ClusterPass.CAPIObjects(key, c, site);
    EnsureAllFrame(e, w.kube, objs, |objs|);
    var d := ClusterPass.EnsureAll(e, w.kube, objs, |objs|);
    CarryAccount(w0, w, w.(kube := d.k), key, ver, c, limit);
    var w1 := w.(kube := Get(e, d.k, d.k.objects, ClusterPass.CAPICluster(key)).k);
    CarryAccount(w0, w, w1, key, ver, c, limit);
    SaveAccount(w0, e, w1, key, ver, c, c.(st := ClusterPass.Configured(c.st, key.name, true)), limit);
    SaveAccount(w0, e, w1, key, ver, c, c.(st := ClusterPass.Configured(c.st, key.name, false)), limit);
  }

  lemma RunJobAccount(w0: World, e: Env, w: World, key: Key, ver: nat, c: Claim, site: Site, limit: nat)
    requires c.Cluster? && Account(w0, Go(w, ver, c), key, limit)
    ensures Account(w0, ClusterPass.RunJob(e, w, key, ver, c, site), key, limit)
  {
    hide Account, ClusterPass.Fail, ClusterPass.EnsureCluster;
    var got := Get(e, w.kube, w.kube.jobs, JobOf(key));
    CarryAccount(w0, w, w.(kube := got.k), key, ver, c, limit);
    CarryAccount(w0, w, w.(kube := CreateJob(e, got.k, JobOf(key)).k), key, ver, c, limit);
    FailAccount(w0, e, w.(kube := got.k), key, ver, c, "MachineCfgFailed", limit);
    EnsureClusterAccount(w0, e, w.(kube := got.k), key, ver, c, site, limit);
  }

  lemma AccountIDs(w0: World, f: Flow, key: Key, limit: nat)
    requires Account(w0, f, key, limit)
    ensures UniqueIDs(f.w.nb.devices)
  {
  }

  lemma ProvisionAccount(w0: World, e: Env, w: World, key: Key, ver: nat, c: Claim)
    requires c.Cluster? && Untapped(w0, w, key, ver, c)
    ensures Account(w0, ClusterPass.Provision(e, w, key, ver, c), key, c.spec.machineCount)
  {
    hide Account, TenantSlug, ClusterPass.AllocateControlPlaneIP, ClusterPass.AllocateWebhookIP,
      ClusterPass.AllocateMachines, ClusterPass.RunJob;
    var n := c.spec.machineCount;
    var s := Get(e, w.kube, w.kube.sites, c.spec.site);
    var w1 := w.(kube := s.k);
    CarryAccount(w0, w, w1, key, ver, c, 0);
    RaiseLimit(w0, Stop(w1, Error), key, 0, n);
    if s.read.Found? {
      AddressesAccount(w0, e, w1, key, ver, c, s.read.value);
      var f1 := ClusterPass.AllocateControlPlaneIP(e, w1, key, ver, c, s.read.value);
      RaiseLimit(w0, f1, key, 0, n);
      if f1.Go? {
        AddressesAccount(w0, e, f1.w, key, f1.ver, f1.c, s.read.value);
        var f2 := ClusterPass.AllocateWebhookIP(e, f1.w, key, f1.ver, f1.c, s.read.value);
        RaiseLimit(w0, f2, key, 0, n);
        if f2.Go? {
          AccountIDs(w0, f2, key, 0);
          MachinesAccount(w0, e, f2.w, key, f2.ver, f2.c, s.read.value);
          var f3 := ClusterPass.AllocateMachines(e, f2.w, key, f2.ver, f2.c, s.read.value);
          if f3.Go? { RunJobAccount(w0, e, f3.w, key, f3.ver, f3.c, s.read.value, n); }
        }
      }
    }
  }

  lemma WatchAddonsAccount(w0: World, e: Env, w: World, key: Key, ver: nat, c: Claim)
    requires c.Cluster? && Account(w0, Go(w, ver, c), key, 0)
    ensures Account(w0, ClusterPass.WatchAddons(e, w, key, ver, c), key, 0)
  {
    hide Account, WriteClaim, SetCondition, ClusterPass.Install, ClusterPass.CheckReady;
    var p := Get(e, w.kube, w.kube.profiles, c.spec.profile);
    CarryAccount(w0, w, w.(kube := p.k), key, ver, c, 0);
    if p.read.Found? {
      var comps := e.sort(p.k.calls, p.read.value.components);
      InstallFrame(e, p.k, key, c.st, comps, |comps|);
      var d := ClusterPass.Install(e, p.k, key, c.st, comps, |comps|);
      CarryAccount(w0, w, w.(kube := d.k), key, ver, c, 0);
      CheckReadyFrame(e, d.k, key, comps, |comps|);
      var w1 := w.(kube := ClusterPass.CheckReady(e, d.k, key, comps, |comps|).k);
      CarryAccount(w0, w, w1, key, ver, c, 0);
      SaveAccount(w0, e, w1, key, ver, c, c.(st := ClusterPass.Mark(c.st.(phase := AddonsReady), "AddonsReady", true, "AllAddonsReady")), 0);
    }
  }

  lemma ExposeAccount(w0: World, e: Env, w: World, key: Key, ver: nat, c: Claim)
    requires c.Cluster? && Account(w0, Go(w, ver, c), key, 0)
    ensures Account(w0, ClusterPass.ExposeKubeconfig(e, w, key, ver, c), key, 0)
  {
    hide Account, WriteClaim, RoleRules.SecretsRule, RoleRules.Grant;
    var got := Get(e, w.kube, w.kube.roles, key.ns);
    var put := PutRole(e, got.k, key.ns, RoleRules.Grant(if got.read.Found? then got.read.value else [], ClusterPass.SecretOf(key)));
    var c' := c.(st := c.st.(phase := Ready, kubeconfig := ClusterPass.SecretOf(key)));
    CarryAccount(w0, w, w.(kube := got.k), key, ver, c, 0);
    CarryAccount(w0, w, w.(kube := put.k), key, ver, c, 0);
    SaveAccount(w0, e, w.(kube := got.k), key, ver, c, c', 0);
    SaveAccount(w0, e, w.(kube := put.k), key, ver, c, c', 0);
  }

  lemma ScaleUpAccount(w0: World, e: Env, w: World, key: Key, ver: nat, c: Claim, delta: nat)
    requires c.Cluster? && Untapped(w0, w, key, ver, c) && UniqueIDs(w.nb.devices)
    ensures Account(w0, ClusterPass.ScaleUp(e, w, key, ver, c, delta), key, delta)
  {
    hide Account, TenantSlug, WriteClaim, Stage, SetCondition;
    RaiseLimit(w0, Go(w, ver, c), key, 0, delta);
    var s := Get(e, w.kube, w.kube.sites, c.spec.site);
    var w1 := w.(kube := s.k);
    CarryAccount(w0, w, w1, key, ver, c, delta);
    if s.read.Found? {
      ListingOffers(e, w.nb, s.read.value.slug, c.spec.machineClass);
      var a := ListAvailable(e, w.nb, s.read.value.slug, c.spec.machineClass);
      CarryAccount(w0, w, w1.(nb := a.nb), key, ver, c, delta);
      SaveAccount(w0, e, w1.(nb := a.nb), key, ver, c,
                  c.(st := ClusterPass.Mark(c.st, "ScaleUpBlocked", true, "InsufficientMachines")), delta);
      if a.value.Some? && |a.value.value| >= delta {
        var t := Stage(e, a.nb, a.value.value, delta, TenantSlug(key.ns), false);
        CarryAccount(w0, w, w1, key, ver, c, 0);
        StageAccount(w0, e, w1, key, ver, c, a.nb, a.value.value, delta, false, c.(st := c.st.(machineIDs := c.st.machineIDs + t.ids)));
      }
    }
  }

  // ---- Releasing --------------------------------------------------------------------------

  lemma ReleasedDrawNothing(sem: Semantics, ds: seq<Device>, ds': seq<Device>, ids: seq<int>, slug: string)
    requires OnlyReleased(sem, ds, ds', ids)
    ensures Drawn(ds, ds') == {} && AllMove(sem, ds, ds', slug)
  {
  }

  /** A pass that has only released machines, then writes a claim that records no more than before. */
  lemma ReleaseAccount(w0: World, e: Env, w: World, w1: World, key: Key, ver: nat, c: Claim, v: Option<Claim>)
    requires Untapped(w0, w, key, ver, c) && w1.kube.store == w.kube.store && w1.nb.sem == w.nb.sem
    requires OnlyReleased(w0.nb.sem, w0.nb.devices, w1.nb.devices, Recorded(Machine, c))
    requires v.Some? ==> forall id :: id in Recorded(Machine, v.value) ==> id in Recorded(Machine, c)
    ensures forall reply :: LooseAccount(w0, Stop(w1, reply), key, 0)
    ensures var w2 := w1.(kube := WriteClaim(e, w1.kube, key, ver, v).k);
            forall reply :: LooseAccount(w0, Stop(w2, reply), key, 0)
  {
    hide TenantSlug, AllMove, OnlyReleased, Drawn;
    ReleaseKeepsIDs(w0.nb.sem, w0.nb.devices, w1.nb.devices, Recorded(Machine, c));
    ReleasedDrawNothing(w0.nb.sem, w0.nb.devices, w1.nb.devices, Recorded(Machine, c), TenantSlug(key.ns));
    NothingDrawn(w0.nb.devices);
    HeldAfter(w.kube.store, key, v);
    var w2 := w1.(kube := WriteClaim(e, w1.kube, key, ver, v).k);
    if w2.kube.store != w.kube.store {
      assert Recorded(Machine, c) == Held(w.kube.store, Machine, key);
      forall id | id in Held(w2.kube.store, Machine, key) ensures id in Held(w.kube.store, Machine, key) {
        assert Current(w2.kube.store, key) == v;
      }
    }
  }

  lemma ReleasedAmong(sem: Semantics, ds: seq<Device>, ds': seq<Device>, ids: seq<int>, all: seq<int>)
    requires OnlyReleased(sem, ds, ds', ids) && forall id :: id in ids ==> id in all
    ensures OnlyReleased(sem, ds, ds', all)
  {
  }

  lemma ScaleDownAccount(w0: World, e: Env, w: World, key: Key, ver: nat, c: Claim, delta: nat)
    requires c.Cluster? && Untapped(w0, w, key, ver, c) && delta <= |c.st.machineIDs|
    ensures LooseAccount(w0, ClusterPass.ScaleDown(e, w, key, ver, c, delta), key, 0)
  {
    hide Account, TenantSlug, WriteClaim, ReleaseUntilError, SetCondition, ClusterPass.UsesRook;
    var w1 := w.(kube := Get(e, w.kube, w.kube.profiles, c.spec.profile).k);
    CarryAccount(w0, w, w1, key, ver, c, 0);
    SaveAccount(w0, e, w1, key, ver, c, c.(st := ClusterPass.Mark(c.st, "ScaleDownBlocked", true, "RookCephPresent")), 0);
    var keep := |c.st.machineIDs| - delta;
    var ids := c.st.machineIDs[keep..];
    var d := ReleaseUntilError(e, w1.nb, ids, delta);
    ReleaseUntilErrorFacts(e, w1.nb, ids, delta);
    ReleasedAmong(w0.nb.sem, w0.nb.devices, d.nb.devices, ids, c.st.machineIDs);
    ReleaseAccount(w0, e, w1, w1.(nb := d.nb), key, ver, c, Some(c.(st := c.st.(machineIDs := c.st.machineIDs[..keep]))));
    Loosen(w0, ClusterPass.ScaleDown(e, w, key, ver, c, delta), key, 0);
  }

  lemma FinalizeAccount(w0: World, e: Env, w: World, key: Key, ver: nat, c: Claim)
    requires Untapped(w0, w, key, ver, c)
    ensures c.Cluster? ==> LooseAccount(w0, ClusterPass.Finalize(e, w, key, ver, c), key, 0)
    ensures c.Server? ==> LooseAccount(w0, ServerPass.Finalize(e, w, key, ver, c), key, 0)
  {
    hide LooseAccount, TenantSlug, ReleaseEach, ReleaseIPs, WriteClaim;
    var ips, ids := Recorded(Address, c), Recorded(Machine, c);
    var nb1 := ReleaseIPs(e, w.nb, ips, |ips|);
    var nb2 := ReleaseEach(e, nb1, ids, |ids|);
    ReleaseIPsFacts(e, w.nb, ips, |ips|);
    ReleaseEachFacts(e, nb1, ids, |ids|);
    ReleaseAccount(w0, e, w, w.(nb := nb2), key, ver, c, None);
    if c.Cluster? {
      var k1 := ClusterPass.RevokeKubeconfig(e, w.kube, key, c.st.kubeconfig);
      ReleaseAccount(w0, e, w, w.(nb := nb2, kube := k1), key, ver, c, None);
    }
  }

  lemma DeleteAccount(w0: World, e: Env, w: World, key: Key, ver: nat, c: Claim)
    requires Untapped(w0, w, key, ver, c)
    ensures forall ticks: nat, reply :: LooseAccount(w0, Stop(w.(kube := DeleteClaim(e, w.kube, key).k, ticks := ticks), reply), key, 0)
  {
    hide TenantSlug, AllMove, Drawn, Held;
    NothingDrawn(w0.nb.devices);
    DeletedHolds(e, w.kube, key);
    var k' := DeleteClaim(e, w.kube, key).k;
    var now, before := Held(k'.store, Machine, key), Held(w.kube.store, Machine, key);
    forall id | id in now ensures id in before {
    }
    assert SetOf(now) <= SetOf(before);
  }

  /** A delete request leaves a claim what it holds, or takes all of it. */
  lemma DeletedHolds(e: Env, k: Kube, key: Key)
    ensures var s' := DeleteClaim(e, k, key).k.store;
            && (forall id :: id in Held(s', Machine, key) ==> id in Held(k.store, Machine, key))
            && (forall x :: x != key ==> HistoryOf(s', x) == HistoryOf(k.store, x))
  {
    var now := Current(k.store, key);
    if now.Some? { HeldAfter(k.store, key, Deleted(now.value)); }
  }

  /** How many machines a pass may take, judged by the version it sees. */
  function Wanted(c: Claim): nat {
    if c.meta.deleting || !c.meta.finalizer then 0
    else if c.Server? then (if c.sst.phase == Provisioning then 1 else 0)
    else
      match c.st.phase
      case Provisioning => c.spec.machineCount
      case Ready => if c.spec.machineCount > |c.st.machineIDs| then c.spec.machineCount - |c.st.machineIDs| else 0
      case _ => 0
  }

  /** May a pass from this version take a machine out of its claim: by removing or shrinking it, or by asking for its
      deletion? */
  predicate MayDrop(c: Claim) {
    || c.meta.deleting
    || (c.Cluster? && c.meta.finalizer && c.st.phase == Ready && (c.meta.deleteAt.Deadline? || c.spec.machineCount < |c.st.machineIDs|))
  }

  lemma Loosen(w0: World, f: Flow, key: Key, limit: nat)
    ensures Account(w0, f, key, limit) ==> LooseAccount(w0, f, key, limit)
  {
  }

  lemma RaiseLoose(w0: World, f: Flow, key: Key, limit: nat, more: nat)
    requires LooseAccount(w0, f, key, limit) && limit <= more
    ensures LooseAccount(w0, f, key, more)
  {
  }

  lemma SteadyStateAccount(w0: World, e: Env, w: World, key: Key, ver: nat, c: Claim)
    requires c.Cluster? && c.st.phase == Ready && c.meta.finalizer && !c.meta.deleting && Untapped(w0, w, key, ver, c)
    ensures LooseAccount(w0, ClusterPass.SteadyState(e, w, key, ver, c), key, Wanted(c))
    ensures !MayDrop(c) ==> Account(w0, ClusterPass.SteadyState(e, w, key, ver, c), key, Wanted(c))
  {
    hide Account, LooseAccount, TenantSlug, ClusterPass.ScaleUp, ClusterPass.ScaleDown, DeleteClaim;
    var desired, actual := c.spec.machineCount, |c.st.machineIDs|;
    AccountIDs(w0, Go(w, ver, c), key, 0);
    RaiseLimit(w0, Go(w, ver, c), key, 0, Wanted(c));
    CarryAccount(w0, w, w, key, ver, c, Wanted(c));
    CarryAccount(w0, w, w.(ticks := w.ticks + 2), key, ver, c, Wanted(c));
    if c.meta.deleteAt.Deadline? {
      DeleteAccount(w0, e, w, key, ver, c);
      var d := DeleteClaim(e, w.kube, key);
      var reply := if d.ok then Finished else Error;
      RaiseLoose(w0, Stop(w.(kube := d.k, ticks := w.ticks + 1), reply), key, 0, Wanted(c));
    } else if desired > actual {
      ScaleUpAccount(w0, e, w, key, ver, c, desired - actual);
    } else if desired < actual {
      ScaleDownAccount(w0, e, w, key, ver, c, actual - desired);
    }
    Loosen(w0, ClusterPass.SteadyState(e, w, key, ver, c), key, Wanted(c));
  }

  // ---- The server steps -------------------------------------------------------------------

  lemma ServerFailAccount(w0: World, e: Env, w: World, key: Key, ver: nat, c: Claim, reason: string, limit: nat)
    requires c.Server? && Account(w0, Go(w, ver, c), key, limit)
    ensures Account(w0, ServerPass.Fail(e, w, key, ver, c, reason), key, limit)
  {
    hide Account, Passes.SaveAndStop;
    var conditions := c.sst.conditions + [Condition("Ready", false, reason)];
    SaveAccount(w0, e, w, key, ver, c, c.(sst := c.sst.(phase := Failed, conditions := conditions)), limit);
  }

  lemma ServerValidateAccount(w0: World, e: Env, w: World, key: Key, ver: nat, c: Claim)
    requires c.Server? && Account(w0, Go(w, ver, c), key, 0)
    ensures Account(w0, ServerPass.Validate(e, w, key, ver, c), key, 0)
  {
    hide Account, Passes.SaveAndStop, ServerPass.Fail;
    var s := Get(e, w.kube, w.kube.sites, c.sspec.site);
    var w1 := w.(kube := s.k);
    CarryAccount(w0, w, w1, key, ver, c, 0);
    ServerFailAccount(w0, e, w1, key, ver, c, "SiteConfigNotFound", 0);
    if s.read.Found? {
      var w2 := w1.(nb := ListAvailable(e, w1.nb, s.read.value.slug, c.sspec.machineClass).nb);
      CarryAccount(w0, w, w2, key, ver, c, 0);
      ServerFailAccount(w0, e, w2, key, ver, c, "InsufficientMachines", 0);
      SaveAccount(w0, e, w2, key, ver, c, c.(sst := c.sst.(phase := Provisioning)), 0);
    }
  }

  lemma ServerIPAccount(w0: World, e: Env, w: World, key: Key, ver: nat, c: Claim, site: Site)
    requires c.Server? && Untapped(w0, w, key, ver, c)
    ensures var f := ServerPass.AllocateServerIP(e, w, key, ver, c, site);
            Account(w0, f, key, 0) && (f.Go? ==> f.c.Server? && Untapped(w0, f.w, key, f.ver, f.c))
  {
    hide Account, TenantSlug, StripPrefix, WriteClaim;
    var a := AllocateIP(e, w.nb);
    CarryAccount(w0, w, w.(nb := a.nb), key, ver, c, 0);
    if a.value.Some? {
      SaveAccount(w0, e, w.(nb := a.nb), key, ver, c, c.(sst := c.sst.(
        ip := StripPrefix(a.value.value.address),
        dns := key.name + "." + TenantSlug(key.ns) + "." + site.zone,
        ipamID := a.value.value.id)), 0);
    }
  }

  lemma ServerMachineAccount(w0: World, e: Env, w: World, key: Key, ver: nat, c: Claim, site: Site)
    requires c.Server? && Untapped(w0, w, key, ver, c) && UniqueIDs(w.nb.devices)
    ensures var f := ServerPass.AllocateMachine(e, w, key, ver, c, site);
            Account(w0, f, key, 1) && (f.Go? ==> f.c.Server?)
  {
    hide Account, TenantSlug, WriteClaim, Stage;
    RaiseLimit(w0, Go(w, ver, c), key, 0, 1);
    ListingOffers(e, w.nb, site.slug, c.sspec.machineClass);
    var a := ListAvailable(e, w.nb, site.slug, c.sspec.machineClass);
    CarryAccount(w0, w, w.(nb := a.nb), key, ver, c, 1);
    ServerFailAccount(w0, e, w.(nb := a.nb), key, ver, c, "InsufficientMachines", 1);
    if c.sst.machineID == 0 && a.value.Some? && a.value.value != [] {
      var devs := a.value.value;
      var t := Stage(e, a.nb, devs, 1, TenantSlug(key.ns), false);
      StageFacts(e, a.nb, devs, 1, TenantSlug(key.ns), false);
      assert t.ok ==> t.ids == [devs[0].id];
      var c' := c.(sst := c.sst.(machineID := devs[0].id));
      assert Recorded(Machine, c') == Recorded(Machine, c) + [devs[0].id];
      StageAccount(w0, e, w, key, ver, c, a.nb, devs, 1, false, c');
    }
  }

  lemma ServerJobAccount(w0: World, e: Env, w: World, key: Key, ver: nat, c: Claim, limit: nat)
    requires c.Server? && Account(w0, Go(w, ver, c), key, limit)
    ensures Account(w0, ServerPass.RunJob(e, w, key, ver, c), key, limit)
  {
    hide Account, Passes.SaveAndStop, ServerPass.Fail;
    var got := Get(e, w.kube, w.kube.jobs, JobOf(key));
    var w1 := w.(kube := got.k);
    CarryAccount(w0, w, w1, key, ver, c, limit);
    CarryAccount(w0, w, w.(kube := CreateJob(e, got.k, JobOf(key)).k), key, ver, c, limit);
    ServerFailAccount(w0, e, w1, key, ver, c, "MachineCfgFailed", limit);
    SaveAccount(w0, e, w1, key, ver, c, c.(sst := c.sst.(phase := Ready)), limit);
  }

  lemma ServerProvisionAccount(w0: World, e: Env, w: World, key: Key, ver: nat, c: Claim)
    requires c.Server? && Untapped(w0, w, key, ver, c)
    ensures Account(w0, ServerPass.Provision(e, w, key, ver, c), key, 1)
  {
    hide Account, TenantSlug, ServerPass.AllocateServerIP, ServerPass.AllocateMachine, ServerPass.RunJob;
    var s := Get(e, w.kube, w.kube.sites, c.sspec.site);
    var w1 := w.(kube := s.k);
    CarryAccount(w0, w, w1, key, ver, c, 0);
    RaiseLimit(w0, Stop(w1, Error), key, 0, 1);
    if s.read.Found? {
      ServerIPAccount(w0, e, w1, key, ver, c, s.read.value);
      var f1 := ServerPass.AllocateServerIP(e, w1, key, ver, c, s.read.value);
      RaiseLimit(w0, f1, key, 0, 1);
      if f1.Go? {
        AccountIDs(w0, f1, key, 0);
        ServerMachineAccount(w0, e, f1.w, key, f1.ver, f1.c, s.read.value);
        var f2 := ServerPass.AllocateMachine(e, f1.w, key, f1.ver, f1.c, s.read.value);
        if f2.Go? { ServerJobAccount(w0, e, f2.w, key, f2.ver, f2.c, 1); }
      }
    }
  }

  // ---- The pass ---------------------------------------------------------------------------

  lemma StepAccount(w0: World, e: Env, w: World, key: Key, ver: nat, c: Claim)
    requires Untapped(w0, w, key, ver, c)
    ensures LooseAccount(w0, Step(e, w, key, ver, c), key, Wanted(c))
    ensures !MayDrop(c) ==> Account(w0, Step(e, w, key, ver, c), key, Wanted(c))
  {
    hide Account, LooseAccount, TenantSlug, ClusterPass.Finalize, ServerPass.Finalize, ClusterPass.Validate, ClusterPass.Provision,
      ClusterPass.WatchAddons, ClusterPass.ExposeKubeconfig, ClusterPass.SteadyState, ServerPass.Validate,
      ServerPass.Provision, Passes.SaveAndStop;
    if c.meta.deleting {
      FinalizeAccount(w0, e, w, key, ver, c);
    } else if !c.meta.finalizer {
      SaveAccount(w0, e, w, key, ver, c, WithMeta(c, c.meta.(finalizer := true)), 0);
    } else if c.Cluster? {
      match c.st.phase {
        case Pending => ValidateAccount(w0, e, w, key, ver, c);
        case Provisioning => ProvisionAccount(w0, e, w, key, ver, c);
        case ClusterReady => WatchAddonsAccount(w0, e, w, key, ver, c);
        case AddonsReady => ExposeAccount(w0, e, w, key, ver, c);
        case Ready => SteadyStateAccount(w0, e, w, key, ver, c);
        case Failed => CarryAccount(w0, w, w, key, ver, c, 0);
      }
    } else {
      CarryAccount(w0, w, w, key, ver, c, 0);
      match c.sst.phase {
        case Pending => ServerValidateAccount(w0, e, w, key, ver, c);
        case Provisioning => ServerProvisionAccount(w0, e, w, key, ver, c);
        case _ =>
      }
    }
    Loosen(w0, Step(e, w, key, ver, c), key, Wanted(c));
  }

  /** A pass that finds no claim. */
  lemma IdleAccount(w: World, w': World, key: Key)
    requires UniqueIDs(w.nb.devices) && w'.nb == w.nb && w'.kube.store == w.kube.store
    ensures forall reply :: Account(w, Stop(w', reply), key, 0)
  {
    NothingDrawn(w.nb.devices);
  }

  /** How many machines a pass may take. */
  function WantedBy(w: World, key: Key, ver: nat): nat {
    var c := Seen(w.kube.store, key, ver);
    if c.Some? then Wanted(c.value) else 0
  }

  /** Every pass, from any version and with any failure, takes from the pool at most what its claim asks for;
      what it takes it records, unless it ends in an error; and it records nothing else. Nor does it take a machine
      out of its claim, unless it may drop some. */
  lemma PassAccount(e: Env, w: World, key: Key, ver: nat)
    requires UniqueIDs(w.nb.devices) && TenantSlug(key.ns) != ""
    ensures var c, r := Seen(w.kube.store, key, ver), Reconcile(e, w, key, ver);
            && LooseAccount(w, Stop(r.w, r.reply), key, WantedBy(w, key, ver))
            && (c.None? || !MayDrop(c.value) ==> Account(w, Stop(r.w, r.reply), key, WantedBy(w, key, ver)))
  {
    hide Account, LooseAccount, TenantSlug, Step;
    var c := Seen(w.kube.store, key, ver);
    var got, r := ReadClaim(e, w.kube, key, ver), Reconcile(e, w, key, ver);
    var w1 := w.(kube := got.k);
    if c.Some? {
      StartAccount(w, key, ver, c.value);
      CarryAccount(w, w, w1, key, ver, c.value, 0);
      RaiseLimit(w, Stop(w1, Error), key, 0, Wanted(c.value));
      if got.read.Found? { StepAccount(w, e, w1, key, ver, c.value); AddressLedger.StepStops(e, w1, key, ver, c.value); }
    } else {
      IdleAccount(w, w1, key);
    }
    Loosen(w, Stop(r.w, r.reply), key, WantedBy(w, key, ver));
  }
}
