/** Which machines a claim gets when nothing disturbs the pass: the first ones of its class and site in the inventory, as
    many as asked for or as there are; for both kinds of claim. */
module Equipping {
  import opened Basics
  import opened Text
  import opened Claims
  import opened Environment
  import opened Inventory
  import opened ApiServer
  import opened Passes
  import opened Holdings
  import opened Exclusivity
  import opened Verdicts
  import Bookkeeping
  import ClusterPass
  import JobVerdicts
  import RookMachines
  import ServerPass
  import opened Runs

  // ---- The offer, by place in the inventory -----------------------------------------------

  /** The places of all the devices that the query selects, in the order of the inventory. */
  ghost predicate Places(sem: Semantics, ds: seq<Device>, site: string, model: string, p: seq<nat>) {
    && (forall j :: 0 <= j < |p| ==> p[j] < |ds| && Selects(sem, ds[p[j]], site, model))
    && (forall j, k :: 0 <= j < k < |p| ==> p[j] < p[k])
    && forall i: nat :: i < |ds| && Selects(sem, ds[i], site, model) ==> i in p
  }

  lemma {:induction false} SelectedPlaces(sem: Semantics, ds: seq<Device>, site: string, model: string) returns (p: seq<nat>)
    ensures Places(sem, ds, site, model, p)
    ensures |p| == |Selected(sem, ds, site, model)| && forall j :: 0 <= j < |p| ==> Selected(sem, ds, site, model)[j] == ds[p[j]]
  {
    hide Selects, Places;
    if ds == [] {
      p := [];
      NoPlaces(sem, site, model);
    } else {
      var n := |ds| - 1;
      var q := SelectedPlaces(sem, ds[..n], site, model);
      p := if Selects(sem, ds[n], site, model) then q + [n] else q;
      PlacesOn(sem, ds, site, model, q, p);
      PlacesInside(sem, ds[..n], site, model, q);
    }
  }

  lemma NoPlaces(sem: Semantics, site: string, model: string)
    ensures Places(sem, [], site, model, [])
  {
  }

  lemma PlacesOn(sem: Semantics, ds: seq<Device>, site: string, model: string, q: seq<nat>, p: seq<nat>)
    requires ds != [] && Places(sem, ds[..|ds| - 1], site, model, q)
    requires p == if Selects(sem, ds[|ds| - 1], site, model) then q + [|ds| - 1] else q
    ensures Places(sem, ds, site, model, p)
  {
    hide Selects;
    var n := |ds| - 1;
    assert forall i: nat :: i < n ==> ds[..n][i] == ds[i];
    forall i: nat | i < |ds| && Selects(sem, ds[i], site, model) ensures i in p {
      if i == n { assert p[|q|] == n; }
    }
  }

  /** How many of them a listing offers. */
  function Offers(sem: Semantics, p: seq<nat>): nat {
    if sem == Real && |p| > PAGE_SIZE then PAGE_SIZE else |p|
  }

  lemma OfferedPlaces(sem: Semantics, ds: seq<Device>, site: string, model: string) returns (p: seq<nat>)
    ensures Places(sem, ds, site, model, p)
    ensures var devs := AvailableDevices(sem, ds, site, model);
            |devs| == Offers(sem, p) && forall j :: 0 <= j < |devs| ==> devs[j] == ds[p[j]]
  {
    p := SelectedPlaces(sem, ds, site, model);
  }

  // ---- A cluster claim --------------------------------------------------------------------

  /** The IDs at the first n places. */
  function IDsAt(ds: seq<Device>, p: seq<nat>, n: nat): seq<int>
    requires n <= |p| && forall j :: 0 <= j < |p| ==> p[j] < |ds|
  {
    seq(n, j requires 0 <= j < n => ds[p[j]].id)
  }

  lemma AllocateTakes(e: Env, w: World, key: Key, ver: nat, c: Claim, site: Site, p: seq<nat>)
    requires NoFaults(e) && c.Cluster? && c.st.machineIDs == [] && TenantSlug(key.ns) != ""
    requires UniqueIDs(w.nb.devices) && IsCurrent(w.kube.store, key, ver)
    requires Places(w.nb.sem, w.nb.devices, site.slug, c.spec.machineClass, p)
    requires var devs := AvailableDevices(w.nb.sem, w.nb.devices, site.slug, c.spec.machineClass);
             |devs| == Offers(w.nb.sem, p) && forall j :: 0 <= j < |devs| ==> devs[j] == w.nb.devices[p[j]]
    ensures var f := ClusterPass.AllocateMachines(e, w, key, ver, c, site);
            && f.Go? && f.c.Cluster? && f.c.st.machineIDs == IDsAt(w.nb.devices, p, ClusterPass.Min(c.spec.machineCount, Offers(w.nb.sem, p)))
            && HistoryOf(f.w.kube.store, key) == HistoryOf(w.kube.store, key) + [Some(f.c)]
  {
    hide AvailableDevices, Stage, TenantSlug, Places;
    PlacesInside(w.nb.sem, w.nb.devices, site.slug, c.spec.machineClass, p);
    ListingOffers(e, w.nb, site.slug, c.spec.machineClass);
    var a := ListAvailable(e, w.nb, site.slug, c.spec.machineClass);
    var devs, n := a.value.value, ClusterPass.Min(c.spec.machineCount, |a.value.value|);
    var s := Stage(e, a.nb, devs, n, TenantSlug(key.ns), true);
    Bookkeeping.StageSucceeds(e, a.nb, devs, n, TenantSlug(key.ns), true);
    StageFacts(e, a.nb, devs, n, TenantSlug(key.ns), true);
    assert s.ids == IDsAt(w.nb.devices, p, n);
    HeldAfter(w.kube.store, key, Some(c.(st := c.st.(machineIDs := s.ids, osdDevices := s.osd))));
  }

  lemma PlacesInside(sem: Semantics, ds: seq<Device>, site: string, model: string, p: seq<nat>)
    requires Places(sem, ds, site, model, p)
    ensures forall j :: 0 <= j < |p| ==> p[j] < |ds|
  {
  }

  /** A provisioning cluster claim without machines gets, in order, the first ones in the inventory that its class and
      site select: as many as it asks for, or as a listing offers. */
  lemma {:induction false} EquipsExactly(e: Env, r: Run, n: nat, key: Key, c: Claim) returns (p: seq<nat>)
    requires Undisturbed(e, r, n, key, c) && TenantSlug(key.ns) != "" && UniqueIDs(r.worlds[n].nb.devices)
    requires c.Cluster? && c.st.phase == Provisioning && c.st.machineIDs == [] && c.spec.site in r.worlds[n].kube.sites
    ensures var w, c' := r.worlds[n], Afterwards(r, n, key);
            && Places(w.nb.sem, w.nb.devices, w.kube.sites[c.spec.site].slug, c.spec.machineClass, p)
            && (forall j :: 0 <= j < |p| ==> p[j] < |w.nb.devices|)
            && c'.Some? && c'.value.Cluster?
            && c'.value.st.machineIDs == IDsAt(w.nb.devices, p, ClusterPass.Min(c.spec.machineCount, Offers(w.nb.sem, p)))
  {
    hide Step, TenantSlug, Places, NoFaults, UniqueIDs;
    var w1, ver := StepTaken(e, r, n, key, c);
    p := OfferedPlaces(w1.nb.sem, w1.nb.devices, w1.kube.sites[c.spec.site].slug, c.spec.machineClass);
    PlacesInside(w1.nb.sem, w1.nb.devices, w1.kube.sites[c.spec.site].slug, c.spec.machineClass, p);
    StepProvisions(e, w1, key, ver, c);
    ProvisionTakes(e, w1, key, ver, c, p);
  }

  lemma StepProvisions(e: Env, w: World, key: Key, ver: nat, c: Claim)
    requires c.meta.finalizer && !c.meta.deleting
    ensures c.Cluster? && c.st.phase == Provisioning ==> Step(e, w, key, ver, c) == ClusterPass.Provision(e, w, key, ver, c)
    ensures c.Server? && c.sst.phase == Provisioning ==> Step(e, w, key, ver, c) == ServerPass.Provision(e, w, key, ver, c)
  {
    hide ClusterPass.Provision, ServerPass.Provision;
  }

  lemma ProvisionTakes(e: Env, w: World, key: Key, ver: nat, c: Claim, p: seq<nat>)
    requires NoFaults(e) && c.Cluster? && c.st.machineIDs == [] && TenantSlug(key.ns) != "" && c.spec.site in w.kube.sites
    requires UniqueIDs(w.nb.devices) && IsCurrent(w.kube.store, key, ver) && Current(w.kube.store, key) == Some(c)
    requires Places(w.nb.sem, w.nb.devices, w.kube.sites[c.spec.site].slug, c.spec.machineClass, p)
    requires var devs := AvailableDevices(w.nb.sem, w.nb.devices, w.kube.sites[c.spec.site].slug, c.spec.machineClass);
             |devs| == Offers(w.nb.sem, p) && forall j :: 0 <= j < |devs| ==> devs[j] == w.nb.devices[p[j]]
    requires forall j :: 0 <= j < |p| ==> p[j] < |w.nb.devices|
    ensures var c' := Current(ClusterPass.Provision(e, w, key, ver, c).w.kube.store, key);
            && c'.Some? && c'.value.Cluster?
            && c'.value.st.machineIDs == IDsAt(w.nb.devices, p, ClusterPass.Min(c.spec.machineCount, Offers(w.nb.sem, p)))
  {
    hide TenantSlug, Places, AvailableDevices, UniqueIDs, ClusterPass.AllocateControlPlaneIP, ClusterPass.AllocateWebhookIP,
      ClusterPass.AllocateMachines, ClusterPass.RunJob, IDsAt;
    var site := w.kube.sites[c.spec.site];
    var w1 := w.(kube := Get(e, w.kube, w.kube.sites, c.spec.site).k);
    AddressesGoOn(e, w1, key, ver, c, site);
    var f1 := ClusterPass.AllocateControlPlaneIP(e, w1, key, ver, c, site);
    AddressesGoOn(e, f1.w, key, f1.ver, f1.c, site);
    var f2 := ClusterPass.AllocateWebhookIP(e, f1.w, key, f1.ver, f1.c, site);
    AllocateTakes(e, f2.w, key, f2.ver, f2.c, site, p);
    var f3 := ClusterPass.AllocateMachines(e, f2.w, key, f2.ver, f2.c, site);
    var h2 := HistoryOf(f2.w.kube.store, key);
    RookMachines.RunJobCarries(e, f3.w, key, f3.ver, f3.c, site, h2, f3.c.st.machineIDs, f3.c.st.osdDevices);
    var f := ClusterPass.RunJob(e, f3.w, key, f3.ver, f3.c, site);
    NoShorter(h2 + [Some(f3.c)], h2, f3, key);
    RunJobGrows(e, f3.w, key, f3.ver, f3.c, site);
    RookMachines.LastCarries(f, key, h2, f3.c.st.machineIDs, f3.c.st.osdDevices);
  }

  lemma NoShorter(h: History, h2: History, f: Flow, key: Key)
    requires f.Go? && HistoryOf(f.w.kube.store, key) == h && f.c.Cluster? && h == h2 + [Some(f.c)]
    ensures RookMachines.Carries(f, key, h2, f.c.st.machineIDs, f.c.st.osdDevices)
  {
  }

  lemma RunJobGrows(e: Env, w: World, key: Key, ver: nat, c: Claim, site: Site)
    requires c.Cluster?
    ensures |HistoryOf(ClusterPass.RunJob(e, w, key, ver, c, site).w.kube.store, key)| >= |HistoryOf(w.kube.store, key)|
  {
    hide ClusterPass.RunJob;
    RookMachines.RunJobCarries(e, w, key, ver, c, site, HistoryOf(w.kube.store, key), c.st.machineIDs, c.st.osdDevices);
  }

  /** Without failures the address parts go on, and leave the offer as it is. */
  lemma AddressesGoOn(e: Env, w: World, key: Key, ver: nat, c: Claim, site: Site)
    requires NoFaults(e) && c.Cluster? && IsCurrent(w.kube.store, key, ver)
    ensures GoesOn(w, key, c, ClusterPass.AllocateControlPlaneIP(e, w, key, ver, c, site))
    ensures GoesOn(w, key, c, ClusterPass.AllocateWebhookIP(e, w, key, ver, c, site))
  {
    hide TenantSlug, StripPrefix;
  }

  predicate GoesOn(w: World, key: Key, c: Claim, f: Flow) {
    && f.Go? && IsCurrent(f.w.kube.store, key, f.ver) && f.w.nb.devices == w.nb.devices && f.w.nb.sem == w.nb.sem
    && c.Cluster? && f.c.Cluster? && f.c.spec == c.spec && f.c.st.machineIDs == c.st.machineIDs
  }

  // ---- A server claim ---------------------------------------------------------------------

  /** A provisioning server claim without a machine gets the first one in the inventory that its class and site select;
      if there is none it fails and says so. */
  lemma {:induction false} ServerEquipsExactly(e: Env, r: Run, n: nat, key: Key, c: Claim) returns (p: seq<nat>)
    requires Undisturbed(e, r, n, key, c) && TenantSlug(key.ns) != "" && UniqueIDs(r.worlds[n].nb.devices)
    requires c.Server? && c.sst.phase == Provisioning && c.sst.machineID == 0 && c.sspec.site in r.worlds[n].kube.sites
    ensures var w, c' := r.worlds[n], Afterwards(r, n, key);
            && Places(w.nb.sem, w.nb.devices, w.kube.sites[c.sspec.site].slug, c.sspec.machineClass, p)
            && c'.Some? && c'.value.Server?
            && (if p == [] then c'.value.sst.machineID == 0 && FailedFor(c'.value, "InsufficientMachines")
                else p[0] < |w.nb.devices| && c'.value.sst.machineID == w.nb.devices[p[0]].id)
            && (JobOf(key) !in w.kube.jobs ==> (c'.value.sst.phase == Failed <==> p == []))
  {
    hide Step, TenantSlug, Places, NoFaults, UniqueIDs, FailedFor;
    var w1, ver := StepTaken(e, r, n, key, c);
    p := OfferedPlaces(w1.nb.sem, w1.nb.devices, w1.kube.sites[c.sspec.site].slug, c.sspec.machineClass);
    PlacesInside(w1.nb.sem, w1.nb.devices, w1.kube.sites[c.sspec.site].slug, c.sspec.machineClass, p);
    StepProvisions(e, w1, key, ver, c);
    ServerProvisionTakes(e, w1, key, ver, c);
  }

  /** The claim has failed, and its last condition says why. */
  predicate FailedFor(c: Claim, reason: string) {
    c.Server? && c.sst.phase == Failed && c.sst.conditions != []
    && c.sst.conditions[|c.sst.conditions| - 1] == Condition("Ready", false, reason)
  }

  lemma ServerProvisionTakes(e: Env, w: World, key: Key, ver: nat, c: Claim)
    requires NoFaults(e) && c.Server? && c.sst.phase == Provisioning && c.sst.machineID == 0
    requires TenantSlug(key.ns) != "" && c.sspec.site in w.kube.sites
    requires UniqueIDs(w.nb.devices) && IsCurrent(w.kube.store, key, ver)
    ensures var devs := AvailableDevices(w.nb.sem, w.nb.devices, w.kube.sites[c.sspec.site].slug, c.sspec.machineClass);
            var c' := Current(ServerPass.Provision(e, w, key, ver, c).w.kube.store, key);
            && c'.Some? && c'.value.Server?
            && (if devs == [] then c'.value.sst.machineID == 0 && FailedFor(c'.value, "InsufficientMachines")
                else c'.value.sst.machineID == devs[0].id)
            && (JobOf(key) !in w.kube.jobs ==> (c'.value.sst.phase == Failed <==> devs == []))
  {
    hide TenantSlug, AvailableDevices, UniqueIDs, ServerPass.AllocateServerIP, ServerPass.AllocateMachine, ServerPass.RunJob;
    var site := w.kube.sites[c.sspec.site];
    var w1 := w.(kube := Get(e, w.kube, w.kube.sites, c.sspec.site).k);
    ServerAddressGoesOn(e, w1, key, ver, c, site);
    var f1 := ServerPass.AllocateServerIP(e, w1, key, ver, c, site);
    ServerTakes(e, f1.w, key, f1.ver, f1.c, site);
    var f2 := ServerPass.AllocateMachine(e, f1.w, key, f1.ver, f1.c, site);
    if f2.Go? { JobVerdicts.ServerRunJobDecides(e, f2.w, key, f2.ver, f2.c); }
  }

  lemma ServerAddressGoesOn(e: Env, w: World, key: Key, ver: nat, c: Claim, site: Site)
    requires NoFaults(e) && c.Server? && c.sst.phase == Provisioning && IsCurrent(w.kube.store, key, ver)
    ensures var f := ServerPass.AllocateServerIP(e, w, key, ver, c, site);
            && f.Go? && IsCurrent(f.w.kube.store, key, f.ver) && f.w.nb.devices == w.nb.devices && f.w.nb.sem == w.nb.sem
            && f.c.Server? && f.c.sspec == c.sspec && f.c.sst.machineID == c.sst.machineID && f.c.sst.phase == Provisioning
            && f.w.kube.jobs == w.kube.jobs
  {
    hide TenantSlug, StripPrefix;
  }

  lemma ServerTakes(e: Env, w: World, key: Key, ver: nat, c: Claim, site: Site)
    requires NoFaults(e) && c.Server? && c.sst.phase == Provisioning && c.sst.machineID == 0 && TenantSlug(key.ns) != ""
    requires UniqueIDs(w.nb.devices) && IsCurrent(w.kube.store, key, ver)
    ensures var f := ServerPass.AllocateMachine(e, w, key, ver, c, site);
            var devs := AvailableDevices(w.nb.sem, w.nb.devices, site.slug, c.sspec.machineClass);
            if devs == [] then
              && f.Stop?
              && var c' := Current(f.w.kube.store, key);
              c'.Some? && c'.value.Server? && c'.value.sst.machineID == 0 && FailedFor(c'.value, "InsufficientMachines")
            else
              && f.Go? && IsCurrent(f.w.kube.store, key, f.ver) && Current(f.w.kube.store, key) == Some(f.c)
              && f.c.Server? && f.c.sst.machineID == devs[0].id && f.c.sst.phase == Provisioning && f.w.kube.jobs == w.kube.jobs
  {
    hide AvailableDevices, Stage, TenantSlug, ServerPass.Fail;
    ListingOffers(e, w.nb, site.slug, c.sspec.machineClass);
    var a := ListAvailable(e, w.nb, site.slug, c.sspec.machineClass);
    ServerFails(e, w.(nb := a.nb), key, ver, c, "InsufficientMachines");
    if a.value.value != [] {
      Bookkeeping.StageSucceeds(e, a.nb, a.value.value, 1, TenantSlug(key.ns), false);
      HeldAfter(w.kube.store, key, Some(c.(sst := c.sst.(machineID := a.value.value[0].id))));
    }
  }
}
