/** The disks a claim records are those of the machines it records, in every run, until it is Ready: what the
    staging loop collects, and that no step of any pass lets list and map drift apart before then. */
module RecordedDisks {
  import opened Basics
  import opened Text
  import opened Claims
  import opened Environment
  import opened Inventory
  import opened ApiServer
  import opened Passes
  import opened Holdings
  import opened Exclusivity
  import RoleRules
  import ClusterPass
  import ServerPass
  import opened Runs

  /** The map holds, under their decimal IDs, exactly the machines of the list that have tagged disks. */
  ghost predicate DescribesMachines(osd: map<string, seq<string>>, ids: seq<int>, nb: Netbox) {
    && (forall id :: id in ids ==> DescribesMachine(osd, id, nb))
    && (forall k :: k in osd ==> exists id :: id in ids && k == Decimal(id))
  }

  predicate DescribesMachine(osd: map<string, seq<string>>, id: int, nb: Netbox) {
    if DisksOf(nb, id) == [] then Decimal(id) !in osd
    else Decimal(id) in osd && osd[Decimal(id)] == DisksOf(nb, id)
  }

  // ---- What the staging loop collects -----------------------------------------------------

  /** The query for the i-th device's disks, in a loop whose first call is `from`, was heard, or there was nothing
      to hear: an error body reads as an empty list, and the loop goes on. */
  predicate Heard(e: Env, nb: Netbox, devs: seq<Device>, from: nat, i: nat)
    requires i < |devs|
  {
    e.netbox(from + 2 * i + 1) != Lost || DisksOf(nb, devs[i].id) == []
  }

  ghost predicate AllHeard(e: Env, nb: Netbox, devs: seq<Device>, from: nat, n: nat)
    requires n <= |devs|
  {
    forall i: nat :: i < n ==> Heard(e, nb, devs, from, i)
  }

  /** The map has keys of the first n devices only, and is right about each one whose query was heard. */
  ghost predicate RightIfHeard(e: Env, osd: map<string, seq<string>>, nb: Netbox, devs: seq<Device>, from: nat, n: nat)
    requires n <= |devs|
  {
    && (forall k :: k in osd ==> exists i: nat :: i < n && k == Decimal(devs[i].id))
    && (forall i: nat :: i < n ==> (DescribesMachine(osd, devs[i].id, nb) <==> Heard(e, nb, devs, from, i)))
  }

  /** When staging n devices succeeds, the disks it collects are those of the machines it staged exactly when
      every query was heard. */
  lemma {:induction false} StagedDisks(e: Env, nb: Netbox, devs: seq<Device>, n: nat, slug: string)
    requires UniqueIDs(devs) && n <= |devs|
    ensures var s := Stage(e, nb, devs, n, slug, true);
            && s.nb == nb.(devices := s.nb.devices, calls := s.nb.calls)
            && |s.ids| <= n && (forall i :: 0 <= i < |s.ids| ==> s.ids[i] == devs[i].id)
            && (s.ok ==> |s.ids| == n && (DescribesMachines(s.osd, s.ids, nb) <==> AllHeard(e, nb, devs, nb.calls, n)))
  {
    hide Stage, DescribesMachines, RightIfHeard, AllHeard;
    StagedRight(e, nb, devs, n, slug);
    var s := Stage(e, nb, devs, n, slug, true);
    if s.ok { AllRight(e, s.osd, s.ids, nb, devs, nb.calls, n); }
  }

  lemma AllRight(e: Env, osd: map<string, seq<string>>, ids: seq<int>, nb: Netbox, devs: seq<Device>, from: nat, n: nat)
    requires n <= |devs| && |ids| == n && (forall i :: 0 <= i < n ==> ids[i] == devs[i].id)
    requires RightIfHeard(e, osd, nb, devs, from, n)
    ensures DescribesMachines(osd, ids, nb) <==> AllHeard(e, nb, devs, from, n)
  {
    hide DescribesMachine, Heard;
    forall k | k in osd ensures exists id :: id in ids && k == Decimal(id) {
      var i: nat :| i < n && k == Decimal(devs[i].id);
      assert ids[i] in ids;
    }
    if DescribesMachines(osd, ids, nb) {
      forall i: nat | i < n ensures Heard(e, nb, devs, from, i) { assert ids[i] in ids; }
    }
  }

  lemma {:induction false} StagedRight(e: Env, nb: Netbox, devs: seq<Device>, n: nat, slug: string)
    requires UniqueIDs(devs) && n <= |devs|
    ensures var s := Stage(e, nb, devs, n, slug, true);
            && s.nb == nb.(devices := s.nb.devices, calls := s.nb.calls)
            && |s.ids| <= n && (forall i :: 0 <= i < |s.ids| ==> s.ids[i] == devs[i].id)
            && (s.ok ==> |s.ids| == n && s.nb.calls == nb.calls + 2 * n && RightIfHeard(e, s.osd, nb, devs, nb.calls, n))
  {
    hide StageOne, RightIfHeard;
    if n == 0 {
      NothingCollected(e, nb, devs, nb.calls);
    } else {
      StagedRight(e, nb, devs, n - 1, slug);
      var s := Stage(e, nb, devs, n - 1, slug, true);
      if s.ok { OneMoreMachine(e, nb, devs, n - 1, slug, s); }
    }
  }

  lemma NothingCollected(e: Env, nb: Netbox, devs: seq<Device>, from: nat)
    ensures RightIfHeard(e, map[], nb, devs, from, 0)
  {
  }

  lemma NoMachines(nb: Netbox)
    ensures DescribesMachines(map[], [], nb)
  {
  }

  lemma OneMoreMachine(e: Env, nb: Netbox, devs: seq<Device>, n: nat, slug: string, s: Staging)
    requires UniqueIDs(devs) && n < |devs| && s.ok && s.nb.calls == nb.calls + 2 * n
    requires s.nb == nb.(devices := s.nb.devices, calls := s.nb.calls)
    requires |s.ids| == n && (forall i :: 0 <= i < n ==> s.ids[i] == devs[i].id)
    requires RightIfHeard(e, s.osd, nb, devs, nb.calls, n)
    ensures var s' := StageOne(e, s, devs[n].id, slug, true);
            && s'.nb == nb.(devices := s'.nb.devices, calls := s'.nb.calls)
            && (s'.ids == s.ids || s'.ids == s.ids + [devs[n].id])
            && (s'.ok ==> s'.ids == s.ids + [devs[n].id] && s'.nb.calls == nb.calls + 2 * (n + 1)
                          && RightIfHeard(e, s'.osd, nb, devs, nb.calls, n + 1))
  {
    hide RightIfHeard, AddDisks, PatchDevice, HasDevice, UniqueIDs;
    var id := devs[n].id;
    var s' := StageOne(e, s, id, slug, true);
    var names := if e.netbox(nb.calls + 2 * n + 1) == Ok then DisksOf(nb, id) else [];
    assert s'.ok ==> s'.osd == AddDisks(s.osd, id, names) && e.netbox(nb.calls + 2 * n + 1) != Refused;
    if s'.ok { Collected(e, s.osd, nb, devs, nb.calls, n, names); }
  }

  lemma Collected(e: Env, osd: map<string, seq<string>>, nb: Netbox, devs: seq<Device>, from: nat, n: nat, names: seq<string>)
    requires UniqueIDs(devs) && n < |devs| && RightIfHeard(e, osd, nb, devs, from, n)
    requires names == (if e.netbox(from + 2 * n + 1) == Ok then DisksOf(nb, devs[n].id) else [])
    requires e.netbox(from + 2 * n + 1) != Refused
    ensures RightIfHeard(e, AddDisks(osd, devs[n].id, names), nb, devs, from, n + 1)
  {
    hide Decimal, DisksOf;
    var id := devs[n].id;
    var osd' := AddDisks(osd, id, names);
    if Decimal(id) in osd {
      var i: nat :| i < n && Decimal(id) == Decimal(devs[i].id);
      DecimalInjective(id, devs[i].id);
    }
    assert [] + names == names;
    forall i: nat | i < n ensures DescribesMachine(osd', devs[i].id, nb) <==> Heard(e, nb, devs, from, i) {
      assert DescribesMachine(osd, devs[i].id, nb) <==> Heard(e, nb, devs, from, i);
      if Decimal(devs[i].id) == Decimal(id) { DecimalInjective(devs[i].id, id); }
    }
    forall k | k in osd' ensures exists i: nat :: i < n + 1 && k == Decimal(devs[i].id) {
      if k in osd {
        var i: nat :| i < n && k == Decimal(devs[i].id);
      } else {
        assert k == Decimal(devs[n].id);
      }
    }
  }

  /** For one device: staged while its disk query is answered by an error body, it loses its disks silently; what is
      recorded about it is right exactly when the query was answered or there was no disk to lose. */
  lemma DisksLostExactly(e: Env, s: Staging, id: int, slug: string)
    requires s.ok && Decimal(id) !in s.osd && StageOne(e, s, id, slug, true).ok
    ensures DescribesMachine(StageOne(e, s, id, slug, true).osd, id, s.nb) <==>
              e.netbox(s.nb.calls + 1) == Ok || DisksOf(s.nb, id) == []
  {
    hide Decimal;
    assert [] + DisksOf(s.nb, id) == DisksOf(s.nb, id);
  }

  // ---- The disk queries of a pass ---------------------------------------------------------

  /** This version is about to get its machines. */
  predicate GetsMachines(c: Claim) {
    c.Cluster? && !c.meta.deleting && c.meta.finalizer && c.st.phase == Provisioning && c.st.machineIDs == []
  }

  /** How many addresses it takes before. */
  function Addresses(c: Claim): nat
    requires c.Cluster?
  {
    (if c.st.cpIP == "" then 1 else 0) + if c.st.whIP == "" then 1 else 0
  }

  /** The disk queries of the staging loop of a pass are heard; the loop's first call comes after those for the
      addresses and the listing. Nothing is asked of any other call. */
  ghost predicate DisksHeard(e: Env, nb: Netbox, c: Claim, site: Site)
    requires c.Cluster?
  {
    var devs := AvailableDevices(nb.sem, nb.devices, site.slug, c.spec.machineClass);
    AllHeard(e, nb, devs, nb.calls + Addresses(c) + 1, ClusterPass.Min(c.spec.machineCount, |devs|))
  }

  ghost predicate HeardBy(e: Env, w: World, c: Claim)
    requires c.Cluster?
  {
    c.spec.site in w.kube.sites ==> DisksHeard(e, w.nb, c, w.kube.sites[c.spec.site])
  }

  /** An event whose disk queries, if it has any, are heard. */
  ghost predicate Hears(e: Env, w: World, ev: Event) {
    ev.Pass? ==>
      var c := Seen(w.kube.store, ev.key, ev.ver);
      c.Some? && GetsMachines(c.value) ==> HeardBy(e, w, c.value)
  }

  ghost predicate HearingRun(e: Env, r: Run)
    requires |r.worlds| == |r.events| + 1
  {
    forall n: nat :: n < |r.events| ==> HearsAt(e, r, n)
  }

  ghost predicate HearsAt(e: Env, r: Run, n: nat)
    requires n < |r.events| && n < |r.worlds|
  {
    Hears(e, r.worlds[n], r.events[n])
  }

  // ---- Over runs --------------------------------------------------------------------------

  /** Scaling a Ready cluster changes its machines but not its disks, hence the exception. */
  ghost predicate Faithful(nb: Netbox, c: Claim) {
    c.Cluster? && c.st.phase != Ready ==> DescribesMachines(c.st.osdDevices, c.st.machineIDs, nb)
  }

  ghost predicate AllFaithful(w: World) {
    UniqueIDs(w.nb.devices) && forall key :: HistoryFaithful(w, key)
  }

  ghost predicate HistoryFaithful(w: World, key: Key) {
    var h := HistoryOf(w.kube.store, key);
    forall i :: 0 <= i < |h| && h[i].Some? ==> Faithful(w.nb, h[i].value)
  }

  /** A pass under way, started in the inventory nb0. */
  ghost predicate FaithfulFlow(nb0: Netbox, f: Flow) {
    && AllFaithful(f.w) && f.w.nb.sem == nb0.sem && f.w.nb.disks == nb0.disks
    && (f.Go? ==> Faithful(f.w.nb, f.c))
  }

  /** The disks of a machine depend on nothing that changes. */
  lemma SameDisks(nb: Netbox, nb': Netbox, c: Claim)
    requires Faithful(nb, c) && nb'.sem == nb.sem && nb'.disks == nb.disks
    ensures Faithful(nb', c)
  {
    if c.Cluster? && c.st.phase != Ready {
      forall id | id in c.st.machineIDs ensures DescribesMachine(c.st.osdDevices, id, nb') {
        assert DescribesMachine(c.st.osdDevices, id, nb);
      }
    }
  }

  lemma CarryFaithful(w: World, w': World)
    requires AllFaithful(w) && w'.kube.store == w.kube.store
    requires UniqueIDs(w'.nb.devices) && w'.nb.sem == w.nb.sem && w'.nb.disks == w.nb.disks
    ensures AllFaithful(w')
  {
    hide Faithful;
    forall key ensures HistoryFaithful(w', key) {
      assert HistoryFaithful(w, key);
      var h := HistoryOf(w.kube.store, key);
      forall i | 0 <= i < |h| && h[i].Some? ensures Faithful(w'.nb, h[i].value) {
        SameDisks(w.nb, w'.nb, h[i].value);
      }
    }
  }

  lemma AppendFaithful(w: World, key: Key, v: Option<Claim>)
    requires AllFaithful(w) && (v.Some? ==> Faithful(w.nb, v.value))
    ensures AllFaithful(Put(w, key, v))
  {
    hide Faithful;
    HeldAfter(w.kube.store, key, v);
    forall k ensures HistoryFaithful(Put(w, key, v), k) {
      assert HistoryFaithful(w, k);
      assert k == key ==> HistoryOf(Put(w, key, v).kube.store, k) == HistoryOf(w.kube.store, k) + [v];
    }
  }

  lemma SaveFaithful(nb0: Netbox, e: Env, w: World, key: Key, ver: nat, c: Claim)
    requires AllFaithful(w) && w.nb.sem == nb0.sem && w.nb.disks == nb0.disks && Faithful(w.nb, c)
    ensures FaithfulFlow(nb0, Save(e, w, key, ver, c))
    ensures forall reply :: FaithfulFlow(nb0, SaveAndStop(e, w, key, ver, c, reply))
  {
    hide Faithful, AllFaithful;
    var w' := w.(kube := WriteClaim(e, w.kube, key, ver, Some(c)).k);
    if w'.kube.store == w.kube.store {
      CallFaithful(w, w');
    } else {
      AppendFaithful(w, key, Some(c));
      CallFaithful(Put(w, key, Some(c)), w');
    }
  }

  // ---- The cluster steps ------------------------------------------------------------------

  lemma FailFaithful(nb0: Netbox, e: Env, w: World, key: Key, ver: nat, c: Claim, reason: string)
    requires c.Cluster? && c.st.phase != Ready && FaithfulFlow(nb0, Go(w, ver, c))
    ensures FaithfulFlow(nb0, ClusterPass.Fail(e, w, key, ver, c, reason))
  {
    hide AllFaithful, Passes.SaveAndStop;
    SaveFaithful(nb0, e, w, key, ver, c.(st := ClusterPass.Mark(c.st.(phase := Failed), "Validated", false, reason)));
  }

  lemma ValidateFaithful(nb0: Netbox, e: Env, w: World, key: Key, ver: nat, c: Claim)
    requires c.Cluster? && c.st.phase == Pending && FaithfulFlow(nb0, Go(w, ver, c))
    ensures FaithfulFlow(nb0, ClusterPass.Validate(e, w, key, ver, c))
  {
    hide ClusterPass.Fail, Passes.SaveAndStop, Passes.Save, DescribesMachines, HistoryFaithful;
    var p := Get(e, w.kube, w.kube.profiles, c.spec.profile);
    CarryFaithful(w, w.(kube := p.k));
    FailFaithful(nb0, e, w.(kube := p.k), key, ver, c, "AddonProfileNotFound");
    if p.read.Found? {
      var s := Get(e, p.k, p.k.sites, c.spec.site);
      CarryFaithful(w, w.(kube := s.k));
      FailFaithful(nb0, e, w.(kube := s.k), key, ver, c, "SiteConfigNotFound");
      if s.read.Found? {
        var w1 := w.(kube := s.k, nb := ListAvailable(e, w.nb, s.read.value.slug, c.spec.machineClass).nb);
        CarryFaithful(w, w1);
        SameDisks(w.nb, w1.nb, c);
        FailFaithful(nb0, e, w1, key, ver, c, "InsufficientMachines");
        FailFaithful(nb0, e, w1, key, ver, c, "MachineClassIncompatible");
        SaveFaithful(nb0, e, w1, key, ver, c.(st := ClusterPass.Validated(c.st)));
      }
    }
  }

  lemma AddressesFaithful(nb0: Netbox, e: Env, w: World, key: Key, ver: nat, c: Claim, site: Site)
    requires c.Cluster? && c.st.phase == Provisioning && FaithfulFlow(nb0, Go(w, ver, c))
    ensures var f := ClusterPass.AllocateControlPlaneIP(e, w, key, ver, c, site);
            FaithfulFlow(nb0, f) && (f.Go? ==> f.c.Cluster? && f.c.st.phase == Provisioning)
    ensures var f := ClusterPass.AllocateWebhookIP(e, w, key, ver, c, site);
            FaithfulFlow(nb0, f) && (f.Go? ==> f.c.Cluster? && f.c.st.phase == Provisioning)
  {
    hide DescribesMachines, HistoryFaithful, TenantSlug, StripPrefix, WriteClaim;
    var a := AllocateIP(e, w.nb);
    var w1 := w.(nb := a.nb);
    CarryFaithful(w, w1);
    SameDisks(w.nb, a.nb, c);
    if a.value.Some? {
      var ip, id := StripPrefix(a.value.value.address), a.value.value.id;
      SaveFaithful(nb0, e, w1, key, ver, c.(st := c.st.(
        cpIP := ip, cpDNS := key.name + "-api." + TenantSlug(key.ns) + "." + site.zone, ipamIDs := c.st.ipamIDs + [id])));
      SaveFaithful(nb0, e, w1, key, ver, c.(st := c.st.(
        whIP := ip, whDNS := key.name + "-wh." + TenantSlug(key.ns) + "." + site.zone, ipamIDs := c.st.ipamIDs + [id])));
    }
  }

  /** The same, told where the listing is about to happen. */
  ghost predicate StagingHeard(e: Env, nb: Netbox, c: Claim, site: Site)
    requires c.Cluster?
  {
    var devs := AvailableDevices(nb.sem, nb.devices, site.slug, c.spec.machineClass);
    AllHeard(e, nb, devs, nb.calls + 1, ClusterPass.Min(c.spec.machineCount, |devs|))
  }

  lemma MachinesFaithful(nb0: Netbox, e: Env, w: World, key: Key, ver: nat, c: Claim, site: Site)
    requires c.Cluster? && c.st.phase == Provisioning && FaithfulFlow(nb0, Go(w, ver, c))
    requires TenantSlug(key.ns) != "" && (c.st.machineIDs == [] ==> StagingHeard(e, w.nb, c, site))
    ensures var f := ClusterPass.AllocateMachines(e, w, key, ver, c, site);
            FaithfulFlow(nb0, f) && (f.Go? ==> f.c.Cluster? && f.c.st.phase == Provisioning)
  {
    hide DescribesMachines, HistoryFaithful, TenantSlug, WriteClaim, Stage;
    if c.st.machineIDs == [] {
      ListingOffers(e, w.nb, site.slug, c.spec.machineClass);
      var a := ListAvailable(e, w.nb, site.slug, c.spec.machineClass);
      CarryFaithful(w, w.(nb := a.nb));
      if a.value.Some? {
        var devs, n := a.value.value, ClusterPass.Min(c.spec.machineCount, |a.value.value|);
        var t := Stage(e, a.nb, devs, n, TenantSlug(key.ns), true);
        StageFacts(e, a.nb, devs, n, TenantSlug(key.ns), true);
        ListingHeard(e, w.nb, a.nb, c, site, devs);
        StagedDisks(e, a.nb, devs, n, TenantSlug(key.ns));
        OnlyStagedKeepsIDs(w.nb.devices, t.nb.devices, TenantSlug(key.ns));
        CarryFaithful(w, w.(nb := t.nb));
        if t.ok {
          var c' := c.(st := c.st.(machineIDs := t.ids, osdDevices := t.osd));
          SameDisks(a.nb, t.nb, c');
          SaveFaithful(nb0, e, w.(nb := t.nb), key, ver, c');
        }
      }
    }
  }

  lemma ListingHeard(e: Env, nb: Netbox, nb1: Netbox, c: Claim, site: Site, devs: seq<Device>)
    requires c.Cluster? && StagingHeard(e, nb, c, site) && nb1 == nb.(calls := nb.calls + 1)
    requires devs == [] || devs == AvailableDevices(nb.sem, nb.devices, site.slug, c.spec.machineClass)
    ensures AllHeard(e, nb1, devs, nb1.calls, ClusterPass.Min(c.spec.machineCount, |devs|))
  {
    hide AvailableDevices;
    forall i: nat | i < ClusterPass.Min(c.spec.machineCount, |devs|) ensures Heard(e, nb1, devs, nb1.calls, i) {
      assert Heard(e, nb, devs, nb.calls + 1, i);
    }
  }

  /** The address parts of a pass take one call each, and leave the listing to come as it is. */
  lemma AddressesCalls(e: Env, w: World, key: Key, ver: nat, c: Claim, site: Site)
    requires c.Cluster?
    ensures var f := ClusterPass.AllocateControlPlaneIP(e, w, key, ver, c, site);
            f.Go? ==> SameListing(w.nb, c, f, if c.st.cpIP == "" then 1 else 0) && f.c.st.whIP == c.st.whIP
    ensures var f := ClusterPass.AllocateWebhookIP(e, w, key, ver, c, site);
            f.Go? ==> SameListing(w.nb, c, f, if c.st.whIP == "" then 1 else 0)
  {
    hide TenantSlug, StripPrefix, WriteClaim;
  }

  predicate SameListing(nb: Netbox, c: Claim, f: Flow, calls: nat)
    requires c.Cluster? && f.Go?
  {
    && f.c.Cluster? && f.c.spec == c.spec && f.c.st.machineIDs == c.st.machineIDs && f.c.st.osdDevices == c.st.osdDevices
    && f.w.nb.sem == nb.sem && f.w.nb.devices == nb.devices && f.w.nb.disks == nb.disks && f.w.nb.calls == nb.calls + calls
  }

  lemma ReachesListing(e: Env, w: World, c: Claim, f: Flow, site: Site)
    requires c.Cluster? && f.Go? && SameListing(w.nb, c, f, Addresses(c))
    ensures StagingHeard(e, f.w.nb, f.c, site) <==> DisksHeard(e, w.nb, c, site)
  {
    hide AvailableDevices;
    var devs := AvailableDevices(w.nb.sem, w.nb.devices, site.slug, c.spec.machineClass);
    var from := w.nb.calls + Addresses(c) + 1;
    assert forall i: nat :: i < |devs| ==> (Heard(e, w.nb, devs, from, i) <==> Heard(e, f.w.nb, devs, from, i));
  }

  lemma RunJobFaithful(nb0: Netbox, e: Env, w: World, key: Key, ver: nat, c: Claim, site: Site)
    requires c.Cluster? && c.st.phase == Provisioning && FaithfulFlow(nb0, Go(w, ver, c))
    ensures FaithfulFlow(nb0, ClusterPass.RunJob(e, w, key, ver, c, site))
  {
    hide DescribesMachines, HistoryFaithful, ClusterPass.Fail, ClusterPass.EnsureCluster;
    var got := Get(e, w.kube, w.kube.jobs, JobOf(key));
    CarryFaithful(w, w.(kube := got.k));
    CarryFaithful(w, w.(kube := CreateJob(e, got.k, JobOf(key)).k));
    FailFaithful(nb0, e, w.(kube := got.k), key, ver, c, "MachineCfgFailed");
    EnsureClusterFaithful(nb0, e, w.(kube := got.k), key, ver, c, site);
  }

  lemma EnsureClusterFaithful(nb0: Netbox, e: Env, w: World, key: Key, ver: nat, c: Claim, site: Site)
    requires c.Cluster? && c.st.phase == Provisioning && FaithfulFlow(nb0, Go(w, ver, c))
    ensures FaithfulFlow(nb0, ClusterPass.EnsureCluster(e, w, key, ver, c, site))
  {
    hide DescribesMachines, HistoryFaithful, ClusterPass.EnsureAll, WriteClaim, SetCondition;
    var objs := ClusterPass.CAPIObjects(key, c, site);
    EnsureAllFrame(e, w.kube, objs, |objs|);
    var d := ClusterPass.EnsureAll(e, w.kube, objs, |objs|);
    CarryFaithful(w, w.(kube := d.k));
    var w1 := w.(kube := Get(e, d.k, d.k.objects, ClusterPass.CAPICluster(key)).k);
    CarryFaithful(w, w1);
    SaveFaithful(nb0, e, w1, key, ver, c.(st := ClusterPass.Configured(c.st, key.name, true)));
    SaveFaithful(nb0, e, w1, key, ver, c.(st := ClusterPass.Configured(c.st, key.name, false)));
  }

  lemma ProvisionFaithful(nb0: Netbox, e: Env, w: World, key: Key, ver: nat, c: Claim)
    requires c.Cluster? && c.st.phase == Provisioning && FaithfulFlow(nb0, Go(w, ver, c))
    requires TenantSlug(key.ns) != "" && (c.st.machineIDs == [] ==> HeardBy(e, w, c))
    ensures FaithfulFlow(nb0, ClusterPass.Provision(e, w, key, ver, c))
  {
    hide Faithful, AllFaithful, TenantSlug, DisksHeard, StagingHeard, ClusterPass.AllocateControlPlaneIP, ClusterPass.AllocateWebhookIP,
      ClusterPass.AllocateMachines, ClusterPass.RunJob;
    var s := Get(e, w.kube, w.kube.sites, c.spec.site);
    var w1 := w.(kube := s.k);
    CallFaithful(w, w1);
    if s.read.Found? {
      AddressesFaithful(nb0, e, w1, key, ver, c, s.read.value);
      AddressesCalls(e, w1, key, ver, c, s.read.value);
      var f1 := ClusterPass.AllocateControlPlaneIP(e, w1, key, ver, c, s.read.value);
      if f1.Go? {
        AddressesFaithful(nb0, e, f1.w, key, f1.ver, f1.c, s.read.value);
        AddressesCalls(e, f1.w, key, f1.ver, f1.c, s.read.value);
        var f2 := ClusterPass.AllocateWebhookIP(e, f1.w, key, f1.ver, f1.c, s.read.value);
        if f2.Go? {
          ReachesListing(e, w1, c, f2, s.read.value);
          MachinesFaithful(nb0, e, f2.w, key, f2.ver, f2.c, s.read.value);
          var f3 := ClusterPass.AllocateMachines(e, f2.w, key, f2.ver, f2.c, s.read.value);
          if f3.Go? { RunJobFaithful(nb0, e, f3.w, key, f3.ver, f3.c, s.read.value); }
        }
      }
    }
  }

  /** Calls to the API server that leave the claims alone. */
  lemma CallFaithful(w: World, w': World)
    requires AllFaithful(w) && w'.nb == w.nb && w'.kube.store == w.kube.store
    ensures AllFaithful(w')
  {
    CarryFaithful(w, w');
  }

  lemma WatchAddonsFaithful(nb0: Netbox, e: Env, w: World, key: Key, ver: nat, c: Claim)
    requires c.Cluster? && c.st.phase == ClusterReady && FaithfulFlow(nb0, Go(w, ver, c))
    ensures FaithfulFlow(nb0, ClusterPass.WatchAddons(e, w, key, ver, c))
  {
    hide AllFaithful, DescribesMachines, WriteClaim, SetCondition, ClusterPass.Install, ClusterPass.CheckReady;
    var p := Get(e, w.kube, w.kube.profiles, c.spec.profile);
    CallFaithful(w, w.(kube := p.k));
    if p.read.Found? {
      var comps := e.sort(p.k.calls, p.read.value.components);
      InstallFrame(e, p.k, key, c.st, comps, |comps|);
      var d := ClusterPass.Install(e, p.k, key, c.st, comps, |comps|);
      CallFaithful(w, w.(kube := d.k));
      CheckReadyFrame(e, d.k, key, comps, |comps|);
      var w1 := w.(kube := ClusterPass.CheckReady(e, d.k, key, comps, |comps|).k);
      CallFaithful(w, w1);
      SaveFaithful(nb0, e, w1, key, ver, c.(st := ClusterPass.Mark(c.st.(phase := AddonsReady), "AddonsReady", true, "AllAddonsReady")));
    }
  }

  lemma ExposeFaithful(nb0: Netbox, e: Env, w: World, key: Key, ver: nat, c: Claim)
    requires c.Cluster? && FaithfulFlow(nb0, Go(w, ver, c))
    ensures FaithfulFlow(nb0, ClusterPass.ExposeKubeconfig(e, w, key, ver, c))
  {
    hide AllFaithful, DescribesMachines, WriteClaim;
    var got := Get(e, w.kube, w.kube.roles, key.ns);
    var put := PutRole(e, got.k, key.ns, RoleRules.Grant(if got.read.Found? then got.read.value else [], ClusterPass.SecretOf(key)));
    var c' := c.(st := c.st.(phase := Ready, kubeconfig := ClusterPass.SecretOf(key)));
    CallFaithful(w, w.(kube := got.k));
    CallFaithful(w, w.(kube := put.k));
    SaveFaithful(nb0, e, w.(kube := got.k), key, ver, c');
    SaveFaithful(nb0, e, w.(kube := put.k), key, ver, c');
  }

  lemma GrowFaithful(nb0: Netbox, e: Env, w: World, key: Key, ver: nat, c: Claim, site: Site, delta: nat)
    requires c.Cluster? && c.st.phase == Ready && FaithfulFlow(nb0, Go(w, ver, c)) && TenantSlug(key.ns) != ""
    ensures FaithfulFlow(nb0, ClusterPass.Grow(e, w, key, ver, c, site, delta))
  {
    hide HistoryFaithful, TenantSlug, WriteClaim, Stage, SetCondition;
    ListingOffers(e, w.nb, site.slug, c.spec.machineClass);
    var a := ListAvailable(e, w.nb, site.slug, c.spec.machineClass);
    CarryFaithful(w, w.(nb := a.nb));
    if a.value.Some? {
      SaveFaithful(nb0, e, w.(nb := a.nb), key, ver, c.(st := ClusterPass.Mark(c.st, "ScaleUpBlocked", true, "InsufficientMachines")));
      if |a.value.value| >= delta {
        var t := Stage(e, a.nb, a.value.value, delta, TenantSlug(key.ns), false);
        StageFacts(e, a.nb, a.value.value, delta, TenantSlug(key.ns), false);
        OnlyStagedKeepsIDs(w.nb.devices, t.nb.devices, TenantSlug(key.ns));
        CarryFaithful(w, w.(nb := t.nb));
        SaveFaithful(nb0, e, w.(nb := t.nb), key, ver, c.(st := c.st.(machineIDs := c.st.machineIDs + t.ids)));
      }
    }
  }

  lemma ScaleDownFaithful(nb0: Netbox, e: Env, w: World, key: Key, ver: nat, c: Claim, delta: nat)
    requires c.Cluster? && c.st.phase == Ready && FaithfulFlow(nb0, Go(w, ver, c)) && delta <= |c.st.machineIDs|
    ensures FaithfulFlow(nb0, ClusterPass.ScaleDown(e, w, key, ver, c, delta))
  {
    hide HistoryFaithful, WriteClaim, ReleaseUntilError, SetCondition, ClusterPass.UsesRook;
    var w1 := w.(kube := Get(e, w.kube, w.kube.profiles, c.spec.profile).k);
    CarryFaithful(w, w1);
    SaveFaithful(nb0, e, w1, key, ver, c.(st := ClusterPass.Mark(c.st, "ScaleDownBlocked", true, "RookCephPresent")));
    var keep := |c.st.machineIDs| - delta;
    var d := ReleaseUntilError(e, w1.nb, c.st.machineIDs[keep..], delta);
    ReleaseUntilErrorFacts(e, w1.nb, c.st.machineIDs[keep..], delta);
    ReleaseKeepsIDs(w.nb.sem, w.nb.devices, d.nb.devices, c.st.machineIDs[keep..]);
    CarryFaithful(w, w1.(nb := d.nb));
    SaveFaithful(nb0, e, w1.(nb := d.nb), key, ver, c.(st := c.st.(machineIDs := c.st.machineIDs[..keep])));
  }

  lemma SteadyStateFaithful(nb0: Netbox, e: Env, w: World, key: Key, ver: nat, c: Claim)
    requires c.Cluster? && c.st.phase == Ready && FaithfulFlow(nb0, Go(w, ver, c)) && TenantSlug(key.ns) != ""
    ensures FaithfulFlow(nb0, ClusterPass.SteadyState(e, w, key, ver, c))
  {
    hide AllFaithful, TenantSlug, ClusterPass.Grow, ClusterPass.ScaleDown, DeleteClaim;
    DeleteFaithful(e, w, key);
    if c.meta.deleteAt.Deadline? {
      CallFaithful(w, w.(ticks := w.ticks + 2));
      CallFaithful(w.(kube := DeleteClaim(e, w.kube, key).k), w.(kube := DeleteClaim(e, w.kube, key).k, ticks := w.ticks + 1));
    } else {
      var desired, actual := c.spec.machineCount, |c.st.machineIDs|;
      if desired > actual {
        var s := Get(e, w.kube, w.kube.sites, c.spec.site);
        CallFaithful(w, w.(kube := s.k));
        if s.read.Found? { GrowFaithful(nb0, e, w.(kube := s.k), key, ver, c, s.read.value, desired - actual); }
      } else if desired < actual {
        ScaleDownFaithful(nb0, e, w, key, ver, c, actual - desired);
      }
    }
  }

  /** A claim whose meta or spec alone changes stays faithful. */
  lemma CurrentFaithful(w: World, key: Key)
    requires AllFaithful(w) && Current(w.kube.store, key).Some?
    ensures Faithful(w.nb, Current(w.kube.store, key).value)
  {
    assert HistoryFaithful(w, key);
  }

  lemma DeleteFaithful(e: Env, w: World, key: Key)
    requires AllFaithful(w)
    ensures AllFaithful(w.(kube := DeleteClaim(e, w.kube, key).k))
  {
    hide AllFaithful, DescribesMachines;
    var now := Current(w.kube.store, key);
    var k' := DeleteClaim(e, w.kube, key).k;
    if now.Some? {
      CurrentFaithful(w, key);
      AppendFaithful(w, key, Deleted(now.value));
      if k'.store != w.kube.store { CallFaithful(Put(w, key, Deleted(now.value)), w.(kube := k')); }
    }
    if k'.store == w.kube.store { CallFaithful(w, w.(kube := k')); }
  }

  lemma FinalizeFaithful(nb0: Netbox, e: Env, w: World, key: Key, ver: nat, c: Claim)
    requires FaithfulFlow(nb0, Go(w, ver, c))
    ensures c.Cluster? ==> FaithfulFlow(nb0, ClusterPass.Finalize(e, w, key, ver, c))
    ensures c.Server? ==> FaithfulFlow(nb0, ServerPass.Finalize(e, w, key, ver, c))
  {
    hide ReleaseEach, ReleaseIPs, HistoryFaithful, Faithful;
    var w' := (if c.Cluster? then ClusterPass.Finalize(e, w, key, ver, c) else ServerPass.Finalize(e, w, key, ver, c)).w;
    var ips, ids := Recorded(Address, c), Recorded(Machine, c);
    ReleaseIPsFacts(e, w.nb, ips, |ips|);
    ReleaseEachFacts(e, ReleaseIPs(e, w.nb, ips, |ips|), ids, |ids|);
    ReleaseKeepsIDs(w.nb.sem, w.nb.devices, w'.nb.devices, ids);
    AppendFaithful(w, key, None);
    if w'.kube.store == w.kube.store {
      CarryFaithful(w, w');
    } else {
      CarryFaithful(Put(w, key, None), w');
    }
  }

  // ---- The server steps record no disks ---------------------------------------------------

  lemma ServerValidateFaithful(nb0: Netbox, e: Env, w: World, key: Key, ver: nat, c: Claim)
    requires c.Server? && FaithfulFlow(nb0, Go(w, ver, c))
    ensures FaithfulFlow(nb0, ServerPass.Validate(e, w, key, ver, c))
  {
    hide HistoryFaithful, Passes.SaveAndStop;
    var s := Get(e, w.kube, w.kube.sites, c.sspec.site);
    var w1 := w.(kube := s.k);
    CarryFaithful(w, w1);
    ServerFailFaithful(nb0, e, w1, key, ver, c, "SiteConfigNotFound");
    if s.read.Found? {
      var w2 := w1.(nb := ListAvailable(e, w1.nb, s.read.value.slug, c.sspec.machineClass).nb);
      CarryFaithful(w, w2);
      ServerFailFaithful(nb0, e, w2, key, ver, c, "InsufficientMachines");
      SaveFaithful(nb0, e, w2, key, ver, c.(sst := c.sst.(phase := Provisioning)));
    }
  }

  lemma ServerFailFaithful(nb0: Netbox, e: Env, w: World, key: Key, ver: nat, c: Claim, reason: string)
    requires c.Server? && FaithfulFlow(nb0, Go(w, ver, c))
    ensures FaithfulFlow(nb0, ServerPass.Fail(e, w, key, ver, c, reason))
  {
    hide AllFaithful, Passes.SaveAndStop;
    var conditions := c.sst.conditions + [Condition("Ready", false, reason)];
    SaveFaithful(nb0, e, w, key, ver, c.(sst := c.sst.(phase := Failed, conditions := conditions)));
  }

  lemma ServerIPFaithful(nb0: Netbox, e: Env, w: World, key: Key, ver: nat, c: Claim, site: Site)
    requires c.Server? && FaithfulFlow(nb0, Go(w, ver, c))
    ensures var f := ServerPass.AllocateServerIP(e, w, key, ver, c, site);
            FaithfulFlow(nb0, f) && (f.Go? ==> f.c.Server?)
  {
    hide HistoryFaithful, TenantSlug, StripPrefix, WriteClaim;
    var a := AllocateIP(e, w.nb);
    CarryFaithful(w, w.(nb := a.nb));
    if a.value.Some? {
      SaveFaithful(nb0, e, w.(nb := a.nb), key, ver, c.(sst := c.sst.(
        ip := StripPrefix(a.value.value.address),
        dns := key.name + "." + TenantSlug(key.ns) + "." + site.zone,
        ipamID := a.value.value.id)));
    }
  }

  lemma ServerMachineFaithful(nb0: Netbox, e: Env, w: World, key: Key, ver: nat, c: Claim, site: Site)
    requires c.Server? && FaithfulFlow(nb0, Go(w, ver, c)) && TenantSlug(key.ns) != ""
    ensures var f := ServerPass.AllocateMachine(e, w, key, ver, c, site);
            FaithfulFlow(nb0, f) && (f.Go? ==> f.c.Server?)
  {
    hide HistoryFaithful, TenantSlug, WriteClaim, Stage;
    ListingOffers(e, w.nb, site.slug, c.sspec.machineClass);
    var a := ListAvailable(e, w.nb, site.slug, c.sspec.machineClass);
    CarryFaithful(w, w.(nb := a.nb));
    ServerFailFaithful(nb0, e, w.(nb := a.nb), key, ver, c, "InsufficientMachines");
    if a.value.Some? && a.value.value != [] {
      var t := Stage(e, a.nb, a.value.value, 1, TenantSlug(key.ns), false);
      StageFacts(e, a.nb, a.value.value, 1, TenantSlug(key.ns), false);
      OnlyStagedKeepsIDs(w.nb.devices, t.nb.devices, TenantSlug(key.ns));
      CarryFaithful(w, w.(nb := t.nb));
      SaveFaithful(nb0, e, w.(nb := t.nb), key, ver, c.(sst := c.sst.(machineID := a.value.value[0].id)));
    }
  }

  lemma ServerJobFaithful(nb0: Netbox, e: Env, w: World, key: Key, ver: nat, c: Claim)
    requires c.Server? && FaithfulFlow(nb0, Go(w, ver, c))
    ensures FaithfulFlow(nb0, ServerPass.RunJob(e, w, key, ver, c))
  {
    hide HistoryFaithful, Passes.SaveAndStop;
    var got := Get(e, w.kube, w.kube.jobs, JobOf(key));
    var w1 := w.(kube := got.k);
    CarryFaithful(w, w1);
    CarryFaithful(w, w.(kube := CreateJob(e, got.k, JobOf(key)).k));
    ServerFailFaithful(nb0, e, w1, key, ver, c, "MachineCfgFailed");
    SaveFaithful(nb0, e, w1, key, ver, c.(sst := c.sst.(phase := Ready)));
  }

  lemma ServerProvisionFaithful(nb0: Netbox, e: Env, w: World, key: Key, ver: nat, c: Claim)
    requires c.Server? && FaithfulFlow(nb0, Go(w, ver, c)) && TenantSlug(key.ns) != ""
    ensures FaithfulFlow(nb0, ServerPass.Provision(e, w, key, ver, c))
  {
    hide AllFaithful, TenantSlug, ServerPass.AllocateServerIP, ServerPass.AllocateMachine, ServerPass.RunJob;
    var s := Get(e, w.kube, w.kube.sites, c.sspec.site);
    var w1 := w.(kube := s.k);
    CallFaithful(w, w1);
    if s.read.Found? {
      ServerIPFaithful(nb0, e, w1, key, ver, c, s.read.value);
      var f1 := ServerPass.AllocateServerIP(e, w1, key, ver, c, s.read.value);
      if f1.Go? {
        ServerMachineFaithful(nb0, e, f1.w, key, f1.ver, f1.c, s.read.value);
        var f2 := ServerPass.AllocateMachine(e, f1.w, key, f1.ver, f1.c, s.read.value);
        if f2.Go? { ServerJobFaithful(nb0, e, f2.w, key, f2.ver, f2.c); }
      }
    }
  }

  // ---- Passes and runs --------------------------------------------------------------------

  lemma StepFaithful(nb0: Netbox, e: Env, w: World, key: Key, ver: nat, c: Claim)
    requires FaithfulFlow(nb0, Go(w, ver, c)) && TenantSlug(key.ns) != "" && (GetsMachines(c) ==> HeardBy(e, w, c))
    ensures FaithfulFlow(nb0, Step(e, w, key, ver, c))
  {
    hide AllFaithful, TenantSlug, DescribesMachines, DisksHeard, ClusterPass.Finalize, ServerPass.Finalize, ClusterPass.Validate,
      ClusterPass.Provision, ClusterPass.WatchAddons, ClusterPass.ExposeKubeconfig, ClusterPass.SteadyState,
      ServerPass.Validate, ServerPass.Provision, Passes.SaveAndStop;
    if c.meta.deleting {
      FinalizeFaithful(nb0, e, w, key, ver, c);
    } else if !c.meta.finalizer {
      SaveFaithful(nb0, e, w, key, ver, WithMeta(c, c.meta.(finalizer := true)));
    } else if c.Cluster? {
      match c.st.phase {
        case Pending => ValidateFaithful(nb0, e, w, key, ver, c);
        case Provisioning => ProvisionFaithful(nb0, e, w, key, ver, c);
        case ClusterReady => WatchAddonsFaithful(nb0, e, w, key, ver, c);
        case AddonsReady => ExposeFaithful(nb0, e, w, key, ver, c);
        case Ready => SteadyStateFaithful(nb0, e, w, key, ver, c);
        case Failed =>
      }
    } else {
      match c.sst.phase {
        case Pending => ServerValidateFaithful(nb0, e, w, key, ver, c);
        case Provisioning => ServerProvisionFaithful(nb0, e, w, key, ver, c);
        case _ =>
      }
    }
  }

  ghost predicate FaithfulWorld(nb0: Netbox, w: World) {
    AllFaithful(w) && w.nb.sem == nb0.sem && w.nb.disks == nb0.disks
  }

  lemma SeenFaithful(w: World, key: Key, ver: nat)
    requires AllFaithful(w) && Seen(w.kube.store, key, ver).Some?
    ensures Faithful(w.nb, Seen(w.kube.store, key, ver).value)
  {
    assert HistoryFaithful(w, key);
  }

  lemma PassFaithful(nb0: Netbox, e: Env, w: World, key: Key, ver: nat)
    requires FaithfulWorld(nb0, w) && Hears(e, w, Pass(key, ver)) && TenantSlug(key.ns) != ""
    ensures FaithfulWorld(nb0, Next(e, w, Pass(key, ver)))
  {
    hide AllFaithful, Faithful, DisksHeard, Step;
    var got := ReadClaim(e, w.kube, key, ver);
    var w1 := w.(kube := got.k);
    CallFaithful(w, w1);
    if got.read.Found? {
      SeenFaithful(w, key, ver);
      StepFaithful(nb0, e, w1, key, ver, got.read.value);
    }
  }

  lemma OutsideFaithful(nb0: Netbox, e: Env, w: World, ev: Event)
    requires FaithfulWorld(nb0, w) && !ev.Pass?
    ensures FaithfulWorld(nb0, Next(e, w, ev))
  {
    hide AllFaithful, DescribesMachines;
    if ev.Change? {
      CallFaithful(w, Next(e, w, ev));
    } else {
      var now := Current(w.kube.store, ev.key);
      if now.Some? { CurrentFaithful(w, ev.key); }
      match ev {
        case CreateCluster(key, spec) =>
          NoMachines(w.nb);
          AppendFaithful(w, key, Some(Cluster(NEW_META, spec, EMPTY_CLUSTER_STATUS)));
        case CreateServer(key, sspec) => AppendFaithful(w, key, Some(Server(NEW_META, sspec, EMPTY_SERVER_STATUS)));
        case EditSpec(key, spec) =>
          if now.Some? && now.value.Cluster? { AppendFaithful(w, key, Some(now.value.(spec := spec))); }
        case Annotate(key, deleteAt) =>
          if now.Some? { AppendFaithful(w, key, Some(WithMeta(now.value, now.value.meta.(deleteAt := deleteAt)))); }
        case Delete(key) =>
          if now.Some? { AppendFaithful(w, key, Deleted(now.value)); }
      }
    }
  }

  lemma {:induction false} RunFaithful(e: Env, r: Run, n: nat)
    requires IsRun(e, r) && Start(r.worlds[0]) && HearingRun(e, r) && TenantRun(r) && n < |r.worlds|
    ensures FaithfulWorld(r.worlds[0].nb, r.worlds[n])
  {
    hide Next, TenantSlug, Faithful, Hears;
    if n > 0 {
      var w, ev := r.worlds[n - 1], r.events[n - 1];
      RunFaithful(e, r, n - 1);
      assert Linked(e, r, n - 1) && InTenant(ev) && HearsAt(e, r, n - 1);
      if ev.Pass? {
        PassFaithful(r.worlds[0].nb, e, w, ev.key, ev.ver);
      } else {
        OutsideFaithful(r.worlds[0].nb, e, w, ev);
      }
    }
  }
}
