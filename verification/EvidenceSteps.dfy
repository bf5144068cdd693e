/** What the steps of a pass may record, and what they leave alone.
    A version that a pass adds is one its last write made,
    and a provisioning pass shows for each of them
    what it found in the world before it. */
module EvidenceSteps {
  import opened Basics
  import opened Text
  import opened Claims
  import opened Conditions
  import opened Environment
  import opened Inventory
  import opened ApiServer
  import opened Passes
  import opened Holdings
  import opened Exclusivity
  import opened Histories
  import opened AddonSteps
  import ClusterPass
  import ServerPass
  import opened Runs

  /** Between the worlds the claim has got version i, which says v. */
  predicate Adds(w: World, w': World, key: Key, i: nat, v: Claim) {
    var h := HistoryOf(w'.kube.store, key);
    |HistoryOf(w.kube.store, key)| <= i < |h| && h[i] == Some(v)
  }

  /** At moment n the claim gets a pass that sees c and adds version i, which says v. */
  predicate PassAdds(r: Run, n: nat, key: Key, ver: nat, c: Claim, i: nat, v: Claim) {
    && n < |r.events| && n + 1 < |r.worlds| && r.events[n] == Pass(key, ver)
    && Seen(r.worlds[n].kube.store, key, ver) == Some(c) && Adds(r.worlds[n], r.worlds[n + 1], key, i, v)
  }

  // ---- Accepting a claim ------------------------------------------------------------------

  /** The first n devices include one with that tag. */
  ghost predicate SomeCarries(devs: seq<Device>, n: nat, tag: string)
    requires n <= |devs|
  {
    exists i: nat :: i < n && tag in devs[i].tags
  }

  /** There are as many machines of the class as asked for, and each required tag is on one of those. */
  ghost predicate Suffices(nb: Netbox, site: Site, profile: Profile, spec: ClusterSpec) {
    var devs := AvailableDevices(nb.sem, nb.devices, site.slug, spec.machineClass);
    spec.machineCount <= |devs| && forall t :: t in profile.requiredTags ==> SomeCarries(devs, spec.machineCount, t)
  }

  /** What a pending cluster claim must find to be accepted. */
  ghost predicate Acceptable(w: World, spec: ClusterSpec) {
    && spec.profile in w.kube.profiles && spec.site in w.kube.sites
    && Suffices(w.nb, w.kube.sites[spec.site], w.kube.profiles[spec.profile], spec)
  }

  lemma TagsAgree(devs: seq<Device>, n: nat, tags: seq<string>)
    requires n <= |devs|
    ensures (exists t :: t in tags && !ClusterPass.SomeHasTag(devs[..n], t)) <==> !(forall t :: t in tags ==> SomeCarries(devs, n, t))
  {
    forall t ensures ClusterPass.SomeHasTag(devs[..n], t) <==> SomeCarries(devs, n, t) {
      if ClusterPass.SomeHasTag(devs[..n], t) {
        var i :| 0 <= i < |devs[..n]| && t in devs[..n][i].tags;
        assert t in devs[i].tags;
      }
      if SomeCarries(devs, n, t) {
        var i: nat :| i < n && t in devs[i].tags;
        assert devs[..n][i] == devs[i];
      }
    }
  }

  /** Only these versions can be added by one write. */
  ghost predicate AddsOnly(w: World, w': World, key: Key, v: Claim) {
    var h, h' := HistoryOf(w.kube.store, key), HistoryOf(w'.kube.store, key);
    h' == h || h' == h + [Some(v)]
  }

  lemma SaveAdds(e: Env, w: World, key: Key, ver: nat, v: Claim)
    ensures AddsOnly(w, Save(e, w, key, ver, v).w, key, v)
    ensures forall reply :: AddsOnly(w, SaveAndStop(e, w, key, ver, v, reply).w, key, v)
    ensures forall reply :: SaveAndStop(e, w, key, ver, v, reply).Stop?
  {
    HeldAfter(w.kube.store, key, Some(v));
  }

  /** Nothing is accepted by an answer that was lost and reads as an empty list. */
  lemma EmptySuffices(nb: Netbox, site: Site, profile: Profile, spec: ClusterSpec, devs: seq<Device>)
    requires devs == [] || devs == AvailableDevices(nb.sem, nb.devices, site.slug, spec.machineClass)
    requires spec.machineCount <= |devs| && forall t :: t in profile.requiredTags ==> SomeCarries(devs, spec.machineCount, t)
    ensures Suffices(nb, site, profile, spec)
  {
    hide AvailableDevices;
  }

  lemma ValidateAdds(e: Env, w: World, key: Key, ver: nat, c: Claim, i: nat, v: Claim)
    requires c.Cluster? && Adds(w, ClusterPass.Validate(e, w, key, ver, c).w, key, i, v)
    ensures v.Cluster? && (v.st.phase == Failed || (v.st == ClusterPass.Validated(c.st) && Acceptable(w, c.spec)))
  {
    hide AvailableDevices, WriteClaim, SetCondition, Passes.SaveAndStop, ClusterPass.SomeHasTag, SomeCarries;
    var p := Get(e, w.kube, w.kube.profiles, c.spec.profile);
    FailAdds(e, w.(kube := p.k), key, ver, c, "AddonProfileNotFound");
    if p.read.Found? {
      var s := Get(e, p.k, p.k.sites, c.spec.site);
      FailAdds(e, w.(kube := s.k), key, ver, c, "SiteConfigNotFound");
      if s.read.Found? {
        var a := ListAvailable(e, w.nb, s.read.value.slug, c.spec.machineClass);
        var w1 := w.(kube := s.k, nb := a.nb);
        FailAdds(e, w1, key, ver, c, "InsufficientMachines");
        FailAdds(e, w1, key, ver, c, "MachineClassIncompatible");
        SaveAdds(e, w1, key, ver, c.(st := ClusterPass.Validated(c.st)));
        if a.value.Some? && c.spec.machineCount <= |a.value.value| {
          TagsAgree(a.value.value, c.spec.machineCount, p.read.value.requiredTags);
          if forall t :: t in p.read.value.requiredTags ==> SomeCarries(a.value.value, c.spec.machineCount, t) {
            EmptySuffices(w.nb, s.read.value, p.read.value, c.spec, a.value.value);
          }
        }
      }
    }
  }

  lemma FailAdds(e: Env, w: World, key: Key, ver: nat, c: Claim, reason: string)
    requires c.Cluster?
    ensures AddsOnly(w, ClusterPass.Fail(e, w, key, ver, c, reason).w, key,
                     c.(st := ClusterPass.Mark(c.st.(phase := Failed), "Validated", false, reason)))
  {
    hide Passes.SaveAndStop, SetCondition;
    SaveAdds(e, w, key, ver, c.(st := ClusterPass.Mark(c.st.(phase := Failed), "Validated", false, reason)));
  }

  lemma {:induction false} PassNext(e: Env, r: Run, n: nat, key: Key, ver: nat, c: Claim, i: nat, v: Claim)
    requires IsRun(e, r) && PassAdds(r, n, key, ver, c, i, v)
    ensures Adds(r.worlds[n], Next(e, r.worlds[n], Pass(key, ver)), key, i, v)
  {
    hide Next;
    assert Linked(e, r, n);
  }

  /** What a pass adds is what its step adds. */
  lemma StepAdds(e: Env, w: World, key: Key, ver: nat, c: Claim, i: nat, v: Claim)
    requires Seen(w.kube.store, key, ver) == Some(c) && Adds(w, Next(e, w, Pass(key, ver)), key, i, v)
    ensures var w1 := w.(kube := w.kube.(calls := w.kube.calls + 1));
            Adds(w1, Step(e, w1, key, ver, c).w, key, i, v) && e.kube(w.kube.calls) == Ok
  {
    hide Step;
  }

  lemma PendingAdds(e: Env, w: World, key: Key, ver: nat, c: Claim, i: nat, v: Claim)
    requires Seen(w.kube.store, key, ver) == Some(c) && Adds(w, Next(e, w, Pass(key, ver)), key, i, v)
    requires c.Cluster? && c.st.phase == Pending && v.Cluster? && v.st.phase != Pending && v.st.phase != Failed
    ensures v.st.phase == Provisioning && Acceptable(w, c.spec)
  {
    hide Next, ClusterPass.Finalize, ClusterPass.Validate, SetCondition, WriteClaim, Suffices, Passes.SaveAndStop;
    StepAdds(e, w, key, ver, c, i, v);
    var w1 := w.(kube := w.kube.(calls := w.kube.calls + 1));
    if c.meta.deleting {
      FinalizeAddsNothing(e, w1, key, ver, c);
    } else if !c.meta.finalizer {
      SaveAdds(e, w1, key, ver, WithMeta(c, c.meta.(finalizer := true)));
    } else {
      ValidateAdds(e, w1, key, ver, c, i, v);
    }
  }

  lemma FinalizeAddsNothing(e: Env, w: World, key: Key, ver: nat, c: Claim)
    ensures c.Cluster? ==> forall i: nat, v: Claim :: !Adds(w, ClusterPass.Finalize(e, w, key, ver, c).w, key, i, v)
    ensures c.Server? ==> forall i: nat, v: Claim :: !Adds(w, ServerPass.Finalize(e, w, key, ver, c).w, key, i, v)
  {
    hide ClusterPass.Finalize, ServerPass.Finalize;
    FinalizeShape(e, w, key, ver, c);
    HeldAfter(w.kube.store, key, None);
  }

  // ---- Provisioning a cluster -------------------------------------------------------------

  predicate MachineCfgDone(st: ClusterStatus) {
    IsTrue(st.conditions, "MachineCfgDone")
  }

  /** The address with that ID, as a claim records it. */
  function AddressText(e: Env, id: int): string {
    if id < 0 then "" else StripPrefix(e.address(id))
  }

  /** What a provisioning pass that found w0 and saw c0 may record. */
  ghost predicate Shown(e: Env, w0: World, key: Key, c0: Claim, v: Option<Claim>) {
    && v.Some? && v.value.Cluster? && c0.Cluster? && v.value.spec == c0.spec
    && Named(e, w0, key, c0, v.value.st)
    && (MachineCfgDone(v.value.st) ==> MachineCfgDone(c0.st) || JobDone(w0.kube, key))
    && (v.value.st.phase == Failed ==> JobFailed(w0.kube, key))
    && (v.value.st.phase == Provisioning || v.value.st.phase == Failed || (v.value.st.phase == ClusterReady && JobDone(w0.kube, key)))
  }

  /** Addresses recorded since are those of the IDs recorded with them, under the names of the claim in its zone. */
  ghost predicate Named(e: Env, w0: World, key: Key, c0: Claim, st: ClusterStatus)
    requires c0.Cluster?
  {
    var ids := c0.st.ipamIDs;
    var n := |ids| + if c0.st.cpIP == "" then 1 else 0;
    && ids <= st.ipamIDs
    && (c0.st.cpIP != "" ==> st.cpIP == c0.st.cpIP && st.cpDNS == c0.st.cpDNS)
    && (c0.st.whIP != "" ==> st.whIP == c0.st.whIP && st.whDNS == c0.st.whDNS)
    && (c0.st.cpIP == "" && st.cpIP != "" ==>
          && c0.spec.site in w0.kube.sites && |st.ipamIDs| > |ids|
          && st.cpIP == AddressText(e, st.ipamIDs[|ids|])
          && st.cpDNS == key.name + "-api." + TenantSlug(key.ns) + "." + w0.kube.sites[c0.spec.site].zone)
    && (c0.st.whIP == "" && st.whIP != "" ==>
          && c0.spec.site in w0.kube.sites && |st.ipamIDs| > n
          && st.whIP == AddressText(e, st.ipamIDs[n])
          && st.whDNS == key.name + "-wh." + TenantSlug(key.ns) + "." + w0.kube.sites[c0.spec.site].zone)
  }

  /** All the versions a pass has added so far, and its working copy, are shown. */
  ghost predicate Shows(e: Env, w0: World, key: Key, c0: Claim, f: Flow) {
    var h0, h := HistoryOf(w0.kube.store, key), HistoryOf(f.w.kube.store, key);
    && h0 <= h && (forall i :: |h0| <= i < |h| ==> Shown(e, w0, key, c0, h[i]))
    && (f.Go? ==> Shown(e, w0, key, c0, Some(f.c)) && f.w.kube.jobs == w0.kube.jobs && f.w.kube.sites == w0.kube.sites)
  }

  lemma SaveShows(e: Env, w0: World, key: Key, c0: Claim, w: World, ver: nat, c: Claim)
    requires Shows(e, w0, key, c0, Go(w, ver, c))
    ensures Shows(e, w0, key, c0, Save(e, w, key, ver, c))
    ensures forall reply :: Shows(e, w0, key, c0, SaveAndStop(e, w, key, ver, c, reply))
  {
    hide Shown;
    HeldAfter(w.kube.store, key, Some(c));
  }

  lemma CarryShows(e: Env, w0: World, key: Key, c0: Claim, w: World, ver: nat, c: Claim, w': World, c': Claim)
    requires Shows(e, w0, key, c0, Go(w, ver, c)) && w'.kube.store == w.kube.store && Shown(e, w0, key, c0, Some(c'))
    ensures w'.kube.jobs == w0.kube.jobs && w'.kube.sites == w0.kube.sites ==> Shows(e, w0, key, c0, Go(w', ver, c'))
    ensures forall reply :: Shows(e, w0, key, c0, Stop(w', reply))
  {
    hide Shown;
  }

  lemma ControlPlaneShows(e: Env, w0: World, key: Key, c0: Claim, w: World, ver: nat)
    requires c0.Cluster? && Shows(e, w0, key, c0, Go(w, ver, c0)) && c0.spec.site in w0.kube.sites
    ensures var f := ClusterPass.AllocateControlPlaneIP(e, w, key, ver, c0, w0.kube.sites[c0.spec.site]);
            Shows(e, w0, key, c0, f) && (f.Go? ==> f.c.Cluster? && AfterControlPlane(c0, f.c.st))
  {
    hide TenantSlug, StripPrefix, Shows, Passes.Save, JobDone, JobFailed;
    var site := w0.kube.sites[c0.spec.site];
    var a := AllocateIP(e, w.nb);
    ShowsKube(e, w0, key, c0, w, ver, c0);
    CarryShows(e, w0, key, c0, w, ver, c0, w.(nb := a.nb), c0);
    if c0.st.cpIP == "" && a.value.Some? {
      var c' := c0.(st := c0.st.(
        cpIP := StripPrefix(a.value.value.address),
        cpDNS := key.name + "-api." + TenantSlug(key.ns) + "." + site.zone,
        ipamIDs := c0.st.ipamIDs + [a.value.value.id]));
      assert Shown(e, w0, key, c0, Some(c'));
      CarryShows(e, w0, key, c0, w, ver, c0, w.(nb := a.nb), c');
      SaveShows(e, w0, key, c0, w.(nb := a.nb), ver, c');
      SaveKeepsCopy(e, w.(nb := a.nb), key, ver, c');
    }
  }

  lemma ShowsKube(e: Env, w0: World, key: Key, c0: Claim, w: World, ver: nat, c: Claim)
    requires Shows(e, w0, key, c0, Go(w, ver, c))
    ensures Shown(e, w0, key, c0, Some(c)) && w.kube.jobs == w0.kube.jobs && w.kube.sites == w0.kube.sites
  {
  }

  lemma SaveKeepsCopy(e: Env, w: World, key: Key, ver: nat, c: Claim)
    ensures var f := Save(e, w, key, ver, c); f.Go? ==> f.c == c
  {
  }

  /** As many IDs as the control plane has needed so far. */
  predicate AfterControlPlane(c0: Claim, st: ClusterStatus)
    requires c0.Cluster?
  {
    && |st.ipamIDs| == |c0.st.ipamIDs| + (if c0.st.cpIP == "" then 1 else 0)
    && st.whIP == c0.st.whIP && st.whDNS == c0.st.whDNS
  }

  lemma WebhookShows(e: Env, w0: World, key: Key, c0: Claim, w: World, ver: nat, c: Claim)
    requires c0.Cluster? && c.Cluster? && Shows(e, w0, key, c0, Go(w, ver, c)) && c0.spec.site in w0.kube.sites
    requires AfterControlPlane(c0, c.st)
    ensures var f := ClusterPass.AllocateWebhookIP(e, w, key, ver, c, w0.kube.sites[c0.spec.site]);
            Shows(e, w0, key, c0, f) && (f.Go? ==> f.c.Cluster?)
  {
    hide TenantSlug, StripPrefix, Shows, Passes.Save, JobDone, JobFailed;
    var site := w0.kube.sites[c0.spec.site];
    var a := AllocateIP(e, w.nb);
    ShowsKube(e, w0, key, c0, w, ver, c);
    CarryShows(e, w0, key, c0, w, ver, c, w.(nb := a.nb), c);
    if c.st.whIP == "" && a.value.Some? {
      var c' := c.(st := c.st.(
        whIP := StripPrefix(a.value.value.address),
        whDNS := key.name + "-wh." + TenantSlug(key.ns) + "." + site.zone,
        ipamIDs := c.st.ipamIDs + [a.value.value.id]));
      assert Shown(e, w0, key, c0, Some(c'));
      CarryShows(e, w0, key, c0, w, ver, c, w.(nb := a.nb), c');
      SaveShows(e, w0, key, c0, w.(nb := a.nb), ver, c');
      SaveKeepsCopy(e, w.(nb := a.nb), key, ver, c');
    }
  }

  lemma MachinesShow(e: Env, w0: World, key: Key, c0: Claim, w: World, ver: nat, c: Claim, site: Site)
    requires c.Cluster? && Shows(e, w0, key, c0, Go(w, ver, c))
    ensures var f := ClusterPass.AllocateMachines(e, w, key, ver, c, site);
            Shows(e, w0, key, c0, f) && (f.Go? ==> f.c.Cluster?)
  {
    hide TenantSlug, Stage, Shows, Passes.Save, JobDone, JobFailed, Named;
    ShowsKube(e, w0, key, c0, w, ver, c);
    var a := ListAvailable(e, w.nb, site.slug, c.spec.machineClass);
    CarryShows(e, w0, key, c0, w, ver, c, w.(nb := a.nb), c);
    if a.value.Some? {
      var s := Stage(e, a.nb, a.value.value, ClusterPass.Min(c.spec.machineCount, |a.value.value|), TenantSlug(key.ns), true);
      var c' := c.(st := c.st.(machineIDs := s.ids, osdDevices := s.osd));
      SameNames(e, w0, key, c0, c.st, c'.st);
      CarryShows(e, w0, key, c0, w, ver, c, w.(nb := s.nb), c');
      SaveShows(e, w0, key, c0, w.(nb := s.nb), ver, c');
      SaveKeepsCopy(e, w.(nb := s.nb), key, ver, c');
    }
  }

  lemma SameNames(e: Env, w0: World, key: Key, c0: Claim, st: ClusterStatus, st': ClusterStatus)
    requires c0.Cluster? && Named(e, w0, key, c0, st) && st'.ipamIDs == st.ipamIDs
    requires st'.cpIP == st.cpIP && st'.cpDNS == st.cpDNS && st'.whIP == st.whIP && st'.whDNS == st.whDNS
    ensures Named(e, w0, key, c0, st')
  {
  }

  /** Marking another condition leaves MachineCfgDone as it is. */
  lemma MarkedOther(st: ClusterStatus, ctype: string, status: bool, reason: string)
    requires ctype != "MachineCfgDone"
    ensures MachineCfgDone(ClusterPass.Mark(st, ctype, status, reason)) <==> MachineCfgDone(st)
  {
    LookupAfterSet(st.conditions, ctype, status, reason, "MachineCfgDone");
  }

  lemma RunJobShows(e: Env, w0: World, key: Key, c0: Claim, w: World, ver: nat, c: Claim, site: Site)
    requires c.Cluster? && Shows(e, w0, key, c0, Go(w, ver, c))
    ensures Shows(e, w0, key, c0, ClusterPass.RunJob(e, w, key, ver, c, site))
  {
    hide Shows, Passes.SaveAndStop, JobDone, JobFailed, Named, SetCondition, MachineCfgDone, ClusterPass.EnsureCluster, CreateJob;
    ShowsKube(e, w0, key, c0, w, ver, c);
    var got := Get(e, w.kube, w.kube.jobs, JobOf(key));
    var w1 := w.(kube := got.k);
    CarryShows(e, w0, key, c0, w, ver, c, w1, c);
    match got.read {
      case Broken =>
      case NotFound =>
        CreatedStores(e, got.k, JobOf(key));
        CarryShows(e, w0, key, c0, w, ver, c, w.(kube := CreateJob(e, got.k, JobOf(key)).k), c);
      case Found(job) =>
        JobSeen(w0.kube, key, job);
        if job.completed && job.failed {
          var c' := c.(st := ClusterPass.Mark(c.st.(phase := Failed), "Validated", false, "MachineCfgFailed"));
          assert "Validated" != "MachineCfgDone" by { assert |"Validated"| != |"MachineCfgDone"|; }
          SameConditions(c.st, c.st.(phase := Failed));
          MarkedOther(c.st.(phase := Failed), "Validated", false, "MachineCfgFailed");
          SameNames(e, w0, key, c0, c.st, c'.st);
          CarryShows(e, w0, key, c0, w, ver, c, w1, c');
          SaveShows(e, w0, key, c0, w1, ver, c');
        } else if job.completed {
          EnsureClusterShows(e, w0, key, c0, w1, ver, c, site);
        }
    }
  }

  lemma SameConditions(st: ClusterStatus, st': ClusterStatus)
    requires st'.conditions == st.conditions
    ensures MachineCfgDone(st') <==> MachineCfgDone(st)
  {
  }

  lemma CreatedStores(e: Env, k: Kube, obj: Obj)
    ensures CreateJob(e, k, obj).k.store == k.store
  {
  }

  lemma JobSeen(k: Kube, key: Key, job: Job)
    requires JobOf(key) in k.jobs && k.jobs[JobOf(key)] == job
    ensures JobDone(k, key) <==> job.completed && !job.failed
    ensures JobFailed(k, key) <==> job.completed && job.failed
  {
  }

  lemma EnsureClusterShows(e: Env, w0: World, key: Key, c0: Claim, w: World, ver: nat, c: Claim, site: Site)
    requires c.Cluster? && Shows(e, w0, key, c0, Go(w, ver, c)) && JobDone(w0.kube, key)
    ensures Shows(e, w0, key, c0, ClusterPass.EnsureCluster(e, w, key, ver, c, site))
  {
    hide Shows, Passes.SaveAndStop, JobDone, JobFailed, Named, SetCondition, MachineCfgDone, ClusterPass.EnsureAll, ClusterPass.CAPIObjects;
    ShowsKube(e, w0, key, c0, w, ver, c);
    CarryShows(e, w0, key, c0, w, ver, c, w, c);
    var objs := ClusterPass.CAPIObjects(key, c, site);
    EnsureAllFrame(e, w.kube, objs, |objs|);
    var d := ClusterPass.EnsureAll(e, w.kube, objs, |objs|);
    CarryShows(e, w0, key, c0, w, ver, c, w.(kube := d.k), c);
    var w1 := w.(kube := Get(e, d.k, d.k.objects, ClusterPass.CAPICluster(key)).k);
    var ready, waiting := c.(st := ClusterPass.Configured(c.st, key.name, true)), c.(st := ClusterPass.Configured(c.st, key.name, false));
    SameNames(e, w0, key, c0, c.st, ready.st);
    SameNames(e, w0, key, c0, c.st, waiting.st);
    CarryShows(e, w0, key, c0, w, ver, c, w1, c);
    CarryShows(e, w0, key, c0, w, ver, c, w1, ready);
    CarryShows(e, w0, key, c0, w, ver, c, w1, waiting);
    SaveShows(e, w0, key, c0, w1, ver, ready);
    SaveShows(e, w0, key, c0, w1, ver, waiting);
  }

  lemma ProvisionShows(e: Env, w: World, key: Key, ver: nat, c: Claim)
    requires c.Cluster? && c.st.phase == Provisioning
    ensures Shows(e, w, key, c, ClusterPass.Provision(e, w, key, ver, c))
  {
    hide Shows, Shown, ClusterPass.AllocateControlPlaneIP, ClusterPass.AllocateWebhookIP, ClusterPass.AllocateMachines, ClusterPass.RunJob;
    ShowsAtFirst(e, w, key, ver, c);
    var s := Get(e, w.kube, w.kube.sites, c.spec.site);
    var w1 := w.(kube := s.k);
    CarryShows(e, w, key, c, w, ver, c, w1, c);
    if s.read.Found? {
      ControlPlaneShows(e, w, key, c, w1, ver);
      var f1 := ClusterPass.AllocateControlPlaneIP(e, w1, key, ver, c, s.read.value);
      if f1.Go? {
        WebhookShows(e, w, key, c, f1.w, f1.ver, f1.c);
        var f2 := ClusterPass.AllocateWebhookIP(e, f1.w, key, f1.ver, f1.c, s.read.value);
        if f2.Go? {
          MachinesShow(e, w, key, c, f2.w, f2.ver, f2.c, s.read.value);
          var f3 := ClusterPass.AllocateMachines(e, f2.w, key, f2.ver, f2.c, s.read.value);
          if f3.Go? { RunJobShows(e, w, key, c, f3.w, f3.ver, f3.c, s.read.value); }
        }
      }
    }
  }

  lemma ShowsAtFirst(e: Env, w: World, key: Key, ver: nat, c: Claim)
    requires c.Cluster? && c.st.phase == Provisioning
    ensures Shown(e, w, key, c, Some(c)) && Shows(e, w, key, c, Go(w, ver, c))
  {
  }

  /** Every version that a pass over a provisioning claim adds is shown by the world the pass found. */
  lemma ProvisioningAdds(e: Env, w: World, key: Key, ver: nat, c: Claim, i: nat, v: Claim)
    requires Seen(w.kube.store, key, ver) == Some(c) && Adds(w, Next(e, w, Pass(key, ver)), key, i, v)
    requires c.Cluster? && c.st.phase == Provisioning && c.meta.finalizer
    ensures Shown(e, w, key, c, Some(v))
  {
    hide Next, ClusterPass.Finalize, ClusterPass.Provision, Shown;
    StepAdds(e, w, key, ver, c, i, v);
    var w1 := w.(kube := w.kube.(calls := w.kube.calls + 1));
    if c.meta.deleting {
      FinalizeAddsNothing(e, w1, key, ver, c);
    } else {
      ProvisionShows(e, w1, key, ver, c);
      assert Shown(e, w1, key, c, Some(v));
      SameShown(e, w, w1, key, c, Some(v));
    }
  }

  lemma SameShown(e: Env, w: World, w': World, key: Key, c: Claim, v: Option<Claim>)
    requires Shown(e, w, key, c, v) || Shown(e, w', key, c, v)
    requires w'.kube.jobs == w.kube.jobs && w'.kube.sites == w.kube.sites
    ensures Shown(e, w, key, c, v)
  {
  }

  // ---- Over runs --------------------------------------------------------------------------

  /** A sound claim that is not being provisioned gets no address and no MachineCfgDone it did not have. */
  lemma OthersAdd(e: Env, w: World, key: Key, ver: nat, c: Claim, i: nat, v: Claim)
    requires Seen(w.kube.store, key, ver) == Some(c) && Adds(w, Next(e, w, Pass(key, ver)), key, i, v)
    requires c.Cluster? && v.Cluster? && c.st.phase == Pending && Sound(key, c)
    ensures v.st.cpIP == c.st.cpIP && v.st.whIP == c.st.whIP && !MachineCfgDone(v.st)
  {
    hide Next, ClusterPass.Finalize, ClusterPass.Validate, SetCondition, WriteClaim, Passes.SaveAndStop;
    StepAdds(e, w, key, ver, c, i, v);
    var w1 := w.(kube := w.kube.(calls := w.kube.calls + 1));
    NothingMarked();
    if c.meta.deleting {
      FinalizeAddsNothing(e, w1, key, ver, c);
    } else if !c.meta.finalizer {
      SaveAdds(e, w1, key, ver, WithMeta(c, c.meta.(finalizer := true)));
    } else {
      ValidateMarks(e, w1, key, ver, c, i, v);
    }
  }

  lemma NothingMarked()
    ensures !MachineCfgDone(EMPTY_CLUSTER_STATUS)
  {
  }

  lemma ValidateMarks(e: Env, w: World, key: Key, ver: nat, c: Claim, i: nat, v: Claim)
    requires c.Cluster? && Adds(w, ClusterPass.Validate(e, w, key, ver, c).w, key, i, v)
    ensures v.Cluster? && v.st.cpIP == c.st.cpIP && v.st.whIP == c.st.whIP && (MachineCfgDone(v.st) <==> MachineCfgDone(c.st))
  {
    hide ListAvailable, WriteClaim, SetCondition, Passes.SaveAndStop, ClusterPass.SomeHasTag, MachineCfgDone, ClusterPass.Fail;
    var p := Get(e, w.kube, w.kube.profiles, c.spec.profile);
    assert "Validated" != "MachineCfgDone" by { assert |"Validated"| != |"MachineCfgDone"|; }
    SameConditions(c.st, c.st.(phase := Failed));
    SameConditions(c.st, c.st.(phase := Provisioning));
    MarkedOther(c.st.(phase := Provisioning), "Validated", true, "ValidationPassed");
    FailMarks(e, w.(kube := p.k), key, ver, c, "AddonProfileNotFound");
    if p.read.Found? {
      var s := Get(e, p.k, p.k.sites, c.spec.site);
      FailMarks(e, w.(kube := s.k), key, ver, c, "SiteConfigNotFound");
      if s.read.Found? {
        var w1 := w.(kube := s.k, nb := ListAvailable(e, w.nb, s.read.value.slug, c.spec.machineClass).nb);
        FailMarks(e, w1, key, ver, c, "InsufficientMachines");
        FailMarks(e, w1, key, ver, c, "MachineClassIncompatible");
        SaveAdds(e, w1, key, ver, c.(st := ClusterPass.Validated(c.st)));
      }
    }
  }

  lemma FailMarks(e: Env, w: World, key: Key, ver: nat, c: Claim, reason: string)
    requires c.Cluster?
    ensures var v := c.(st := ClusterPass.Mark(c.st.(phase := Failed), "Validated", false, reason));
            && AddsOnly(w, ClusterPass.Fail(e, w, key, ver, c, reason).w, key, v)
            && (MachineCfgDone(v.st) <==> MachineCfgDone(c.st))
  {
    FailAdds(e, w, key, ver, c, reason);
    assert "Validated" != "MachineCfgDone" by { assert |"Validated"| != |"MachineCfgDone"|; }
    MarkedOther(c.st.(phase := Failed), "Validated", false, reason);
  }

  /** A sound claim in a later phase has its addresses and its MachineCfgDone; a failed one gets nothing. */
  lemma LaterHas(e: Env, w: World, key: Key, ver: nat, c: Claim, i: nat, v: Claim)
    requires Seen(w.kube.store, key, ver) == Some(c) && Adds(w, Next(e, w, Pass(key, ver)), key, i, v)
    requires c.Cluster? && Sound(key, c) && c.st.phase != Pending && c.st.phase != Provisioning
    ensures c.st.cpIP != "" && c.st.whIP != "" && MachineCfgDone(c.st)
  {
    hide Next, ClusterPass.Finalize, ClusterPass.WatchAddons, ClusterPass.ExposeKubeconfig, ClusterPass.SteadyState;
    StepAdds(e, w, key, ver, c, i, v);
    var w1 := w.(kube := w.kube.(calls := w.kube.calls + 1));
    FinalizeAddsNothing(e, w1, key, ver, c);
  }

  lemma HasFinalizer(key: Key, c: Claim)
    requires Sound(key, c) && c.Cluster? && c.st.phase == Provisioning
    ensures c.meta.finalizer
    ensures c.st.cpIP == "" ==> c.st.whIP == "" && c.st.ipamIDs == []
    ensures c.st.whIP == "" ==> |c.st.ipamIDs| == if c.st.cpIP == "" then 0 else 1
  {
  }

  lemma ResetAmong(e: Env, w: World, key: Key, ver: nat)
    ensures forall o :: o in ResetBy(e, w, key, ver) ==> Builds(w, key, ver) && o in ClusterObjects(key)
  {
  }
}
