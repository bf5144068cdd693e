/** When nothing fails, every pass of a cluster claim brings it nearer to Ready; a fresh one needs at most eight. */
module Progress {
  import opened Basics
  import opened Text
  import opened Claims
  import opened Environment
  import opened Inventory
  import opened ApiServer
  import opened Passes
  import opened Holdings
  import opened Exclusivity
  import opened Bookkeeping
  import Addons
  import AddonSteps
  import MachineAccounts
  import ClusterPass
  import RoleRules
  import opened Runs

  /** The outside is done: the claim's Job has completed, its Cluster and its required releases are ready, as far as
      they exist. */
  predicate OutsideDone(w: World, key: Key, profile: Profile) {
    && (JobOf(key) in w.kube.jobs ==> w.kube.jobs[JobOf(key)] == Job(true, false))
    && IfThereReady(w.kube, ClusterPass.CAPICluster(key))
    && forall i :: 0 <= i < |profile.components| && profile.components[i].required ==>
         IfThereReady(w.kube, ClusterPass.ReleaseOf(key, profile.components[i].name))
  }

  predicate IfThereReady(k: Kube, o: Obj) {
    o in k.objects ==> k.objects[o].ready
  }

  predicate AllExist(k: Kube, key: Key, comps: seq<Component>) {
    forall i :: 0 <= i < |comps| && comps[i].required ==> ClusterPass.ReleaseOf(key, comps[i].name) in k.objects
  }

  /** How many rounds are left at most. */
  function Remaining(w: World, key: Key, c: Claim, profile: Profile): nat
    requires c.Cluster?
  {
    if !c.meta.finalizer then 8
    else
      match c.st.phase
      case Pending => 7
      case Provisioning =>
        if JobOf(key) !in w.kube.jobs then 6
        else if ClusterPass.CAPICluster(key) !in w.kube.objects then 5
        else 4
      case ClusterReady => if AllExist(w.kube, key, profile.components) then 2 else 3
      case AddonsReady => 1
      case _ => 0
  }

  /** What the claim needs from the outside: its site with OIDC configured, its profile, the tenant Role,
      and while it is pending enough machines that carry the required tags. */
  ghost predicate Provided(w: World, key: Key, c: Claim, site: Site, profile: Profile) {
    && c.Cluster? && !c.meta.deleting && c.st.phase != Failed && TenantSlug(key.ns) != ""
    && (!c.meta.finalizer ==> c.st.phase == Pending)
    && UniqueIDs(w.nb.devices)
    && Current(w.kube.store, key) == Some(c)
    && c.spec.site in w.kube.sites && w.kube.sites[c.spec.site] == site && site.oidcIssuer != ""
    && c.spec.profile in w.kube.profiles && w.kube.profiles[c.spec.profile] == profile
    && AddonSteps.HasRule(w.kube, key.ns)
    && Enough(w.nb, c, site, profile)
  }

  /** While the claim is pending there are enough machines with the required tags. */
  ghost predicate Enough(nb: Netbox, c: Claim, site: Site, profile: Profile) {
    c.Cluster? && c.st.phase == Pending ==>
      var devs := AvailableDevices(nb.sem, nb.devices, site.slug, c.spec.machineClass);
      && c.spec.machineCount <= |devs|
      && forall t :: t in profile.requiredTags ==> ClusterPass.SomeHasTag(devs[..c.spec.machineCount], t)
  }

  /** The pass left the claim with c' and changed neither the devices' IDs nor what administrators own. */
  ghost predicate Reached(w: World, f: Flow, key: Key, c': Claim) {
    && f.Stop?
    && Current(f.w.kube.store, key) == Some(c')
    && UniqueIDs(f.w.nb.devices)
    && f.w.kube.sites == w.kube.sites && f.w.kube.profiles == w.kube.profiles
    && (c'.Cluster? && c'.st.phase != Ready ==> f.w.kube.roles == w.kube.roles)
  }

  lemma SavedReached(e: Env, w: World, key: Key, ver: nat, c': Claim, reply: Reply)
    requires NoFaults(e) && IsCurrent(w.kube.store, key, ver) && UniqueIDs(w.nb.devices)
    ensures var f := SaveAndStop(e, w, key, ver, c', reply);
            Reached(w, f, key, c') && f.w.nb == w.nb && f.w.kube.objects == w.kube.objects && f.w.kube.jobs == w.kube.jobs
  {
    HeldAfter(w.kube.store, key, Some(c'));
  }

  // ---- Pending ----------------------------------------------------------------------------

  lemma ValidateProgress(e: Env, w: World, key: Key, ver: nat, c: Claim, site: Site, profile: Profile)
    requires NoFaults(e) && Provided(w, key, c, site, profile) && IsCurrent(w.kube.store, key, ver)
    requires c.st.phase == Pending
    ensures Reached(w, ClusterPass.Validate(e, w, key, ver, c), key, c.(st := ClusterPass.Validated(c.st)))
  {
    var p := Get(e, w.kube, w.kube.profiles, c.spec.profile);
    var s := Get(e, p.k, p.k.sites, c.spec.site);
    var w1 := w.(kube := s.k, nb := ListAvailable(e, w.nb, site.slug, c.spec.machineClass).nb);
    SavedReached(e, w1, key, ver, c.(st := ClusterPass.Validated(c.st)), Requeue);
  }

  // ---- Provisioning -----------------------------------------------------------------------

  /** A part of the provisioning step that went through: only the store, the calls and Netbox moved. */
  ghost predicate WentOn(w: World, f: Flow, key: Key, c: Claim) {
    && f.Go? && IsCurrent(f.w.kube.store, key, f.ver) && Current(f.w.kube.store, key) == Some(f.c)
    && UniqueIDs(f.w.nb.devices)
    && f.w.kube == w.kube.(store := f.w.kube.store, calls := f.w.kube.calls)
    && c.Cluster? && f.c.Cluster? && f.c.meta == c.meta && f.c.spec == c.spec && f.c.st.phase == c.st.phase
  }

  lemma AllocateMachinesGoesOn(e: Env, w: World, key: Key, ver: nat, c: Claim, site: Site)
    requires NoFaults(e) && c.Cluster? && WentOn(w, Go(w, ver, c), key, c) && TenantSlug(key.ns) != ""
    ensures WentOn(w, ClusterPass.AllocateMachines(e, w, key, ver, c, site), key, c)
  {
    if c.st.machineIDs == [] {
      ListingOffers(e, w.nb, site.slug, c.spec.machineClass);
      var a := ListAvailable(e, w.nb, site.slug, c.spec.machineClass);
      var n := ClusterPass.Min(c.spec.machineCount, |a.value.value|);
      StageSucceeds(e, a.nb, a.value.value, n, TenantSlug(key.ns), true);
      StageFacts(e, a.nb, a.value.value, n, TenantSlug(key.ns), true);
      var s := Stage(e, a.nb, a.value.value, n, TenantSlug(key.ns), true);
      OnlyStagedKeepsIDs(w.nb.devices, s.nb.devices, TenantSlug(key.ns));
      SaveWorks(e, w.(nb := s.nb), key, ver, c.(st := c.st.(machineIDs := s.ids, osdDevices := s.osd)));
    }
  }

  lemma AllocateIPsGoOn(e: Env, w: World, key: Key, ver: nat, c: Claim, site: Site)
    requires NoFaults(e) && c.Cluster? && WentOn(w, Go(w, ver, c), key, c)
    ensures WentOn(w, ClusterPass.AllocateControlPlaneIP(e, w, key, ver, c, site), key, c)
    ensures WentOn(w, ClusterPass.AllocateWebhookIP(e, w, key, ver, c, site), key, c)
  {
    var a := AllocateIP(e, w.nb);
    SaveWorks(e, w.(nb := a.nb), key, ver, c.(st := c.st.(
      cpIP := StripPrefix(a.value.value.address),
      cpDNS := key.name + "-api." + TenantSlug(key.ns) + "." + site.zone,
      ipamIDs := c.st.ipamIDs + [a.value.value.id])));
    SaveWorks(e, w.(nb := a.nb), key, ver, c.(st := c.st.(
      whIP := StripPrefix(a.value.value.address),
      whDNS := key.name + "-wh." + TenantSlug(key.ns) + "." + site.zone,
      ipamIDs := c.st.ipamIDs + [a.value.value.id])));
  }

  /** Without faults provisioning gets as far as the Job. */
  lemma ProvisionReachesJob(e: Env, w: World, key: Key, ver: nat, c: Claim, site: Site) returns (f: Flow)
    requires NoFaults(e) && c.Cluster? && WentOn(w, Go(w, ver, c), key, c) && TenantSlug(key.ns) != ""
    requires c.spec.site in w.kube.sites && w.kube.sites[c.spec.site] == site
    ensures WentOn(w, f, key, c)
    ensures ClusterPass.Provision(e, w, key, ver, c) == ClusterPass.RunJob(e, f.w, key, f.ver, f.c, site)
  {
    var w1 := w.(kube := Get(e, w.kube, w.kube.sites, c.spec.site).k);
    AllocateIPsGoOn(e, w1, key, ver, c, site);
    var f1 := ClusterPass.AllocateControlPlaneIP(e, w1, key, ver, c, site);
    AllocateIPsGoOn(e, f1.w, key, f1.ver, f1.c, site);
    var f2 := ClusterPass.AllocateWebhookIP(e, f1.w, key, f1.ver, f1.c, site);
    AllocateMachinesGoesOn(e, f2.w, key, f2.ver, f2.c, site);
    f := ClusterPass.AllocateMachines(e, f2.w, key, f2.ver, f2.c, site);
  }

  lemma {:induction false} EnsureAllWorks(e: Env, k: Kube, objs: seq<ClusterPass.Want>, n: nat)
    requires n <= |objs| && NoFaults(e)
    ensures var d := ClusterPass.EnsureAll(e, k, objs, n);
            && d.ok && d.k == k.(objects := d.k.objects, calls := d.k.calls)
            && (forall o :: o in k.objects ==> o in d.k.objects && d.k.objects[o].ready == k.objects[o].ready)
            && (forall i :: 0 <= i < n ==> objs[i].obj in d.k.objects)
  {
    hide Ensure;
    if n > 0 {
      EnsureAllWorks(e, k, objs, n - 1);
      EnsureFrame(e, ClusterPass.EnsureAll(e, k, objs, n - 1).k, objs[n - 1].obj, objs[n - 1].body, objs[n - 1].update);
    }
  }

  lemma EnsureClusterProgress(e: Env, w: World, key: Key, ver: nat, c: Claim, site: Site)
    requires NoFaults(e) && c.Cluster? && WentOn(w, Go(w, ver, c), key, c) && site.oidcIssuer != ""
    ensures var f := ClusterPass.EnsureCluster(e, w, key, ver, c, site);
            var o := ClusterPass.CAPICluster(key);
            var ready := o in w.kube.objects && w.kube.objects[o].ready;
            && o in f.w.kube.objects && f.w.kube.jobs == w.kube.jobs
            && (ready ==> Reached(w, f, key, c.(st := ClusterPass.Configured(c.st, key.name, true))))
            && (o !in w.kube.objects ==> exists b ::
                  Reached(w, f, key, c.(st := ClusterPass.Configured(c.st, key.name, b))))
  {
    var objs := ClusterPass.CAPIObjects(key, c, site);
    EnsureAllWorks(e, w.kube, objs, |objs|);
    var d := ClusterPass.EnsureAll(e, w.kube, objs, |objs|);
    assert objs[2].obj in d.k.objects;
    var got := Get(e, d.k, d.k.objects, ClusterPass.CAPICluster(key));
    var b := got.read.value.ready;
    SavedReached(e, w.(kube := got.k), key, ver, c.(st := ClusterPass.Configured(c.st, key.name, b)),
                 if b then Requeue else After(30 * SECOND));
    assert Reached(w, ClusterPass.EnsureCluster(e, w, key, ver, c, site), key, c.(st := ClusterPass.Configured(c.st, key.name, b)));
  }

  // ---- Addons -----------------------------------------------------------------------------

  lemma WatchAddonsProgress(e: Env, w: World, key: Key, ver: nat, c: Claim, site: Site, profile: Profile)
    requires NoFaults(e) && SortsComponents(e) && Provided(w, key, c, site, profile) && IsCurrent(w.kube.store, key, ver)
    requires OutsideDone(w, key, profile)
    ensures var f := ClusterPass.WatchAddons(e, w, key, ver, c);
            var done := c.(st := ClusterPass.Mark(c.st.(phase := AddonsReady), "AddonsReady", true, "AllAddonsReady"));
            && AllExist(f.w.kube, key, profile.components)
            && (Reached(w, f, key, done) || (Reached(w, f, key, c) && !AllExist(w.kube, key, profile.components)))
  {
    var p := Get(e, w.kube, w.kube.profiles, c.spec.profile);
    var comps := e.sort(p.k.calls, profile.components);
    assert multiset(comps) == multiset(profile.components);
    InstallFrame(e, p.k, key, c.st, comps, |comps|);
    AddonSteps.InstallCovers(e, p.k, key, c.st, comps, |comps|);
    Addons.InstallNotReady(e, p.k, key, c.st, comps, |comps|);
    var d := ClusterPass.Install(e, p.k, key, c.st, comps, |comps|);
    Addons.CheckReadyExact(e, d.k, key, comps, |comps|);
    var r := ClusterPass.CheckReady(e, d.k, key, comps, |comps|);
    forall i | 0 <= i < |profile.components| ensures ClusterPass.ReleaseOf(key, profile.components[i].name) in d.k.objects {
      assert profile.components[i] in multiset(comps);
      var j :| 0 <= j < |comps| && comps[j] == profile.components[i];
    }
    if r.all {
      SavedReached(e, w.(kube := r.k), key, ver,
                   c.(st := ClusterPass.Mark(c.st.(phase := AddonsReady), "AddonsReady", true, "AllAddonsReady")), Requeue);
    } else if AllExist(w.kube, key, profile.components) {
      forall i | 0 <= i < |comps| && comps[i].required
        ensures ClusterPass.ReleaseOf(key, comps[i].name) in d.k.objects && d.k.objects[ClusterPass.ReleaseOf(key, comps[i].name)].ready
      {
        assert comps[i] in multiset(profile.components);
        var j :| 0 <= j < |profile.components| && profile.components[j] == comps[i];
        assert IfThereReady(w.kube, ClusterPass.ReleaseOf(key, profile.components[j].name));
      }
    }
  }

  lemma ExposeProgress(e: Env, w: World, key: Key, ver: nat, c: Claim, site: Site, profile: Profile)
    requires NoFaults(e) && Provided(w, key, c, site, profile) && IsCurrent(w.kube.store, key, ver)
    ensures Reached(w, ClusterPass.ExposeKubeconfig(e, w, key, ver, c), key,
                    c.(st := c.st.(phase := Ready, kubeconfig := ClusterPass.SecretOf(key))))
  {
    var got := Get(e, w.kube, w.kube.roles, key.ns);
    var put := PutRole(e, got.k, key.ns, RoleRules.Grant(w.kube.roles[key.ns], ClusterPass.SecretOf(key)));
    var c' := c.(st := c.st.(phase := Ready, kubeconfig := ClusterPass.SecretOf(key)));
    SavedReached(e, w.(kube := put.k), key, ver, c', Finished);
    SavedReached(e, w.(kube := got.k), key, ver, c', Finished);
  }

  // ---- Rounds -----------------------------------------------------------------------------

  /** What a round may end with: the claim further on, and its needs still met if it is not done. */
  ghost predicate Nearer(w: World, w': World, key: Key, c: Claim, c': Claim, site: Site, profile: Profile)
    requires c.Cluster?
  {
    && Promising(w', key, c', site, profile)
    && Remaining(w', key, c', profile) < Remaining(w, key, c, profile)
  }

  predicate IsReady(w: World, key: Key) {
    var c := Current(w.kube.store, key);
    c.Some? && c.value.Cluster? && c.value.st.phase == Ready
  }

  ghost predicate Promising(w: World, key: Key, c: Claim, site: Site, profile: Profile) {
    && c.Cluster?
    && if Remaining(w, key, c, profile) == 0 then IsReady(w, key) else Provided(w, key, c, site, profile)
  }

  lemma ProvisionRound(e: Env, w: World, key: Key, ver: nat, c: Claim, site: Site, profile: Profile) returns (c': Claim)
    requires NoFaults(e) && Provided(w, key, c, site, profile) && IsCurrent(w.kube.store, key, ver)
    requires c.meta.finalizer && c.st.phase == Provisioning && OutsideDone(w, key, profile)
    ensures Nearer(w, ClusterPass.Provision(e, w, key, ver, c).w, key, c, c', site, profile)
  {
    hide ClusterPass.Provision, ClusterPass.EnsureCluster, AllExist, SetCondition, AvailableDevices;
    var f := ProvisionReachesJob(e, w, key, ver, c, site);
    if JobOf(key) in w.kube.jobs {
      var w1 := f.w.(kube := Get(e, f.w.kube, f.w.kube.jobs, JobOf(key)).k);
      var g := ClusterPass.EnsureCluster(e, w1, key, f.ver, f.c, site);
      EnsureClusterProgress(e, w1, key, f.ver, f.c, site);
      assert ClusterPass.Provision(e, w, key, ver, c) == g;
      if ClusterPass.CAPICluster(key) in w.kube.objects {
        c' := f.c.(st := ClusterPass.Configured(f.c.st, key.name, true));
      } else {
        var b :| Reached(w1, g, key, f.c.(st := ClusterPass.Configured(f.c.st, key.name, b)));
        c' := f.c.(st := ClusterPass.Configured(f.c.st, key.name, b));
      }
    } else {
      c' := f.c;
    }
  }

  lemma PassProgress(e: Env, w: World, key: Key, ver: nat, c: Claim, site: Site, profile: Profile) returns (c': Claim)
    requires NoFaults(e) && SortsComponents(e) && Provided(w, key, c, site, profile)
    requires IsCurrent(w.kube.store, key, ver) && Remaining(w, key, c, profile) > 0 && OutsideDone(w, key, profile)
    ensures Nearer(w, ClusterPass.Step(e, w, key, ver, c).w, key, c, c', site, profile)
  {
    if !c.meta.finalizer {
      c' := WithMeta(c, c.meta.(finalizer := true));
      SavedReached(e, w, key, ver, c', Finished);
    } else {
      match c.st.phase {
        case Pending =>
          c' := c.(st := ClusterPass.Validated(c.st));
          ValidateProgress(e, w, key, ver, c, site, profile);
        case Provisioning =>
          c' := ProvisionRound(e, w, key, ver, c, site, profile);
        case ClusterReady =>
          WatchAddonsProgress(e, w, key, ver, c, site, profile);
          var done := c.(st := ClusterPass.Mark(c.st.(phase := AddonsReady), "AddonsReady", true, "AllAddonsReady"));
          c' := if Reached(w, ClusterPass.WatchAddons(e, w, key, ver, c), key, done) then done else c;
        case AddonsReady =>
          c' := c.(st := c.st.(phase := Ready, kubeconfig := ClusterPass.SecretOf(key)));
          ExposeProgress(e, w, key, ver, c, site, profile);
        case _ =>
          c' := c;
      }
    }
  }

  /** A pass of the claim from its current version. */
  lemma PassNearer(e: Env, w: World, key: Key, c: Claim, site: Site, profile: Profile) returns (c': Claim)
    requires NoFaults(e) && SortsComponents(e) && Provided(w, key, c, site, profile) && OutsideDone(w, key, profile)
    requires HistoryOf(w.kube.store, key) != [] && Remaining(w, key, c, profile) > 0
    ensures Nearer(w, Next(e, w, Pass(key, Latest(w, key))), key, c, c', site, profile)
  {
    hide ClusterPass.Step;
    var ver := |HistoryOf(w.kube.store, key)| - 1;
    var w1 := w.(kube := w.kube.(calls := w.kube.calls + 1));
    assert ReadClaim(e, w.kube, key, ver) == Got(w1.kube, Found(c));
    CallHelps(w, key, c, site, profile, w.kube.calls + 1);
    c' := PassProgress(e, w1, key, ver, c, site, profile);
  }

  lemma CallHelps(w: World, key: Key, c: Claim, site: Site, profile: Profile, calls: nat)
    requires Provided(w, key, c, site, profile) && OutsideDone(w, key, profile)
    ensures var w' := w.(kube := w.kube.(calls := calls));
            Provided(w', key, c, site, profile) && OutsideDone(w', key, profile)
            && Remaining(w', key, c, profile) == Remaining(w, key, c, profile)
  {
  }

  lemma ProvidedExists(w: World, key: Key, c: Claim, site: Site, profile: Profile)
    requires Provided(w, key, c, site, profile)
    ensures c.Cluster? && HistoryOf(w.kube.store, key) != []
  {
  }

  // ---- What may happen between the passes -------------------------------------------------

  /** What the claim relies on, and what it has reached so far, is still there. */
  ghost predicate StillThere(w: World, w': World, key: Key, c: Claim, profile: Profile) {
    && c.Cluster?
    && (c.spec.site in w.kube.sites ==> c.spec.site in w'.kube.sites && w'.kube.sites[c.spec.site] == w.kube.sites[c.spec.site])
    && (c.spec.profile in w.kube.profiles ==>
          c.spec.profile in w'.kube.profiles && w'.kube.profiles[c.spec.profile] == w.kube.profiles[c.spec.profile])
    && (AddonSteps.HasRule(w.kube, key.ns) ==> AddonSteps.HasRule(w'.kube, key.ns))
    && (JobOf(key) in w.kube.jobs ==> JobOf(key) in w'.kube.jobs)
    && (ClusterPass.CAPICluster(key) in w.kube.objects ==> ClusterPass.CAPICluster(key) in w'.kube.objects)
    && (AllExist(w.kube, key, profile.components) ==> AllExist(w'.kube, key, profile.components))
  }

  /** An event of somebody else: any pass of another claim that leaves a pending one enough machines, anything users do
      to other claims, and any change outside that takes away nothing the claim relies on or has reached. */
  ghost predicate Harmless(e: Env, w: World, ev: Event, key: Key, c: Claim, site: Site, profile: Profile) {
    match ev
    case Pass(k, ver) => k != key && TenantSlug(k.ns) != "" && Enough(Next(e, w, ev).nb, c, site, profile)
    case Change(o) => StillThere(w, Next(e, w, ev), key, c, profile)
    case _ => ev.key != key
  }

  lemma PassStillThere(e: Env, w: World, k: Key, ver: nat, key: Key, c: Claim, profile: Profile)
    requires SortsComponents(e) && c.Cluster? && k != key
    ensures StillThere(w, Next(e, w, Pass(k, ver)), key, c, profile)
  {
    hide Reconcile, AddonSteps.HasRule;
    AddonSteps.PassMakes(e, w, k, ver);
  }

  /** Such an event leaves the claim's needs met and nothing more to do than before. */
  lemma HarmlessHelps(e: Env, w: World, ev: Event, key: Key, c: Claim, site: Site, profile: Profile)
    requires SortsComponents(e) && Provided(w, key, c, site, profile) && Harmless(e, w, ev, key, c, site, profile)
    ensures var w' := Next(e, w, ev);
            Provided(w', key, c, site, profile) && Remaining(w', key, c, profile) <= Remaining(w, key, c, profile)
  {
    hide Reconcile, Enough, AllExist, AddonSteps.HasRule, TenantSlug;
    if ev.Pass? {
      PassStillThere(e, w, ev.key, ev.ver, key, c, profile);
      MachineAccounts.PassAccount(e, w, ev.key, ev.ver);
      OthersStay(w, Next(e, w, ev), Reconcile(e, w, ev.key, ev.ver).reply, ev.key, key, MachineAccounts.WantedBy(w, ev.key, ev.ver));
    } else if !ev.Change? {
      UsersElsewhere(e, w, ev, key, c, profile);
    }
  }

  lemma OthersStay(w: World, w': World, reply: Reply, k: Key, key: Key, limit: nat)
    requires MachineAccounts.LooseAccount(w, Stop(w', reply), k, limit) && k != key
    ensures UniqueIDs(w'.nb.devices) && HistoryOf(w'.kube.store, key) == HistoryOf(w.kube.store, key)
  {
    hide TenantSlug, MachineAccounts.AllMove;
  }

  lemma UsersElsewhere(e: Env, w: World, ev: Event, key: Key, c: Claim, profile: Profile)
    requires !ev.Pass? && !ev.Change? && ev.key != key && c.Cluster?
    ensures var w' := Next(e, w, ev);
            StillThere(w, w', key, c, profile) && w'.nb == w.nb && w'.kube == w.kube.(store := w'.kube.store) && Current(w'.kube.store, key) == Current(w.kube.store, key)
  {
    var w' := Next(e, w, ev);
    if w' != w { HeldAfter(w.kube.store, ev.key, Current(w'.kube.store, ev.key)); }
  }

  // ---- Runs -------------------------------------------------------------------------------

  /** At moment n the claim gets a pass from its current version, and the outside is done with its work. */
  predicate TurnAt(r: Run, n: nat, key: Key, profile: Profile)
    requires |r.worlds| == |r.events| + 1
  {
    n < |r.events| && r.events[n] == Pass(key, Latest(r.worlds[n], key)) && OutsideDone(r.worlds[n], key, profile)
  }

  /** From moment `from` to before moment `to`, only harmless events, whatever version the claim is at. */
  ghost predicate Meanwhile(e: Env, r: Run, from: nat, to: nat, key: Key, site: Site, profile: Profile)
    requires |r.worlds| == |r.events| + 1
  {
    forall n: nat :: from <= n < to && n < |r.events| ==> HarmlessAt(e, r, n, key, site, profile)
  }

  ghost predicate HarmlessAt(e: Env, r: Run, n: nat, key: Key, site: Site, profile: Profile)
    requires |r.worlds| == |r.events| + 1 && n < |r.events|
  {
    var c := Current(r.worlds[n].kube.store, key);
    c.Some? ==> Harmless(e, r.worlds[n], r.events[n], key, c.value, site, profile)
  }

  /** The claim's turns, in order, with only harmless events before and between them. */
  ghost predicate Turns(e: Env, r: Run, from: nat, turns: seq<nat>, key: Key, site: Site, profile: Profile)
    requires |r.worlds| == |r.events| + 1
    decreases |turns|
  {
    turns != [] ==>
      && from <= turns[0] && TurnAt(r, turns[0], key, profile)
      && Meanwhile(e, r, from, turns[0], key, site, profile)
      && Turns(e, r, turns[0] + 1, turns[1..], key, site, profile)
  }

  /** Harmless events from one moment to another. */
  lemma {:induction false} WaitHelps(e: Env, r: Run, from: nat, to: nat, key: Key, c: Claim, site: Site, profile: Profile)
    requires IsRun(e, r) && from <= to < |r.worlds| && SortsComponents(e) && Meanwhile(e, r, from, to, key, site, profile)
    requires Provided(r.worlds[from], key, c, site, profile)
    ensures Provided(r.worlds[to], key, c, site, profile)
    ensures Remaining(r.worlds[to], key, c, profile) <= Remaining(r.worlds[from], key, c, profile)
  {
    hide Next, Remaining, Harmless;
    if from < to {
      WaitHelps(e, r, from, to - 1, key, c, site, profile);
      assert Linked(e, r, to - 1) && HarmlessAt(e, r, to - 1, key, site, profile);
      HarmlessHelps(e, r.worlds[to - 1], r.events[to - 1], key, c, site, profile);
    }
  }

  /** A turn of a claim that is not there yet strictly lowers what remains. */
  lemma TurnProgress(e: Env, r: Run, n: nat, key: Key, c: Claim, site: Site, profile: Profile) returns (c': Claim)
    requires NoFaults(e) && SortsComponents(e) && IsRun(e, r) && TurnAt(r, n, key, profile)
    requires Provided(r.worlds[n], key, c, site, profile) && Remaining(r.worlds[n], key, c, profile) > 0
    ensures Nearer(r.worlds[n], r.worlds[n + 1], key, c, c', site, profile)
  {
    hide Reconcile, Provided, Remaining, Promising, OutsideDone;
    assert Linked(e, r, n);
    ProvidedExists(r.worlds[n], key, c, site, profile);
    c' := PassNearer(e, r.worlds[n], key, c, site, profile);
  }

  /** The moment after the n-th turn. */
  function AfterTurn(from: nat, turns: seq<nat>, n: nat): nat
    requires n <= |turns|
  {
    if n == 0 then from else turns[n - 1] + 1
  }

  /** From any moment on, the claim is Ready within as many turns as remain. */
  lemma {:induction false} ReadyWithin(e: Env, r: Run, from: nat, turns: seq<nat>, key: Key, c: Claim, site: Site, profile: Profile) returns (n: nat)
    requires NoFaults(e) && SortsComponents(e) && IsRun(e, r) && from < |r.worlds|
    requires Promising(r.worlds[from], key, c, site, profile) && Turns(e, r, from, turns, key, site, profile)
    requires Remaining(r.worlds[from], key, c, profile) <= |turns|
    ensures n <= Remaining(r.worlds[from], key, c, profile)
    ensures AfterTurn(from, turns, n) < |r.worlds| && IsReady(r.worlds[AfterTurn(from, turns, n)], key)
    decreases |turns|
  {
    hide Provided, Remaining, IsReady, OutsideDone, Linked, Meanwhile;
    n := 0;
    if Remaining(r.worlds[from], key, c, profile) > 0 {
      WaitHelps(e, r, from, turns[0], key, c, site, profile);
      StillWaiting(r.worlds[from], r.worlds[turns[0]], key, c, profile);
      var c' := TurnProgress(e, r, turns[0], key, c, site, profile);
      var m := ReadyWithin(e, r, turns[0] + 1, turns[1..], key, c', site, profile);
      n := m + 1;
      assert AfterTurn(from, turns, n) == AfterTurn(turns[0] + 1, turns[1..], m);
    }
  }

  lemma StillWaiting(w: World, w': World, key: Key, c: Claim, profile: Profile)
    requires c.Cluster? && Remaining(w, key, c, profile) > 0
    ensures Remaining(w', key, c, profile) > 0
  {
  }

  /** A claim just created is Ready after at most eight turns, whatever happens to other claims in between; one further
      on needs no more than remain. */
  lemma {:induction false} ReadyInEightTurns(e: Env, r: Run, turns: seq<nat>, key: Key, c: Claim, site: Site, profile: Profile) returns (n: nat)
    requires NoFaults(e) && SortsComponents(e) && IsRun(e, r) && |turns| == 8 && Turns(e, r, 0, turns, key, site, profile)
    requires Provided(r.worlds[0], key, c, site, profile)
    ensures n <= Remaining(r.worlds[0], key, c, profile) <= 8
    ensures AfterTurn(0, turns, n) < |r.worlds| && IsReady(r.worlds[AfterTurn(0, turns, n)], key)
  {
    hide Turns, Linked;
    n := ReadyWithin(e, r, 0, turns, key, c, site, profile);
  }
}
