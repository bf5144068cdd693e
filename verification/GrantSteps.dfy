/** The names granted in a tenant Role and who is entitled to them.
    All steps but exposing and finalizing leave both alone:
    the Roles, the other claims,
    and whether the claim itself is Ready. */
module GrantSteps {
  import opened Basics
  import opened Text
  import opened Claims
  import opened Environment
  import opened Inventory
  import opened ApiServer
  import opened Passes
  import opened Holdings
  import opened Exclusivity
  import opened RoleRules
  import ClusterPass
  import ServerPass

  // ---- The granted names ------------------------------------------------------------------

  /** The names in the rule that the operator maintains. */
  function Granted(k: Kube, ns: string): seq<string> {
    if ns !in k.roles then []
    else
      var rules := k.roles[ns];
      var i := SecretsRule(rules);
      if i < |rules| then rules[i].names else []
  }

  /** A live Ready claim of that namespace whose kubeconfig is that secret. */
  predicate Entitled(s: Store, key: Key, secret: string) {
    var c := Current(s, key);
    c.Some? && c.value.Cluster? && c.value.st.phase == Ready && c.value.st.kubeconfig == secret
  }

  ghost predicate SomeEntitled(s: Store, ns: string, secret: string) {
    exists key: Key :: key.ns == ns && Entitled(s, key, secret)
  }

  /** Names are granted once and only to live Ready claims; exact: to every one of them. */
  ghost predicate GrantsRight(exact: bool, w: World, ns: string) {
    && NoDup(Granted(w.kube, ns))
    && (forall x :: x in Granted(w.kube, ns) ==> SomeEntitled(w.kube.store, ns, x))
    && (exact ==> forall key: Key :: key.ns == ns ==> Covered(w, key))
  }

  predicate Covered(w: World, key: Key) {
    var c := Current(w.kube.store, key);
    c.Some? && c.value.Cluster? && c.value.st.phase == Ready ==> ClusterPass.SecretOf(key) in Granted(w.kube, key.ns)
  }

  /** Claims live under the key of their kind, in every version. */
  ghost predicate Typed(s: Store) {
    forall key :: TypedKey(s, key)
  }

  ghost predicate TypedKey(s: Store, key: Key) {
    var h := HistoryOf(s, key);
    forall i :: 0 <= i < |h| && h[i].Some? ==> (h[i].value.Cluster? <==> key.kind == ClusterKind)
  }

  lemma SecretInjective(a: Key, b: Key)
    requires ClusterPass.SecretOf(a) == ClusterPass.SecretOf(b)
    ensures a.name == b.name
  {
    var t := "-kubeconfig";
    assert (a.name + t)[..|a.name + t| - |t|] == a.name;
    assert (b.name + t)[..|b.name + t| - |t|] == b.name;
  }

  // ---- Steps that neither expose nor finalize ---------------------------------------------

  predicate IsReady(s: Store, key: Key) {
    var c := Current(s, key);
    c.Some? && c.value.Cluster? && c.value.st.phase == Ready
  }

  predicate ReadyClaim(c: Claim) {
    c.Cluster? && c.st.phase == Ready
  }

  /** Since the pass began at w0: no Role has changed, no other claim has, and the claim is of the same kind and as
      Ready as it was; and so it is in the working copy, if that can be written at all. */
  ghost predicate Discreet(w0: World, f: Flow, key: Key) {
    && f.w.kube.roles == w0.kube.roles
    && (forall k :: k != key ==> HistoryOf(f.w.kube.store, k) == HistoryOf(w0.kube.store, k))
    && SameKind(w0.kube.store, f.w.kube.store, key)
    && (f.Go? && IsCurrent(f.w.kube.store, key, f.ver) ==> Standing(w0.kube.store, key, f.c))
  }

  /** As far as kind and Ready go, the claim is what it was. */
  ghost predicate SameKind(s: Store, s': Store, key: Key) {
    && IsReady(s', key) == IsReady(s, key)
    && (TypedKey(s, key) ==> TypedKey(s', key))
  }

  ghost predicate Standing(s: Store, key: Key, c: Claim) {
    && ReadyClaim(c) == IsReady(s, key)
    && (TypedKey(s, key) ==> (c.Cluster? <==> key.kind == ClusterKind))
  }

  lemma SaveDiscreet(w0: World, e: Env, w: World, key: Key, ver: nat, c: Claim)
    requires Discreet(w0, Go(w, ver, c), key)
    ensures Discreet(w0, Save(e, w, key, ver, c), key)
    ensures forall reply :: Discreet(w0, SaveAndStop(e, w, key, ver, c, reply), key)
  {
    HeldAfter(w.kube.store, key, Some(c));
  }

  lemma ValidateDiscreet(w0: World, e: Env, w: World, key: Key, ver: nat, c: Claim)
    requires c.Cluster? && c.st.phase == Pending && Discreet(w0, Go(w, ver, c), key)
    ensures Discreet(w0, ClusterPass.Validate(e, w, key, ver, c), key)
  {
    hide Passes.SaveAndStop, SetCondition, SameKind;
    var p := Get(e, w.kube, w.kube.profiles, c.spec.profile);
    FailDiscreet(w0, e, w.(kube := p.k), key, ver, c, "AddonProfileNotFound");
    if p.read.Found? {
      var s := Get(e, p.k, p.k.sites, c.spec.site);
      FailDiscreet(w0, e, w.(kube := s.k), key, ver, c, "SiteConfigNotFound");
      if s.read.Found? {
        var w1 := w.(kube := s.k, nb := ListAvailable(e, w.nb, s.read.value.slug, c.spec.machineClass).nb);
        FailDiscreet(w0, e, w1, key, ver, c, "InsufficientMachines");
        FailDiscreet(w0, e, w1, key, ver, c, "MachineClassIncompatible");
        SaveDiscreet(w0, e, w1, key, ver, c.(st := ClusterPass.Validated(c.st)));
      }
    }
  }

  lemma FailDiscreet(w0: World, e: Env, w: World, key: Key, ver: nat, c: Claim, reason: string)
    requires c.Cluster? && c.st.phase != Ready && Discreet(w0, Go(w, ver, c), key)
    ensures Discreet(w0, ClusterPass.Fail(e, w, key, ver, c, reason), key)
  {
    hide Passes.SaveAndStop, SetCondition, SameKind;
    SaveDiscreet(w0, e, w, key, ver, c.(st := ClusterPass.Mark(c.st.(phase := Failed), "Validated", false, reason)));
  }

  lemma AllocateDiscreet(w0: World, e: Env, w: World, key: Key, ver: nat, c: Claim, site: Site)
    requires c.Cluster? && c.st.phase == Provisioning && Discreet(w0, Go(w, ver, c), key)
    ensures var f := ClusterPass.AllocateControlPlaneIP(e, w, key, ver, c, site);
            Discreet(w0, f, key) && (f.Go? ==> f.c.Cluster? && f.c.st.phase == Provisioning)
    ensures var f := ClusterPass.AllocateWebhookIP(e, w, key, ver, c, site);
            Discreet(w0, f, key) && (f.Go? ==> f.c.Cluster? && f.c.st.phase == Provisioning)
  {
    hide TenantSlug, StripPrefix, WriteClaim, SameKind;
    var a := AllocateIP(e, w.nb);
    if a.value.Some? {
      var ip, id := StripPrefix(a.value.value.address), a.value.value.id;
      SaveDiscreet(w0, e, w.(nb := a.nb), key, ver, c.(st := c.st.(
        cpIP := ip, cpDNS := key.name + "-api." + TenantSlug(key.ns) + "." + site.zone, ipamIDs := c.st.ipamIDs + [id])));
      SaveDiscreet(w0, e, w.(nb := a.nb), key, ver, c.(st := c.st.(
        whIP := ip, whDNS := key.name + "-wh." + TenantSlug(key.ns) + "." + site.zone, ipamIDs := c.st.ipamIDs + [id])));
    }
  }

  lemma MachinesDiscreet(w0: World, e: Env, w: World, key: Key, ver: nat, c: Claim, site: Site)
    requires c.Cluster? && c.st.phase == Provisioning && Discreet(w0, Go(w, ver, c), key)
    ensures var f := ClusterPass.AllocateMachines(e, w, key, ver, c, site);
            Discreet(w0, f, key) && (f.Go? ==> f.c.Cluster? && f.c.st.phase == Provisioning)
  {
    hide TenantSlug, ListAvailable, Stage, WriteClaim, SameKind;
    var a := ListAvailable(e, w.nb, site.slug, c.spec.machineClass);
    if a.value.Some? {
      var t := Stage(e, a.nb, a.value.value, ClusterPass.Min(c.spec.machineCount, |a.value.value|), TenantSlug(key.ns), true);
      SaveDiscreet(w0, e, w.(nb := t.nb), key, ver, c.(st := c.st.(machineIDs := t.ids, osdDevices := t.osd)));
    }
  }

  lemma EnsureClusterDiscreet(w0: World, e: Env, w: World, key: Key, ver: nat, c: Claim, site: Site)
    requires c.Cluster? && c.st.phase == Provisioning && Discreet(w0, Go(w, ver, c), key)
    ensures Discreet(w0, ClusterPass.EnsureCluster(e, w, key, ver, c, site), key)
  {
    hide ClusterPass.EnsureAll, WriteClaim, SetCondition, SameKind;
    var objs := ClusterPass.CAPIObjects(key, c, site);
    EnsureAllFrame(e, w.kube, objs, |objs|);
    var d := ClusterPass.EnsureAll(e, w.kube, objs, |objs|);
    var w1 := w.(kube := Get(e, d.k, d.k.objects, ClusterPass.CAPICluster(key)).k);
    SaveDiscreet(w0, e, w1, key, ver, c.(st := ClusterPass.Configured(c.st, key.name, true)));
    SaveDiscreet(w0, e, w1, key, ver, c.(st := ClusterPass.Configured(c.st, key.name, false)));
  }

  lemma RunJobDiscreet(w0: World, e: Env, w: World, key: Key, ver: nat, c: Claim, site: Site)
    requires c.Cluster? && c.st.phase == Provisioning && Discreet(w0, Go(w, ver, c), key)
    ensures Discreet(w0, ClusterPass.RunJob(e, w, key, ver, c, site), key)
  {
    hide ClusterPass.Fail, ClusterPass.EnsureCluster, SameKind, Standing;
    var w1 := w.(kube := Get(e, w.kube, w.kube.jobs, JobOf(key)).k);
    FailDiscreet(w0, e, w1, key, ver, c, "MachineCfgFailed");
    EnsureClusterDiscreet(w0, e, w1, key, ver, c, site);
  }

  lemma ProvisionDiscreet(w0: World, e: Env, w: World, key: Key, ver: nat, c: Claim)
    requires c.Cluster? && c.st.phase == Provisioning && Discreet(w0, Go(w, ver, c), key)
    ensures Discreet(w0, ClusterPass.Provision(e, w, key, ver, c), key)
  {
    hide SameKind, ClusterPass.AllocateControlPlaneIP, ClusterPass.AllocateWebhookIP,
      ClusterPass.AllocateMachines, ClusterPass.RunJob;
    var s := Get(e, w.kube, w.kube.sites, c.spec.site);
    var w1 := w.(kube := s.k);
    if s.read.Found? {
      AllocateDiscreet(w0, e, w1, key, ver, c, s.read.value);
      var f1 := ClusterPass.AllocateControlPlaneIP(e, w1, key, ver, c, s.read.value);
      if f1.Go? {
        AllocateDiscreet(w0, e, f1.w, key, f1.ver, f1.c, s.read.value);
        var f2 := ClusterPass.AllocateWebhookIP(e, f1.w, key, f1.ver, f1.c, s.read.value);
        if f2.Go? {
          MachinesDiscreet(w0, e, f2.w, key, f2.ver, f2.c, s.read.value);
          var f3 := ClusterPass.AllocateMachines(e, f2.w, key, f2.ver, f2.c, s.read.value);
          if f3.Go? { RunJobDiscreet(w0, e, f3.w, key, f3.ver, f3.c, s.read.value); }
        }
      }
    }
  }

  lemma WatchAddonsDiscreet(w0: World, e: Env, w: World, key: Key, ver: nat, c: Claim)
    requires c.Cluster? && c.st.phase == ClusterReady && Discreet(w0, Go(w, ver, c), key)
    ensures Discreet(w0, ClusterPass.WatchAddons(e, w, key, ver, c), key)
  {
    hide WriteClaim, SetCondition, SameKind, ClusterPass.Install, ClusterPass.CheckReady;
    var p := Get(e, w.kube, w.kube.profiles, c.spec.profile);
    if p.read.Found? {
      var comps := e.sort(p.k.calls, p.read.value.components);
      InstallFrame(e, p.k, key, c.st, comps, |comps|);
      var d := ClusterPass.Install(e, p.k, key, c.st, comps, |comps|);
      CheckReadyFrame(e, d.k, key, comps, |comps|);
      var w1 := w.(kube := ClusterPass.CheckReady(e, d.k, key, comps, |comps|).k);
      SaveDiscreet(w0, e, w1, key, ver, c.(st := ClusterPass.Mark(c.st.(phase := AddonsReady), "AddonsReady", true, "AllAddonsReady")));
    }
  }

  lemma ScaleDiscreet(w0: World, e: Env, w: World, key: Key, ver: nat, c: Claim)
    requires c.Cluster? && Discreet(w0, Go(w, ver, c), key)
    ensures Discreet(w0, ClusterPass.Scale(e, w, key, ver, c), key)
  {
    hide TenantSlug, ListAvailable, Stage, ReleaseUntilError, WriteClaim, SetCondition, SameKind, ClusterPass.UsesRook;
    var desired, actual := c.spec.machineCount, |c.st.machineIDs|;
    if desired > actual {
      var s := Get(e, w.kube, w.kube.sites, c.spec.site);
      if s.read.Found? {
        var a := ListAvailable(e, w.nb, s.read.value.slug, c.spec.machineClass);
        SaveDiscreet(w0, e, w.(kube := s.k, nb := a.nb), key, ver,
                     c.(st := ClusterPass.Mark(c.st, "ScaleUpBlocked", true, "InsufficientMachines")));
        if a.value.Some? && |a.value.value| >= desired - actual {
          var t := Stage(e, a.nb, a.value.value, desired - actual, TenantSlug(key.ns), false);
          SaveDiscreet(w0, e, w.(kube := s.k, nb := t.nb), key, ver, c.(st := c.st.(machineIDs := c.st.machineIDs + t.ids)));
        }
      }
    } else if desired < actual {
      var w1 := w.(kube := Get(e, w.kube, w.kube.profiles, c.spec.profile).k);
      SaveDiscreet(w0, e, w1, key, ver, c.(st := ClusterPass.Mark(c.st, "ScaleDownBlocked", true, "RookCephPresent")));
      var d := ReleaseUntilError(e, w1.nb, c.st.machineIDs[desired..], actual - desired);
      SaveDiscreet(w0, e, w1.(nb := d.nb), key, ver, c.(st := c.st.(machineIDs := c.st.machineIDs[..desired])));
    }
  }

  lemma DeleteDiscreet(e: Env, w: World, key: Key, ticks: nat)
    requires IsReady(w.kube.store, key) ==> Current(w.kube.store, key).value.meta.finalizer
    ensures Discreet(w, Stop(w.(kube := DeleteClaim(e, w.kube, key).k, ticks := ticks), Finished), key)
  {
    var now := Current(w.kube.store, key);
    if now.Some? { HeldAfter(w.kube.store, key, Deleted(now.value)); }
  }

  lemma ServerStepDiscreet(w0: World, e: Env, w: World, key: Key, ver: nat, c: Claim)
    requires c.Server? && !c.meta.deleting && Discreet(w0, Go(w, ver, c), key)
    ensures Discreet(w0, ServerPass.Step(e, w, key, ver, c), key)
  {
    hide SameKind, Standing, Passes.SaveAndStop, ServerPass.Validate, ServerPass.Provision;
    if !c.meta.finalizer {
      MetaStands(w0.kube.store, key, c, c.meta.(finalizer := true));
      SaveDiscreet(w0, e, w, key, ver, WithMeta(c, c.meta.(finalizer := true)));
    } else if c.sst.phase == Pending {
      ServerValidateDiscreet(w0, e, w, key, ver, c);
    } else if c.sst.phase == Provisioning {
      ServerProvisionDiscreet(w0, e, w, key, ver, c);
    }
  }

  lemma MetaStands(s: Store, key: Key, c: Claim, m: Meta)
    ensures Standing(s, key, c) ==> Standing(s, key, WithMeta(c, m))
  {
  }

  /** Any two server claims stand alike. */
  lemma ServerStanding(s: Store, key: Key, c: Claim, c': Claim)
    requires c.Server? && c'.Server?
    ensures Standing(s, key, c) ==> Standing(s, key, c')
  {
  }

  lemma ServerSaveDiscreet(w0: World, e: Env, w: World, key: Key, ver: nat, c: Claim, c': Claim)
    requires c.Server? && c'.Server? && Discreet(w0, Go(w, ver, c), key)
    ensures Discreet(w0, Save(e, w, key, ver, c'), key)
    ensures forall reply :: Discreet(w0, SaveAndStop(e, w, key, ver, c', reply), key)
  {
    hide SameKind, Standing;
    ServerStanding(w0.kube.store, key, c, c');
    SaveDiscreet(w0, e, w, key, ver, c');
  }

  lemma ServerFailDiscreet(w0: World, e: Env, w: World, key: Key, ver: nat, c: Claim, reason: string)
    requires c.Server? && Discreet(w0, Go(w, ver, c), key)
    ensures Discreet(w0, ServerPass.Fail(e, w, key, ver, c, reason), key)
  {
    hide SameKind, Standing, Passes.SaveAndStop;
    var conditions := c.sst.conditions + [Condition("Ready", false, reason)];
    ServerSaveDiscreet(w0, e, w, key, ver, c, c.(sst := c.sst.(phase := Failed, conditions := conditions)));
  }

  lemma ServerValidateDiscreet(w0: World, e: Env, w: World, key: Key, ver: nat, c: Claim)
    requires c.Server? && Discreet(w0, Go(w, ver, c), key)
    ensures Discreet(w0, ServerPass.Validate(e, w, key, ver, c), key)
  {
    hide SameKind, Standing, Passes.SaveAndStop, ServerPass.Fail;
    var s := Get(e, w.kube, w.kube.sites, c.sspec.site);
    var w1 := w.(kube := s.k);
    ServerFailDiscreet(w0, e, w1, key, ver, c, "SiteConfigNotFound");
    if s.read.Found? {
      var w2 := w1.(nb := ListAvailable(e, w1.nb, s.read.value.slug, c.sspec.machineClass).nb);
      ServerFailDiscreet(w0, e, w2, key, ver, c, "InsufficientMachines");
      ServerSaveDiscreet(w0, e, w2, key, ver, c, c.(sst := c.sst.(phase := Provisioning)));
    }
  }

  lemma ServerAllocateDiscreet(w0: World, e: Env, w: World, key: Key, ver: nat, c: Claim, site: Site)
    requires c.Server? && Discreet(w0, Go(w, ver, c), key)
    ensures var f := ServerPass.AllocateServerIP(e, w, key, ver, c, site); Discreet(w0, f, key) && (f.Go? ==> f.c.Server?)
    ensures var f := ServerPass.AllocateMachine(e, w, key, ver, c, site); Discreet(w0, f, key) && (f.Go? ==> f.c.Server?)
  {
    hide SameKind, Standing, TenantSlug, StripPrefix, WriteClaim, ListAvailable, Stage;
    var a := AllocateIP(e, w.nb);
    if a.value.Some? {
      ServerSaveDiscreet(w0, e, w.(nb := a.nb), key, ver, c, c.(sst := c.sst.(
        ip := StripPrefix(a.value.value.address),
        dns := key.name + "." + TenantSlug(key.ns) + "." + site.zone,
        ipamID := a.value.value.id)));
    }
    var l := ListAvailable(e, w.nb, site.slug, c.sspec.machineClass);
    ServerFailDiscreet(w0, e, w.(nb := l.nb), key, ver, c, "InsufficientMachines");
    if l.value.Some? && l.value.value != [] {
      var t := Stage(e, l.nb, l.value.value, 1, TenantSlug(key.ns), false);
      ServerSaveDiscreet(w0, e, w.(nb := t.nb), key, ver, c, c.(sst := c.sst.(machineID := l.value.value[0].id)));
    }
  }

  lemma ServerProvisionDiscreet(w0: World, e: Env, w: World, key: Key, ver: nat, c: Claim)
    requires c.Server? && Discreet(w0, Go(w, ver, c), key)
    ensures Discreet(w0, ServerPass.Provision(e, w, key, ver, c), key)
  {
    hide SameKind, Standing, ServerPass.AllocateServerIP, ServerPass.AllocateMachine, ServerPass.RunJob;
    var s := Get(e, w.kube, w.kube.sites, c.sspec.site);
    var w1 := w.(kube := s.k);
    if s.read.Found? {
      ServerAllocateDiscreet(w0, e, w1, key, ver, c, s.read.value);
      var f1 := ServerPass.AllocateServerIP(e, w1, key, ver, c, s.read.value);
      if f1.Go? {
        ServerAllocateDiscreet(w0, e, f1.w, key, f1.ver, f1.c, s.read.value);
        var f2 := ServerPass.AllocateMachine(e, f1.w, key, f1.ver, f1.c, s.read.value);
        if f2.Go? { ServerJobDiscreet(w0, e, f2.w, key, f2.ver, f2.c); }
      }
    }
  }

  lemma ServerJobDiscreet(w0: World, e: Env, w: World, key: Key, ver: nat, c: Claim)
    requires c.Server? && Discreet(w0, Go(w, ver, c), key)
    ensures Discreet(w0, ServerPass.RunJob(e, w, key, ver, c), key)
  {
    hide SameKind, Standing, Passes.SaveAndStop, ServerPass.Fail;
    var w1 := w.(kube := Get(e, w.kube, w.kube.jobs, JobOf(key)).k);
    ServerFailDiscreet(w0, e, w1, key, ver, c, "MachineCfgFailed");
    ServerSaveDiscreet(w0, e, w1, key, ver, c, c.(sst := c.sst.(phase := Ready)));
  }

  lemma ClusterStepDiscreet(e: Env, w: World, key: Key, ver: nat, c: Claim)
    requires c.Cluster? && Discreet(w, Go(w, ver, c), key) && !c.meta.deleting && (c.st.phase == AddonsReady ==> !c.meta.finalizer)
    requires IsReady(w.kube.store, key) ==> Current(w.kube.store, key).value.meta.finalizer
    ensures Discreet(w, ClusterPass.Step(e, w, key, ver, c), key)
  {
    hide SameKind, Standing, Passes.SaveAndStop, ClusterPass.Validate, ClusterPass.Provision, ClusterPass.WatchAddons, ClusterPass.Scale, DeleteClaim;
    if !c.meta.finalizer {
      MetaStands(w.kube.store, key, c, c.meta.(finalizer := true));
      SaveDiscreet(w, e, w, key, ver, WithMeta(c, c.meta.(finalizer := true)));
    } else {
      match c.st.phase {
        case Pending => ValidateDiscreet(w, e, w, key, ver, c);
        case Provisioning => ProvisionDiscreet(w, e, w, key, ver, c);
        case ClusterReady => WatchAddonsDiscreet(w, e, w, key, ver, c);
        case Ready =>
          DeleteDiscreet(e, w, key, w.ticks + 1);
          ScaleDiscreet(w, e, w, key, ver, c);
        case Failed =>
      }
    }
  }
}
