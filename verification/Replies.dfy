/** What a pass answers: a claim that still has something to do is never left without a next pass, and a claim that waits
    for its addons comes back after half a minute. */
module Replies {
  import opened Basics
  import opened Text
  import opened Claims
  import opened Conditions
  import opened Environment
  import opened Inventory
  import opened ApiServer
  import opened Passes
  import opened Holdings
  import opened Exclusivity
  import opened AddonSteps
  import opened Addons
  import opened Scaling
  import opened Verdicts
  import AddressLedger
  import Bookkeeping
  import ClusterPass
  import RoleRules
  import ServerPass
  import opened Runs

  // ---- Never forgotten --------------------------------------------------------------------

  /** The claim has got a new version, which brings its next pass. */
  predicate Grew(w: World, w': World, key: Key) {
    |HistoryOf(w'.kube.store, key)| > |HistoryOf(w.kube.store, key)|
  }

  /** The flow keeps what the claim has been, and ends without asking for another pass only after writing the claim. */
  predicate Minds(w: World, f: Flow, key: Key) {
    && |HistoryOf(f.w.kube.store, key)| >= |HistoryOf(w.kube.store, key)|
    && (f.Stop? && f.reply == Finished ==> Grew(w, f.w, key))
  }

  lemma SaveMinds(e: Env, w: World, key: Key, ver: nat, v: Claim)
    ensures Minds(w, Save(e, w, key, ver, v), key)
    ensures forall reply :: Minds(w, SaveAndStop(e, w, key, ver, v, reply), key)
  {
    HeldAfter(w.kube.store, key, Some(v));
  }

  lemma MindsOn(w: World, w1: World, f: Flow, key: Key)
    requires |HistoryOf(w1.kube.store, key)| >= |HistoryOf(w.kube.store, key)| && Minds(w1, f, key)
    ensures Minds(w, f, key)
  {
  }

  lemma FailMinds(e: Env, w: World, key: Key, ver: nat, c: Claim, reason: string)
    ensures c.Cluster? ==> Minds(w, ClusterPass.Fail(e, w, key, ver, c, reason), key)
    ensures c.Server? ==> Minds(w, ServerPass.Fail(e, w, key, ver, c, reason), key)
  {
    hide Passes.SaveAndStop, SetCondition, Minds;
    if c.Cluster? {
      SaveMinds(e, w, key, ver, c.(st := ClusterPass.Mark(c.st.(phase := Failed), "Validated", false, reason)));
    } else {
      SaveMinds(e, w, key, ver, c.(sst := c.sst.(phase := Failed, conditions := c.sst.conditions + [Condition("Ready", false, reason)])));
    }
  }

  lemma ValidateMinds(e: Env, w: World, key: Key, ver: nat, c: Claim)
    requires c.Cluster?
    ensures Minds(w, ClusterPass.Validate(e, w, key, ver, c), key)
  {
    hide ListAvailable, SetCondition, Passes.SaveAndStop, ClusterPass.Fail, ClusterPass.SomeHasTag;
    var p := Get(e, w.kube, w.kube.profiles, c.spec.profile);
    FailMinds(e, w.(kube := p.k), key, ver, c, "AddonProfileNotFound");
    if p.read.Found? {
      var s := Get(e, p.k, p.k.sites, c.spec.site);
      FailMinds(e, w.(kube := s.k), key, ver, c, "SiteConfigNotFound");
      if s.read.Found? {
        var w1 := w.(kube := s.k, nb := ListAvailable(e, w.nb, s.read.value.slug, c.spec.machineClass).nb);
        FailMinds(e, w1, key, ver, c, "InsufficientMachines");
        FailMinds(e, w1, key, ver, c, "MachineClassIncompatible");
        SaveMinds(e, w1, key, ver, c.(st := ClusterPass.Validated(c.st)));
      }
    }
  }

  lemma AllocationsMind(e: Env, w: World, key: Key, ver: nat, c: Claim, site: Site)
    requires c.Cluster?
    ensures Minds(w, ClusterPass.AllocateControlPlaneIP(e, w, key, ver, c, site), key)
    ensures Minds(w, ClusterPass.AllocateWebhookIP(e, w, key, ver, c, site), key)
    ensures Minds(w, ClusterPass.AllocateMachines(e, w, key, ver, c, site), key)
  {
    hide TenantSlug, StripPrefix, Stage, ListAvailable, WriteClaim, Append;
    WritesGrow(e, key);
  }

  lemma WritesGrow(e: Env, key: Key)
    ensures forall k: Kube, ver: nat, v: Option<Claim> :: |HistoryOf(WriteClaim(e, k, key, ver, v).k.store, key)| >= |HistoryOf(k.store, key)|
  {
  }

  lemma RunJobMinds(e: Env, w: World, key: Key, ver: nat, c: Claim, site: Site)
    requires c.Cluster?
    ensures Minds(w, ClusterPass.RunJob(e, w, key, ver, c, site), key)
  {
    hide Passes.SaveAndStop, ClusterPass.Fail, ClusterPass.EnsureAll, ClusterPass.CAPIObjects, SetCondition;
    var w1 := w.(kube := Get(e, w.kube, w.kube.jobs, JobOf(key)).k);
    FailMinds(e, w1, key, ver, c, "MachineCfgFailed");
    var objs := ClusterPass.CAPIObjects(key, c, site);
    EnsureAllFrame(e, w1.kube, objs, |objs|);
    var d := ClusterPass.EnsureAll(e, w1.kube, objs, |objs|);
    var w2 := w1.(kube := Get(e, d.k, d.k.objects, ClusterPass.CAPICluster(key)).k);
    SaveMinds(e, w2, key, ver, c.(st := ClusterPass.Configured(c.st, key.name, true)));
    SaveMinds(e, w2, key, ver, c.(st := ClusterPass.Configured(c.st, key.name, false)));
  }

  lemma ProvisionMinds(e: Env, w: World, key: Key, ver: nat, c: Claim)
    requires c.Cluster?
    ensures Minds(w, ClusterPass.Provision(e, w, key, ver, c), key)
  {
    hide ClusterPass.AllocateControlPlaneIP, ClusterPass.AllocateWebhookIP, ClusterPass.AllocateMachines, ClusterPass.RunJob;
    var s := Get(e, w.kube, w.kube.sites, c.spec.site);
    var w1 := w.(kube := s.k);
    if s.read.Found? {
      AllocationsMind(e, w1, key, ver, c, s.read.value);
      var f1 := ClusterPass.AllocateControlPlaneIP(e, w1, key, ver, c, s.read.value);
      StaysClusters(e, w1, key, ver, c, s.read.value);
      if f1.Go? {
        AllocationsMind(e, f1.w, key, f1.ver, f1.c, s.read.value);
        StaysClusters(e, f1.w, key, f1.ver, f1.c, s.read.value);
        var f2 := ClusterPass.AllocateWebhookIP(e, f1.w, key, f1.ver, f1.c, s.read.value);
        if f2.Go? {
          AllocationsMind(e, f2.w, key, f2.ver, f2.c, s.read.value);
          StaysClusters(e, f2.w, key, f2.ver, f2.c, s.read.value);
          var f3 := ClusterPass.AllocateMachines(e, f2.w, key, f2.ver, f2.c, s.read.value);
          if f3.Go? { RunJobMinds(e, f3.w, key, f3.ver, f3.c, s.read.value); }
        }
      }
    }
  }

  lemma StaysClusters(e: Env, w: World, key: Key, ver: nat, c: Claim, site: Site)
    requires c.Cluster?
    ensures var f := ClusterPass.AllocateControlPlaneIP(e, w, key, ver, c, site); f.Go? ==> f.c.Cluster?
    ensures var f := ClusterPass.AllocateWebhookIP(e, w, key, ver, c, site); f.Go? ==> f.c.Cluster?
    ensures var f := ClusterPass.AllocateMachines(e, w, key, ver, c, site); f.Go? ==> f.c.Cluster?
  {
    hide TenantSlug, StripPrefix, Stage, ListAvailable, WriteClaim;
  }

  lemma WatchAddonsMinds(e: Env, w: World, key: Key, ver: nat, c: Claim)
    requires c.Cluster?
    ensures Minds(w, ClusterPass.WatchAddons(e, w, key, ver, c), key)
  {
    hide ClusterPass.Install, ClusterPass.CheckReady, SetCondition, Passes.SaveAndStop;
    var p := Get(e, w.kube, w.kube.profiles, c.spec.profile);
    if p.read.Found? {
      var comps := e.sort(p.k.calls, p.read.value.components);
      InstallFrame(e, p.k, key, c.st, comps, |comps|);
      var d := ClusterPass.Install(e, p.k, key, c.st, comps, |comps|);
      CheckReadyFrame(e, d.k, key, comps, |comps|);
      SaveMinds(e, w.(kube := ClusterPass.CheckReady(e, d.k, key, comps, |comps|).k), key, ver,
                c.(st := ClusterPass.Mark(c.st.(phase := AddonsReady), "AddonsReady", true, "AllAddonsReady")));
    }
  }

  lemma ExposeMinds(e: Env, w: World, key: Key, ver: nat, c: Claim)
    requires c.Cluster?
    ensures Minds(w, ClusterPass.ExposeKubeconfig(e, w, key, ver, c), key)
  {
    hide RoleRules.SecretsRule, RoleRules.Grant, Passes.SaveAndStop, ClusterPass.SecretOf;
    var got := Get(e, w.kube, w.kube.roles, key.ns);
    var c' := c.(st := c.st.(phase := Ready, kubeconfig := ClusterPass.SecretOf(key)));
    SaveMinds(e, w.(kube := got.k), key, ver, c');
    if got.read.Found? {
      SaveMinds(e, w.(kube := PutRole(e, got.k, key.ns, RoleRules.Grant(got.read.value, ClusterPass.SecretOf(key))).k), key, ver, c');
    }
  }

  lemma SteadyMinds(e: Env, w: World, key: Key, ver: nat, c: Claim)
    requires c.Cluster?
    ensures Minds(w, ClusterPass.SteadyState(e, w, key, ver, c), key)
  {
    hide ListAvailable, Stage, ReleaseUntilError, TenantSlug, SetCondition, ClusterPass.UsesRook, ClusterPass.Scale, Append;
    ScaleMinds(e, w, key, ver, c);
    var now := Current(w.kube.store, key);
    if now.Some? { HeldAfter(w.kube.store, key, Deleted(now.value)); }
  }

  lemma ScaleMinds(e: Env, w: World, key: Key, ver: nat, c: Claim)
    requires c.Cluster?
    ensures Minds(w, ClusterPass.Scale(e, w, key, ver, c), key)
  {
    hide ListAvailable, Stage, ReleaseUntilError, TenantSlug, SetCondition, ClusterPass.UsesRook, Passes.SaveAndStop;
    var desired, actual := c.spec.machineCount, |c.st.machineIDs|;
    if desired > actual {
      var s := Get(e, w.kube, w.kube.sites, c.spec.site);
      if s.read.Found? {
        var a := ListAvailable(e, w.nb, s.read.value.slug, c.spec.machineClass);
        SaveMinds(e, w.(kube := s.k, nb := a.nb), key, ver, c.(st := ClusterPass.Mark(c.st, "ScaleUpBlocked", true, "InsufficientMachines")));
        if a.value.Some? && |a.value.value| >= desired - actual {
          var t := Stage(e, a.nb, a.value.value, desired - actual, TenantSlug(key.ns), false);
          SaveMinds(e, w.(kube := s.k, nb := t.nb), key, ver, c.(st := c.st.(machineIDs := c.st.machineIDs + t.ids)));
        }
      }
    } else if desired < actual {
      var w1 := w.(kube := Get(e, w.kube, w.kube.profiles, c.spec.profile).k);
      SaveMinds(e, w1, key, ver, c.(st := ClusterPass.Mark(c.st, "ScaleDownBlocked", true, "RookCephPresent")));
      var d := ReleaseUntilError(e, w1.nb, c.st.machineIDs[desired..], actual - desired);
      SaveMinds(e, w1.(nb := d.nb), key, ver, c.(st := c.st.(machineIDs := c.st.machineIDs[..desired])));
    }
  }

  lemma FinalizeMinds(e: Env, w: World, key: Key, ver: nat, c: Claim)
    ensures c.Cluster? ==> Minds(w, ClusterPass.Finalize(e, w, key, ver, c), key)
    ensures c.Server? ==> Minds(w, ServerPass.Finalize(e, w, key, ver, c), key)
  {
    hide ReleaseIPs, ReleaseEach, ClusterPass.RevokeKubeconfig, Append;
    HeldAfter(w.kube.store, key, None);
    if c.Cluster? { RevokeFrame(e, w.kube, key, c.st.kubeconfig); }
  }

  lemma ServerAllocationsMind(e: Env, w: World, key: Key, ver: nat, c: Claim, site: Site)
    requires c.Server?
    ensures var f := ServerPass.AllocateServerIP(e, w, key, ver, c, site); Minds(w, f, key) && (f.Go? ==> f.c.Server?)
    ensures var f := ServerPass.AllocateMachine(e, w, key, ver, c, site); Minds(w, f, key) && (f.Go? ==> f.c.Server?)
  {
    hide TenantSlug, StripPrefix, Stage, ListAvailable, WriteClaim, Append, ServerPass.Fail;
    WritesGrow(e, key);
    var a := ListAvailable(e, w.nb, site.slug, c.sspec.machineClass);
    FailMinds(e, w.(nb := a.nb), key, ver, c, "InsufficientMachines");
    FailStops(e, w.(nb := a.nb), key, ver, c, "InsufficientMachines");
  }

  lemma FailStops(e: Env, w: World, key: Key, ver: nat, c: Claim, reason: string)
    requires c.Server?
    ensures ServerPass.Fail(e, w, key, ver, c, reason).Stop?
  {
    hide WriteClaim;
  }

  lemma ServerJobMinds(e: Env, w: World, key: Key, ver: nat, c: Claim)
    requires c.Server?
    ensures Minds(w, ServerPass.RunJob(e, w, key, ver, c), key)
  {
    hide Passes.SaveAndStop, ServerPass.Fail;
    var w1 := w.(kube := Get(e, w.kube, w.kube.jobs, JobOf(key)).k);
    FailMinds(e, w1, key, ver, c, "MachineCfgFailed");
    SaveMinds(e, w1, key, ver, c.(sst := c.sst.(phase := Ready)));
  }

  lemma ServerProvisionMinds(e: Env, w: World, key: Key, ver: nat, c: Claim)
    requires c.Server?
    ensures Minds(w, ServerPass.Provision(e, w, key, ver, c), key)
  {
    hide ServerPass.AllocateServerIP, ServerPass.AllocateMachine, ServerPass.RunJob;
    var s := Get(e, w.kube, w.kube.sites, c.sspec.site);
    var w1 := w.(kube := s.k);
    if s.read.Found? {
      ServerAllocationsMind(e, w1, key, ver, c, s.read.value);
      var f1 := ServerPass.AllocateServerIP(e, w1, key, ver, c, s.read.value);
      if f1.Go? {
        ServerAllocationsMind(e, f1.w, key, f1.ver, f1.c, s.read.value);
        var f2 := ServerPass.AllocateMachine(e, f1.w, key, f1.ver, f1.c, s.read.value);
        if f2.Go? { ServerJobMinds(e, f2.w, key, f2.ver, f2.c); }
      }
    }
  }

  lemma ServerValidateMinds(e: Env, w: World, key: Key, ver: nat, c: Claim)
    requires c.Server?
    ensures Minds(w, ServerPass.Validate(e, w, key, ver, c), key)
  {
    hide ListAvailable, Passes.SaveAndStop, ServerPass.Fail;
    var s := Get(e, w.kube, w.kube.sites, c.sspec.site);
    var w1 := w.(kube := s.k);
    FailMinds(e, w1, key, ver, c, "SiteConfigNotFound");
    if s.read.Found? {
      var w2 := w1.(nb := ListAvailable(e, w1.nb, s.read.value.slug, c.sspec.machineClass).nb);
      FailMinds(e, w2, key, ver, c, "InsufficientMachines");
      SaveMinds(e, w2, key, ver, c.(sst := c.sst.(phase := Provisioning)));
    }
  }

  /** The claim has nothing left to do: it has failed, or it is a server claim past provisioning. */
  predicate Settled(c: Claim) {
    !c.meta.deleting && c.meta.finalizer
    && if c.Cluster? then c.st.phase == Failed else c.sst.phase != Pending && c.sst.phase != Provisioning
  }

  lemma StepMinds(e: Env, w: World, key: Key, ver: nat, c: Claim)
    requires !Settled(c)
    ensures Minds(w, Step(e, w, key, ver, c), key)
  {
    hide Minds, ClusterPass.Finalize, ServerPass.Finalize, ClusterPass.Validate, ClusterPass.Provision, ClusterPass.WatchAddons,
      ClusterPass.ExposeKubeconfig, ClusterPass.SteadyState, ServerPass.Validate, ServerPass.Provision, Passes.SaveAndStop;
    if c.meta.deleting {
      FinalizeMinds(e, w, key, ver, c);
    } else if !c.meta.finalizer {
      SaveMinds(e, w, key, ver, WithMeta(c, c.meta.(finalizer := true)));
    } else if c.Cluster? {
      match c.st.phase {
        case Pending => ValidateMinds(e, w, key, ver, c);
        case Provisioning => ProvisionMinds(e, w, key, ver, c);
        case ClusterReady => WatchAddonsMinds(e, w, key, ver, c);
        case AddonsReady => ExposeMinds(e, w, key, ver, c);
        case Ready => SteadyMinds(e, w, key, ver, c);
      }
    } else {
      match c.sst.phase {
        case Pending => ServerValidateMinds(e, w, key, ver, c);
        case Provisioning => ServerProvisionMinds(e, w, key, ver, c);
      }
    }
  }

  /** In every run, whatever fails and from any version: a pass that asks for no other one has written its claim, whose
      new version brings the next pass, or the claim has nothing left to do. So a claim is never forgotten. */
  lemma {:induction false} NeverForgotten(e: Env, r: Run, n: nat, key: Key, ver: nat, c: Claim)
    requires IsRun(e, r) && n < |r.events| && r.events[n] == Pass(key, ver) && Seen(r.worlds[n].kube.store, key, ver) == Some(c)
    requires Reconcile(e, r.worlds[n], key, ver).reply == Finished && !Settled(c)
    ensures Grew(r.worlds[n], r.worlds[n + 1], key)
  {
    hide Step, Settled;
    assert Linked(e, r, n);
    var w := r.worlds[n];
    var got := ReadClaim(e, w.kube, key, ver);
    if got.read.Found? {
      StepMinds(e, w.(kube := got.k), key, ver, c);
      AddressLedger.StepStops(e, w.(kube := got.k), key, ver, c);
    }
  }

  // ---- Waiting for addons -----------------------------------------------------------------

  /** What an undisturbed addon pass decides: over required releases that were all ready before it the claim moves on and
      asks for its next pass at once; otherwise it stays as it is and comes back after thirty seconds. */
  lemma {:induction false} AddonsDecide(e: Env, r: Run, n: nat, key: Key, c: Claim)
    requires Undisturbed(e, r, n, key, c) && SortsComponents(e) && c.Cluster? && c.st.phase == ClusterReady
    requires c.spec.profile in r.worlds[n].kube.profiles
    ensures var w, c' := r.worlds[n], Afterwards(r, n, key);
            if AllReady(w.kube, key, w.kube.profiles[c.spec.profile].components)
            then && c'.Some? && c'.value.Cluster? && ReplyAt(e, r, n, key) == Requeue
                 && c'.value == c.(st := c.st.(phase := AddonsReady, conditions := c'.value.st.conditions))
                 && Lookup(c'.value.st.conditions, "AddonsReady") == Some(Condition("AddonsReady", true, "AllAddonsReady"))
            else c' == Some(c) && ReplyAt(e, r, n, key) == After(30 * SECOND)
  {
    hide Step, AllReady, ReplyAt, NoFaults, SetCondition, Lookup, ClusterPass.WatchAddons;
    var w1, ver := StepTaken(e, r, n, key, c);
    WatchDecides(e, w1, key, ver, c);
    StepWatches(e, w1, key, ver, c);
    SameObjectsReady(r.worlds[n].kube, w1.kube, key, r.worlds[n].kube.profiles[c.spec.profile].components);
  }

  lemma SameObjectsReady(k: Kube, k': Kube, key: Key, comps: seq<Component>)
    requires k'.objects == k.objects
    ensures AllReady(k', key, comps) <==> AllReady(k, key, comps)
  {
  }

  lemma StepWatches(e: Env, w: World, key: Key, ver: nat, c: Claim)
    requires c.Cluster? && c.meta.finalizer && !c.meta.deleting && c.st.phase == ClusterReady
    ensures Step(e, w, key, ver, c) == ClusterPass.WatchAddons(e, w, key, ver, c)
  {
    hide ClusterPass.WatchAddons;
  }

  lemma WatchDecides(e: Env, w: World, key: Key, ver: nat, c: Claim)
    requires NoFaults(e) && SortsComponents(e) && c.Cluster? && c.spec.profile in w.kube.profiles
    requires IsCurrent(w.kube.store, key, ver) && Current(w.kube.store, key) == Some(c)
    ensures var f := ClusterPass.WatchAddons(e, w, key, ver, c);
            var c' := Current(f.w.kube.store, key);
            f.Stop? &&
            if AllReady(w.kube, key, w.kube.profiles[c.spec.profile].components)
            then && c'.Some? && c'.value.Cluster? && f.reply == Requeue
                 && c'.value == c.(st := c.st.(phase := AddonsReady, conditions := c'.value.st.conditions))
                 && Lookup(c'.value.st.conditions, "AddonsReady") == Some(Condition("AddonsReady", true, "AllAddonsReady"))
            else c' == Some(c) && f.reply == After(30 * SECOND)
  {
    hide ClusterPass.Install, ClusterPass.CheckReady, AllReady, SetCondition, Lookup, Passes.SaveAndStop;
    var p := Get(e, w.kube, w.kube.profiles, c.spec.profile);
    var comps := e.sort(p.k.calls, p.read.value.components);
    SameMultisetReleases(key, comps, p.read.value.components);
    SameReady(w.kube, key, comps, p.read.value.components);
    ReadyBefore(e, w.kube, p.k, key, c.st, comps);
    InstallFrame(e, p.k, key, c.st, comps, |comps|);
    var d := ClusterPass.Install(e, p.k, key, c.st, comps, |comps|);
    CheckReadyFrame(e, d.k, key, comps, |comps|);
    var w1 := w.(kube := ClusterPass.CheckReady(e, d.k, key, comps, |comps|).k);
    Saved(e, w1, key, ver, c.(st := ClusterPass.Mark(c.st.(phase := AddonsReady), "AddonsReady", true, "AllAddonsReady")), Requeue);
    LookupAfterSet(c.st.conditions, "AddonsReady", true, "AllAddonsReady", "AddonsReady");
  }

  // ---- Scaling ----------------------------------------------------------------------------

  /** The claim as it was, with this condition true on top. */
  ghost predicate Blocked(c: Claim, c': Option<Claim>, ctype: string, reason: string) {
    && c.Cluster? && c'.Some? && c'.value.Cluster? && c'.value == c.(st := c.st.(conditions := c'.value.st.conditions))
    && Lookup(c'.value.st.conditions, ctype) == Some(Condition(ctype, true, reason))
    && forall t :: t != ctype ==> Lookup(c'.value.st.conditions, t) == Lookup(c.st.conditions, t)
  }

  lemma MarkBlocks(c: Claim, ctype: string, reason: string)
    requires c.Cluster?
    ensures Blocked(c, Some(c.(st := ClusterPass.Mark(c.st, ctype, true, reason))), ctype, reason)
  {
    hide SetCondition, Lookup;
    forall t { LookupAfterSet(c.st.conditions, ctype, true, reason, t); }
  }

  /** An undisturbed pass over a Ready claim without a deadline tells what stops it from scaling: too few machines, and
      it tries again after five minutes, or rook-ceph in the profile, and it waits for a change of the claim. A pass that
      nothing stops comes back after five minutes as well. */
  lemma {:induction false} ScalingAnswers(e: Env, r: Run, n: nat, key: Key, c: Claim)
    requires Undisturbed(e, r, n, key, c) && c.Cluster? && c.st.phase == Ready && !c.meta.deleteAt.Deadline? && TenantSlug(key.ns) != ""
    requires c.spec.profile in r.worlds[n].kube.profiles && c.spec.site in r.worlds[n].kube.sites
    requires UniqueIDs(r.worlds[n].nb.devices) && forall id :: id in c.st.machineIDs ==> HasDevice(r.worlds[n].nb.devices, id)
    ensures var w, c', reply := r.worlds[n], Afterwards(r, n, key), ReplyAt(e, r, n, key);
            && (reply == if c.spec.machineCount < |c.st.machineIDs| && !Scalable(w, c) then Finished else After(300 * SECOND))
            && (!Scalable(w, c) ==>
                  if c.spec.machineCount > |c.st.machineIDs| then Blocked(c, c', "ScaleUpBlocked", "InsufficientMachines")
                  else Blocked(c, c', "ScaleDownBlocked", "RookCephPresent"))
  {
    hide Step, Reconcile, ReplyAt, Blocked, NoFaults, ClusterPass.Scale, Scalable, TenantSlug, UniqueIDs;
    var w1, ver := StepTaken(e, r, n, key, c);
    StepScales(e, w1, key, ver, c);
    ScaleAnswers(e, w1, key, ver, c);
    SameScalable(r.worlds[n], w1, c);
  }

  lemma StepScales(e: Env, w: World, key: Key, ver: nat, c: Claim)
    requires c.Cluster? && c.meta.finalizer && !c.meta.deleting && c.st.phase == Ready && !c.meta.deleteAt.Deadline?
    ensures Step(e, w, key, ver, c) == ClusterPass.Scale(e, w, key, ver, c)
  {
    hide ClusterPass.Scale;
  }

  lemma SameScalable(w: World, w1: World, c: Claim)
    requires c.Cluster? && w1 == w.(kube := w1.kube) && w1.kube == w.kube.(calls := w1.kube.calls)
    ensures Scalable(w1, c) == Scalable(w, c)
  {
  }

  lemma ScaleAnswers(e: Env, w: World, key: Key, ver: nat, c: Claim)
    requires NoFaults(e) && c.Cluster? && TenantSlug(key.ns) != "" && IsCurrent(w.kube.store, key, ver)
    requires c.spec.profile in w.kube.profiles && c.spec.site in w.kube.sites
    requires UniqueIDs(w.nb.devices) && forall id :: id in c.st.machineIDs ==> HasDevice(w.nb.devices, id)
    ensures var f := ClusterPass.Scale(e, w, key, ver, c);
            var c' := Current(f.w.kube.store, key);
            && f.Stop? && (f.reply == if c.spec.machineCount < |c.st.machineIDs| && !Scalable(w, c) then Finished else After(300 * SECOND))
            && (!Scalable(w, c) ==>
                  if c.spec.machineCount > |c.st.machineIDs| then Blocked(c, c', "ScaleUpBlocked", "InsufficientMachines")
                  else Blocked(c, c', "ScaleDownBlocked", "RookCephPresent"))
  {
    hide TenantSlug, UniqueIDs, AvailableDevices, Stage, ReleaseUntilError, SetCondition, Passes.SaveAndStop, Blocked, ClusterPass.UsesRook;
    var desired, actual := c.spec.machineCount, |c.st.machineIDs|;
    if desired > actual {
      var w1 := w.(kube := Get(e, w.kube, w.kube.sites, c.spec.site).k);
      var site := w.kube.sites[c.spec.site];
      var a := ListAvailable(e, w.nb, site.slug, c.spec.machineClass);
      ListingOffers(e, w.nb, site.slug, c.spec.machineClass);
      MarkBlocks(c, "ScaleUpBlocked", "InsufficientMachines");
      Saved(e, w1.(nb := a.nb), key, ver, c.(st := ClusterPass.Mark(c.st, "ScaleUpBlocked", true, "InsufficientMachines")), After(300 * SECOND));
      if |a.value.value| >= desired - actual {
        Bookkeeping.StageSucceeds(e, a.nb, a.value.value, desired - actual, TenantSlug(key.ns), false);
        var t := Stage(e, a.nb, a.value.value, desired - actual, TenantSlug(key.ns), false);
        Saved(e, w1.(nb := t.nb), key, ver, c.(st := c.st.(machineIDs := c.st.machineIDs + t.ids)), After(300 * SECOND));
      }
    } else if desired < actual {
      var w1 := w.(kube := Get(e, w.kube, w.kube.profiles, c.spec.profile).k);
      MarkBlocks(c, "ScaleDownBlocked", "RookCephPresent");
      Saved(e, w1, key, ver, c.(st := ClusterPass.Mark(c.st, "ScaleDownBlocked", true, "RookCephPresent")), Finished);
      Bookkeeping.ReleaseUntilErrorAll(e, w1.nb, c.st.machineIDs[desired..], actual - desired);
      var d := ReleaseUntilError(e, w1.nb, c.st.machineIDs[desired..], actual - desired);
      Saved(e, w1.(nb := d.nb), key, ver, c.(st := c.st.(machineIDs := c.st.machineIDs[..desired])), After(300 * SECOND));
    }
  }
}
