/** The same for server claims: what a pass may record of acceptance, address and outcome, and the world that shows it. */
module ServerEvidence {
  import opened Basics
  import opened Text
  import opened Claims
  import opened Environment
  import opened Inventory
  import opened ApiServer
  import opened Passes
  import opened Holdings
  import opened Exclusivity
  import opened Histories
  import opened AddonSteps
  import opened EvidenceSteps
  import ServerPass
  import opened Runs

  // ---- Accepting a claim ------------------------------------------------------------------

  /** The site exists and offers a machine of the class. */
  predicate ServerAcceptable(w: World, spec: ServerSpec) {
    && spec.site in w.kube.sites
    && AvailableDevices(w.nb.sem, w.nb.devices, w.kube.sites[spec.site].slug, spec.machineClass) != []
  }

  lemma ServerFailAdds(e: Env, w: World, key: Key, ver: nat, c: Claim, reason: string)
    requires c.Server?
    ensures AddsOnly(w, ServerPass.Fail(e, w, key, ver, c, reason).w, key,
                     c.(sst := c.sst.(phase := Failed, conditions := c.sst.conditions + [Condition("Ready", false, reason)])))
  {
    hide Passes.SaveAndStop;
    SaveAdds(e, w, key, ver, c.(sst := c.sst.(phase := Failed, conditions := c.sst.conditions + [Condition("Ready", false, reason)])));
  }

  lemma ServerValidateAdds(e: Env, w: World, key: Key, ver: nat, c: Claim, i: nat, v: Claim)
    requires c.Server? && Adds(w, ServerPass.Validate(e, w, key, ver, c).w, key, i, v)
    ensures v.Server? && v.sst.ip == c.sst.ip
    ensures v.sst.phase == Failed || (v.sst.phase == Provisioning && ServerAcceptable(w, c.sspec))
  {
    hide AvailableDevices, WriteClaim, Passes.SaveAndStop, ServerPass.Fail;
    var s := Get(e, w.kube, w.kube.sites, c.sspec.site);
    var w1 := w.(kube := s.k);
    ServerFailAdds(e, w1, key, ver, c, "SiteConfigNotFound");
    if s.read.Found? {
      var w2 := w1.(nb := ListAvailable(e, w1.nb, s.read.value.slug, c.sspec.machineClass).nb);
      ServerFailAdds(e, w2, key, ver, c, "InsufficientMachines");
      SaveAdds(e, w2, key, ver, c.(sst := c.sst.(phase := Provisioning)));
    }
  }

  lemma ServerPendingAdds(e: Env, w: World, key: Key, ver: nat, c: Claim, i: nat, v: Claim)
    requires Seen(w.kube.store, key, ver) == Some(c) && Adds(w, Next(e, w, Pass(key, ver)), key, i, v)
    requires c.Server? && c.sst.phase == Pending
    ensures v.Server? && v.sst.ip == c.sst.ip
    ensures v.sst.phase == Pending || v.sst.phase == Failed || (v.sst.phase == Provisioning && ServerAcceptable(w, c.sspec))
  {
    hide Next, ServerPass.Finalize, ServerPass.Validate, AvailableDevices, Passes.SaveAndStop;
    StepAdds(e, w, key, ver, c, i, v);
    var w1 := w.(kube := w.kube.(calls := w.kube.calls + 1));
    if c.meta.deleting {
      FinalizeAddsNothing(e, w1, key, ver, c);
    } else if !c.meta.finalizer {
      SaveAdds(e, w1, key, ver, WithMeta(c, c.meta.(finalizer := true)));
    } else {
      ServerValidateAdds(e, w1, key, ver, c, i, v);
    }
  }

  // ---- Provisioning a server --------------------------------------------------------------

  /** The machinecfg Job has failed; for a server it need not have completed. */
  predicate ServerJobFailed(k: Kube, key: Key) {
    JobOf(key) in k.jobs && k.jobs[JobOf(key)].failed
  }

  ghost predicate ServerShown(e: Env, w0: World, key: Key, c0: Claim, v: Option<Claim>) {
    && v.Some? && v.value.Server? && c0.Server? && v.value.sspec == c0.sspec
    && ServerNamed(e, w0, key, c0, v.value.sst)
    && (c0.sst.machineID != 0 ==> v.value.sst.machineID == c0.sst.machineID)
    && match v.value.sst.phase
       case Provisioning => true
       case Ready => JobDone(w0.kube, key)
       case Failed => ServerJobFailed(w0.kube, key) || v.value.sst.machineID == 0
       case _ => false
  }

  ghost predicate ServerNamed(e: Env, w0: World, key: Key, c0: Claim, st: ServerStatus)
    requires c0.Server?
  {
    && (c0.sst.ip != "" ==> st.ip == c0.sst.ip && st.dns == c0.sst.dns)
    && (c0.sst.ip == "" && st.ip != "" ==>
          && c0.sspec.site in w0.kube.sites && st.ip == AddressText(e, st.ipamID)
          && st.dns == key.name + "." + TenantSlug(key.ns) + "." + w0.kube.sites[c0.sspec.site].zone)
  }

  ghost predicate ServerShows(e: Env, w0: World, key: Key, c0: Claim, f: Flow) {
    var h0, h := HistoryOf(w0.kube.store, key), HistoryOf(f.w.kube.store, key);
    && h0 <= h && (forall i :: |h0| <= i < |h| ==> ServerShown(e, w0, key, c0, h[i]))
    && (f.Go? ==> ServerShown(e, w0, key, c0, Some(f.c)) && f.w.kube.jobs == w0.kube.jobs && f.w.kube.sites == w0.kube.sites)
  }

  /** Writing c' over what has been shown so far. */
  lemma ServerSaveShows(e: Env, w0: World, key: Key, c0: Claim, w: World, ver: nat, c: Claim, w': World, c': Claim)
    requires ServerShows(e, w0, key, c0, Go(w, ver, c)) && w'.kube.store == w.kube.store && ServerShown(e, w0, key, c0, Some(c'))
    ensures w'.kube.jobs == w0.kube.jobs && w'.kube.sites == w0.kube.sites ==> ServerShows(e, w0, key, c0, Save(e, w', key, ver, c'))
    ensures forall reply :: ServerShows(e, w0, key, c0, SaveAndStop(e, w', key, ver, c', reply))
  {
    hide ServerShown;
    HeldAfter(w.kube.store, key, Some(c'));
  }

  lemma ServerStopShows(e: Env, w0: World, key: Key, c0: Claim, w: World, ver: nat, c: Claim, w': World)
    requires ServerShows(e, w0, key, c0, Go(w, ver, c)) && w'.kube.store == w.kube.store
    ensures forall reply :: ServerShows(e, w0, key, c0, Stop(w', reply))
    ensures w'.kube.jobs == w0.kube.jobs && w'.kube.sites == w0.kube.sites ==> ServerShows(e, w0, key, c0, Go(w', ver, c))
  {
    hide ServerShown;
  }

  lemma ServerShowsKube(e: Env, w0: World, key: Key, c0: Claim, w: World, ver: nat, c: Claim)
    requires ServerShows(e, w0, key, c0, Go(w, ver, c))
    ensures ServerShown(e, w0, key, c0, Some(c)) && w.kube.jobs == w0.kube.jobs && w.kube.sites == w0.kube.sites
  {
  }

  lemma ServerIPShows(e: Env, w0: World, key: Key, c0: Claim, w: World, ver: nat)
    requires c0.Server? && c0.sst.phase == Provisioning && ServerShows(e, w0, key, c0, Go(w, ver, c0)) && c0.sspec.site in w0.kube.sites
    ensures var f := ServerPass.AllocateServerIP(e, w, key, ver, c0, w0.kube.sites[c0.sspec.site]);
            ServerShows(e, w0, key, c0, f) && (f.Go? ==> f.c.Server? && f.c.sst.phase == Provisioning)
  {
    hide TenantSlug, StripPrefix, ServerShows, Passes.Save;
    var site := w0.kube.sites[c0.sspec.site];
    var a := AllocateIP(e, w.nb);
    ServerShowsKube(e, w0, key, c0, w, ver, c0);
    ServerStopShows(e, w0, key, c0, w, ver, c0, w.(nb := a.nb));
    if c0.sst.ip == "" && a.value.Some? {
      var c' := c0.(sst := c0.sst.(
        ip := StripPrefix(a.value.value.address),
        dns := key.name + "." + TenantSlug(key.ns) + "." + site.zone,
        ipamID := a.value.value.id));
      ServerSaveShows(e, w0, key, c0, w, ver, c0, w.(nb := a.nb), c');
      SaveKeepsCopy(e, w.(nb := a.nb), key, ver, c');
    }
  }

  lemma ServerMachineShows(e: Env, w0: World, key: Key, c0: Claim, w: World, ver: nat, c: Claim, site: Site)
    requires c.Server? && c.sst.phase == Provisioning && ServerShows(e, w0, key, c0, Go(w, ver, c))
    ensures var f := ServerPass.AllocateMachine(e, w, key, ver, c, site);
            ServerShows(e, w0, key, c0, f) && (f.Go? ==> f.c.Server? && f.c.sst.phase == Provisioning)
  {
    hide TenantSlug, Stage, ServerShows, Passes.Save, Passes.SaveAndStop, ServerNamed, AvailableDevices;
    ServerShowsKube(e, w0, key, c0, w, ver, c);
    var a := ListAvailable(e, w.nb, site.slug, c.sspec.machineClass);
    ServerStopShows(e, w0, key, c0, w, ver, c, w.(nb := a.nb));
    if c.sst.machineID == 0 && a.value.Some? {
      var failed := c.(sst := c.sst.(phase := Failed, conditions := c.sst.conditions + [Condition("Ready", false, "InsufficientMachines")]));
      SameServerNames(e, w0, key, c0, c.sst, failed.sst);
      ServerSaveShows(e, w0, key, c0, w, ver, c, w.(nb := a.nb), failed);
      SaveAdds(e, w.(nb := a.nb), key, ver, failed);
      if a.value.value != [] {
        var s := Stage(e, a.nb, a.value.value, 1, TenantSlug(key.ns), false);
        var c' := c.(sst := c.sst.(machineID := a.value.value[0].id));
        SameServerNames(e, w0, key, c0, c.sst, c'.sst);
        ServerStopShows(e, w0, key, c0, w, ver, c, w.(nb := s.nb));
        ServerSaveShows(e, w0, key, c0, w, ver, c, w.(nb := s.nb), c');
        SaveKeepsCopy(e, w.(nb := s.nb), key, ver, c');
      }
    }
  }

  lemma SameServerNames(e: Env, w0: World, key: Key, c0: Claim, st: ServerStatus, st': ServerStatus)
    requires c0.Server? && ServerNamed(e, w0, key, c0, st) && st'.ip == st.ip && st'.dns == st.dns && st'.ipamID == st.ipamID
    ensures ServerNamed(e, w0, key, c0, st')
  {
  }

  lemma ServerJobShows(e: Env, w0: World, key: Key, c0: Claim, w: World, ver: nat, c: Claim)
    requires c.Server? && ServerShows(e, w0, key, c0, Go(w, ver, c))
    ensures ServerShows(e, w0, key, c0, ServerPass.RunJob(e, w, key, ver, c))
  {
    hide ServerShows, Passes.SaveAndStop, ServerNamed, CreateJob;
    ServerShowsKube(e, w0, key, c0, w, ver, c);
    var got := Get(e, w.kube, w.kube.jobs, JobOf(key));
    var w1 := w.(kube := got.k);
    ServerStopShows(e, w0, key, c0, w, ver, c, w1);
    match got.read {
      case Broken =>
      case NotFound =>
        CreatedStores(e, got.k, JobOf(key));
        ServerStopShows(e, w0, key, c0, w, ver, c, w.(kube := CreateJob(e, got.k, JobOf(key)).k));
      case Found(job) =>
        if job.failed {
          var c' := c.(sst := c.sst.(phase := Failed, conditions := c.sst.conditions + [Condition("Ready", false, "MachineCfgFailed")]));
          SameServerNames(e, w0, key, c0, c.sst, c'.sst);
          ServerSaveShows(e, w0, key, c0, w, ver, c, w1, c');
        } else if job.completed {
          var c' := c.(sst := c.sst.(phase := Ready));
          SameServerNames(e, w0, key, c0, c.sst, c'.sst);
          ServerSaveShows(e, w0, key, c0, w, ver, c, w1, c');
        }
    }
  }

  lemma ServerProvisionShows(e: Env, w: World, key: Key, ver: nat, c: Claim)
    requires c.Server? && c.sst.phase == Provisioning
    ensures ServerShows(e, w, key, c, ServerPass.Provision(e, w, key, ver, c))
  {
    hide ServerShown, ServerPass.AllocateServerIP, ServerPass.AllocateMachine, ServerPass.RunJob;
    ServerShowsAtFirst(e, w, key, ver, c);
    var s := Get(e, w.kube, w.kube.sites, c.sspec.site);
    var w1 := w.(kube := s.k);
    ServerStopShows(e, w, key, c, w, ver, c, w1);
    if s.read.Found? {
      ServerIPShows(e, w, key, c, w1, ver);
      var f1 := ServerPass.AllocateServerIP(e, w1, key, ver, c, s.read.value);
      if f1.Go? {
        ServerMachineShows(e, w, key, c, f1.w, f1.ver, f1.c, s.read.value);
        var f2 := ServerPass.AllocateMachine(e, f1.w, key, f1.ver, f1.c, s.read.value);
        if f2.Go? { ServerJobShows(e, w, key, c, f2.w, f2.ver, f2.c); }
      }
    }
  }

  lemma ServerShowsAtFirst(e: Env, w: World, key: Key, ver: nat, c: Claim)
    requires c.Server? && c.sst.phase == Provisioning
    ensures ServerShown(e, w, key, c, Some(c)) && ServerShows(e, w, key, c, Go(w, ver, c))
  {
  }

  lemma ServerProvisioningAdds(e: Env, w: World, key: Key, ver: nat, c: Claim, i: nat, v: Claim)
    requires Seen(w.kube.store, key, ver) == Some(c) && Adds(w, Next(e, w, Pass(key, ver)), key, i, v)
    requires c.Server? && c.sst.phase == Provisioning && c.meta.finalizer
    ensures ServerShown(e, w, key, c, Some(v))
  {
    hide Next, ServerPass.Finalize, ServerPass.Provision, ServerShown;
    StepAdds(e, w, key, ver, c, i, v);
    var w1 := w.(kube := w.kube.(calls := w.kube.calls + 1));
    if c.meta.deleting {
      FinalizeAddsNothing(e, w1, key, ver, c);
    } else {
      ServerProvisionShows(e, w1, key, ver, c);
      assert ServerShown(e, w1, key, c, Some(v));
      SameServerShown(e, w, w1, key, c, Some(v));
    }
  }

  lemma SameServerShown(e: Env, w: World, w': World, key: Key, c: Claim, v: Option<Claim>)
    requires ServerShown(e, w', key, c, v) && w'.kube.jobs == w.kube.jobs && w'.kube.sites == w.kube.sites
    ensures ServerShown(e, w, key, c, v)
  {
  }

  // ---- Over runs --------------------------------------------------------------------------

  /** A claim that is Ready or Failed gets nothing more. */
  lemma ServerLaterAdds(e: Env, w: World, key: Key, ver: nat, c: Claim, i: nat, v: Claim)
    requires Seen(w.kube.store, key, ver) == Some(c) && Adds(w, Next(e, w, Pass(key, ver)), key, i, v)
    requires c.Server? && Sound(key, c)
    ensures c.sst.phase == Pending || c.sst.phase == Provisioning
  {
    hide Next, ServerPass.Finalize, ServerPass.Validate, ServerPass.Provision;
    StepAdds(e, w, key, ver, c, i, v);
    FinalizeAddsNothing(e, w.(kube := w.kube.(calls := w.kube.calls + 1)), key, ver, c);
  }

  lemma ServerHasFinalizer(key: Key, c: Claim)
    requires c.Server? && Sound(key, c) && c.sst.phase == Provisioning
    ensures c.meta.finalizer
  {
  }

  /** In every run, whatever fails: a pending server claim is accepted only when its site exists and offers a machine of
      its class; a claim becomes Ready only by a pass that saw it in Provisioning and found its Job completed and not
      failed; and one that has its machine fails only over a Job that has failed. */
  lemma {:induction false} ServerCauses(e: Env, r: Run, n: nat, key: Key, ver: nat, c: Claim, i: nat, v: Claim)
    requires IsRun(e, r) && Start(r.worlds[0]) && AddressesNonempty(e) && TenantRun(r) && PassAdds(r, n, key, ver, c, i, v)
    requires c.Server?
    ensures v.Server?
    ensures c.sst.phase == Pending && v.sst.phase == Provisioning ==> ServerAcceptable(r.worlds[n], c.sspec)
    ensures v.sst.phase == Ready ==> c.sst.phase == Provisioning && JobDone(r.worlds[n].kube, key)
    ensures c.sst.machineID != 0 && v.sst.phase == Failed ==> ServerJobFailed(r.worlds[n].kube, key)
  {
    hide Next, Sane, ServerAcceptable, JobDone, ServerJobFailed, AvailableDevices;
    StartSane(r.worlds[0]);
    RunSane(e, r, n);
    SeenSound(r.worlds[n], key, ver);
    PassNext(e, r, n, key, ver, c, i, v);
    ServerLaterAdds(e, r.worlds[n], key, ver, c, i, v);
    if c.sst.phase == Pending {
      ServerPendingAdds(e, r.worlds[n], key, ver, c, i, v);
    } else {
      ServerProvisioningAdds(e, r.worlds[n], key, ver, c, i, v);
    }
  }

  /** In every run, the address a server claim newly records is that of the ID it records with it, under the claim's
      name in the zone of its site. */
  lemma {:induction false} ServerAddressNamed(e: Env, r: Run, n: nat, key: Key, ver: nat, c: Claim, i: nat, v: Claim)
    requires IsRun(e, r) && Start(r.worlds[0]) && AddressesNonempty(e) && TenantRun(r) && PassAdds(r, n, key, ver, c, i, v)
    requires c.Server? && v.Server? && c.sst.ip == "" && v.sst.ip != ""
    ensures c.sspec.site in r.worlds[n].kube.sites && v.sst.ip == AddressText(e, v.sst.ipamID)
    ensures v.sst.dns == key.name + "." + TenantSlug(key.ns) + "." + r.worlds[n].kube.sites[c.sspec.site].zone
  {
    hide Next, Sane, Sound, AddressText, TenantSlug, AvailableDevices;
    StartSane(r.worlds[0]);
    RunSane(e, r, n);
    SeenSound(r.worlds[n], key, ver);
    PassNext(e, r, n, key, ver, c, i, v);
    ServerLaterAdds(e, r.worlds[n], key, ver, c, i, v);
    if c.sst.phase == Pending {
      ServerPendingAdds(e, r.worlds[n], key, ver, c, i, v);
    } else {
      ServerHasFinalizer(key, c);
      ServerProvisioningAdds(e, r.worlds[n], key, ver, c, i, v);
    }
  }
}
