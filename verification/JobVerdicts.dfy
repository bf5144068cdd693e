/** What the machinecfg Job of a claim decides when nothing disturbs the pass that finds it, for both kinds of claim. */
module JobVerdicts {
  import opened Basics
  import opened Claims
  import opened Conditions
  import opened Environment
  import opened ApiServer
  import opened Passes
  import opened Exclusivity
  import opened AddonSteps
  import opened ServerEvidence
  import opened Verdicts
  import ClusterPass
  import ServerPass
  import opened Runs

  // ---- A cluster claim --------------------------------------------------------------------

  /** Addresses and machines are recorded, so that only the Job stands between the claim and its cluster. */
  predicate Equipped(c: Claim) {
    c.Cluster? && c.st.phase == Provisioning && c.st.cpIP != "" && c.st.whIP != "" && c.st.machineIDs != []
  }

  predicate IsThereReady(k: Kube, o: Obj) {
    o in k.objects && k.objects[o].ready
  }

  /** The pass left claim, objects and Jobs alone, but for a Job it may have started. */
  predicate Waits(w: World, w': World, key: Key, c: Claim) {
    Current(w'.kube.store, key) == Some(c) && w'.kube.objects == w.kube.objects && w'.nb == w.nb
  }

  /** The claim after its cluster has been asked for. */
  ghost predicate Configures(c: Claim, c': Option<Claim>, name: string, ready: bool) {
    && c.Cluster? && c'.Some? && c'.value.Cluster?
    && c'.value == c.(st := c.st.(phase := if ready then ClusterReady else c.st.phase, clusterRef := Some(name),
                                  conditions := c'.value.st.conditions))
    && Lookup(c'.value.st.conditions, "MachineCfgDone") == Some(Condition("MachineCfgDone", true, "MachineCfgComplete"))
    && (ready ==> Lookup(c'.value.st.conditions, "CAPIReady") == Some(Condition("CAPIReady", true, "ControlPlaneReady")))
  }

  lemma ConfiguredConfigures(c: Claim, name: string, ready: bool)
    requires c.Cluster?
    ensures Configures(c, Some(c.(st := ClusterPass.Configured(c.st, name, ready))), name, ready)
  {
    hide SetCondition, Lookup;
    var cs := c.st.conditions;
    var cs1 := if ready then SetCondition(cs, "CAPIReady", true, "ControlPlaneReady") else cs;
    assert "CAPIReady" != "MachineCfgDone" by { assert |"CAPIReady"| != |"MachineCfgDone"|; }
    LookupAfterSet(cs, "CAPIReady", true, "ControlPlaneReady", "CAPIReady");
    LookupAfterSet(cs1, "MachineCfgDone", true, "MachineCfgComplete", "MachineCfgDone");
    LookupAfterSet(cs1, "MachineCfgDone", true, "MachineCfgComplete", "CAPIReady");
  }

  lemma EquippedStep(e: Env, w: World, key: Key, ver: nat, c: Claim)
    requires NoFaults(e) && Equipped(c) && c.meta.finalizer && !c.meta.deleting && c.spec.site in w.kube.sites
    ensures var w1 := w.(kube := w.kube.(calls := w.kube.calls + 1));
            Step(e, w, key, ver, c) == ClusterPass.RunJob(e, w1, key, ver, c, w.kube.sites[c.spec.site])
  {
    hide ClusterPass.RunJob;
  }

  lemma EnsureClusterDecides(e: Env, w: World, key: Key, ver: nat, c: Claim, site: Site)
    requires NoFaults(e) && c.Cluster? && IsCurrent(w.kube.store, key, ver) && site.oidcIssuer != ""
    ensures var f, ready := ClusterPass.EnsureCluster(e, w, key, ver, c, site), IsThereReady(w.kube, ClusterPass.CAPICluster(key));
            && f == Stop(f.w, if ready then Requeue else After(30 * SECOND))
            && Configures(c, Current(f.w.kube.store, key), key.name, ready)
            && forall o :: o in ClusterObjects(key) ==> o in f.w.kube.objects
  {
    hide ClusterPass.EnsureAll, ClusterPass.Configured, ClusterPass.CAPIObjects, Passes.SaveAndStop, Configures, ClusterObjects, SetAgain, Covers;
    var objs := ClusterPass.CAPIObjects(key, c, site);
    AllThere(e, w.kube, objs, |objs|);
    WantsAll(key, c, site);
    WantsCovered(key, c, site);
    var again := SetAgain(key, c.spec.machineCount, c.st.cpIP, site.pool);
    EnsureAllFrame(e, w.kube, objs, |objs|);
    EnsureAllMakes(e, w.kube, objs, |objs|, ClusterObjects(key), again);
    var d := ClusterPass.EnsureAll(e, w.kube, objs, |objs|);
    var got := Get(e, d.k, d.k.objects, ClusterPass.CAPICluster(key));
    ReadinessKept(w.kube, d.k, ClusterObjects(key), again, ClusterPass.CAPICluster(key));
    var ready := got.read.value.ready;
    Saved(e, w.(kube := got.k), key, ver, c.(st := ClusterPass.Configured(c.st, key.name, ready)), if ready then Requeue else After(30 * SECOND));
    ConfiguredConfigures(c, key.name, ready);
  }

  lemma EnsureClusterRefuses(e: Env, w: World, key: Key, ver: nat, c: Claim, site: Site)
    requires c.Cluster? && site.oidcIssuer == ""
    ensures ClusterPass.EnsureCluster(e, w, key, ver, c, site) == Stop(w, Error)
  {
  }

  lemma {:induction false} AllThere(e: Env, k: Kube, objs: seq<ClusterPass.Want>, n: nat)
    requires n <= |objs| && NoFaults(e)
    ensures var d := ClusterPass.EnsureAll(e, k, objs, n);
            d.ok && forall i :: 0 <= i < n ==> objs[i].obj in d.k.objects
  {
    hide Ensure;
    if n > 0 {
      AllThere(e, k, objs, n - 1);
      EnsureFrame(e, ClusterPass.EnsureAll(e, k, objs, n - 1).k, objs[n - 1].obj, objs[n - 1].body, objs[n - 1].update);
    }
  }

  lemma WantsAll(key: Key, c: Claim, site: Site)
    requires c.Cluster?
    ensures var objs := ClusterPass.CAPIObjects(key, c, site);
            forall o :: o in ClusterObjects(key) ==> exists i :: 0 <= i < |objs| && objs[i].obj == o
    ensures ClusterPass.CAPICluster(key) in ClusterObjects(key)
  {
    var objs := ClusterPass.CAPIObjects(key, c, site);
    assert |objs| == 6;
    assert ClusterObjects(key) == {objs[0].obj, objs[1].obj, objs[2].obj, objs[3].obj, objs[4].obj, objs[5].obj};
  }

  lemma ReadinessKept(k: Kube, k': Kube, made: set<Obj>, again: map<Obj, Body>, o: Obj)
    requires Makes(k, k', made, again) && o in k'.objects
    ensures k'.objects[o].ready <==> IsThereReady(k, o)
  {
  }

  lemma RunJobDecides(e: Env, w: World, key: Key, ver: nat, c: Claim, site: Site)
    requires NoFaults(e) && c.Cluster? && IsCurrent(w.kube.store, key, ver) && Current(w.kube.store, key) == Some(c)
    ensures var f, job := ClusterPass.RunJob(e, w, key, ver, c, site), JobOf(key);
            && f.Stop?
            && (job !in w.kube.jobs ==>
                  Waits(w, f.w, key, c) && f.w.kube.jobs == w.kube.jobs[job := Job(false, false)] && f.reply == After(10 * SECOND))
            && (job in w.kube.jobs && !w.kube.jobs[job].completed ==>
                  Waits(w, f.w, key, c) && f.w.kube.jobs == w.kube.jobs && f.reply == After(10 * SECOND))
            && (JobFailed(w.kube, key) ==>
                  Judged(c, Current(f.w.kube.store, key), Failed, false, "MachineCfgFailed")
                  && f.w.kube.objects == w.kube.objects && f.reply == Finished)
            && (JobDone(w.kube, key) && site.oidcIssuer == "" ==> Waits(w, f.w, key, c) && f.reply == Error)
            && (JobDone(w.kube, key) && site.oidcIssuer != "" ==>
                  var ready := IsThereReady(w.kube, ClusterPass.CAPICluster(key));
                  && Configures(c, Current(f.w.kube.store, key), key.name, ready)
                  && (forall o :: o in ClusterObjects(key) ==> o in f.w.kube.objects)
                  && f.reply == if ready then Requeue else After(30 * SECOND))
  {
    hide ClusterPass.Fail, ClusterPass.EnsureCluster, Judged, Configures, ClusterObjects;
    var got := Get(e, w.kube, w.kube.jobs, JobOf(key));
    var w1 := w.(kube := got.k);
    FailJudges(e, w1, key, ver, c, "MachineCfgFailed");
    if site.oidcIssuer != "" {
      EnsureClusterDecides(e, w1, key, ver, c, site);
    } else {
      EnsureClusterRefuses(e, w1, key, ver, c, site);
    }
  }

  /** What the Job decides for an equipped claim. While it is missing or not completed, the claim and the objects stay as
      they are and the pass comes back after ten seconds, having started the Job if there was none; completed and failed,
      it fails the claim; completed and not failed, the claim gets its MachineCfgDone, its cluster reference and all its
      objects, and moves on exactly when its Cluster is ready. */
  lemma {:induction false} JobDecides(e: Env, r: Run, n: nat, key: Key, c: Claim)
    requires Undisturbed(e, r, n, key, c) && Equipped(c) && c.spec.site in r.worlds[n].kube.sites
    ensures var w, w', c', job := r.worlds[n], r.worlds[n + 1], Afterwards(r, n, key), Obj("Job", key.ns, key.name + "-machinecfg");
            && c'.Some? && c'.value.Cluster? && (c'.value.st.phase == Failed <==> JobFailed(w.kube, key))
            && (job !in w.kube.jobs || !w.kube.jobs[job].completed ==>
                  && Waits(w, w', key, c) && ReplyAt(e, r, n, key) == After(10 * SECOND)
                  && w'.kube.jobs == if job in w.kube.jobs then w.kube.jobs else w.kube.jobs[job := Job(false, false)])
            && (JobFailed(w.kube, key) ==>
                  Judged(c, c', Failed, false, "MachineCfgFailed") && w'.kube.objects == w.kube.objects)
            && (JobDone(w.kube, key) && w.kube.sites[c.spec.site].oidcIssuer == "" ==> Waits(w, w', key, c) && ReplyAt(e, r, n, key) == Error)
            && (MayBuild(w.kube, key, c) ==>
                  var ready := IsThereReady(w.kube, ClusterPass.CAPICluster(key));
                  && Configures(c, c', key.name, ready)
                  && (forall o :: o in ClusterObjects(key) ==> o in w'.kube.objects)
                  && ReplyAt(e, r, n, key) == if ready then Requeue else After(30 * SECOND))
  {
    hide Step, Judged, Configures, ClusterObjects, ClusterPass.RunJob, ReplyAt, NoFaults;
    var w1, ver := StepTaken(e, r, n, key, c);
    EquippedStep(e, w1, key, ver, c);
    var w2, site := w1.(kube := w1.kube.(calls := w1.kube.calls + 1)), w1.kube.sites[c.spec.site];
    RunJobDecides(e, w2, key, ver, c, site);
    JudgedPhase(c, Afterwards(r, n, key), Failed, false, "MachineCfgFailed");
    ConfiguredPhase(c, Afterwards(r, n, key), key.name, IsThereReady(w1.kube, ClusterPass.CAPICluster(key)));
  }

  lemma ConfiguredPhase(c: Claim, c': Option<Claim>, name: string, ready: bool)
    requires c.Cluster? && c.st.phase == Provisioning
    ensures Configures(c, c', name, ready) ==> c'.Some? && c'.value.Cluster? && c'.value.st.phase != Failed
  {
  }

  // ---- A server claim ---------------------------------------------------------------------

  predicate ServerEquipped(c: Claim) {
    c.Server? && c.sst.phase == Provisioning && c.sst.ip != "" && c.sst.machineID != 0
  }

  lemma ServerEquippedStep(e: Env, w: World, key: Key, ver: nat, c: Claim)
    requires NoFaults(e) && ServerEquipped(c) && c.meta.finalizer && !c.meta.deleting && c.sspec.site in w.kube.sites
    ensures var w1 := w.(kube := w.kube.(calls := w.kube.calls + 1));
            Step(e, w, key, ver, c) == ServerPass.RunJob(e, w1, key, ver, c)
  {
    hide ServerPass.RunJob;
  }

  lemma ServerRunJobDecides(e: Env, w: World, key: Key, ver: nat, c: Claim)
    requires NoFaults(e) && c.Server? && IsCurrent(w.kube.store, key, ver) && Current(w.kube.store, key) == Some(c)
    ensures var f, job := ServerPass.RunJob(e, w, key, ver, c), JobOf(key);
            && f.Stop? && f.w.nb == w.nb && f.w.kube == w.kube.(store := f.w.kube.store, jobs := f.w.kube.jobs, calls := f.w.kube.calls)
            && (job !in w.kube.jobs ==>
                  Waits(w, f.w, key, c) && f.w.kube.jobs == w.kube.jobs[job := Job(false, false)] && f.reply == After(10 * SECOND))
            && (job in w.kube.jobs ==> f.w.kube.jobs == w.kube.jobs)
            && (job in w.kube.jobs && !w.kube.jobs[job].completed && !w.kube.jobs[job].failed ==>
                  Waits(w, f.w, key, c) && f.reply == After(10 * SECOND))
            && (ServerJobFailed(w.kube, key) ==> ServerFailed(c, Current(f.w.kube.store, key), "MachineCfgFailed") && f.reply == Finished)
            && (JobDone(w.kube, key) ==> Current(f.w.kube.store, key) == Some(c.(sst := c.sst.(phase := Ready))) && f.reply == Finished)
  {
    hide ServerPass.Fail, ServerFailed, Passes.SaveAndStop;
    var w1 := w.(kube := Get(e, w.kube, w.kube.jobs, JobOf(key)).k);
    ServerFails(e, w1, key, ver, c, "MachineCfgFailed");
    Saved(e, w1, key, ver, c.(sst := c.sst.(phase := Ready)), Finished);
  }

  /** What the Job decides for an equipped server claim: Failed exactly when it has failed, Ready exactly when it has
      completed and not failed, and otherwise the claim stays as it is and the pass comes back after ten seconds, having
      started the Job if there was none. */
  lemma {:induction false} ServerJobDecides(e: Env, r: Run, n: nat, key: Key, c: Claim)
    requires Undisturbed(e, r, n, key, c) && ServerEquipped(c) && c.sspec.site in r.worlds[n].kube.sites
    ensures var w, w', c', job := r.worlds[n], r.worlds[n + 1], Afterwards(r, n, key), Obj("Job", key.ns, key.name + "-machinecfg");
            && c'.Some? && c'.value.Server?
            && (c'.value.sst.phase == Failed <==> ServerJobFailed(w.kube, key)) && (c'.value.sst.phase == Ready <==> JobDone(w.kube, key))
            && (ServerJobFailed(w.kube, key) ==> ServerFailed(c, c', "MachineCfgFailed"))
            && (JobDone(w.kube, key) ==> c' == Some(c.(sst := c.sst.(phase := Ready))))
            && (!ServerJobFailed(w.kube, key) && !JobDone(w.kube, key) ==>
                  && Waits(w, w', key, c) && ReplyAt(e, r, n, key) == After(10 * SECOND)
                  && w'.kube.jobs == if job in w.kube.jobs then w.kube.jobs else w.kube.jobs[job := Job(false, false)])
  {
    hide Step, ServerPass.RunJob, ReplyAt, NoFaults;
    var w1, ver := StepTaken(e, r, n, key, c);
    ServerEquippedStep(e, w1, key, ver, c);
    ServerRunJobDecides(e, w1.(kube := w1.kube.(calls := w1.kube.calls + 1)), key, ver, c);
  }
}
