/** Installing addons, over every run: releases appear in order whatever fails and however ties fall, no pass ever
    alters one that exists, and AddonsReady is entered only over ready releases. */
module Addons {
  import opened Basics
  import opened Claims
  import opened Environment
  import opened ApiServer
  import opened Passes
  import opened Holdings
  import opened Exclusivity
  import ClusterPass
  import ServerPass
  import opened Runs
  import opened AddonSteps

  /** In every run, a pass creates only its own claim's objects, removes none, and alters none but, when it sees
      the claim in Provisioning, its Cluster, MachineDeployment and Service, which then say what that version
      wants. A release keeps its chart and values whatever the profile says later. */
  lemma {:induction false} PassAlters(e: Env, r: Run, n: nat)
    requires IsRun(e, r) && SortsComponents(e) && n < |r.events| && r.events[n].Pass?
    ensures var w, w', key, ver := r.worlds[n], r.worlds[n + 1], r.events[n].key, r.events[n].ver;
            Makes(w.kube, w'.kube, MadeBy(w, key, ver), ResetBy(e, w, key, ver))
  {
    hide Reconcile, Makes;
    assert Linked(e, r, n);
    PassMakes(e, r.worlds[n], r.events[n].key, r.events[n].ver);
  }

  /** In every run, a release that a pass creates belongs to a component of the profile its addon step sees: it names
      the cluster, the component's repository, chart and version, it is bootstrap exactly for order 1, and its values
      are the component's own, with the recorded disks appended for rook-ceph. */
  lemma {:induction false} ReleasesSayRight(e: Env, r: Run, n: nat, key: Key, ver: nat, o: Obj) returns (comp: Component)
    requires IsRun(e, r) && SortsComponents(e) && EnumeratesKeys(e) && n < |r.events| && r.events[n] == Pass(key, ver)
    requires o.kind == "HelmRelease" && o !in r.worlds[n].kube.objects && o in r.worlds[n + 1].kube.objects
    ensures var c, p := Seen(r.worlds[n].kube.store, key, ver), InstallsFrom(r.worlds[n], key, ver);
            && c.Some? && c.value.Cluster? && p.Some? && comp in p.value.components
            && o == Obj("HelmRelease", key.ns, key.name + "-" + comp.name)
            && SaysComponent(r.worlds[n + 1].kube.objects[o].body, key, c.value.st, comp)
  {
    hide Next, Makes, SaysComponent, MadeBy, ResetBy, InstallsFrom;
    var w, w' := r.worlds[n], r.worlds[n + 1];
    assert Linked(e, r, n);
    PassMakes(e, w, key, ver);
    NewIsMade(w.kube, w'.kube, MadeBy(w, key, ver), ResetBy(e, w, key, ver), o);
    InstallsWhenNew(w, key, ver, o);
    comp := PassSays(e, w, key, ver, o);
  }

  lemma NewIsMade(k: Kube, k': Kube, made: set<Obj>, again: map<Obj, Body>, o: Obj)
    requires Makes(k, k', made, again) && o in k'.objects && o !in k.objects
    ensures o in made
  {
  }

  lemma InstallsWhenNew(w: World, key: Key, ver: nat, o: Obj)
    requires o in MadeBy(w, key, ver) && o.kind == "HelmRelease"
    ensures InstallsFrom(w, key, ver).Some?
  {
  }

  lemma PassSays(e: Env, w: World, key: Key, ver: nat, o: Obj) returns (comp: Component)
    requires SortsComponents(e) && EnumeratesKeys(e) && InstallsFrom(w, key, ver).Some?
    requires o !in w.kube.objects && o in Next(e, w, Pass(key, ver)).kube.objects
    ensures var c, p, w' := Seen(w.kube.store, key, ver), InstallsFrom(w, key, ver), Next(e, w, Pass(key, ver));
            && c.Some? && c.value.Cluster? && comp in p.value.components
            && o == Obj("HelmRelease", key.ns, key.name + "-" + comp.name)
            && SaysComponent(w'.kube.objects[o].body, key, c.value.st, comp)
  {
    hide ClusterPass.Finalize, ClusterPass.Validate, ClusterPass.Provision, ClusterPass.WatchAddons, ClusterPass.Install,
      ClusterPass.ExposeKubeconfig, ClusterPass.SteadyState, ServerPass.Step, SaysComponent;
    var c := Seen(w.kube.store, key, ver).value;
    var w1 := w.(kube := ReadClaim(e, w.kube, key, ver).k);
    var k1 := Get(e, w1.kube, w1.kube.profiles, c.spec.profile).k;
    var comps := e.sort(k1.calls, w.kube.profiles[c.spec.profile].components);
    var d := ClusterPass.Install(e, k1, key, c.st, comps, |comps|);
    assert Next(e, w, Pass(key, ver)) == ClusterPass.WatchAddons(e, w1, key, ver, c).w;
    WatchInstalls(e, w1, key, ver, c);
    InstallSays(e, k1, key, c.st, comps, |comps|);
    SameMultisetReleases(key, comps, w.kube.profiles[c.spec.profile].components);
    assert o in d.k.objects && NewSays(d.k, key, c.st, comps, |comps|, o);
    var i: nat :| i < |comps| && o == Obj("HelmRelease", key.ns, key.name + "-" + comps[i].name)
                  && SaysComponent(d.k.objects[o].body, key, c.st, comps[i]);
    comp := comps[i];
  }

  /** The addon step makes what its installing loop makes. */
  lemma WatchInstalls(e: Env, w: World, key: Key, ver: nat, c: Claim)
    requires c.Cluster? && c.spec.profile in w.kube.profiles
    ensures var k1 := Get(e, w.kube, w.kube.profiles, c.spec.profile).k;
            var comps := e.sort(k1.calls, w.kube.profiles[c.spec.profile].components);
            var k' := ClusterPass.WatchAddons(e, w, key, ver, c).w.kube;
            k'.objects == w.kube.objects || k'.objects == ClusterPass.Install(e, k1, key, c.st, comps, |comps|).k.objects
  {
    hide ClusterPass.Install, ClusterPass.CheckReady, WriteClaim, SetCondition;
    WriteObjects(e);
    var k1 := Get(e, w.kube, w.kube.profiles, c.spec.profile).k;
    var comps := e.sort(k1.calls, w.kube.profiles[c.spec.profile].components);
    CheckReadyObjects(e, ClusterPass.Install(e, k1, key, c.st, comps, |comps|).k, key, comps, |comps|);
  }

  /** Exactly when an object that exists is altered: CreateOrUpdate is in charge of it, the pass gets to it, its
      read works, it says something else than is wanted, and the update takes effect. */
  lemma AltersExactly(e: Env, w: World, key: Key, ver: nat, c: Claim, site: Site, i: nat)
    requires c.Cluster? && site.oidcIssuer != "" && i < 6
    requires ClusterPass.CAPIObjects(key, c, site)[i].obj in w.kube.objects
    ensures var objs := ClusterPass.CAPIObjects(key, c, site);
            var o, before := objs[i].obj, ClusterPass.EnsureAll(e, w.kube, objs, i);
            var w' := ClusterPass.EnsureCluster(e, w, key, ver, c, site).w;
            && o in w'.kube.objects
            && (w'.kube.objects[o] != w.kube.objects[o] <==>
                  && objs[i].update && before.ok && e.kube(before.k.calls) == Ok
                  && w.kube.objects[o].body != objs[i].body && e.kube(before.k.calls + 1) != Refused)
  {
    hide Ensure, ClusterPass.EnsureAll, ClusterPass.Configured, ClusterPass.CAPIObjects;
    var objs := ClusterPass.CAPIObjects(key, c, site);
    WantsApart(key, c, site);
    EnsureNone(e, w.kube, objs);
    EnsureOthers(e, w.kube, objs, 0, i, i);
    EnsureOneExactly(e, w.kube, objs, i);
    EnsureOthers(e, w.kube, objs, i + 1, 6, i);
  }

  lemma WantsApart(key: Key, c: Claim, site: Site)
    requires c.Cluster?
    ensures var objs := ClusterPass.CAPIObjects(key, c, site);
            |objs| == 6 && forall i, j :: 0 <= i < j < |objs| ==> objs[i].obj != objs[j].obj
  {
    var kinds := ["TenantControlPlane", "TinkerbellCluster", "Cluster", "TinkerbellMachineTemplate", "MachineDeployment", "Service"];
    assert kinds[2][0] != kinds[5][0];
    assert forall i, j :: 0 <= i < j < 6 ==> kinds[i] != kinds[j];
    assert forall i :: 0 <= i < 6 ==> ClusterPass.CAPIObjects(key, c, site)[i].obj.kind == kinds[i];
  }

  /** The other objects' turns leave object j alone. */
  lemma {:induction false} EnsureOthers(e: Env, k: Kube, objs: seq<ClusterPass.Want>, from: nat, to: nat, j: nat)
    requires from <= to <= |objs| && j < |objs| && (forall i :: from <= i < to ==> objs[i].obj != objs[j].obj)
    requires objs[j].obj in ClusterPass.EnsureAll(e, k, objs, from).k.objects
    ensures var o, k1, k2 := objs[j].obj, ClusterPass.EnsureAll(e, k, objs, from).k, ClusterPass.EnsureAll(e, k, objs, to).k;
            o in k2.objects && k2.objects[o] == k1.objects[o]
  {
    hide Ensure;
    if from < to {
      EnsureOthers(e, k, objs, from, to - 1, j);
      EnsureFrame(e, ClusterPass.EnsureAll(e, k, objs, to - 1).k, objs[to - 1].obj, objs[to - 1].body, objs[to - 1].update);
    }
  }

  lemma EnsureNone(e: Env, k: Kube, objs: seq<ClusterPass.Want>)
    ensures ClusterPass.EnsureAll(e, k, objs, 0) == Did(k, true)
  {
  }

  lemma EnsureOneExactly(e: Env, k: Kube, objs: seq<ClusterPass.Want>, i: nat)
    requires i < |objs| && objs[i].obj in ClusterPass.EnsureAll(e, k, objs, i).k.objects
    ensures var o, d, k' := objs[i].obj, ClusterPass.EnsureAll(e, k, objs, i), ClusterPass.EnsureAll(e, k, objs, i + 1).k;
            && o in k'.objects
            && (k'.objects[o] != d.k.objects[o] <==>
                  && objs[i].update && d.ok && e.kube(d.k.calls) == Ok
                  && d.k.objects[o].body != objs[i].body && e.kube(d.k.calls + 1) != Refused)
  {
  }

  /** A pass that sees a provisioned claim whose Job is done gives the MachineDeployment the count of the version
      it sees, when no call fails. The version plays no part: an old one brings the old count back. */
  lemma ReplicasSet(e: Env, w: World, key: Key, ver: nat, c: Claim)
    requires NoFaults(e) && Seen(w.kube.store, key, ver) == Some(c) && c.Cluster? && Provisions(c)
    requires c.st.cpIP != "" && c.st.whIP != "" && c.st.machineIDs != []
    requires c.spec.site in w.kube.sites && w.kube.sites[c.spec.site].oidcIssuer != ""
    requires JobOf(key) in w.kube.jobs && w.kube.jobs[JobOf(key)] == Job(true, false)
    ensures var objects := Next(e, w, Pass(key, ver)).kube.objects;
            && ClusterPass.Deployment(key) in objects
            && objects[ClusterPass.Deployment(key)].body == Replicas(ClusterPass.Int32(c.spec.machineCount))
  {
    hide ClusterPass.EnsureCluster, ClusterPass.Int32;
    var site := w.kube.sites[c.spec.site];
    var w1 := w.(kube := w.kube.(calls := w.kube.calls + 3));
    assert Next(e, w, Pass(key, ver)) == ClusterPass.EnsureCluster(e, w1, key, ver, c, site).w;
    ClusterSet(e, w1, key, ver, c, site, 4);
  }

  /** Without failures every wanted object under CreateOrUpdate says what is wanted afterwards. */
  lemma ClusterSet(e: Env, w: World, key: Key, ver: nat, c: Claim, site: Site, i: nat)
    requires NoFaults(e) && c.Cluster? && site.oidcIssuer != "" && i < 6 && ClusterPass.CAPIObjects(key, c, site)[i].update
    ensures var objs := ClusterPass.CAPIObjects(key, c, site);
            var objects := ClusterPass.EnsureCluster(e, w, key, ver, c, site).w.kube.objects;
            objs[i].obj in objects && objects[objs[i].obj].body == objs[i].body
  {
    hide Ensure, ClusterPass.EnsureAll, ClusterPass.Configured, ClusterPass.CAPIObjects;
    var objs := ClusterPass.CAPIObjects(key, c, site);
    WantsApart(key, c, site);
    EnsureOneSets(e, w.kube, objs, i);
    EnsureOthers(e, w.kube, objs, i + 1, 6, i);
  }

  lemma EnsureOneSets(e: Env, k: Kube, objs: seq<ClusterPass.Want>, i: nat)
    requires NoFaults(e) && i < |objs| && objs[i].update
    ensures var k' := ClusterPass.EnsureAll(e, k, objs, i + 1).k;
            objs[i].obj in k'.objects && k'.objects[objs[i].obj].body == objs[i].body
  {
    EnsureAllOk(e, k, objs, i);
  }

  lemma {:induction false} EnsureAllOk(e: Env, k: Kube, objs: seq<ClusterPass.Want>, n: nat)
    requires NoFaults(e) && n <= |objs|
    ensures ClusterPass.EnsureAll(e, k, objs, n).ok
  {
    hide Ensure;
    if n > 0 {
      EnsureAllOk(e, k, objs, n - 1);
      EnsureFrame(e, ClusterPass.EnsureAll(e, k, objs, n - 1).k, objs[n - 1].obj, objs[n - 1].body, objs[n - 1].update);
    }
  }

  // ---- Order closure ----------------------------------------------------------------------

  /** Whenever a component's release exists, so do those of every strictly smaller order. */
  ghost predicate OrderClosed(k: Kube, key: Key, comps: seq<Component>) {
    forall c, c' :: c in comps && c' in comps && c.order < c'.order ==> Follows(k, key, c, c')
  }

  ghost predicate Follows(k: Kube, key: Key, c: Component, c': Component) {
    ClusterPass.ReleaseOf(key, c'.name) in k.objects ==> ClusterPass.ReleaseOf(key, c.name) in k.objects
  }

  /** Names are enough to tell the components apart. */
  ghost predicate DistinctNames(comps: seq<Component>) {
    forall c, c' :: c in comps && c' in comps && c.name == c'.name ==> c == c'
  }

  lemma ReleaseInjective(key: Key, a: string, b: string)
    requires ClusterPass.ReleaseOf(key, a) == ClusterPass.ReleaseOf(key, b)
    ensures a == b
  {
    var p := key.name + "-";
    assert (p + a)[|p|..] == a && (p + b)[|p|..] == b;
  }

  /** Installing in order keeps the closure, wherever it stops. */
  lemma {:induction false} InstallClosed(e: Env, k: Kube, key: Key, st: ClusterStatus, comps: seq<Component>, n: nat)
    requires n <= |comps| && OrderedBy(comps) && DistinctNames(comps) && OrderClosed(k, key, comps)
    ensures OrderClosed(ClusterPass.Install(e, k, key, st, comps, n).k, key, comps)
  {
    hide Ensure, ClusterPass.ReleaseBody;
    if n > 0 {
      InstallClosed(e, k, key, st, comps, n - 1);
      InstallCovers(e, k, key, st, comps, n - 1);
      var d := ClusterPass.Install(e, k, key, st, comps, n - 1);
      if d.ok {
        var x := comps[n - 1];
        EnsureFrame(e, d.k, ClusterPass.ReleaseOf(key, x.name), ClusterPass.ReleaseBody(e, d.k.calls, key, st, x), false);
        var k' := ClusterPass.Install(e, k, key, st, comps, n).k;
        forall c, c' | c in comps && c' in comps && c.order < c'.order ensures Follows(k', key, c, c') {
          assert Follows(d.k, key, c, c');
          var i :| 0 <= i < |comps| && comps[i] == c;
          if ClusterPass.ReleaseOf(key, c'.name) == ClusterPass.ReleaseOf(key, x.name) {
            ReleaseInjective(key, c'.name, x.name);
            assert i < n - 1;
          }
        }
      }
    }
  }

  // ---- Runs -------------------------------------------------------------------------------

  /** What the claim under study relies on: its addon steps see this profile, nobody else makes releases
      of the same names, and nobody outside creates or deletes them. */
  ghost predicate Own(w: World, ev: Event, key: Key, profile: Profile) {
    var ours := Releases(key, profile.components);
    match ev
    case Pass(k, ver) =>
      var p := InstallsFrom(w, k, ver);
      p.Some? ==> if k == key then p.value == profile else Releases(k, p.value.components) !! ours
    case Change(o) => forall r :: r in ours ==> (r in o.objects <==> r in w.kube.objects)
    case _ => true
  }

  ghost predicate OwnRun(r: Run, key: Key, profile: Profile)
    requires |r.worlds| == |r.events| + 1
  {
    forall n: nat :: n < |r.events| ==> Own(r.worlds[n], r.events[n], key, profile)
  }

  lemma SameReleasesClosed(k: Kube, k': Kube, key: Key, comps: seq<Component>)
    requires OrderClosed(k, key, comps)
    requires forall r :: r in Releases(key, comps) ==> (r in k'.objects <==> r in k.objects)
    ensures OrderClosed(k', key, comps)
  {
    forall c, c' | c in comps && c' in comps && c.order < c'.order ensures Follows(k', key, c, c') {
      assert Follows(k, key, c, c');
      assert ClusterPass.ReleaseOf(key, c.name) in Releases(key, comps);
      assert ClusterPass.ReleaseOf(key, c'.name) in Releases(key, comps);
    }
  }

  lemma SortedClosed(k: Kube, key: Key, a: seq<Component>, b: seq<Component>)
    requires multiset(a) == multiset(b)
    ensures OrderClosed(k, key, a) <==> OrderClosed(k, key, b)
    ensures DistinctNames(a) <==> DistinctNames(b)
  {
    SameMultisetReleases(key, a, b);
    hide Follows;
  }

  lemma WatchAddonsClosed(e: Env, w: World, key: Key, ver: nat, c: Claim, profile: Profile)
    requires c.Cluster? && SortsComponents(e) && DistinctNames(profile.components)
    requires c.spec.profile in w.kube.profiles ==> w.kube.profiles[c.spec.profile] == profile
    requires OrderClosed(w.kube, key, profile.components)
    ensures OrderClosed(ClusterPass.WatchAddons(e, w, key, ver, c).w.kube, key, profile.components)
  {
    hide ClusterPass.Install, ClusterPass.CheckReady, OrderClosed, DistinctNames;
    var p := Get(e, w.kube, w.kube.profiles, c.spec.profile);
    var f := ClusterPass.WatchAddons(e, w, key, ver, c);
    if p.read.Found? {
      var comps := e.sort(p.k.calls, profile.components);
      SortedClosed(w.kube, key, comps, profile.components);
      SameObjectsClosed(w.kube, p.k, key, comps);
      InstallClosed(e, p.k, key, c.st, comps, |comps|);
      var d := ClusterPass.Install(e, p.k, key, c.st, comps, |comps|);
      CheckReadyObjects(e, d.k, key, comps, |comps|);
      SameObjectsClosed(d.k, f.w.kube, key, comps);
      SortedClosed(f.w.kube, key, comps, profile.components);
    } else {
      SameObjectsClosed(w.kube, f.w.kube, key, profile.components);
    }
  }

  lemma SameObjectsClosed(k: Kube, k': Kube, key: Key, comps: seq<Component>)
    requires OrderClosed(k, key, comps) && k'.objects == k.objects
    ensures OrderClosed(k', key, comps)
  {
    SameReleasesClosed(k, k', key, comps);
  }

  lemma PassClosed(e: Env, w: World, k: Key, ver: nat, key: Key, profile: Profile)
    requires SortsComponents(e) && DistinctNames(profile.components) && Own(w, Pass(k, ver), key, profile)
    requires OrderClosed(w.kube, key, profile.components)
    ensures OrderClosed(Next(e, w, Pass(k, ver)).kube, key, profile.components)
  {
    hide OrderClosed, DistinctNames, ClusterPass.Finalize, ClusterPass.Validate, ClusterPass.Provision,
      ClusterPass.WatchAddons, ClusterPass.ExposeKubeconfig, ClusterPass.SteadyState, ServerPass.Step;
    var comps := profile.components;
    var w' := Next(e, w, Pass(k, ver));
    if k == key && InstallsFrom(w, k, ver).Some? {
      var got := ReadClaim(e, w.kube, k, ver);
      SameObjectsClosed(w.kube, got.k, key, comps);
      if got.read.Found? {
        WatchAddonsClosed(e, w.(kube := got.k), key, ver, got.read.value, profile);
      }
    } else {
      PassMakes(e, w, k, ver);
      ReleasesApart(w, k, ver, key, profile);
      SameReleasesClosed(w.kube, w'.kube, key, comps);
    }
  }

  lemma ReleasesApart(w: World, k: Key, ver: nat, key: Key, profile: Profile)
    requires Own(w, Pass(k, ver), key, profile) && !(k == key && InstallsFrom(w, k, ver).Some?)
    ensures forall o :: o in Releases(key, profile.components) ==> o !in MadeBy(w, k, ver)
  {
    forall o | o in Releases(key, profile.components) ensures o !in MadeBy(w, k, ver) {
      assert o.kind == "HelmRelease";
    }
  }

  /** At every moment of every run: a release exists only if those of all smaller orders do. */
  lemma {:induction false} AlwaysOrderClosed(e: Env, r: Run, n: nat, key: Key, profile: Profile)
    requires IsRun(e, r) && n < |r.worlds| && SortsComponents(e) && DistinctNames(profile.components)
    requires OwnRun(r, key, profile) && OrderClosed(r.worlds[0].kube, key, profile.components)
    ensures OrderClosed(r.worlds[n].kube, key, profile.components)
  {
    hide OrderClosed, DistinctNames, Reconcile;
    if n > 0 {
      var w, ev := r.worlds[n - 1], r.events[n - 1];
      AlwaysOrderClosed(e, r, n - 1, key, profile);
      assert Linked(e, r, n - 1) && Own(w, ev, key, profile);
      if ev.Pass? {
        PassClosed(e, w, ev.key, ev.ver, key, profile);
      } else {
        SameReleasesClosed(w.kube, Next(e, w, ev).kube, key, profile.components);
      }
    }
  }

  // ---- Entering AddonsReady ---------------------------------------------------------------

  ghost predicate AllReady(k: Kube, key: Key, comps: seq<Component>) {
    forall c :: c in comps && c.required ==> IsReadyRelease(k, key, c)
  }

  /** The addon step writes the claim only over ready releases, and they were ready before the pass;
      without failures it does so exactly then. */
  lemma AddonsReadyExactly(e: Env, w: World, key: Key, ver: nat, c: Claim)
    requires c.Cluster? && SortsComponents(e) && c.spec.profile in w.kube.profiles
    ensures var comps := w.kube.profiles[c.spec.profile].components;
            var f := ClusterPass.WatchAddons(e, w, key, ver, c);
            && (f.w.kube.store != w.kube.store ==> AllReady(w.kube, key, comps))
            && (NoFaults(e) && IsCurrent(w.kube.store, key, ver) ==>
                  (f.w.kube.store != w.kube.store <==> AllReady(w.kube, key, comps)))
  {
    hide ClusterPass.Install, ClusterPass.CheckReady, ClusterPass.ReleaseOf, AllReady;
    var p := Get(e, w.kube, w.kube.profiles, c.spec.profile);
    if p.read.Found? {
      var comps := e.sort(p.k.calls, p.read.value.components);
      SameMultisetReleases(key, comps, p.read.value.components);
      InstallFrame(e, p.k, key, c.st, comps, |comps|);
      var d := ClusterPass.Install(e, p.k, key, c.st, comps, |comps|);
      CheckReadyFrame(e, d.k, key, comps, |comps|);
      ReadyBefore(e, w.kube, p.k, key, c.st, comps);
      var r := ClusterPass.CheckReady(e, d.k, key, comps, |comps|);
      SameReady(w.kube, key, comps, p.read.value.components);
      if NoFaults(e) && IsCurrent(w.kube.store, key, ver) && r.ok && r.all {
        HeldAfter(w.kube.store, key, Some(c.(st := ClusterPass.Mark(c.st.(phase := AddonsReady), "AddonsReady", true, "AllAddonsReady"))));
      }
    }
  }

  lemma SameReady(k: Kube, key: Key, a: seq<Component>, b: seq<Component>)
    requires forall c :: c in a <==> c in b
    ensures AllReady(k, key, a) <==> AllReady(k, key, b)
  {
    hide IsReadyRelease;
  }

  /** A release that the check finds ready was ready before, since a created one is not. */
  lemma ReadyBefore(e: Env, k0: Kube, k: Kube, key: Key, st: ClusterStatus, comps: seq<Component>)
    requires k.objects == k0.objects
    ensures var d := ClusterPass.Install(e, k, key, st, comps, |comps|);
            var r := ClusterPass.CheckReady(e, d.k, key, comps, |comps|);
            && (d.ok && r.ok && r.all ==> AllReady(k0, key, comps))
            && (NoFaults(e) ==> d.ok && r.ok && (r.all <==> AllReady(k0, key, comps)))
  {
    var d := ClusterPass.Install(e, k, key, st, comps, |comps|);
    CheckReadyObjects(e, d.k, key, comps, |comps|);
    InstallNotReady(e, k, key, st, comps, |comps|);
    if NoFaults(e) {
      CheckReadyExact(e, d.k, key, comps, |comps|);
    }
  }

  lemma {:induction false} InstallNotReady(e: Env, k: Kube, key: Key, st: ClusterStatus, comps: seq<Component>, n: nat)
    requires n <= |comps|
    ensures var d := ClusterPass.Install(e, k, key, st, comps, n);
            && (forall o :: o in k.objects ==> o in d.k.objects && d.k.objects[o] == k.objects[o])
            && (forall o :: o in d.k.objects && o !in k.objects ==> !d.k.objects[o].ready)
            && (NoFaults(e) ==> d.ok)
  {
    hide Ensure, ClusterPass.ReleaseOf, ClusterPass.ReleaseBody;
    if n > 0 {
      InstallNotReady(e, k, key, st, comps, n - 1);
      var d := ClusterPass.Install(e, k, key, st, comps, n - 1);
      EnsureFrame(e, d.k, ClusterPass.ReleaseOf(key, comps[n - 1].name),
                  ClusterPass.ReleaseBody(e, d.k.calls, key, st, comps[n - 1]), false);
    }
  }

  lemma {:induction false} CheckReadyExact(e: Env, k: Kube, key: Key, comps: seq<Component>, n: nat)
    requires n <= |comps| && NoFaults(e)
    ensures var r := ClusterPass.CheckReady(e, k, key, comps, n);
            && r.ok && r.k == k.(calls := r.k.calls)
            && (r.all <==> forall i :: 0 <= i < n && comps[i].required ==> IsReadyRelease(k, key, comps[i]))
  {
    if n > 0 { CheckReadyExact(e, k, key, comps, n - 1); }
  }

  // ---- Names that collide -----------------------------------------------------------------

  /** Two claims can make a release of the same name, for some components of theirs. */
  ghost predicate MayCollide(k1: Key, k2: Key) {
    exists a, b :: ClusterPass.ReleaseOf(k1, a) == ClusterPass.ReleaseOf(k2, b)
  }

  /** Exactly when they can: in one namespace, when the name of one, with a dash, begins that of the other. */
  lemma CollideExactly(k1: Key, k2: Key)
    ensures MayCollide(k1, k2) <==> k1.ns == k2.ns && (k1.name + "-" <= k2.name + "-" || k2.name + "-" <= k1.name + "-")
  {
    var p1, p2 := k1.name + "-", k2.name + "-";
    if MayCollide(k1, k2) {
      var a, b :| ClusterPass.ReleaseOf(k1, a) == ClusterPass.ReleaseOf(k2, b);
      assert p1 + a == p2 + b;
      assert (p1 + a)[..|p1|] == p1 && (p2 + b)[..|p2|] == p2;
    }
    if k1.ns == k2.ns && p1 <= p2 {
      assert p1 + p2[|p1|..] == p2;
      assert ClusterPass.ReleaseOf(k1, p2[|p1|..]) == ClusterPass.ReleaseOf(k2, "");
    }
    if k1.ns == k2.ns && p2 <= p1 {
      assert p2 + p1[|p2|..] == p1;
      assert ClusterPass.ReleaseOf(k1, "") == ClusterPass.ReleaseOf(k2, p1[|p2|..]);
    }
  }

  /** The same reliance told by names alone: no other claim that installs addons can collide with this one, whatever
      its profile. */
  ghost predicate OwnByName(w: World, ev: Event, key: Key, profile: Profile) {
    match ev
    case Pass(k, ver) =>
      var p := InstallsFrom(w, k, ver);
      p.Some? ==> if k == key then p.value == profile else !MayCollide(k, key)
    case Change(o) => forall r :: r in Releases(key, profile.components) ==> (r in o.objects <==> r in w.kube.objects)
    case _ => true
  }

  lemma NamesSuffice(w: World, ev: Event, key: Key, profile: Profile)
    requires OwnByName(w, ev, key, profile)
    ensures Own(w, ev, key, profile)
  {
    if ev.Pass? && InstallsFrom(w, ev.key, ev.ver).Some? {
      SharedCollide(ev.key, key, InstallsFrom(w, ev.key, ev.ver).value.components, profile.components);
    }
  }

  lemma SharedCollide(k1: Key, k2: Key, a: seq<Component>, b: seq<Component>)
    ensures !(Releases(k1, a) !! Releases(k2, b)) ==> MayCollide(k1, k2)
  {
    hide ClusterPass.ReleaseOf;
    if !(Releases(k1, a) !! Releases(k2, b)) {
      var o :| o in Releases(k1, a) && o in Releases(k2, b);
      var x, y :| x in a && y in b && o == ClusterPass.ReleaseOf(k1, x.name) && o == ClusterPass.ReleaseOf(k2, y.name);
    }
  }

  ghost predicate NamedApart(r: Run, key: Key, profile: Profile)
    requires |r.worlds| == |r.events| + 1
  {
    forall n: nat :: n < |r.events| ==> OwnByName(r.worlds[n], r.events[n], key, profile)
  }

  /** So with names that cannot collide the order is closed in every run, whatever profiles the other claims use. */
  lemma {:induction false} OrderClosedByNames(e: Env, r: Run, n: nat, key: Key, profile: Profile)
    requires IsRun(e, r) && n < |r.worlds| && SortsComponents(e) && DistinctNames(profile.components)
    requires NamedApart(r, key, profile) && OrderClosed(r.worlds[0].kube, key, profile.components)
    ensures OrderClosed(r.worlds[n].kube, key, profile.components)
  {
    hide OrderClosed, DistinctNames, OwnByName, Own;
    forall m: nat | m < |r.events| ensures Own(r.worlds[m], r.events[m], key, profile) {
      NamesSuffice(r.worlds[m], r.events[m], key, profile);
    }
    AlwaysOrderClosed(e, r, n, key, profile);
  }

  /** Claim "a" with a component "b-c" and claim "a-b" with a component "c" share a release. */
  lemma NamesCollide(ns: string)
    ensures ClusterPass.ReleaseOf(Key(ClusterKind, ns, "a"), "b-c") == ClusterPass.ReleaseOf(Key(ClusterKind, ns, "a-b"), "c")
  {
  }

  /** So installing for one claim can break the order of the other: nothing but distinct names protects it. */
  lemma CollisionBreaksOrder(e: Env, k: Kube, ns: string, st: ClusterStatus, helm: HelmRef)
    requires NoFaults(e) && k.objects == map[]
    ensures var other := [Component("b-c", true, 1, helm)];
            var comps := [Component("d", true, 1, helm), Component("c", true, 2, helm)];
            var victim := Key(ClusterKind, ns, "a-b");
            && OrderClosed(k, victim, comps)
            && !OrderClosed(ClusterPass.Install(e, k, Key(ClusterKind, ns, "a"), st, other, 1).k, victim, comps)
  {
    var other := [Component("b-c", true, 1, helm)];
    var comps := [Component("d", true, 1, helm), Component("c", true, 2, helm)];
    var victim, key := Key(ClusterKind, ns, "a-b"), Key(ClusterKind, ns, "a");
    NamesCollide(ns);
    assert ClusterPass.Install(e, k, key, st, other, 0) == Did(k, true);
    InstallMakes(e, k, key, st, other, 1);
    InstallCovers(e, k, key, st, other, 1);
    InstallNotReady(e, k, key, st, other, 1);
    var k' := ClusterPass.Install(e, k, key, st, other, 1).k;
    assert other[..1] == other && ClusterPass.ReleaseOf(key, other[0].name) in k'.objects;
    assert ClusterPass.ReleaseOf(victim, "d") !in Releases(key, other) by {
      assert ClusterPass.ReleaseOf(victim, "d").name == "a-b-d" && ClusterPass.ReleaseOf(key, "b-c").name == "a-b-c";
      assert "a-b-d"[4] != "a-b-c"[4];
    }
    assert comps[0] in comps && comps[1] in comps;
    assert !Follows(k', victim, comps[0], comps[1]);
  }
}
