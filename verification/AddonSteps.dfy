/** What the passes make in the cluster.
    Each pass creates only its own claim's objects and removes none, whatever the step and wherever it stops;
    what exists stays as it is, but for the three objects a provisioning pass sets again. */
module AddonSteps {
  import opened Basics
  import opened Text
  import opened Claims
  import opened Environment
  import opened Inventory
  import opened ApiServer
  import opened Passes
  import opened Exclusivity
  import ClusterPass
  import RoleRules
  import RookValues
  import ServerPass
  import opened Runs

  // ---- Objects are created and set --------------------------------------------------------

  /** What exists keeps its readiness and what it says, unless it is in `again` and now says that; what is new
      is one of `made`, is not ready, and says what `again` wants if it is there. */
  ghost predicate Makes(k: Kube, k': Kube, made: set<Obj>, again: map<Obj, Body>) {
    && (forall o :: o in k.objects ==> o in k'.objects && Kept(k, k', again, o))
    && (forall o :: o in k'.objects && o !in k.objects ==> o in made && IsFresh(k', again, o))
  }

  predicate IsFresh(k': Kube, again: map<Obj, Body>, o: Obj)
    requires o in k'.objects
  {
    !k'.objects[o].ready && (o in again ==> k'.objects[o].body == again[o])
  }

  predicate Kept(k: Kube, k': Kube, again: map<Obj, Body>, o: Obj)
    requires o in k.objects && o in k'.objects
  {
    || k'.objects[o] == k.objects[o]
    || (o in again && k'.objects[o] == k.objects[o].(body := again[o]))
  }

  lemma MakesNothing(k: Kube, k': Kube)
    ensures k'.objects == k.objects ==> forall made: set<Obj>, again: map<Obj, Body> :: Makes(k, k', made, again)
  {
  }

  lemma MakesTo(k: Kube, k1: Kube, k': Kube, made: set<Obj>, again: map<Obj, Body>)
    requires Makes(k, k1, made, again)
    ensures k'.objects == k1.objects ==> Makes(k, k', made, again)
  {
  }

  lemma MakesFrom(k: Kube, k1: Kube, k': Kube, made: set<Obj>, again: map<Obj, Body>)
    requires k1.objects == k.objects && (k'.objects == k1.objects || Makes(k1, k', made, again))
    ensures Makes(k, k', made, again)
  {
  }

  /** What may be set again, among the objects wanted. */
  ghost predicate Covers(made: set<Obj>, again: map<Obj, Body>, objs: seq<ClusterPass.Want>) {
    forall i :: 0 <= i < |objs| ==>
      && objs[i].obj in made && (objs[i].update ==> objs[i].obj in again)
      && (objs[i].obj in again ==> again[objs[i].obj] == objs[i].body)
  }

  lemma {:induction false} EnsureAllMakes(e: Env, k: Kube, objs: seq<ClusterPass.Want>, n: nat, made: set<Obj>, again: map<Obj, Body>)
    requires n <= |objs| && Covers(made, again, objs)
    ensures Makes(k, ClusterPass.EnsureAll(e, k, objs, n).k, made, again)
  {
    hide Ensure;
    if n > 0 {
      EnsureAllMakes(e, k, objs, n - 1, made, again);
      EnsureFrame(e, ClusterPass.EnsureAll(e, k, objs, n - 1).k, objs[n - 1].obj, objs[n - 1].body, objs[n - 1].update);
    }
  }

  ghost function Releases(key: Key, comps: seq<Component>): (r: set<Obj>)
    ensures forall o :: o in r <==> exists c :: c in comps && o == ClusterPass.ReleaseOf(key, c.name)
  {
    set c | c in comps :: ClusterPass.ReleaseOf(key, c.name)
  }

  lemma {:induction false} InstallMakes(e: Env, k: Kube, key: Key, st: ClusterStatus, comps: seq<Component>, n: nat)
    requires n <= |comps|
    ensures Makes(k, ClusterPass.Install(e, k, key, st, comps, n).k, Releases(key, comps[..n]), map[])
  {
    hide Ensure, ClusterPass.ReleaseOf, ClusterPass.ReleaseBody, Releases;
    if n > 0 {
      InstallMakes(e, k, key, st, comps, n - 1);
      var d := ClusterPass.Install(e, k, key, st, comps, n - 1);
      EnsureFrame(e, d.k, ClusterPass.ReleaseOf(key, comps[n - 1].name),
                  ClusterPass.ReleaseBody(e, d.k.calls, key, st, comps[n - 1]), false);
      assert comps[..n] == comps[..n - 1] + [comps[n - 1]];
    }
  }

  lemma {:induction false} InstallCovers(e: Env, k: Kube, key: Key, st: ClusterStatus, comps: seq<Component>, n: nat)
    requires n <= |comps|
    ensures var d := ClusterPass.Install(e, k, key, st, comps, n);
            d.ok ==> forall i :: 0 <= i < n ==> ClusterPass.ReleaseOf(key, comps[i].name) in d.k.objects
  {
    hide Ensure, ClusterPass.ReleaseOf, ClusterPass.ReleaseBody;
    if n > 0 {
      InstallCovers(e, k, key, st, comps, n - 1);
      var d := ClusterPass.Install(e, k, key, st, comps, n - 1);
      EnsureFrame(e, d.k, ClusterPass.ReleaseOf(key, comps[n - 1].name),
                  ClusterPass.ReleaseBody(e, d.k.calls, key, st, comps[n - 1]), false);
    }
  }

  // ---- What a release says ----------------------------------------------------------------

  /** A release of this component for this cluster: its chart, bootstrap for the first order, and its values, to which
      rook-ceph gets the recorded disks appended, in some order of the machines. */
  ghost predicate SaysComponent(body: Body, key: Key, st: ClusterStatus, comp: Component) {
    && body.Helm? && body.cluster == key.name
    && body.chart.repo == comp.helm.repo && body.chart.chart == comp.helm.chart && body.chart.version == comp.helm.version
    && (body.bootstrap <==> comp.order == 1)
    && if comp.name == "rook-ceph" && st.osdDevices != map[]
       then exists nodes :: ListsDisks(body.chart.values, comp.helm.values, st.osdDevices, nodes)
       else body.chart.values == comp.helm.values
  }

  ghost predicate ListsDisks(values: string, own: string, osd: map<string, seq<string>>, nodes: seq<string>) {
    NoDup(nodes) && SetOf(nodes) == osd.Keys && values == own + "\n" + RookValues.Text(osd, nodes)
  }

  /** The object is new in k', and says what one of the first n components wants. */
  ghost predicate NewSays(k': Kube, key: Key, st: ClusterStatus, comps: seq<Component>, n: nat, o: Obj)
    requires o in k'.objects && n <= |comps|
  {
    exists i: nat :: i < n && o == Obj("HelmRelease", key.ns, key.name + "-" + comps[i].name)
                     && SaysComponent(k'.objects[o].body, key, st, comps[i])
  }

  lemma BodySays(e: Env, calls: nat, key: Key, st: ClusterStatus, comp: Component)
    requires EnumeratesKeys(e)
    ensures SaysComponent(ClusterPass.ReleaseBody(e, calls, key, st, comp), key, st, comp)
  {
    var nodes := e.keys(calls, st.osdDevices);
    if comp.name == "rook-ceph" && st.osdDevices != map[] {
      assert ListsDisks(ClusterPass.ReleaseBody(e, calls, key, st, comp).chart.values, comp.helm.values, st.osdDevices, nodes);
    }
  }

  lemma {:induction false} InstallSays(e: Env, k: Kube, key: Key, st: ClusterStatus, comps: seq<Component>, n: nat)
    requires n <= |comps| && EnumeratesKeys(e)
    ensures var k' := ClusterPass.Install(e, k, key, st, comps, n).k;
            forall o :: o in k'.objects && o !in k.objects ==> NewSays(k', key, st, comps, n, o)
  {
    hide Ensure, ClusterPass.ReleaseBody, SaysComponent;
    if n > 0 {
      InstallSays(e, k, key, st, comps, n - 1);
      var d, comp := ClusterPass.Install(e, k, key, st, comps, n - 1), comps[n - 1];
      var body := ClusterPass.ReleaseBody(e, d.k.calls, key, st, comp);
      EnsureFrame(e, d.k, ClusterPass.ReleaseOf(key, comp.name), body, false);
      BodySays(e, d.k.calls, key, st, comp);
      var k' := ClusterPass.Install(e, k, key, st, comps, n).k;
      forall o | o in k'.objects && o !in k.objects ensures NewSays(k', key, st, comps, n, o) {
        if o in d.k.objects {
          assert NewSays(d.k, key, st, comps, n - 1, o);
        }
      }
    }
  }

  // ---- What a pass makes ------------------------------------------------------------------

  /** The objects behind the cluster of a claim. */
  ghost function ClusterObjects(key: Key): (r: set<Obj>)
    ensures forall o :: o in r ==> o.kind != "HelmRelease"
  {
    {Obj("TenantControlPlane", key.ns, key.name + "-control-plane"), Obj("TinkerbellCluster", key.ns, key.name + "-infra"),
     ClusterPass.CAPICluster(key), Obj("TinkerbellMachineTemplate", key.ns, key.name + "-mt"),
     ClusterPass.Deployment(key), ClusterPass.Balancer(key)}
  }

  /** What CreateOrUpdate sets again: the references of the Cluster, the replicas of the MachineDeployment, the
      address and pool of the Service. */
  function SetAgain(key: Key, machineCount: nat, ip: string, pool: string): (r: map<Obj, Body>)
    ensures forall o :: o in r <==> o in {ClusterPass.CAPICluster(key), ClusterPass.Deployment(key), ClusterPass.Balancer(key)}
  {
    map[ClusterPass.CAPICluster(key) := References(key.name + "-infra", key.name + "-control-plane"),
        ClusterPass.Deployment(key) := Replicas(ClusterPass.Int32(machineCount)),
        ClusterPass.Balancer(key) := LoadBalancer(ip, pool)]
  }

  lemma WantsCovered(key: Key, c: Claim, site: Site)
    requires c.Cluster?
    ensures Covers(ClusterObjects(key), SetAgain(key, c.spec.machineCount, c.st.cpIP, site.pool), ClusterPass.CAPIObjects(key, c, site))
  {
    assert "Cluster" != "MachineDeployment" by { assert |"Cluster"| != |"MachineDeployment"|; }
    assert "Cluster"[0] != "Service"[0] && |"MachineDeployment"| != |"Service"|;
  }

  /** The control-plane address a provisioning pass works with: the recorded one, or the one it is handed. */
  function WorkingIP(e: Env, nb: Netbox, c: Claim): string
    requires c.Cluster?
  {
    if c.st.cpIP != "" then c.st.cpIP else StripPrefix(e.address(nb.nextIP))
  }

  /** The machinecfg Job has completed and has not failed. */
  predicate JobDone(k: Kube, key: Key) {
    JobOf(key) in k.jobs && k.jobs[JobOf(key)].completed && !k.jobs[JobOf(key)].failed
  }

  /** The machinecfg Job has completed and has failed. */
  predicate JobFailed(k: Kube, key: Key) {
    JobOf(key) in k.jobs && k.jobs[JobOf(key)].completed && k.jobs[JobOf(key)].failed
  }

  /** The claim's site is there and says how its users log in, and the Job is done. */
  predicate MayBuild(k: Kube, key: Key, c: Claim)
    requires c.Cluster?
  {
    c.spec.site in k.sites && k.sites[c.spec.site].oidcIssuer != "" && JobDone(k, key)
  }

  /** A pass from this version gets to the objects behind the cluster. */
  predicate Builds(w: World, key: Key, ver: nat) {
    var c := Seen(w.kube.store, key, ver);
    c.Some? && c.value.Cluster? && Provisions(c.value) && MayBuild(w.kube, key, c.value)
  }

  /** What a pass may set again: nothing, unless it sees the claim in Provisioning over a Job that is done. */
  function ResetBy(e: Env, w: World, key: Key, ver: nat): map<Obj, Body> {
    if Builds(w, key, ver) then
      var c := Seen(w.kube.store, key, ver);
      SetAgain(key, c.value.spec.machineCount, WorkingIP(e, w.nb, c.value), w.kube.sites[c.value.spec.site].pool)
    else map[]
  }

  predicate Provisions(c: Claim)
    requires c.Cluster?
  {
    !c.meta.deleting && c.meta.finalizer && c.st.phase == Provisioning
  }

  /** The profile a claim's addon step works from; None when the claim takes no such step. */
  function InstallsFrom(w: World, key: Key, ver: nat): Option<Profile> {
    var c := Seen(w.kube.store, key, ver);
    if c.None? || c.value.Server? || c.value.meta.deleting || !c.value.meta.finalizer ||
       c.value.st.phase != ClusterReady || c.value.spec.profile !in w.kube.profiles
    then None
    else Some(w.kube.profiles[c.value.spec.profile])
  }

  ghost function MadeBy(w: World, key: Key, ver: nat): set<Obj> {
    var p := InstallsFrom(w, key, ver);
    (if Builds(w, key, ver) then ClusterObjects(key) else {}) + if p.Some? then Releases(key, p.value.components) else {}
  }

  lemma SameMultisetReleases(key: Key, a: seq<Component>, b: seq<Component>)
    requires multiset(a) == multiset(b)
    ensures Releases(key, a) == Releases(key, b) && forall c :: c in a <==> c in b
  {
    assert forall c :: c in a <==> c in multiset(a);
    assert forall c :: c in b <==> c in multiset(b);
  }

  lemma EnsureClusterMakes(e: Env, w: World, key: Key, ver: nat, c: Claim, site: Site)
    requires c.Cluster?
    ensures Makes(w.kube, ClusterPass.EnsureCluster(e, w, key, ver, c, site).w.kube,
                  ClusterObjects(key), SetAgain(key, c.spec.machineCount, c.st.cpIP, site.pool))
    ensures Rest(w.kube, ClusterPass.EnsureCluster(e, w, key, ver, c, site).w.kube)
    ensures site.oidcIssuer == "" ==> ClusterPass.EnsureCluster(e, w, key, ver, c, site).w == w
  {
    hide ClusterPass.EnsureAll, ClusterPass.Configured, ClusterPass.CAPIObjects, ClusterObjects, SetAgain, Makes, Covers, WriteClaim;
    WriteObjects(e);
    var objs := ClusterPass.CAPIObjects(key, c, site);
    WantsCovered(key, c, site);
    EnsureAllFrame(e, w.kube, objs, |objs|);
    var again := SetAgain(key, c.spec.machineCount, c.st.cpIP, site.pool);
    EnsureAllMakes(e, w.kube, objs, |objs|, ClusterObjects(key), again);
    var k', d := ClusterPass.EnsureCluster(e, w, key, ver, c, site).w.kube, ClusterPass.EnsureAll(e, w.kube, objs, |objs|);
    MakesTo(w.kube, d.k, k', ClusterObjects(key), again);
    MakesFrom(w.kube, w.kube, w.kube, ClusterObjects(key), again);
  }

  lemma RunJobMakes(e: Env, w: World, key: Key, ver: nat, c: Claim, site: Site)
    requires c.Cluster?
    ensures Makes(w.kube, ClusterPass.RunJob(e, w, key, ver, c, site).w.kube,
                  ClusterObjects(key), SetAgain(key, c.spec.machineCount, c.st.cpIP, site.pool))
    ensures Rest(w.kube, ClusterPass.RunJob(e, w, key, ver, c, site).w.kube)
    ensures site.oidcIssuer == "" || !JobDone(w.kube, key) ==>
              ClusterPass.RunJob(e, w, key, ver, c, site).w.kube.objects == w.kube.objects
  {
    hide ClusterPass.EnsureCluster, ClusterPass.Fail, CreateJob, ClusterObjects, SetAgain, Makes, Rest;
    var got := Get(e, w.kube, w.kube.jobs, JobOf(key));
    var w1, k' := w.(kube := got.k), ClusterPass.RunJob(e, w, key, ver, c, site).w.kube;
    var again := SetAgain(key, c.spec.machineCount, c.st.cpIP, site.pool);
    SameRest(w.kube, w1.kube);
    match got.read {
      case Broken =>
      case NotFound => JobObjects(e, w1.kube, JobOf(key));
      case Found(job) =>
        FailObjects(e, w1, key, ver, c, "MachineCfgFailed");
        EnsureClusterMakes(e, w1, key, ver, c, site);
    }
    MakesFrom(w.kube, w1.kube, k', ClusterObjects(key), again);
    RestOn(w.kube, w1.kube, k');
  }

  // ---- What else a pass may change ---------------------------------------------------------

  /** Sites, profiles and Roles are as they were, and no Job is gone. */
  ghost predicate Rest(k: Kube, k': Kube) {
    k'.sites == k.sites && k'.profiles == k.profiles && k'.roles == k.roles && k.jobs.Keys <= k'.jobs.Keys
  }

  ghost predicate SameObjects(k: Kube, k': Kube) {
    k'.objects == k.objects && Rest(k, k')
  }

  /** The Role of that namespace has a secrets rule. */
  predicate HasRule(k: Kube, ns: string) {
    ns in k.roles && RoleRules.SecretsRule(k.roles[ns]) < |k.roles[ns]|
  }

  /** Sites and profiles are as they were, no Job is gone, and Roles keep their secrets rules. */
  ghost predicate Grown(k: Kube, k': Kube) {
    && k'.sites == k.sites && k'.profiles == k.profiles
    && k.jobs.Keys <= k'.jobs.Keys
    && (forall ns :: HasRule(k, ns) ==> HasRule(k', ns))
  }

  lemma RestsGrown(k: Kube)
    ensures forall k': Kube :: Rest(k, k') ==> Grown(k, k')
  {
  }

  lemma SameRest(k: Kube, k': Kube)
    requires k'.sites == k.sites && k'.profiles == k.profiles && k'.roles == k.roles && k'.jobs == k.jobs
    ensures Rest(k, k')
  {
  }

  lemma RestOn(a: Kube, b: Kube, c: Kube)
    requires Rest(a, b) && (c == b || Rest(b, c))
    ensures Rest(a, c)
  {
  }

  lemma JobObjects(e: Env, k: Kube, obj: Obj)
    ensures SameObjects(k, CreateJob(e, k, obj).k)
  {
  }

  lemma WriteObjects(e: Env)
    ensures forall k: Kube, key: Key, ver: nat, v: Option<Claim> ::
              var k' := WriteClaim(e, k, key, ver, v).k;
              k'.objects == k.objects && k'.sites == k.sites && k'.profiles == k.profiles && k'.roles == k.roles && k'.jobs == k.jobs
  {
  }

  lemma FailObjects(e: Env, w: World, key: Key, ver: nat, c: Claim, reason: string)
    requires c.Cluster?
    ensures SameObjects(w.kube, ClusterPass.Fail(e, w, key, ver, c, reason).w.kube)
  {
    hide WriteClaim, SetCondition;
    WriteObjects(e);
  }

  lemma AllocateControlPlaneObjects(e: Env, w: World, key: Key, ver: nat, c: Claim, site: Site)
    requires c.Cluster?
    ensures var f := ClusterPass.AllocateControlPlaneIP(e, w, key, ver, c, site);
            && SameObjects(w.kube, f.w.kube) && f.w.kube.jobs == w.kube.jobs
            && (f.Go? ==> f.c.Cluster? && f.c.spec == c.spec && f.c.st.cpIP == WorkingIP(e, w.nb, c))
  {
    hide WriteClaim, StripPrefix, TenantSlug;
    WriteObjects(e);
  }

  lemma AllocateWebhookObjects(e: Env, w: World, key: Key, ver: nat, c: Claim, site: Site)
    requires c.Cluster?
    ensures var f := ClusterPass.AllocateWebhookIP(e, w, key, ver, c, site);
            && SameObjects(w.kube, f.w.kube) && f.w.kube.jobs == w.kube.jobs
            && (f.Go? ==> f.c.Cluster? && f.c.spec == c.spec && f.c.st.cpIP == c.st.cpIP)
  {
    hide AllocateIP, WriteClaim, StripPrefix, TenantSlug;
    WriteObjects(e);
  }

  lemma AllocateMachinesObjects(e: Env, w: World, key: Key, ver: nat, c: Claim, site: Site)
    requires c.Cluster?
    ensures var f := ClusterPass.AllocateMachines(e, w, key, ver, c, site);
            && SameObjects(w.kube, f.w.kube) && f.w.kube.jobs == w.kube.jobs
            && (f.Go? ==> f.c.Cluster? && f.c.spec == c.spec && f.c.st.cpIP == c.st.cpIP)
  {
    hide ListAvailable, Stage, WriteClaim, TenantSlug;
    WriteObjects(e);
  }

  lemma ProvisionMakes(e: Env, w: World, key: Key, ver: nat, c: Claim)
    requires c.Cluster?
    ensures Makes(w.kube, ClusterPass.Provision(e, w, key, ver, c).w.kube, if MayBuild(w.kube, key, c) then ClusterObjects(key) else {},
                  if MayBuild(w.kube, key, c)
                  then SetAgain(key, c.spec.machineCount, WorkingIP(e, w.nb, c), w.kube.sites[c.spec.site].pool) else map[])
    ensures Rest(w.kube, ClusterPass.Provision(e, w, key, ver, c).w.kube)
  {
    hide ClusterPass.RunJob, ClusterObjects, SetAgain, WorkingIP, ClusterPass.AllocateControlPlaneIP, ClusterPass.AllocateWebhookIP,
      ClusterPass.AllocateMachines;
    var s := Get(e, w.kube, w.kube.sites, c.spec.site);
    var w1 := w.(kube := s.k);
    if s.read.Found? {
      AllocateControlPlaneObjects(e, w1, key, ver, c, s.read.value);
      var f1 := ClusterPass.AllocateControlPlaneIP(e, w1, key, ver, c, s.read.value);
      if f1.Go? {
        AllocateWebhookObjects(e, f1.w, key, f1.ver, f1.c, s.read.value);
        var f2 := ClusterPass.AllocateWebhookIP(e, f1.w, key, f1.ver, f1.c, s.read.value);
        if f2.Go? {
          AllocateMachinesObjects(e, f2.w, key, f2.ver, f2.c, s.read.value);
          var f3 := ClusterPass.AllocateMachines(e, f2.w, key, f2.ver, f2.c, s.read.value);
          if f3.Go? { RunJobMakes(e, f3.w, key, f3.ver, f3.c, s.read.value); }
        }
      }
    }
  }

  lemma {:induction false} CheckReadyObjects(e: Env, k: Kube, key: Key, comps: seq<Component>, n: nat)
    requires n <= |comps|
    ensures var r := ClusterPass.CheckReady(e, k, key, comps, n);
            && r.k == k.(calls := r.k.calls)
            && (r.ok && r.all ==> forall i :: 0 <= i < n && comps[i].required ==> IsReadyRelease(k, key, comps[i]))
  {
    if n > 0 { CheckReadyObjects(e, k, key, comps, n - 1); }
  }

  predicate IsReadyRelease(k: Kube, key: Key, c: Component) {
    var o := ClusterPass.ReleaseOf(key, c.name);
    o in k.objects && k.objects[o].ready
  }

  lemma WatchAddonsMakes(e: Env, w: World, key: Key, ver: nat, c: Claim)
    requires c.Cluster? && SortsComponents(e)
    ensures Makes(w.kube, ClusterPass.WatchAddons(e, w, key, ver, c).w.kube,
                  if c.spec.profile in w.kube.profiles then Releases(key, w.kube.profiles[c.spec.profile].components) else {},
                  map[])
    ensures Rest(w.kube, ClusterPass.WatchAddons(e, w, key, ver, c).w.kube)
  {
    hide ClusterPass.Install, ClusterPass.CheckReady, ClusterPass.ReleaseOf, WriteClaim, SetCondition, Releases, Makes;
    WriteObjects(e);
    var p := Get(e, w.kube, w.kube.profiles, c.spec.profile);
    var k' := ClusterPass.WatchAddons(e, w, key, ver, c).w.kube;
    if p.read.Found? {
      var comps := e.sort(p.k.calls, p.read.value.components);
      InstallMakes(e, p.k, key, c.st, comps, |comps|);
      InstallFrame(e, p.k, key, c.st, comps, |comps|);
      assert comps[..|comps|] == comps;
      SameMultisetReleases(key, comps, p.read.value.components);
      var made, d := Releases(key, comps), ClusterPass.Install(e, p.k, key, c.st, comps, |comps|);
      CheckReadyObjects(e, d.k, key, comps, |comps|);
      MakesTo(p.k, d.k, k', made, map[]);
      MakesFrom(w.kube, p.k, k', made, map[]);
    } else {
      MakesNothing(w.kube, k');
    }
  }

  lemma SteadyObjects(e: Env, w: World, key: Key, ver: nat, c: Claim)
    requires c.Cluster?
    ensures SameObjects(w.kube, ClusterPass.SteadyState(e, w, key, ver, c).w.kube)
  {
    hide ListAvailable, Stage, ReleaseUntilError, ClusterPass.Mark, ClusterPass.UsesRook, WriteClaim, TenantSlug;
    WriteObjects(e);
  }

  lemma ValidateObjects(e: Env, w: World, key: Key, ver: nat, c: Claim)
    requires c.Cluster?
    ensures SameObjects(w.kube, ClusterPass.Validate(e, w, key, ver, c).w.kube)
  {
    hide ListAvailable, ClusterPass.Mark, ClusterPass.SomeHasTag, ClusterPass.Fail, WriteClaim;
    WriteObjects(e);
    var p := Get(e, w.kube, w.kube.profiles, c.spec.profile);
    FailObjects(e, w.(kube := p.k), key, ver, c, "AddonProfileNotFound");
    var s := Get(e, p.k, p.k.sites, c.spec.site);
    FailObjects(e, w.(kube := s.k), key, ver, c, "SiteConfigNotFound");
    if s.read.Found? {
      var w1 := w.(kube := s.k, nb := ListAvailable(e, w.nb, s.read.value.slug, c.spec.machineClass).nb);
      FailObjects(e, w1, key, ver, c, "InsufficientMachines");
      FailObjects(e, w1, key, ver, c, "MachineClassIncompatible");
    }
  }

  lemma PutObjects(e: Env, k: Kube, ns: string, rules: seq<Rule>)
    requires ns in k.roles && |rules| == |k.roles[ns]| && RoleRules.SecretsRule(rules) == RoleRules.SecretsRule(k.roles[ns])
    ensures var k' := PutRole(e, k, ns, rules).k; k'.objects == k.objects && k'.store == k.store && Grown(k, k')
  {
    hide RoleRules.SecretsRule;
    var k' := PutRole(e, k, ns, rules).k;
    forall o | HasRule(k, o) ensures HasRule(k', o) {
      assert o != ns ==> k'.roles[o] == k.roles[o];
    }
  }

  lemma RevokeObjects(e: Env, k: Kube, key: Key, secret: string)
    ensures var k' := ClusterPass.RevokeKubeconfig(e, k, key, secret); k'.objects == k.objects && Grown(k, k')
  {
    hide RoleRules.Revoke, RoleRules.SecretsRule, PutRole, HasRule;
    RestsGrown(k);
    if key.ns in k.roles {
      RoleRules.RevokeKeepsPlace(k.roles[key.ns], secret);
      PutObjects(e, k.(calls := k.calls + 1), key.ns, RoleRules.Revoke(k.roles[key.ns], secret));
      RestsGrown(k);
      GrownOn(k, k.(calls := k.calls + 1), PutRole(e, k.(calls := k.calls + 1), key.ns, RoleRules.Revoke(k.roles[key.ns], secret)).k);
    }
  }

  lemma GrownOn(a: Kube, b: Kube, c: Kube)
    requires Grown(a, b) && Grown(b, c)
    ensures Grown(a, c)
  {
    hide HasRule;
  }

  lemma FinalizeObjects(e: Env, w: World, key: Key, ver: nat, c: Claim)
    requires c.Cluster?
    ensures var k' := ClusterPass.Finalize(e, w, key, ver, c).w.kube; k'.objects == w.kube.objects && Grown(w.kube, k')
  {
    hide ReleaseIPs, ReleaseEach, WriteClaim, ClusterPass.RevokeKubeconfig, Grown;
    WriteObjects(e);
    RevokeObjects(e, w.kube, key, c.st.kubeconfig);
    var k1 := ClusterPass.RevokeKubeconfig(e, w.kube, key, c.st.kubeconfig);
    RestsGrown(k1);
    GrownOn(w.kube, k1, ClusterPass.Finalize(e, w, key, ver, c).w.kube);
  }

  lemma ExposeObjects(e: Env, w: World, key: Key, ver: nat, c: Claim)
    requires c.Cluster?
    ensures var k' := ClusterPass.ExposeKubeconfig(e, w, key, ver, c).w.kube; k'.objects == w.kube.objects && Grown(w.kube, k')
  {
    hide WriteClaim, PutRole, RoleRules.Grant, RoleRules.SecretsRule, ClusterPass.SecretOf, Grown;
    WriteObjects(e);
    var k', k1 := ClusterPass.ExposeKubeconfig(e, w, key, ver, c).w.kube, w.kube.(calls := w.kube.calls + 1);
    RestsGrown(w.kube);
    if key.ns in w.kube.roles {
      var rules := RoleRules.Grant(w.kube.roles[key.ns], ClusterPass.SecretOf(key));
      RoleRules.GrantKeepsPlace(w.kube.roles[key.ns], ClusterPass.SecretOf(key));
      PutObjects(e, k1, key.ns, rules);
      var k2 := PutRole(e, k1, key.ns, rules).k;
      GrownOn(w.kube, k1, k2);
      RestsGrown(k2);
      if Rest(k2, k') { GrownOn(w.kube, k2, k'); }
    }
  }

  lemma ServerIPObjects(e: Env, w: World, key: Key, ver: nat, c: Claim, site: Site)
    requires c.Server?
    ensures SameObjects(w.kube, ServerPass.AllocateServerIP(e, w, key, ver, c, site).w.kube)
  {
    hide AllocateIP, WriteClaim, StripPrefix, TenantSlug;
    WriteObjects(e);
  }

  lemma ServerMachineObjects(e: Env, w: World, key: Key, ver: nat, c: Claim, site: Site)
    requires c.Server?
    ensures SameObjects(w.kube, ServerPass.AllocateMachine(e, w, key, ver, c, site).w.kube)
  {
    hide ListAvailable, Stage, WriteClaim, TenantSlug;
    WriteObjects(e);
  }

  lemma ServerJobObjects(e: Env, w: World, key: Key, ver: nat, c: Claim)
    requires c.Server?
    ensures SameObjects(w.kube, ServerPass.RunJob(e, w, key, ver, c).w.kube)
  {
    hide WriteClaim, CreateJob;
    WriteObjects(e);
    JobObjects(e, Get(e, w.kube, w.kube.jobs, JobOf(key)).k, JobOf(key));
  }

  lemma ServerProvisionObjects(e: Env, w: World, key: Key, ver: nat, c: Claim)
    requires c.Server?
    ensures SameObjects(w.kube, ServerPass.Provision(e, w, key, ver, c).w.kube)
  {
    hide AllocateIP, ListAvailable, Stage, WriteClaim, ServerPass.RunJob;
    var s := Get(e, w.kube, w.kube.sites, c.sspec.site);
    var w1 := w.(kube := s.k);
    if s.read.Found? {
      ServerIPObjects(e, w1, key, ver, c, s.read.value);
      var f1 := ServerPass.AllocateServerIP(e, w1, key, ver, c, s.read.value);
      if f1.Go? {
        ServerMachineObjects(e, f1.w, key, f1.ver, f1.c, s.read.value);
        var f2 := ServerPass.AllocateMachine(e, f1.w, key, f1.ver, f1.c, s.read.value);
        if f2.Go? { ServerJobObjects(e, f2.w, key, f2.ver, f2.c); }
      }
    }
  }

  lemma ServerObjects(e: Env, w: World, key: Key, ver: nat, c: Claim)
    requires c.Server?
    ensures SameObjects(w.kube, ServerPass.Step(e, w, key, ver, c).w.kube)
  {
    hide ListAvailable, ReleaseIPs, ReleaseEach, WriteClaim, ServerPass.Provision;
    WriteObjects(e);
    ServerProvisionObjects(e, w, key, ver, c);
  }

  lemma ClusterStepMakes(e: Env, w: World, key: Key, ver: nat, c: Claim)
    requires c.Cluster? && SortsComponents(e) && Seen(w.kube.store, key, ver) == Some(c)
    ensures Makes(w.kube, ClusterPass.Step(e, w, key, ver, c).w.kube, MadeBy(w, key, ver), ResetBy(e, w, key, ver))
    ensures Grown(w.kube, ClusterPass.Step(e, w, key, ver, c).w.kube)
  {
    hide ClusterPass.Finalize, ClusterPass.Validate, ClusterPass.Provision, ClusterPass.WatchAddons, ClusterPass.ExposeKubeconfig,
      ClusterPass.SteadyState, ClusterObjects, Releases, SetAgain, WorkingIP, WriteClaim, HasRule, Makes, MayBuild;
    WriteObjects(e);
    MakesNothing(w.kube, ClusterPass.Step(e, w, key, ver, c).w.kube);
    if c.meta.deleting {
      FinalizeObjects(e, w, key, ver, c);
    } else if c.meta.finalizer {
      match c.st.phase {
        case Pending => ValidateObjects(e, w, key, ver, c);
        case Provisioning =>
          ProvisionMakes(e, w, key, ver, c);
          assert MadeBy(w, key, ver) == if MayBuild(w.kube, key, c) then ClusterObjects(key) else {};
        case ClusterReady =>
          WatchAddonsMakes(e, w, key, ver, c);
          assert MadeBy(w, key, ver)
              == if c.spec.profile in w.kube.profiles then Releases(key, w.kube.profiles[c.spec.profile].components) else {};
        case AddonsReady => ExposeObjects(e, w, key, ver, c);
        case Ready => SteadyObjects(e, w, key, ver, c);
        case Failed =>
      }
    }
    RestsGrown(w.kube);
  }

  lemma PassMakes(e: Env, w: World, key: Key, ver: nat)
    requires SortsComponents(e)
    ensures Makes(w.kube, Next(e, w, Pass(key, ver)).kube, MadeBy(w, key, ver), ResetBy(e, w, key, ver))
    ensures Grown(w.kube, Next(e, w, Pass(key, ver)).kube)
  {
    hide ClusterPass.Step, ServerPass.Step, ClusterObjects, Releases, SetAgain, WorkingIP, Grown;
    var got := ReadClaim(e, w.kube, key, ver);
    var w1 := w.(kube := got.k);
    RestsGrown(w.kube);
    if got.read.Found? {
      var c := got.read.value;
      if c.Cluster? {
        ClusterStepMakes(e, w1, key, ver, c);
        GrownOn(w.kube, w1.kube, Next(e, w, Pass(key, ver)).kube);
      } else {
        ServerObjects(e, w1, key, ver, c);
      }
    }
  }
}
