/** Everything a pass records has its cause in the world the pass found: over every run, with any failures and from any
    version, for both kinds of claim. */
module Evidence {
  import opened Text
  import opened Claims
  import opened Environment
  import opened ApiServer
  import opened Histories
  import opened AddonSteps
  import opened EvidenceSteps
  import ClusterPass
  import opened Runs

  /** In every run a pending cluster claim is accepted only when its profile and site exist, the machines of its class
      on its site are as many as it asks for, and each tag its profile requires is on one of those. */
  lemma {:induction false} AcceptedOnlyIfSufficient(e: Env, r: Run, n: nat, key: Key, ver: nat, c: Claim, i: nat, v: Claim)
    requires IsRun(e, r) && PassAdds(r, n, key, ver, c, i, v)
    requires c.Cluster? && c.st.phase == Pending && v.Cluster? && v.st.phase != Pending && v.st.phase != Failed
    ensures v.st.phase == Provisioning && Acceptable(r.worlds[n], c.spec)
  {
    hide Next, Acceptable;
    PassNext(e, r, n, key, ver, c, i, v);
    PendingAdds(e, r.worlds[n], key, ver, c, i, v);
  }

  /** In every run, whatever fails: a pass that records MachineCfgDone found the claim's Job completed and not failed;
      so did one that takes a provisioning claim to ClusterReady; and one that fails such a claim found the Job
      completed and failed. */
  lemma {:induction false} JobCauses(e: Env, r: Run, n: nat, key: Key, ver: nat, c: Claim, i: nat, v: Claim)
    requires IsRun(e, r) && Start(r.worlds[0]) && AddressesNonempty(e) && TenantRun(r) && PassAdds(r, n, key, ver, c, i, v)
    requires c.Cluster? && v.Cluster?
    ensures MachineCfgDone(v.st) && !MachineCfgDone(c.st) ==> JobDone(r.worlds[n].kube, key)
    ensures c.st.phase == Provisioning && v.st.phase == ClusterReady ==> JobDone(r.worlds[n].kube, key)
    ensures c.st.phase == Provisioning && v.st.phase == Failed ==> JobFailed(r.worlds[n].kube, key)
  {
    hide Next, Sane, Sound, MachineCfgDone, JobDone, JobFailed;
    StartSane(r.worlds[0]);
    RunSane(e, r, n);
    SeenSound(r.worlds[n], key, ver);
    PassNext(e, r, n, key, ver, c, i, v);
    if c.st.phase == Pending {
      OthersAdd(e, r.worlds[n], key, ver, c, i, v);
    } else if c.st.phase == Provisioning {
      HasFinalizer(key, c);
      ProvisioningAdds(e, r.worlds[n], key, ver, c, i, v);
    } else {
      LaterHas(e, r.worlds[n], key, ver, c, i, v);
    }
  }

  /** In every run, an address that a cluster claim newly records is that of the ID it records with it, the first for
      the control plane and the second for the webhook, under the claim's name in the zone of its site. */
  lemma {:induction false} AddressesNamed(e: Env, r: Run, n: nat, key: Key, ver: nat, c: Claim, i: nat, v: Claim)
    requires IsRun(e, r) && Start(r.worlds[0]) && AddressesNonempty(e) && TenantRun(r) && PassAdds(r, n, key, ver, c, i, v)
    requires c.Cluster? && v.Cluster?
    ensures c.st.cpIP == "" && v.st.cpIP != "" ==>
              && c.spec.site in r.worlds[n].kube.sites && |v.st.ipamIDs| > 0
              && v.st.cpIP == AddressText(e, v.st.ipamIDs[0])
              && v.st.cpDNS == key.name + "-api." + TenantSlug(key.ns) + "." + r.worlds[n].kube.sites[c.spec.site].zone
    ensures c.st.whIP == "" && v.st.whIP != "" ==>
              && c.spec.site in r.worlds[n].kube.sites && |v.st.ipamIDs| > 1
              && v.st.whIP == AddressText(e, v.st.ipamIDs[1])
              && v.st.whDNS == key.name + "-wh." + TenantSlug(key.ns) + "." + r.worlds[n].kube.sites[c.spec.site].zone
  {
    hide Next, Sane, Sound, AddressText, TenantSlug;
    StartSane(r.worlds[0]);
    RunSane(e, r, n);
    SeenSound(r.worlds[n], key, ver);
    PassNext(e, r, n, key, ver, c, i, v);
    if c.st.phase == Pending {
      OthersAdd(e, r.worlds[n], key, ver, c, i, v);
    } else if c.st.phase == Provisioning {
      HasFinalizer(key, c);
      ProvisioningAdds(e, r.worlds[n], key, ver, c, i, v);
    } else {
      LaterHas(e, r.worlds[n], key, ver, c, i, v);
    }
  }

  /** In every run, an object behind a cluster is made or altered only by a pass that sees its claim in Provisioning,
      over a Job that is completed and not failed, on a site that says how users log in. */
  lemma {:induction false} BuildsOnlyWhenDone(e: Env, r: Run, n: nat, key: Key, ver: nat, o: Obj)
    requires IsRun(e, r) && SortsComponents(e) && n < |r.events| && r.events[n] == Pass(key, ver) && o.kind != "HelmRelease"
    requires var k, k' := r.worlds[n].kube, r.worlds[n + 1].kube;
             o in k'.objects && (o !in k.objects || k'.objects[o] != k.objects[o])
    ensures Builds(r.worlds[n], key, ver) && o in ClusterObjects(key)
  {
    hide Next, ClusterObjects, SetAgain;
    var w := r.worlds[n];
    assert Linked(e, r, n);
    PassMakes(e, w, key, ver);
    ResetAmong(e, w, key, ver);
    assert ClusterPass.ReleaseOf(key, "").kind == "HelmRelease";
  }
}
