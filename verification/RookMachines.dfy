/** The values handed to rook-ceph describe exactly the recorded machines. */
module RookMachines {
  import opened Basics
  import opened Text
  import opened Claims
  import opened Environment
  import opened Inventory
  import opened ApiServer
  import opened Passes
  import opened Holdings
  import opened Exclusivity
  import opened RecordedDisks
  import RookDecoding
  import RookValues
  import ClusterPass
  import opened Runs

  ghost predicate PrintableDisks(nb: Netbox) {
    forall id :: id in nb.disks ==> forall i :: 0 <= i < |nb.disks[id]| ==> RookDecoding.OneLine(nb.disks[id][i])
  }

  lemma {:induction false} DigitsOneLine(n: nat)
    ensures RookDecoding.OneLine(Digits(n))
  {
    forall c | c in Digits(n) ensures c != '\n' {
      var i :| 0 <= i < |Digits(n)| && Digits(n)[i] == c;
    }
  }

  lemma DecimalOneLine(n: int)
    ensures RookDecoding.OneLine(Decimal(n))
  {
    DigitsOneLine(if n < 0 then -n else n);
  }

  lemma DescribedPrintable(osd: map<string, seq<string>>, ids: seq<int>, nb: Netbox)
    requires DescribesMachines(osd, ids, nb) && PrintableDisks(nb)
    ensures RookDecoding.Printable(osd)
  {
    hide Decimal;
    forall n | n in osd ensures RookDecoding.OneLine(n) && forall d :: d in osd[n] ==> RookDecoding.OneLine(d) {
      var id :| id in ids && n == Decimal(id);
      assert DescribesMachine(osd, id, nb);
      DecimalOneLine(id);
      forall d | d in osd[n] ensures RookDecoding.OneLine(d) {
        var j :| 0 <= j < |osd[n]| && osd[n][j] == d;
        assert nb.disks[id][j] == d;
      }
    }
  }

  /** The values end in a text that reads back as the disks of exactly these machines. */
  ghost predicate ValuesDescribe(values: string, base: string, ids: seq<int>, nb: Netbox) {
    exists text :: values == base + "\n" + text && DescribesMachines(RookDecoding.Decode(text), ids, nb)
  }

  /** In every run in which no disk query of a staging loop is answered by an error body, whatever else fails and
      however stale the version: the rook-ceph release that an addon pass asks for describes exactly the machines
      the claim records, for any order of the map; with no disks at all the values are left alone. */
  lemma {:induction false} RookDescribesMachines(e: Env, r: Run, n: nat, key: Key, ver: nat, c: Claim, comp: Component, calls: nat, values: string)
    requires IsRun(e, r) && Start(r.worlds[0]) && TenantRun(r) && n < |r.worlds|
    requires HearingRun(e, r) && EnumeratesKeys(e) && PrintableDisks(r.worlds[0].nb) && comp.name == ClusterPass.ROOK
    requires Seen(r.worlds[n].kube.store, key, ver) == Some(c) && c.Cluster? && c.st.phase == ClusterReady
    requires values == ClusterPass.ReleaseBody(e, calls, key, c.st, comp).chart.values
    ensures if c.st.osdDevices == map[]
            then values == comp.helm.values && forall id :: id in c.st.machineIDs ==> DisksOf(r.worlds[0].nb, id) == []
            else ValuesDescribe(values, comp.helm.values, c.st.machineIDs, r.worlds[0].nb)
  {
    hide RookDecoding.Decode, RookValues.Text, RookDecoding.Printable;
    RunFaithful(e, r, n);
    var w, w' := r.worlds[0], r.worlds[n];
    SeenFaithful(w', key, ver);
    SameDisks(w'.nb, w.nb, c);
    if c.st.osdDevices == map[] {
      forall id | id in c.st.machineIDs ensures DisksOf(w.nb, id) == [] {
        assert DescribesMachine(c.st.osdDevices, id, w.nb);
      }
    } else {
      var text := RookValues.Text(c.st.osdDevices, e.keys(calls, c.st.osdDevices));
      DescribedPrintable(c.st.osdDevices, c.st.machineIDs, w.nb);
      RookDecoding.RookRoundTrip(c.st.osdDevices, e.keys(calls, c.st.osdDevices));
    }
  }

  // ---- Exactly when a pass records the disks right ----------------------------------------

  /** This version records these machines and these disks. */
  predicate RecordsThese(v: Option<Claim>, ids: seq<int>, osd: map<string, seq<string>>) {
    v.Some? && v.value.Cluster? && v.value.st.machineIDs == ids && v.value.st.osdDevices == osd
  }

  /** So do all versions added to the history h0, and the pass's own copy. */
  ghost predicate Carries(f: Flow, key: Key, h0: History, ids: seq<int>, osd: map<string, seq<string>>) {
    var h := HistoryOf(f.w.kube.store, key);
    && h0 <= h && (forall i :: |h0| <= i < |h| ==> RecordsThese(h[i], ids, osd))
    && (f.Go? ==> RecordsThese(Some(f.c), ids, osd))
  }

  lemma SaveCarries(e: Env, w: World, key: Key, ver: nat, c: Claim, h0: History, ids: seq<int>, osd: map<string, seq<string>>)
    requires Carries(Go(w, ver, c), key, h0, ids, osd)
    ensures Carries(Save(e, w, key, ver, c), key, h0, ids, osd)
    ensures forall reply :: Carries(SaveAndStop(e, w, key, ver, c, reply), key, h0, ids, osd)
  {
    hide RecordsThese;
    HeldAfter(w.kube.store, key, Some(c));
  }

  lemma AddressesCarry(e: Env, w: World, key: Key, ver: nat, c: Claim, site: Site, h0: History, ids: seq<int>, osd: map<string, seq<string>>)
    requires c.Cluster? && Carries(Go(w, ver, c), key, h0, ids, osd)
    ensures Carries(ClusterPass.AllocateControlPlaneIP(e, w, key, ver, c, site), key, h0, ids, osd)
    ensures Carries(ClusterPass.AllocateWebhookIP(e, w, key, ver, c, site), key, h0, ids, osd)
  {
    hide TenantSlug, StripPrefix, Passes.Save;
    var a := AllocateIP(e, w.nb);
    if a.value.Some? {
      var ip, id := StripPrefix(a.value.value.address), a.value.value.id;
      SaveCarries(e, w.(nb := a.nb), key, ver, c.(st := c.st.(
        cpIP := ip, cpDNS := key.name + "-api." + TenantSlug(key.ns) + "." + site.zone, ipamIDs := c.st.ipamIDs + [id])), h0, ids, osd);
      SaveCarries(e, w.(nb := a.nb), key, ver, c.(st := c.st.(
        whIP := ip, whDNS := key.name + "-wh." + TenantSlug(key.ns) + "." + site.zone, ipamIDs := c.st.ipamIDs + [id])), h0, ids, osd);
    }
  }

  lemma RunJobCarries(e: Env, w: World, key: Key, ver: nat, c: Claim, site: Site, h0: History, ids: seq<int>, osd: map<string, seq<string>>)
    requires c.Cluster? && Carries(Go(w, ver, c), key, h0, ids, osd)
    ensures Carries(ClusterPass.RunJob(e, w, key, ver, c, site), key, h0, ids, osd)
  {
    hide Passes.SaveAndStop, SetCondition, ClusterPass.EnsureCluster, RecordsThese;
    var w1 := w.(kube := Get(e, w.kube, w.kube.jobs, JobOf(key)).k);
    var failed := c.(st := ClusterPass.Mark(c.st.(phase := Failed), "Validated", false, "MachineCfgFailed"));
    StillRecords(c, failed, ids, osd);
    SaveCarries(e, w1, key, ver, failed, h0, ids, osd);
    EnsureClusterCarries(e, w1, key, ver, c, site, h0, ids, osd);
  }

  lemma StillRecords(c: Claim, c': Claim, ids: seq<int>, osd: map<string, seq<string>>)
    requires c.Cluster? && c'.Cluster? && c'.st.machineIDs == c.st.machineIDs && c'.st.osdDevices == c.st.osdDevices
    ensures RecordsThese(Some(c'), ids, osd) <==> RecordsThese(Some(c), ids, osd)
  {
  }

  lemma EnsureClusterCarries(e: Env, w: World, key: Key, ver: nat, c: Claim, site: Site, h0: History, ids: seq<int>, osd: map<string, seq<string>>)
    requires c.Cluster? && Carries(Go(w, ver, c), key, h0, ids, osd)
    ensures Carries(ClusterPass.EnsureCluster(e, w, key, ver, c, site), key, h0, ids, osd)
  {
    hide Passes.SaveAndStop, ClusterPass.EnsureAll, ClusterPass.CAPIObjects, SetCondition, RecordsThese;
    var objs := ClusterPass.CAPIObjects(key, c, site);
    EnsureAllFrame(e, w.kube, objs, |objs|);
    var d := ClusterPass.EnsureAll(e, w.kube, objs, |objs|);
    var w1 := w.(kube := Get(e, d.k, d.k.objects, ClusterPass.CAPICluster(key)).k);
    var done, waiting := c.(st := ClusterPass.Configured(c.st, key.name, true)), c.(st := ClusterPass.Configured(c.st, key.name, false));
    StillRecords(c, done, ids, osd);
    StillRecords(c, waiting, ids, osd);
    SaveCarries(e, w1, key, ver, done, h0, ids, osd);
    SaveCarries(e, w1, key, ver, waiting, h0, ids, osd);
  }

  /** What the machine part of a pass adds to the history records what it staged; and if that is anything, it
      describes the machines exactly when the queries were heard. */
  lemma MachinesCarry(e: Env, w: World, key: Key, ver: nat, c: Claim, site: Site) returns (ids: seq<int>, osd: map<string, seq<string>>)
    requires c.Cluster? && c.st.machineIDs == [] && UniqueIDs(w.nb.devices)
    ensures var f := ClusterPass.AllocateMachines(e, w, key, ver, c, site);
            && Carries(f, key, HistoryOf(w.kube.store, key), ids, osd)
            && ((f.Go? || |HistoryOf(f.w.kube.store, key)| > |HistoryOf(w.kube.store, key)|) && ids != [] ==>
                  (DescribesMachines(osd, ids, w.nb) <==> StagingHeard(e, w.nb, c, site)))
  {
    hide Stage, TenantSlug, AvailableDevices, DescribesMachines, StagingHeard, Passes.Save;
    ids, osd := [], map[];
    var a := ListAvailable(e, w.nb, site.slug, c.spec.machineClass);
    if a.value.Some? {
      ListedAreAvailable(e, w.nb, site.slug, c.spec.machineClass);
      var devs, n := a.value.value, ClusterPass.Min(c.spec.machineCount, |a.value.value|);
      var s := Stage(e, a.nb, devs, n, TenantSlug(key.ns), true);
      ids, osd := s.ids, s.osd;
      StagedDisks(e, a.nb, devs, n, TenantSlug(key.ns));
      if s.ok {
        SaveCarries(e, w.(nb := s.nb), key, ver, c.(st := c.st.(machineIDs := ids, osdDevices := osd)), HistoryOf(w.kube.store, key), ids, osd);
        if ids != [] { StagingExactly(e, w.nb, a.nb, c, site, devs, ids, osd); }
      }
    }
  }

  lemma SameDescribed(osd: map<string, seq<string>>, ids: seq<int>, nb: Netbox, nb1: Netbox)
    requires nb1.sem == nb.sem && nb1.disks == nb.disks
    ensures DescribesMachines(osd, ids, nb) <==> DescribesMachines(osd, ids, nb1)
  {
    hide Decimal;
    assert forall id :: DescribesMachine(osd, id, nb1) <==> DescribesMachine(osd, id, nb);
  }

  lemma StagingExactly(e: Env, nb: Netbox, nb1: Netbox, c: Claim, site: Site, devs: seq<Device>, ids: seq<int>, osd: map<string, seq<string>>)
    requires c.Cluster? && nb1 == nb.(calls := nb.calls + 1)
    requires devs == AvailableDevices(nb.sem, nb.devices, site.slug, c.spec.machineClass)
    requires DescribesMachines(osd, ids, nb1) <==> AllHeard(e, nb1, devs, nb1.calls, ClusterPass.Min(c.spec.machineCount, |devs|))
    ensures DescribesMachines(osd, ids, nb) <==> StagingHeard(e, nb, c, site)
  {
    hide AvailableDevices;
    var n, from := ClusterPass.Min(c.spec.machineCount, |devs|), nb.calls + 1;
    if AllHeard(e, nb1, devs, nb1.calls, n) {
      forall i: nat | i < n ensures Heard(e, nb, devs, from, i) { assert Heard(e, nb1, devs, nb1.calls, i); }
    } else {
      var i: nat :| i < n && !Heard(e, nb1, devs, nb1.calls, i);
      assert !Heard(e, nb, devs, from, i);
    }
    SameDescribed(osd, ids, nb, nb1);
  }

  /** The last version there is, when something was added. */
  lemma LastCarries(f: Flow, key: Key, h0: History, ids: seq<int>, osd: map<string, seq<string>>)
    requires Carries(f, key, h0, ids, osd) && |HistoryOf(f.w.kube.store, key)| > |h0|
    ensures RecordsThese(Current(f.w.kube.store, key), ids, osd)
  {
  }

  lemma StaysCluster(e: Env, w: World, key: Key, ver: nat, c: Claim, site: Site)
    requires c.Cluster?
    ensures var f := ClusterPass.AllocateMachines(e, w, key, ver, c, site); f.Go? ==> f.c.Cluster?
  {
    hide ListAvailable, Stage, WriteClaim;
  }

  lemma ProvisionRecords(e: Env, w: World, key: Key, ver: nat, c: Claim)
    requires GetsMachines(c) && UniqueIDs(w.nb.devices)
    requires var f := ClusterPass.Provision(e, w, key, ver, c);
             var c' := Current(f.w.kube.store, key);
             && |HistoryOf(f.w.kube.store, key)| > |HistoryOf(w.kube.store, key)|
             && c'.Some? && c'.value.Cluster? && c'.value.st.machineIDs != []
    ensures var c' := Current(ClusterPass.Provision(e, w, key, ver, c).w.kube.store, key).value;
            DescribesMachines(c'.st.osdDevices, c'.st.machineIDs, w.nb) <==> HeardBy(e, w, c)
  {
    hide TenantSlug, DescribesMachines, StagingHeard, DisksHeard, ClusterPass.AllocateControlPlaneIP, ClusterPass.AllocateWebhookIP,
      ClusterPass.AllocateMachines, ClusterPass.RunJob;
    var s := Get(e, w.kube, w.kube.sites, c.spec.site);
    var w1, h0 := w.(kube := s.k), HistoryOf(w.kube.store, key);
    var f := ClusterPass.Provision(e, w, key, ver, c);
    if s.read.Found? {
      var site := s.read.value;
      AddressesCarry(e, w1, key, ver, c, site, h0, [], c.st.osdDevices);
      AddressesCalls(e, w1, key, ver, c, site);
      var f1 := ClusterPass.AllocateControlPlaneIP(e, w1, key, ver, c, site);
      if f1.Stop? {
        LastCarries(f1, key, h0, [], c.st.osdDevices);
      } else {
        AddressesCarry(e, f1.w, key, f1.ver, f1.c, site, h0, [], c.st.osdDevices);
        AddressesCalls(e, f1.w, key, f1.ver, f1.c, site);
        var f2 := ClusterPass.AllocateWebhookIP(e, f1.w, key, f1.ver, f1.c, site);
        if f2.Stop? {
          LastCarries(f2, key, h0, [], c.st.osdDevices);
        } else {
          StaysCluster(e, f2.w, key, f2.ver, f2.c, site);
          MachinesRecorded(e, w1, key, c, site, f2, h0, f);
        }
      }
    }
  }

  lemma MachinesRecorded(e: Env, w: World, key: Key, c: Claim, site: Site, f2: Flow, h0: History, f: Flow)
    requires c.Cluster? && c.st.machineIDs == [] && f2.Go? && Carries(f2, key, h0, [], c.st.osdDevices) && SameListing(w.nb, c, f2, Addresses(c))
    requires UniqueIDs(w.nb.devices)
    requires var f3 := ClusterPass.AllocateMachines(e, f2.w, key, f2.ver, f2.c, site);
             f == if f3.Stop? || !f3.c.Cluster? then f3 else ClusterPass.RunJob(e, f3.w, key, f3.ver, f3.c, site)
    requires var c' := Current(f.w.kube.store, key);
             |HistoryOf(f.w.kube.store, key)| > |h0| && c'.Some? && c'.value.Cluster? && c'.value.st.machineIDs != []
    ensures var c' := Current(f.w.kube.store, key).value;
            DescribesMachines(c'.st.osdDevices, c'.st.machineIDs, w.nb) <==> DisksHeard(e, w.nb, c, site)
  {
    hide DescribesMachines, StagingHeard, DisksHeard, ClusterPass.AllocateMachines, ClusterPass.RunJob;
    var ids, osd := MachinesCarry(e, f2.w, key, f2.ver, f2.c, site);
    var f3 := ClusterPass.AllocateMachines(e, f2.w, key, f2.ver, f2.c, site);
    var h2 := HistoryOf(f2.w.kube.store, key);
    if f3.Go? { RunJobCarries(e, f3.w, key, f3.ver, f3.c, site, h2, ids, osd); }
    if |h2| > |h0| { LastCarries(f2, key, h0, [], c.st.osdDevices); }
    assert |HistoryOf(f.w.kube.store, key)| > |h2|;
    LastCarries(f, key, h2, ids, osd);
    ReachesListing(e, w, c, f2, site);
    SameDescribed(osd, ids, w.nb, f2.w.nb);
  }

  /** In any run: a pass over a claim without machines that leaves it recording some has recorded their disks
      rightly exactly when the disk queries of its staging loop were heard. */
  lemma {:induction false} PassRecordsExactly(e: Env, r: Run, n: nat, key: Key, ver: nat, c: Claim, c': Claim)
    requires IsRun(e, r) && n < |r.events| && r.events[n] == Pass(key, ver) && UniqueIDs(r.worlds[n].nb.devices)
    requires Seen(r.worlds[n].kube.store, key, ver) == Some(c) && GetsMachines(c)
    requires |HistoryOf(r.worlds[n + 1].kube.store, key)| > |HistoryOf(r.worlds[n].kube.store, key)|
    requires Current(r.worlds[n + 1].kube.store, key) == Some(c') && c'.Cluster? && c'.st.machineIDs != []
    ensures DescribesMachines(c'.st.osdDevices, c'.st.machineIDs, r.worlds[n].nb) <==> HeardBy(e, r.worlds[n], c)
  {
    hide DescribesMachines, DisksHeard, ClusterPass.Provision;
    var w := r.worlds[n];
    assert Linked(e, r, n);
    var got := ReadClaim(e, w.kube, key, ver);
    if got.read.Found? { ProvisionRecords(e, w.(kube := got.k), key, ver, c); }
  }
}
