/** The books of a run without failures and with the release the controllers intend: each device is as it was at
    the start or staged for the one claim that records it, each address is recorded or released once; every step
    keeps them balanced. */
module Bookkeeping {
  import opened Basics
  import opened Text
  import opened Claims
  import opened Environment
  import opened Inventory
  import opened ApiServer
  import opened Passes
  import opened Holdings
  import opened Exclusivity
  import opened AddressLedger
  import opened Histories
  import RoleRules
  import ClusterPass
  import ServerPass

  ghost predicate MachineHeld(s: Store, id: int) {
    exists key :: id in Held(s, Machine, key)
  }

  /** The machines: each device is as it was at the start, or it was available then and is now staged
      for the one claim that records it. */
  ghost predicate MachineBooks(d0: seq<Device>, ds: seq<Device>, s: Store) {
    |ds| == |d0| && forall i :: 0 <= i < |ds| ==> DeviceBooked(d0, ds, s, i)
  }

  ghost predicate DeviceBooked(d0: seq<Device>, ds: seq<Device>, s: Store, i: int)
    requires 0 <= i < |ds| == |d0|
  {
    && (forall key: Key :: d0[i].id in Held(s, Machine, key) ==>
          Available(d0[i]) && ds[i] == StagedFor(d0[i], TenantSlug(key.ns)))
    && (!MachineHeld(s, d0[i].id) ==> ds[i] == d0[i])
  }

  /** The addresses: each one handed out is recorded by a claim or was released exactly once. */
  ghost predicate AddressBooks(nb: Netbox, s: Store) {
    NoDup(nb.released) && forall id: int :: AddressBooked(nb, s, id)
  }

  ghost predicate AddressBooked(nb: Netbox, s: Store, id: int) {
    && (id in nb.released ==> 0 < id < nb.nextIP && !IsHeld(s, id))
    && (0 < id < nb.nextIP ==> id in nb.released || IsHeld(s, id))
  }

  ghost predicate Books(d0: seq<Device>, w: World) {
    && Inv(true, w) && w.nb.sem == Fake
    && MachineBooks(d0, w.nb.devices, w.kube.store)
    && AddressBooks(w.nb, w.kube.store)
  }

  /** A pass under way holds the current version. */
  ghost predicate BooksFlow(d0: seq<Device>, f: Flow, key: Key) {
    && Books(d0, f.w)
    && (f.Go? ==> IsCurrent(f.w.kube.store, key, f.ver) && Current(f.w.kube.store, key) == Some(f.c))
  }

  // ---- Steps that move nothing ------------------------------------------------------------

  ghost predicate SameHoldings(s: Store, s': Store) {
    forall which: Resource, k :: Held(s', which, k) == Held(s, which, k)
  }

  /** The step leaves Netbox alone and writes at most one version that records the same. */
  ghost predicate Passive(w: World, w': World, key: Key) {
    && w'.nb == w.nb.(calls := w'.nb.calls)
    && (|| w'.kube.store == w.kube.store
        || (var v := Current(w'.kube.store, key);
            && v.Some? && w'.kube.store == Append(w.kube.store, key, v)
            && Recorded(Machine, v.value) == Held(w.kube.store, Machine, key)
            && Recorded(Address, v.value) == Held(w.kube.store, Address, key)))
  }

  lemma PassiveHoldings(w: World, w': World, key: Key)
    requires Passive(w, w', key)
    ensures SameHoldings(w.kube.store, w'.kube.store)
  {
    HeldAfter(w.kube.store, key, Current(w'.kube.store, key));
    forall which: Resource, k ensures Held(w'.kube.store, which, k) == Held(w.kube.store, which, k) {
    }
  }

  lemma PassiveKeepsBooks(d0: seq<Device>, w: World, w': World, key: Key)
    requires Books(d0, w) && Passive(w, w', key) && Inv(true, w')
    ensures Books(d0, w')
  {
    PassiveHoldings(w, w', key);
    SameMachineBooks(d0, w.nb.devices, w.kube.store, w'.kube.store);
    SameAddressBooks(w.nb, w'.nb, w.kube.store, w'.kube.store);
  }

  /** Calls that leave the claims and Netbox alone may come first. */
  lemma AfterCalls(w: World, w1: World, w2: World, key: Key)
    requires Passive(w1, w2, key) && w1.nb == w.nb.(calls := w1.nb.calls) && w1.kube.store == w.kube.store
    ensures Passive(w, w2, key)
  {
  }

  lemma OnlyCalls(w: World, w1: World, key: Key)
    requires w1.nb == w.nb.(calls := w1.nb.calls) && w1.kube.store == w.kube.store
    ensures Passive(w, w1, key)
  {
  }

  lemma SavePassive(e: Env, w: World, key: Key, ver: nat, c: Claim, c': Claim, reply: Reply)
    requires Current(w.kube.store, key) == Some(c)
    requires Recorded(Machine, c') == Recorded(Machine, c) && Recorded(Address, c') == Recorded(Address, c)
    ensures Passive(w, SaveAndStop(e, w, key, ver, c', reply).w, key)
  {
    HeldAfter(w.kube.store, key, Some(c'));
  }

  lemma FailPassive(e: Env, w: World, key: Key, ver: nat, c: Claim, reason: string)
    requires c.Cluster? && Current(w.kube.store, key) == Some(c)
    ensures Passive(w, ClusterPass.Fail(e, w, key, ver, c, reason).w, key)
  {
    SavePassive(e, w, key, ver, c, c.(st := ClusterPass.Mark(c.st.(phase := Failed), "Validated", false, reason)), Finished);
  }

  lemma ServerFailPassive(e: Env, w: World, key: Key, ver: nat, c: Claim, reason: string)
    requires c.Server? && Current(w.kube.store, key) == Some(c)
    ensures Passive(w, ServerPass.Fail(e, w, key, ver, c, reason).w, key)
  {
    var conditions := c.sst.conditions + [Condition("Ready", false, reason)];
    SavePassive(e, w, key, ver, c, c.(sst := c.sst.(phase := Failed, conditions := conditions)), Finished);
  }

  lemma ValidatePassive(e: Env, w: World, key: Key, ver: nat, c: Claim)
    requires c.Cluster? && Current(w.kube.store, key) == Some(c)
    ensures Passive(w, ClusterPass.Validate(e, w, key, ver, c).w, key)
  {
    hide ClusterPass.Fail, SaveAndStop;
    var p := Get(e, w.kube, w.kube.profiles, c.spec.profile);
    FailPassive(e, w.(kube := p.k), key, ver, c, "AddonProfileNotFound");
    if p.read.Found? {
      var s := Get(e, p.k, p.k.sites, c.spec.site);
      FailPassive(e, w.(kube := s.k), key, ver, c, "SiteConfigNotFound");
      if s.read.Found? {
        var a := ListAvailable(e, w.nb, s.read.value.slug, c.spec.machineClass);
        var w1 := w.(kube := s.k, nb := a.nb);
        FailPassive(e, w1, key, ver, c, "InsufficientMachines");
        FailPassive(e, w1, key, ver, c, "MachineClassIncompatible");
        SavePassive(e, w1, key, ver, c, c.(st := ClusterPass.Validated(c.st)), Requeue);
      }
    }
  }

  lemma EnsureClusterPassive(e: Env, w: World, key: Key, ver: nat, c: Claim, site: Site)
    requires c.Cluster? && Current(w.kube.store, key) == Some(c)
    ensures Passive(w, ClusterPass.EnsureCluster(e, w, key, ver, c, site).w, key)
  {
    var objs := ClusterPass.CAPIObjects(key, c, site);
    EnsureAllFrame(e, w.kube, objs, |objs|);
    var d := ClusterPass.EnsureAll(e, w.kube, objs, |objs|);
    var got := Get(e, d.k, d.k.objects, ClusterPass.CAPICluster(key));
    if got.read.Found? {
      var ready := got.read.value.ready;
      SavePassive(e, w.(kube := got.k), key, ver, c, c.(st := ClusterPass.Configured(c.st, key.name, ready)),
                  if ready then Requeue else After(30 * SECOND));
    }
  }

  lemma RunJobPassive(e: Env, w: World, key: Key, ver: nat, c: Claim, site: Site)
    requires c.Cluster? && Current(w.kube.store, key) == Some(c)
    ensures Passive(w, ClusterPass.RunJob(e, w, key, ver, c, site).w, key)
  {
    var got := Get(e, w.kube, w.kube.jobs, JobOf(key));
    var w1 := w.(kube := got.k);
    if got.read.Found? && got.read.value.completed {
      if got.read.value.failed {
        FailPassive(e, w1, key, ver, c, "MachineCfgFailed");
      } else {
        EnsureClusterPassive(e, w1, key, ver, c, site);
        assert ClusterPass.RunJob(e, w, key, ver, c, site) == ClusterPass.EnsureCluster(e, w1, key, ver, c, site);
      }
    }
  }

  lemma WatchAddonsPassive(e: Env, w: World, key: Key, ver: nat, c: Claim)
    requires c.Cluster? && Current(w.kube.store, key) == Some(c)
    ensures Passive(w, ClusterPass.WatchAddons(e, w, key, ver, c).w, key)
  {
    var p := Get(e, w.kube, w.kube.profiles, c.spec.profile);
    if p.read.Found? {
      var comps := e.sort(p.k.calls, p.read.value.components);
      var d := ClusterPass.Install(e, p.k, key, c.st, comps, |comps|);
      InstallFrame(e, p.k, key, c.st, comps, |comps|);
      var r := ClusterPass.CheckReady(e, d.k, key, comps, |comps|);
      CheckReadyFrame(e, d.k, key, comps, |comps|);
      SavePassive(e, w.(kube := r.k), key, ver, c,
                  c.(st := ClusterPass.Mark(c.st.(phase := AddonsReady), "AddonsReady", true, "AllAddonsReady")), Requeue);
    }
  }

  lemma ExposePassive(e: Env, w: World, key: Key, ver: nat, c: Claim)
    requires c.Cluster? && Current(w.kube.store, key) == Some(c)
    ensures Passive(w, ClusterPass.ExposeKubeconfig(e, w, key, ver, c).w, key)
  {
    var got := Get(e, w.kube, w.kube.roles, key.ns);
    if got.read.Found? {
      var c' := c.(st := c.st.(phase := Ready, kubeconfig := ClusterPass.SecretOf(key)));
      var put := PutRole(e, got.k, key.ns, RoleRules.Grant(got.read.value, ClusterPass.SecretOf(key)));
      SavePassive(e, w.(kube := put.k), key, ver, c, c', Finished);
      SavePassive(e, w.(kube := got.k), key, ver, c, c', Finished);
    }
  }

  lemma ServerValidatePassive(e: Env, w: World, key: Key, ver: nat, c: Claim)
    requires c.Server? && Current(w.kube.store, key) == Some(c)
    ensures Passive(w, ServerPass.Validate(e, w, key, ver, c).w, key)
  {
    var s := Get(e, w.kube, w.kube.sites, c.sspec.site);
    ServerFailPassive(e, w.(kube := s.k), key, ver, c, "SiteConfigNotFound");
    if s.read.Found? {
      var w1 := w.(kube := s.k, nb := ListAvailable(e, w.nb, s.read.value.slug, c.sspec.machineClass).nb);
      ServerFailPassive(e, w1, key, ver, c, "InsufficientMachines");
      SavePassive(e, w1, key, ver, c, c.(sst := c.sst.(phase := Provisioning)), Requeue);
    }
  }

  lemma ServerJobPassive(e: Env, w: World, key: Key, ver: nat, c: Claim)
    requires c.Server? && Current(w.kube.store, key) == Some(c)
    ensures Passive(w, ServerPass.RunJob(e, w, key, ver, c).w, key)
  {
    hide ServerPass.Fail, SaveAndStop, Passive;
    var w1 := w.(kube := Get(e, w.kube, w.kube.jobs, JobOf(key)).k);
    var w' := ServerPass.RunJob(e, w, key, ver, c).w;
    ServerFailPassive(e, w1, key, ver, c, "MachineCfgFailed");
    SavePassive(e, w1, key, ver, c, c.(sst := c.sst.(phase := Ready)), Finished);
    if w'.nb == w.nb && w'.kube.store == w.kube.store {
      OnlyCalls(w, w', key);
    } else {
      AfterCalls(w, w1, w', key);
    }
  }

  // ---- Steps that move something ----------------------------------------------------------

  lemma SameMachineBooks(d0: seq<Device>, ds: seq<Device>, s: Store, s': Store)
    requires MachineBooks(d0, ds, s) && forall k :: Held(s', Machine, k) == Held(s, Machine, k)
    ensures MachineBooks(d0, ds, s')
  {
    assert forall id :: MachineHeld(s', id) <==> MachineHeld(s, id);
    forall i | 0 <= i < |ds| ensures DeviceBooked(d0, ds, s', i) {
      assert DeviceBooked(d0, ds, s, i);
    }
  }

  lemma SameAddressBooks(nb: Netbox, nb': Netbox, s: Store, s': Store)
    requires AddressBooks(nb, s) && forall k :: Held(s', Address, k) == Held(s, Address, k)
    requires nb'.nextIP == nb.nextIP && nb'.released == nb.released
    ensures AddressBooks(nb', s')
  {
    assert forall id :: IsHeld(s', id) <==> IsHeld(s, id);
    forall id: int ensures AddressBooked(nb', s', id) {
      assert AddressBooked(nb, s, id);
    }
  }

  /** An address is handed out and recorded. */
  lemma AddressRecorded(nb: Netbox, nb': Netbox, s: Store, key: Key, c: Claim, c': Claim)
    requires AddressBooks(nb, s) && Current(s, key) == Some(c)
    requires nb'.nextIP == nb.nextIP + 1 && nb'.released == nb.released
    requires forall k :: Issued(nb, Held(s, Address, k))
    requires Recorded(Address, c') == Recorded(Address, c) + [nb.nextIP]
    ensures AddressBooks(nb', Append(s, key, Some(c')))
  {
    var s' := Append(s, key, Some(c'));
    HeldAfter(s, key, Some(c'));
    assert Held(s', Address, key) == Held(s, Address, key) + [nb.nextIP];
    forall id ensures IsHeld(s', id) <==> IsHeld(s, id) || id == nb.nextIP {
      if IsHeld(s, id) {
        var k :| id in Held(s, Address, k);
        assert id in Held(s', Address, k);
      }
      if id == nb.nextIP { assert id in Held(s', Address, key); }
      if IsHeld(s', id) {
        var k :| id in Held(s', Address, k);
        assert k != key ==> id in Held(s, Address, k);
      }
    }
    forall id: int ensures AddressBooked(nb', s', id) {
      assert AddressBooked(nb, s, id);
    }
  }

  lemma BooksKeepIDs(d0: seq<Device>, ds: seq<Device>, s: Store)
    requires MachineBooks(d0, ds, s)
    ensures forall i :: 0 <= i < |ds| ==> ds[i].id == d0[i].id
  {
    forall i | 0 <= i < |ds| ensures ds[i].id == d0[i].id {
      assert DeviceBooked(d0, ds, s, i);
      if MachineHeld(s, d0[i].id) {
        var k :| d0[i].id in Held(s, Machine, k);
      }
    }
  }

  /** Free machines are staged for a claim and recorded by it. */
  lemma MachinesRecorded(d0: seq<Device>, ds: seq<Device>, ds': seq<Device>, s: Store, key: Key, added: seq<int>, c': Claim)
    requires MachineBooks(d0, ds, s) && |ds'| == |ds|
    requires Recorded(Machine, c') == Held(s, Machine, key) + added
    requires forall i :: 0 <= i < |ds| && ds[i].id in added ==>
               && Available(ds[i]) && ds'[i] == StagedFor(ds[i], TenantSlug(key.ns))
               && forall k :: ds[i].id !in Held(s, Machine, k)
    requires forall i :: 0 <= i < |ds| && ds[i].id !in added ==> ds'[i] == ds[i]
    ensures MachineBooks(d0, ds', Append(s, key, Some(c')))
  {
    var s' := Append(s, key, Some(c'));
    HeldAfter(s, key, Some(c'));
    BooksKeepIDs(d0, ds, s);
    assert Held(s', Machine, key) == Held(s, Machine, key) + added;
    forall i | 0 <= i < |ds| ensures DeviceBooked(d0, ds', s', i) {
      assert DeviceBooked(d0, ds, s, i);
      forall k: Key | d0[i].id in Held(s', Machine, k)
        ensures Available(d0[i]) && ds'[i] == StagedFor(d0[i], TenantSlug(k.ns))
      {
        if d0[i].id in added {
          assert !MachineHeld(s, d0[i].id);
          assert k == key;
        } else {
          assert d0[i].id in Held(s, Machine, k);
        }
      }
      if !MachineHeld(s', d0[i].id) {
        assert d0[i].id !in Held(s', Machine, key);
        forall k ensures d0[i].id !in Held(s, Machine, k) {
          assert d0[i].id !in Held(s', Machine, k);
        }
      }
    }
  }

  /** What a successful staging loop gives the books. */
  lemma StagedForBooks(e: Env, w: World, key: Key, nb: Netbox, devs: seq<Device>, n: nat, disks: bool)
    requires Inv(true, w) && nb.devices == w.nb.devices && Offered(nb.devices, devs) && n <= |devs|
    requires TenantSlug(key.ns) != "" && NoFaults(e)
    ensures var t := Stage(e, nb, devs, n, TenantSlug(key.ns), disks);
            && t.ok && |t.nb.devices| == |nb.devices|
            && t.nb == nb.(devices := t.nb.devices, calls := t.nb.calls)
            && (forall i :: 0 <= i < |nb.devices| && nb.devices[i].id in t.ids ==>
                  && Available(nb.devices[i]) && t.nb.devices[i] == StagedFor(nb.devices[i], TenantSlug(key.ns))
                  && forall k :: nb.devices[i].id !in Held(w.kube.store, Machine, k))
            && (forall i :: 0 <= i < |nb.devices| && nb.devices[i].id !in t.ids ==> t.nb.devices[i] == nb.devices[i])
  {
    var slug := TenantSlug(key.ns);
    var t := Stage(e, nb, devs, n, slug, disks);
    StageFacts(e, nb, devs, n, slug, disks);
    StageSucceeds(e, nb, devs, n, slug, disks);
    forall i | 0 <= i < |nb.devices| && nb.devices[i].id in t.ids
      ensures Available(nb.devices[i]) && forall k :: nb.devices[i].id !in Held(w.kube.store, Machine, k)
    {
      var x :| 0 <= x < |t.ids| && t.ids[x] == nb.devices[i].id;
      assert devs[x] in devs;
      var j :| 0 <= j < |nb.devices| && nb.devices[j] == devs[x];
      assert i == j;
      forall k ensures nb.devices[i].id !in Held(w.kube.store, Machine, k) { AvailableIsFree(true, w, k, i); }
    }
  }

  lemma {:induction false} StageSucceeds(e: Env, nb: Netbox, devs: seq<Device>, n: nat, slug: string, disks: bool)
    requires UniqueIDs(nb.devices) && Offered(nb.devices, devs) && n <= |devs| && slug != "" && NoFaults(e)
    ensures Stage(e, nb, devs, n, slug, disks).ok
  {
    hide StageOne, StagedSoFar, Available;
    if n > 0 {
      StageSucceeds(e, nb, devs, n - 1, slug, disks);
      var s := Stage(e, nb, devs, n - 1, slug, disks);
      assert devs[n - 1] in devs;
      var j :| 0 <= j < |nb.devices| && nb.devices[j] == devs[n - 1];
      assert HasDevice(nb.devices, devs[n - 1].id);
      StageKeepsDevice(e, nb, devs, n - 1, slug, disks, devs[n - 1].id);
      StageOneSucceeds(e, s, devs[n - 1].id, slug, disks);
    }
  }

  lemma StageKeepsDevice(e: Env, nb: Netbox, devs: seq<Device>, n: nat, slug: string, disks: bool, id: int)
    requires UniqueIDs(nb.devices) && Offered(nb.devices, devs) && n <= |devs| && slug != "" && HasDevice(nb.devices, id)
    ensures HasDevice(Stage(e, nb, devs, n, slug, disks).nb.devices, id)
  {
    hide Stage;
    StageFacts(e, nb, devs, n, slug, disks);
    OnlyStagedKeepsIDs(nb.devices, Stage(e, nb, devs, n, slug, disks).nb.devices, slug);
  }

  lemma StageOneSucceeds(e: Env, s: Staging, id: int, slug: string, disks: bool)
    requires NoFaults(e) && HasDevice(s.nb.devices, id)
    ensures StageOne(e, s, id, slug, disks).ok
  {
  }

  ghost predicate ReleasedExactly(sem: Semantics, ds: seq<Device>, ds': seq<Device>, ids: seq<int>) {
    && |ds'| == |ds|
    && forall i :: 0 <= i < |ds| ==>
         ds'[i] == if ds[i].id in ids then Patch(sem, ds[i], Active, "") else ds[i]
  }

  /** With no faults the release loops release exactly what they are given. */
  lemma {:induction false} ReleaseEachAll(e: Env, nb: Netbox, ids: seq<int>, n: nat)
    requires n <= |ids| && NoFaults(e)
    ensures var nb' := ReleaseEach(e, nb, ids, n);
            && nb' == nb.(devices := nb'.devices, calls := nb'.calls)
            && ReleasedExactly(nb.sem, nb.devices, nb'.devices, ids[..n])
  {
    if n > 0 {
      ReleaseEachAll(e, nb, ids, n - 1);
      assert ids[..n] == ids[..n - 1] + [ids[n - 1]];
    }
  }

  lemma ReleaseWorks(e: Env, nb: Netbox, id: int)
    requires NoFaults(e) && HasDevice(nb.devices, id)
    ensures SetDeviceStatus(e, nb, id, Active, "").ok
  {
  }

  lemma ReleaseEachKeepsDevice(e: Env, nb: Netbox, ids: seq<int>, n: nat, id: int)
    requires n <= |ids| && HasDevice(nb.devices, id)
    ensures HasDevice(ReleaseEach(e, nb, ids, n).devices, id)
  {
    ReleaseEachFacts(e, nb, ids, n);
    ReleaseKeepsIDs(nb.sem, nb.devices, ReleaseEach(e, nb, ids, n).devices, ids);
  }

  lemma {:induction false} ReleaseUntilErrorAll(e: Env, nb: Netbox, ids: seq<int>, n: nat)
    requires n <= |ids| && NoFaults(e)
    requires forall j :: 0 <= j < n ==> HasDevice(nb.devices, ids[j])
    ensures ReleaseUntilError(e, nb, ids, n) == Done(ReleaseEach(e, nb, ids, n), true)
  {
    hide SetDeviceStatus;
    if n > 0 {
      ReleaseUntilErrorAll(e, nb, ids, n - 1);
      var nb1 := ReleaseEach(e, nb, ids, n - 1);
      ReleaseEachKeepsDevice(e, nb, ids, n - 1, ids[n - 1]);
      ReleaseWorks(e, nb1, ids[n - 1]);
    }
  }

  lemma {:induction false} ReleaseIPsAll(e: Env, nb: Netbox, ids: seq<int>, n: nat)
    requires n <= |ids| && NoFaults(e) && nb.sem == Fake
    ensures ReleaseIPs(e, nb, ids, n) == nb.(released := nb.released + ids[..n], calls := nb.calls + n)
  {
    if n > 0 {
      ReleaseIPsAll(e, nb, ids, n - 1);
      assert ids[..n] == ids[..n - 1] + [ids[n - 1]];
      assert nb.released + ids[..n - 1] + [ids[n - 1]] == nb.released + ids[..n];
    } else {
      assert nb.released + ids[..0] == nb.released;
    }
  }

  /** Some machines of a claim are released and it keeps the others; or, with v None, all of them. */
  lemma MachinesReleased(d0: seq<Device>, w: World, ds': seq<Device>, s': Store, key: Key, ids: seq<int>, v: Option<Claim>)
    requires Books(d0, w) && Exclusive(s', Machine)
    requires s' == Append(w.kube.store, key, v)
    requires var rest := if v.Some? then Recorded(Machine, v.value) else [];
             && Held(w.kube.store, Machine, key) == rest + ids
    requires ReleasedExactly(Fake, w.nb.devices, ds', ids)
    ensures MachineBooks(d0, ds', s')
  {
    var s, ds := w.kube.store, w.nb.devices;
    HeldAfter(s, key, v);
    assert Fits(s, Machine, key, Held(s, Machine, key));
    var rest := if v.Some? then Recorded(Machine, v.value) else [];
    forall id | id in ids ensures id in Held(s, Machine, key) && id !in rest {
      var j :| 0 <= j < |ids| && ids[j] == id;
      assert Held(s, Machine, key)[|rest| + j] == id;
      forall x | 0 <= x < |rest| ensures rest[x] != id {
        assert Held(s, Machine, key)[x] == rest[x];
      }
    }
    BooksKeepIDs(d0, ds, s);
    forall i | 0 <= i < |ds| ensures DeviceBooked(d0, ds', s', i) {
      assert DeviceBooked(d0, ds, s, i);
      forall k: Key | d0[i].id in Held(s', Machine, k)
        ensures Available(d0[i]) && ds'[i] == StagedFor(d0[i], TenantSlug(k.ns))
      {
        assert d0[i].id in Held(s, Machine, k);
        if k != key { assert Apart(Held(s, Machine, key), Held(s, Machine, k)); }
        assert d0[i].id !in ids;
      }
      if !MachineHeld(s', d0[i].id) {
        if d0[i].id in ids {
          assert d0[i].id in Held(s, Machine, key);
        } else {
          forall k ensures d0[i].id !in Held(s, Machine, k) {
            assert d0[i].id !in Held(s', Machine, k);
          }
        }
      }
    }
  }

  lemma AddressesReleased(w: World, nb': Netbox, s': Store, key: Key)
    requires AddressBooks(w.nb, w.kube.store) && Exclusive(w.kube.store, Address)
    requires forall k :: Issued(w.nb, Held(w.kube.store, Address, k))
    requires s' == Append(w.kube.store, key, None)
    requires nb'.nextIP == w.nb.nextIP && nb'.released == w.nb.released + Held(w.kube.store, Address, key)
    ensures AddressBooks(nb', s')
  {
    var s := w.kube.store;
    var ids := Held(s, Address, key);
    HeldAfter(s, key, None);
    assert Fits(s, Address, key, ids);
    forall id ensures IsHeld(s', id) <==> IsHeld(s, id) && id !in ids {
      if IsHeld(s', id) {
        var k :| id in Held(s', Address, k);
        assert k != key && id in Held(s, Address, k);
      }
      if IsHeld(s, id) && id !in ids {
        var k :| id in Held(s, Address, k);
        assert id in Held(s', Address, k);
      }
    }
    forall x | x in ids ensures x !in w.nb.released && 0 < x < w.nb.nextIP {
      assert IsHeld(s, x);
      assert AddressBooked(w.nb, s, x);
      assert Issued(w.nb, Held(s, Address, key));
    }
    assert NoDup(nb'.released) by {
      assert forall i :: 0 <= i < |ids| ==> ids[i] in ids;
      assert forall i :: 0 <= i < |w.nb.released| ==> w.nb.released[i] in w.nb.released;
    }
    forall id: int ensures AddressBooked(nb', s', id) {
      assert AddressBooked(w.nb, s, id);
    }
  }

  // ---- Passes -----------------------------------------------------------------------------

  lemma CurrentWritable(strong: bool, w: World, key: Key, ver: nat, c: Claim)
    requires Inv(strong, w) && Current(w.kube.store, key) == Some(c)
    ensures FlowInv(strong, Go(w, ver, c), key)
  {
    StoredWritable(strong, w, key, c);
  }

  /** Without faults a save from the current version works. */
  lemma SaveWorks(e: Env, w: World, key: Key, ver: nat, c': Claim)
    requires NoFaults(e) && IsCurrent(w.kube.store, key, ver)
    ensures var f := Save(e, w, key, ver, c');
            && f == Go(f.w, ver + 1, c') && f.w.nb == w.nb
            && f.w.kube.store == Append(w.kube.store, key, Some(c'))
            && IsCurrent(f.w.kube.store, key, f.ver) && Current(f.w.kube.store, key) == Some(c')
            && forall reply :: SaveAndStop(e, w, key, ver, c', reply) == Stop(f.w, reply)
  {
    HeldAfter(w.kube.store, key, Some(c'));
  }

  lemma AllocateAndSaveBooks(d0: seq<Device>, e: Env, w: World, key: Key, ver: nat, c: Claim, c': Claim)
    requires NoFaults(e) && BooksFlow(d0, Go(w, ver, c), key)
    requires Recorded(Machine, c') == Recorded(Machine, c)
    requires Recorded(Address, c') == Recorded(Address, c) + [w.nb.nextIP]
    ensures BooksFlow(d0, Save(e, w.(nb := AllocateIP(e, w.nb).nb), key, ver, c'), key)
  {
    var w1 := w.(nb := AllocateIP(e, w.nb).nb);
    CurrentWritable(true, w, key, ver, c);
    AllocateIPKeeps(true, e, w, key, ver, c, c');
    SaveKeepsInv(true, e, w1, key, ver, c');
    SaveWorks(e, w1, key, ver, c');
    AddressRecorded(w.nb, w1.nb, w.kube.store, key, c, c');
    HeldAfter(w.kube.store, key, Some(c'));
    SameMachineBooks(d0, w.nb.devices, w.kube.store, Append(w.kube.store, key, Some(c')));
  }

  lemma ControlPlaneIPBooks(d0: seq<Device>, e: Env, w: World, key: Key, ver: nat, c: Claim, site: Site)
    requires c.Cluster? && NoFaults(e) && BooksFlow(d0, Go(w, ver, c), key)
    ensures var f := ClusterPass.AllocateControlPlaneIP(e, w, key, ver, c, site);
            BooksFlow(d0, f, key) && (f.Go? ==> f.c.Cluster?)
  {
    if c.st.cpIP == "" {
      AllocateAndSaveBooks(d0, e, w, key, ver, c, c.(st := c.st.(
        cpIP := StripPrefix(e.address(w.nb.nextIP)),
        cpDNS := key.name + "-api." + TenantSlug(key.ns) + "." + site.zone,
        ipamIDs := c.st.ipamIDs + [w.nb.nextIP])));
    }
  }

  lemma WebhookIPBooks(d0: seq<Device>, e: Env, w: World, key: Key, ver: nat, c: Claim, site: Site)
    requires c.Cluster? && NoFaults(e) && BooksFlow(d0, Go(w, ver, c), key)
    ensures var f := ClusterPass.AllocateWebhookIP(e, w, key, ver, c, site);
            BooksFlow(d0, f, key) && (f.Go? ==> f.c.Cluster?)
  {
    if c.st.whIP == "" {
      AllocateAndSaveBooks(d0, e, w, key, ver, c, c.(st := c.st.(
        whIP := StripPrefix(e.address(w.nb.nextIP)),
        whDNS := key.name + "-wh." + TenantSlug(key.ns) + "." + site.zone,
        ipamIDs := c.st.ipamIDs + [w.nb.nextIP])));
    }
  }

  lemma ServerIPBooks(d0: seq<Device>, e: Env, w: World, key: Key, ver: nat, c: Claim, site: Site)
    requires c.Server? && NoFaults(e) && BooksFlow(d0, Go(w, ver, c), key) && Sound(key, c)
    ensures var f := ServerPass.AllocateServerIP(e, w, key, ver, c, site);
            BooksFlow(d0, f, key) && (f.Go? ==> f.c.Server?)
  {
    if c.sst.ip == "" {
      AllocateAndSaveBooks(d0, e, w, key, ver, c, c.(sst := c.sst.(
        ip := StripPrefix(e.address(w.nb.nextIP)),
        dns := key.name + "." + TenantSlug(key.ns) + "." + site.zone,
        ipamID := w.nb.nextIP)));
    }
  }

  /** List, stage the first n, and save. */
  lemma StageAndSaveBooks(d0: seq<Device>, e: Env, w: World, key: Key, ver: nat, c: Claim, nb: Netbox,
                          devs: seq<Device>, n: nat, disks: bool, c': Claim)
    requires NoFaults(e) && BooksFlow(d0, Go(w, ver, c), key) && TenantSlug(key.ns) != ""
    requires nb == w.nb.(calls := nb.calls) && Offered(nb.devices, devs) && n <= |devs|
    requires var t := Stage(e, nb, devs, n, TenantSlug(key.ns), disks);
             && Recorded(Machine, c') == Recorded(Machine, c) + t.ids
             && Recorded(Address, c') == Recorded(Address, c)
    ensures var t := Stage(e, nb, devs, n, TenantSlug(key.ns), disks);
            && t.ok
            && BooksFlow(d0, Save(e, w.(nb := t.nb), key, ver, c'), key)
            && forall reply :: BooksFlow(d0, SaveAndStop(e, w.(nb := t.nb), key, ver, c', reply), key)
  {
    var t := Stage(e, nb, devs, n, TenantSlug(key.ns), disks);
    CurrentWritable(true, w, key, ver, c);
    StageKeeps(true, e, w, key, ver, c, nb, devs, n, disks, c');
    SaveKeepsInv(true, e, w.(nb := t.nb), key, ver, c');
    SaveWorks(e, w.(nb := t.nb), key, ver, c');
    StagedForBooks(e, w, key, nb, devs, n, disks);
    MachinesRecorded(d0, w.nb.devices, t.nb.devices, w.kube.store, key, t.ids, c');
    HeldAfter(w.kube.store, key, Some(c'));
    SameAddressBooks(w.nb, t.nb, w.kube.store, Append(w.kube.store, key, Some(c')));
  }

  lemma CallBooks(d0: seq<Device>, w: World, w': World, key: Key, ver: nat, c: Claim)
    requires BooksFlow(d0, Go(w, ver, c), key)
    requires w'.nb == w.nb.(calls := w'.nb.calls) && w'.kube.store == w.kube.store
    ensures BooksFlow(d0, Go(w', ver, c), key)
  {
    SameInv(true, w, w'.(nb := w.nb), key, c);
    CurrentWritable(true, w, key, ver, c);
    Frame(true, w, w', key, ver, c, c);
    SameMachineBooks(d0, w.nb.devices, w.kube.store, w'.kube.store);
    SameAddressBooks(w.nb, w'.nb, w.kube.store, w'.kube.store);
  }

  lemma AllocateMachinesBooks(d0: seq<Device>, e: Env, w: World, key: Key, ver: nat, c: Claim, site: Site)
    requires c.Cluster? && NoFaults(e) && BooksFlow(d0, Go(w, ver, c), key) && TenantSlug(key.ns) != ""
    ensures var f := ClusterPass.AllocateMachines(e, w, key, ver, c, site);
            BooksFlow(d0, f, key) && (f.Go? ==> f.c.Cluster?)
  {
    if c.st.machineIDs == [] {
      ListingOffers(e, w.nb, site.slug, c.spec.machineClass);
      var a := ListAvailable(e, w.nb, site.slug, c.spec.machineClass);
      var n := ClusterPass.Min(c.spec.machineCount, |a.value.value|);
      var t := Stage(e, a.nb, a.value.value, n, TenantSlug(key.ns), true);
      assert Recorded(Machine, c) + t.ids == t.ids;
      StageAndSaveBooks(d0, e, w, key, ver, c, a.nb, a.value.value, n, true,
                        c.(st := c.st.(machineIDs := t.ids, osdDevices := t.osd)));
    }
  }

  lemma GrowBooks(d0: seq<Device>, e: Env, w: World, key: Key, ver: nat, c: Claim, site: Site, delta: nat)
    requires c.Cluster? && NoFaults(e) && BooksFlow(d0, Go(w, ver, c), key) && TenantSlug(key.ns) != ""
    ensures Books(d0, ClusterPass.Grow(e, w, key, ver, c, site, delta).w)
  {
    ListingOffers(e, w.nb, site.slug, c.spec.machineClass);
    var a := ListAvailable(e, w.nb, site.slug, c.spec.machineClass);
    CurrentWritable(true, w, key, ver, c);
    if |a.value.value| < delta {
      var c' := c.(st := ClusterPass.Mark(c.st, "ScaleUpBlocked", true, "InsufficientMachines"));
      var f := SaveAndStop(e, w.(nb := a.nb), key, ver, c', After(300 * SECOND));
      Frame(true, w, w.(nb := a.nb), key, ver, c, c');
      SaveKeepsInv(true, e, w.(nb := a.nb), key, ver, c');
      SavePassive(e, w.(nb := a.nb), key, ver, c, c', After(300 * SECOND));
      PassiveKeepsBooks(d0, w, f.w, key);
    } else {
      var t := Stage(e, a.nb, a.value.value, delta, TenantSlug(key.ns), false);
      StageAndSaveBooks(d0, e, w, key, ver, c, a.nb, a.value.value, delta, false,
                        c.(st := c.st.(machineIDs := c.st.machineIDs + t.ids)));
    }
  }

  lemma ServerFailBooks(d0: seq<Device>, e: Env, w: World, key: Key, ver: nat, c: Claim, reason: string)
    requires c.Server? && BooksFlow(d0, Go(w, ver, c), key)
    ensures Books(d0, ServerPass.Fail(e, w, key, ver, c, reason).w)
  {
    CurrentWritable(true, w, key, ver, c);
    ServerFailKeeps(true, e, w, key, ver, c, reason);
    ServerFailPassive(e, w, key, ver, c, reason);
    PassiveKeepsBooks(d0, w, ServerPass.Fail(e, w, key, ver, c, reason).w, key);
  }

  lemma AllocateMachineBooks(d0: seq<Device>, e: Env, w: World, key: Key, ver: nat, c: Claim, site: Site)
    requires c.Server? && NoFaults(e) && BooksFlow(d0, Go(w, ver, c), key) && TenantSlug(key.ns) != ""
    ensures var f := ServerPass.AllocateMachine(e, w, key, ver, c, site);
            BooksFlow(d0, f, key) && (f.Go? ==> f.c.Server?)
  {
    hide MachineBooks, AddressBooks;
    if c.sst.machineID == 0 {
      ListingOffers(e, w.nb, site.slug, c.sspec.machineClass);
      var a := ListAvailable(e, w.nb, site.slug, c.sspec.machineClass);
      if a.value.value == [] {
        CallBooks(d0, w, w.(nb := a.nb), key, ver, c);
        ServerFailBooks(d0, e, w.(nb := a.nb), key, ver, c, "InsufficientMachines");
      } else {
        var t := Stage(e, a.nb, a.value.value, 1, TenantSlug(key.ns), false);
        StageFacts(e, a.nb, a.value.value, 1, TenantSlug(key.ns), false);
        StageSucceeds(e, a.nb, a.value.value, 1, TenantSlug(key.ns), false);
        assert t.ids == [a.value.value[0].id];
        assert a.value.value[0] in a.value.value;
        StageAndSaveBooks(d0, e, w, key, ver, c, a.nb, a.value.value, 1, false,
                          c.(sst := c.sst.(machineID := a.value.value[0].id)));
      }
    }
  }

  /** Without faults, shrinking releases the tail and records the rest. */
  lemma ShrinkResult(e: Env, w: World, key: Key, ver: nat, c: Claim, delta: nat)
    requires c.Cluster? && delta <= |c.st.machineIDs| && NoFaults(e)
    requires IsCurrent(w.kube.store, key, ver)
    requires forall id :: id in c.st.machineIDs ==> HasDevice(w.nb.devices, id)
    ensures var keep := |c.st.machineIDs| - delta;
            var f := ClusterPass.Shrink(e, w, key, ver, c, delta);
            && f.w.nb == w.nb.(devices := f.w.nb.devices, calls := f.w.nb.calls)
            && ReleasedExactly(w.nb.sem, w.nb.devices, f.w.nb.devices, c.st.machineIDs[keep..])
            && f.w.kube.store == Append(w.kube.store, key, Some(c.(st := c.st.(machineIDs := c.st.machineIDs[..keep]))))
            && f.Stop? && f.reply == After(300 * SECOND)
  {
    var keep := |c.st.machineIDs| - delta;
    var ids := c.st.machineIDs[keep..];
    forall j | 0 <= j < delta ensures HasDevice(w.nb.devices, ids[j]) {
      assert ids[j] in c.st.machineIDs;
    }
    ReleaseUntilErrorAll(e, w.nb, ids, delta);
    ReleaseEachAll(e, w.nb, ids, delta);
    assert ids[..delta] == ids;
    SaveWorks(e, w.(nb := ReleaseEach(e, w.nb, ids, delta)), key, ver, c.(st := c.st.(machineIDs := c.st.machineIDs[..keep])));
  }

  lemma ShrinkBooks(d0: seq<Device>, e: Env, w: World, key: Key, ver: nat, c: Claim, delta: nat)
    requires c.Cluster? && delta <= |c.st.machineIDs| && NoFaults(e) && BooksFlow(d0, Go(w, ver, c), key)
    requires Inv(true, ClusterPass.Shrink(e, w, key, ver, c, delta).w)
    ensures Books(d0, ClusterPass.Shrink(e, w, key, ver, c, delta).w)
  {
    var keep := |c.st.machineIDs| - delta;
    var c' := c.(st := c.st.(machineIDs := c.st.machineIDs[..keep]));
    var w' := ClusterPass.Shrink(e, w, key, ver, c, delta).w;
    assert Secured(true, w.nb.devices, TenantSlug(key.ns), Recorded(Machine, c)) by { CurrentWritable(true, w, key, ver, c); }
    ShrinkResult(e, w, key, ver, c, delta);
    ShrinkMoves(d0, w, w', key, c, keep);
  }

  lemma ShrinkMoves(d0: seq<Device>, w: World, w': World, key: Key, c: Claim, keep: nat)
    requires c.Cluster? && keep <= |c.st.machineIDs| && Books(d0, w) && Current(w.kube.store, key) == Some(c)
    requires Inv(true, w') && w'.nb == w.nb.(devices := w'.nb.devices, calls := w'.nb.calls)
    requires ReleasedExactly(Fake, w.nb.devices, w'.nb.devices, c.st.machineIDs[keep..])
    requires w'.kube.store == Append(w.kube.store, key, Some(c.(st := c.st.(machineIDs := c.st.machineIDs[..keep]))))
    ensures Books(d0, w')
  {
    var c' := c.(st := c.st.(machineIDs := c.st.machineIDs[..keep]));
    assert c.st.machineIDs == c.st.machineIDs[..keep] + c.st.machineIDs[keep..];
    MachinesReleased(d0, w, w'.nb.devices, w'.kube.store, key, c.st.machineIDs[keep..], Some(c'));
    HeldAfter(w.kube.store, key, Some(c'));
    SameAddressBooks(w.nb, w'.nb, w.kube.store, w'.kube.store);
  }

  /** Without faults, the finalizer releases everything the claim records and removes it. */
  lemma FinalizeResult(e: Env, w: World, key: Key, ver: nat, c: Claim)
    requires NoFaults(e) && IsCurrent(w.kube.store, key, ver) && w.nb.sem == Fake
    ensures var f := if c.Cluster? then ClusterPass.Finalize(e, w, key, ver, c) else ServerPass.Finalize(e, w, key, ver, c);
            && f.w.nb == w.nb.(devices := f.w.nb.devices, released := w.nb.released + Recorded(Address, c), calls := f.w.nb.calls)
            && ReleasedExactly(w.nb.sem, w.nb.devices, f.w.nb.devices, Recorded(Machine, c))
            && f.w.kube.store == Append(w.kube.store, key, None)
            && f.Stop? && f.reply == Finished
  {
    var ips, ids := Recorded(Address, c), Recorded(Machine, c);
    ReleaseIPsAll(e, w.nb, ips, |ips|);
    assert ips[..|ips|] == ips && ids[..|ids|] == ids;
    ReleaseEachAll(e, ReleaseIPs(e, w.nb, ips, |ips|), ids, |ids|);
    if c.Cluster? { RevokeFrame(e, w.kube, key, c.st.kubeconfig); }
  }

  lemma FinalizeMoves(d0: seq<Device>, w: World, w': World, key: Key, c: Claim)
    requires Books(d0, w) && Current(w.kube.store, key) == Some(c) && Inv(true, w')
    requires w'.nb == w.nb.(devices := w'.nb.devices, released := w.nb.released + Recorded(Address, c), calls := w'.nb.calls)
    requires ReleasedExactly(Fake, w.nb.devices, w'.nb.devices, Recorded(Machine, c))
    requires w'.kube.store == Append(w.kube.store, key, None)
    ensures Books(d0, w')
  {
    assert Held(w.kube.store, Machine, key) == [] + Recorded(Machine, c);
    MachinesReleased(d0, w, w'.nb.devices, w'.kube.store, key, Recorded(Machine, c), None);
    assert Held(w.kube.store, Address, key) == Recorded(Address, c);
    AddressesReleased(w, w'.nb, w'.kube.store, key);
  }

  lemma FinalizeBooks(d0: seq<Device>, e: Env, w: World, key: Key, ver: nat, c: Claim)
    requires NoFaults(e) && BooksFlow(d0, Go(w, ver, c), key)
    requires Inv(true, (if c.Cluster? then ClusterPass.Finalize(e, w, key, ver, c) else ServerPass.Finalize(e, w, key, ver, c)).w)
    ensures Books(d0, (if c.Cluster? then ClusterPass.Finalize(e, w, key, ver, c) else ServerPass.Finalize(e, w, key, ver, c)).w)
  {
    FinalizeResult(e, w, key, ver, c);
    FinalizeMoves(d0, w, (if c.Cluster? then ClusterPass.Finalize(e, w, key, ver, c) else ServerPass.Finalize(e, w, key, ver, c)).w, key, c);
  }
}
