/** Without failures Netbox is the initial inventory with exactly the recorded machines staged, and at the end as it was. */
module Restoration {
  import opened Basics
  import opened Text
  import opened Claims
  import opened Environment
  import opened Inventory
  import opened ApiServer
  import opened Passes
  import opened Holdings
  import opened Exclusivity
  import opened Histories
  import opened Runs
  import opened Bookkeeping

  lemma ProvisionBooks(d0: seq<Device>, e: Env, w: World, key: Key, ver: nat, c: Claim)
    requires c.Cluster? && NoFaults(e) && BooksFlow(d0, Go(w, ver, c), key) && TenantSlug(key.ns) != ""
    ensures Books(d0, ClusterPass.Provision(e, w, key, ver, c).w)
  {
    var s := Get(e, w.kube, w.kube.sites, c.spec.site);
    var w1 := w.(kube := s.k);
    CallBooks(d0, w, w1, key, ver, c);
    if s.read.Found? {
      var site := s.read.value;
      ControlPlaneIPBooks(d0, e, w1, key, ver, c, site);
      var f1 := ClusterPass.AllocateControlPlaneIP(e, w1, key, ver, c, site);
      if f1.Go? {
        WebhookIPBooks(d0, e, f1.w, key, f1.ver, f1.c, site);
        var f2 := ClusterPass.AllocateWebhookIP(e, f1.w, key, f1.ver, f1.c, site);
        if f2.Go? {
          AllocateMachinesBooks(d0, e, f2.w, key, f2.ver, f2.c, site);
          var f3 := ClusterPass.AllocateMachines(e, f2.w, key, f2.ver, f2.c, site);
          if f3.Go? {
            RunJobPassive(e, f3.w, key, f3.ver, f3.c, site);
            CurrentWritable(true, f3.w, key, f3.ver, f3.c);
            RunJobKeeps(true, e, f3.w, key, f3.ver, f3.c, site);
            PassiveKeepsBooks(d0, f3.w, ClusterPass.RunJob(e, f3.w, key, f3.ver, f3.c, site).w, key);
          }
        }
      }
    }
  }

  lemma ServerProvisionBooks(d0: seq<Device>, e: Env, w: World, key: Key, ver: nat, c: Claim)
    requires c.Server? && NoFaults(e) && BooksFlow(d0, Go(w, ver, c), key) && TenantSlug(key.ns) != "" && Sound(key, c)
    ensures Books(d0, ServerPass.Provision(e, w, key, ver, c).w)
  {
    var s := Get(e, w.kube, w.kube.sites, c.sspec.site);
    var w1 := w.(kube := s.k);
    CallBooks(d0, w, w1, key, ver, c);
    if s.read.Found? {
      ServerIPBooks(d0, e, w1, key, ver, c, s.read.value);
      var f1 := ServerPass.AllocateServerIP(e, w1, key, ver, c, s.read.value);
      if f1.Go? {
        AllocateMachineBooks(d0, e, f1.w, key, f1.ver, f1.c, s.read.value);
        var f2 := ServerPass.AllocateMachine(e, f1.w, key, f1.ver, f1.c, s.read.value);
        if f2.Go? {
          ServerJobPassive(e, f2.w, key, f2.ver, f2.c);
          CurrentWritable(true, f2.w, key, f2.ver, f2.c);
          ServerJobKeeps(true, e, f2.w, key, f2.ver, f2.c);
          PassiveKeepsBooks(d0, f2.w, ServerPass.RunJob(e, f2.w, key, f2.ver, f2.c).w, key);
        }
      }
    }
  }

  lemma ScaleUpBooks(d0: seq<Device>, e: Env, w: World, key: Key, ver: nat, c: Claim, delta: nat)
    requires c.Cluster? && NoFaults(e) && BooksFlow(d0, Go(w, ver, c), key) && TenantSlug(key.ns) != ""
    ensures Books(d0, ClusterPass.ScaleUp(e, w, key, ver, c, delta).w)
  {
    var s := Get(e, w.kube, w.kube.sites, c.spec.site);
    CallBooks(d0, w, w.(kube := s.k), key, ver, c);
    if s.read.Found? {
      GrowBooks(d0, e, w.(kube := s.k), key, ver, c, s.read.value, delta);
    }
  }

  lemma ScaleDownBooks(d0: seq<Device>, e: Env, w: World, key: Key, ver: nat, c: Claim, delta: nat)
    requires c.Cluster? && delta <= |c.st.machineIDs|
    requires NoFaults(e) && BooksFlow(d0, Go(w, ver, c), key) && TenantSlug(key.ns) != ""
    ensures Books(d0, ClusterPass.ScaleDown(e, w, key, ver, c, delta).w)
  {
    var p := Get(e, w.kube, w.kube.profiles, c.spec.profile);
    var w1 := w.(kube := p.k);
    var f := ClusterPass.ScaleDown(e, w, key, ver, c, delta);
    CallBooks(d0, w, w1, key, ver, c);
    CurrentWritable(true, w, key, ver, c);
    if p.read.Found? {
      if ClusterPass.UsesRook(p.read.value) {
        SaveWorks(e, w1, key, ver, c.(st := ClusterPass.Mark(c.st, "ScaleDownBlocked", true, "RookCephPresent")));
        HeldAfter(w.kube.store, key, Current(f.w.kube.store, key));
        ScaleDownKeeps(true, e, w, key, ver, c, delta);
        SavePassive(e, w1, key, ver, c, c.(st := ClusterPass.Mark(c.st, "ScaleDownBlocked", true, "RookCephPresent")), Finished);
        PassiveKeepsBooks(d0, w1, f.w, key);
      } else {
        assert Secured(true, w.nb.devices, TenantSlug(key.ns), Recorded(Machine, c));
        ShrinkResult(e, w1, key, ver, c, delta);
        HeldAfter(w.kube.store, key, Current(f.w.kube.store, key));
        ScaleDownKeeps(true, e, w, key, ver, c, delta);
        ShrinkBooks(d0, e, w1, key, ver, c, delta);
      }
    }
  }

  lemma DeletedBooks(d0: seq<Device>, w: World, w': World, key: Key)
    requires Books(d0, w) && Current(w.kube.store, key).Some? && Sound(key, Current(w.kube.store, key).value)
    requires w'.nb == w.nb && w'.kube.store == Append(w.kube.store, key, Deleted(Current(w.kube.store, key).value))
    ensures Books(d0, w')
  {
    var s, s' := w.kube.store, w'.kube.store;
    DeletedKeeps(true, w, key);
    SameInv(true, Put(w, key, Deleted(Current(s, key).value)), w', key, Current(s, key).value);
    HeldAfter(s, key, Deleted(Current(s, key).value));
    assert forall k :: Held(s', Machine, k) == Held(s, Machine, k);
    assert forall k :: Held(s', Address, k) == Held(s, Address, k);
    SameMachineBooks(d0, w.nb.devices, s, s');
    SameAddressBooks(w.nb, w'.nb, s, s');
  }

  lemma SteadyStateBooks(d0: seq<Device>, e: Env, w: World, key: Key, ver: nat, c: Claim)
    requires c.Cluster? && NoFaults(e) && BooksFlow(d0, Go(w, ver, c), key) && TenantSlug(key.ns) != "" && Sound(key, c)
    requires c.meta.finalizer
    ensures Books(d0, ClusterPass.SteadyState(e, w, key, ver, c).w)
  {
    hide ClusterPass.ScaleUp, ClusterPass.ScaleDown, MachineBooks, AddressBooks, Inv;
    var w' := ClusterPass.SteadyState(e, w, key, ver, c).w;
    if c.meta.deleteAt.Deadline? {
      if e.clock(w.ticks) > c.meta.deleteAt.time {
        DeletedBooks(d0, w, w', key);
      } else {
        CallBooks(d0, w, w', key, ver, c);
      }
    } else {
      var desired, actual := c.spec.machineCount, |c.st.machineIDs|;
      if desired > actual {
        ScaleUpBooks(d0, e, w, key, ver, c, desired - actual);
      } else if desired < actual {
        ScaleDownBooks(d0, e, w, key, ver, c, actual - desired);
      }
    }
  }

  lemma ClusterStepBooks(d0: seq<Device>, e: Env, w: World, key: Key, ver: nat, c: Claim)
    requires c.Cluster? && NoFaults(e) && BooksFlow(d0, Go(w, ver, c), key) && TenantSlug(key.ns) != "" && Sound(key, c)
    requires !c.meta.deleting && c.meta.finalizer
    ensures Books(d0, ClusterPass.Step(e, w, key, ver, c).w)
  {
    hide ClusterPass.Validate, ClusterPass.Provision, ClusterPass.WatchAddons, ClusterPass.ExposeKubeconfig, ClusterPass.SteadyState,
      Passive, MachineBooks, AddressBooks;
    var w' := ClusterPass.Step(e, w, key, ver, c).w;
    CurrentWritable(true, w, key, ver, c);
    match c.st.phase {
      case Pending =>
        ValidatePassive(e, w, key, ver, c);
        ValidateKeeps(true, e, w, key, ver, c);
        PassiveKeepsBooks(d0, w, w', key);
      case Provisioning =>
        ProvisionBooks(d0, e, w, key, ver, c);
      case ClusterReady =>
        WatchAddonsPassive(e, w, key, ver, c);
        WatchAddonsKeeps(true, e, w, key, ver, c);
        PassiveKeepsBooks(d0, w, w', key);
      case AddonsReady =>
        ExposePassive(e, w, key, ver, c);
        ExposeKeeps(true, e, w, key, ver, c);
        PassiveKeepsBooks(d0, w, w', key);
      case Ready =>
        SteadyStateBooks(d0, e, w, key, ver, c);
      case Failed =>
    }
  }

  lemma ServerStepBooks(d0: seq<Device>, e: Env, w: World, key: Key, ver: nat, c: Claim)
    requires c.Server? && NoFaults(e) && BooksFlow(d0, Go(w, ver, c), key) && TenantSlug(key.ns) != "" && Sound(key, c)
    requires !c.meta.deleting && c.meta.finalizer
    ensures Books(d0, ServerPass.Step(e, w, key, ver, c).w)
  {
    CurrentWritable(true, w, key, ver, c);
    match c.sst.phase {
      case Pending =>
        ServerValidatePassive(e, w, key, ver, c);
        ServerValidateKeeps(true, e, w, key, ver, c);
        PassiveKeepsBooks(d0, w, ServerPass.Step(e, w, key, ver, c).w, key);
      case Provisioning =>
        ServerProvisionBooks(d0, e, w, key, ver, c);
      case _ =>
    }
  }

  lemma StepBooks(d0: seq<Device>, e: Env, w: World, key: Key, ver: nat, c: Claim)
    requires NoFaults(e) && BooksFlow(d0, Go(w, ver, c), key) && TenantSlug(key.ns) != "" && Sound(key, c)
    ensures Books(d0, Step(e, w, key, ver, c).w)
  {
    var w' := Step(e, w, key, ver, c).w;
    CurrentWritable(true, w, key, ver, c);
    if c.meta.deleting {
      FinalizeResult(e, w, key, ver, c);
      HeldAfter(w.kube.store, key, None);
      FinalizeKeeps(true, e, w, key, ver, c);
      FinalizeBooks(d0, e, w, key, ver, c);
    } else if !c.meta.finalizer {
      var c' := WithMeta(c, c.meta.(finalizer := true));
      Frame(true, w, w, key, ver, c, c');
      SaveKeepsInv(true, e, w, key, ver, c');
      SavePassive(e, w, key, ver, c, c', Finished);
      PassiveKeepsBooks(d0, w, w', key);
    } else if c.Cluster? {
      ClusterStepBooks(d0, e, w, key, ver, c);
    } else {
      ServerStepBooks(d0, e, w, key, ver, c);
    }
  }

  /** A pass of an undisturbed run: in a tenant namespace, from the current version. */
  ghost predicate Undisturbed(w: World, ev: Event) {
    ev.Pass? ==> TenantSlug(ev.key.ns) != "" && IsCurrent(w.kube.store, ev.key, ev.ver)
  }

  lemma NextBooks(d0: seq<Device>, e: Env, w: World, ev: Event)
    requires NoFaults(e) && Books(d0, w) && Sane(w) && Undisturbed(w, ev)
    ensures Books(d0, Next(e, w, ev))
  {
    var w' := Next(e, w, ev);
    if ev.Pass? {
      var got := ReadClaim(e, w.kube, ev.key, ev.ver);
      var w1 := w.(kube := got.k);
      SameMachineBooks(d0, w.nb.devices, w.kube.store, w1.kube.store);
      SameAddressBooks(w.nb, w1.nb, w.kube.store, w1.kube.store);
      SameInv(true, w, w1, ev.key, Cluster(NEW_META, ClusterSpec("", 0, "", ""), EMPTY_CLUSTER_STATUS));
      if got.read.Found? {
        assert SaneKey(w, ev.key);
        StepBooks(d0, e, w1, ev.key, ev.ver, got.read.value);
      }
    } else {
      OutsideBooks(d0, e, w, ev);
    }
  }

  lemma OutsideBooks(d0: seq<Device>, e: Env, w: World, ev: Event)
    requires Books(d0, w) && Sane(w) && !ev.Pass?
    ensures Books(d0, Next(e, w, ev))
  {
    var w' := Next(e, w, ev);
    OutsideKeeps(true, e, w, ev);
    if ev.Change? {
      SameMachineBooks(d0, w.nb.devices, w.kube.store, w'.kube.store);
      SameAddressBooks(w.nb, w'.nb, w.kube.store, w'.kube.store);
    } else if ev.Delete? {
      if Current(w.kube.store, ev.key).Some? {
        assert SaneKey(w, ev.key);
        DeletedBooks(d0, w, w', ev.key);
      }
    } else if w' != w {
      HeldAfter(w.kube.store, ev.key, Current(w'.kube.store, ev.key));
      PassiveKeepsBooks(d0, w, w', ev.key);
    }
  }

  ghost predicate UndisturbedRun(r: Run)
    requires |r.worlds| == |r.events| + 1
  {
    forall n: nat :: n < |r.events| ==> Undisturbed(r.worlds[n], r.events[n])
  }

  /** A run of the in-memory inventory from its start in which nothing fails and no pass sees an old version. */
  ghost predicate CalmRun(e: Env, r: Run) {
    && IsRun(e, r) && UndisturbedRun(r)
    && NoFaults(e) && AddressesNonempty(e)
    && Start(r.worlds[0]) && r.worlds[0].nb.sem == Fake
  }

  lemma {:induction false} RunBooks(e: Env, r: Run, n: nat)
    requires CalmRun(e, r) && n < |r.worlds|
    ensures Books(r.worlds[0].nb.devices, r.worlds[n]) && Sane(r.worlds[n])
  {
    hide Next, Sane, Books, Undisturbed;
    if n == 0 {
      StartBooks(r.worlds[0]);
    } else {
      RunBooks(e, r, n - 1);
      assert Linked(e, r, n - 1) && Undisturbed(r.worlds[n - 1], r.events[n - 1]);
      NextBoth(r.worlds[0].nb.devices, e, r.worlds[n - 1], r.events[n - 1]);
    }
  }

  lemma NextBoth(d0: seq<Device>, e: Env, w: World, ev: Event)
    requires NoFaults(e) && AddressesNonempty(e) && Books(d0, w) && Sane(w) && Undisturbed(w, ev)
    ensures Books(d0, Next(e, w, ev)) && Sane(Next(e, w, ev))
  {
    NextBooks(d0, e, w, ev);
    NextSane(e, w, ev);
  }

  lemma StartBooks(w: World)
    requires Start(w) && w.nb.sem == Fake
    ensures Books(w.nb.devices, w) && Sane(w)
  {
    StartInv(true, w);
  }

  /** When nothing fails and the last claim is gone, Netbox has every device back as it was, and every
      address that was handed out has been released exactly once. */
  lemma {:induction false} EverythingRestored(e: Env, r: Run, n: nat)
    requires CalmRun(e, r) && n < |r.worlds| && forall key :: Current(r.worlds[n].kube.store, key).None?
    ensures var nb := r.worlds[n].nb;
            && nb.devices == r.worlds[0].nb.devices
            && NoDup(nb.released) && forall id :: id in nb.released <==> 0 < id < nb.nextIP
  {
    RunBooks(e, r, n);
    var w, w' := r.worlds[0], r.worlds[n];
    forall id: int ensures id in w'.nb.released <==> 0 < id < w'.nb.nextIP {
      assert AddressBooked(w'.nb, w'.kube.store, id);
      assert forall key :: Held(w'.kube.store, Address, key) == [];
    }
    forall i | 0 <= i < |w.nb.devices| ensures w'.nb.devices[i] == w.nb.devices[i] {
      assert DeviceBooked(w.nb.devices, w'.nb.devices, w'.kube.store, i);
      assert forall key :: Held(w'.kube.store, Machine, key) == [];
    }
  }

  /** At every moment of such a run: the devices that are not recorded are untouched, the recorded ones
      were available, and no claim ever records more addresses than its kind needs. */
  lemma {:induction false} PoolConserved(e: Env, r: Run, n: nat, i: nat, key: Key)
    requires CalmRun(e, r) && n < |r.worlds| && i < |r.worlds[0].nb.devices|
    ensures var w, w' := r.worlds[0], r.worlds[n];
            var held, c := MachineHeld(w'.kube.store, w.nb.devices[i].id), Current(w'.kube.store, key);
            && i < |w'.nb.devices|
            && (Available(w.nb.devices[i]) <==> Available(w'.nb.devices[i]) || held)
            && !(Available(w'.nb.devices[i]) && held)
            && |Held(w'.kube.store, Address, key)| <= if c.Some? && c.value.Cluster? then 2 else 1
  {
    RunBooks(e, r, n);
    var w, w' := r.worlds[0], r.worlds[n];
    assert SaneKey(w', key);
    assert DeviceBooked(w.nb.devices, w'.nb.devices, w'.kube.store, i);
    if MachineHeld(w'.kube.store, w.nb.devices[i].id) {
      var k: Key :| w.nb.devices[i].id in Held(w'.kube.store, Machine, k);
    }
  }
}
