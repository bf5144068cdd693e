/** Scaling a Ready cluster: one pass either reaches the wanted size or leaves list and inventory alone,
    and growing is undone by shrinking back. */
module Scaling {
  import opened Basics
  import opened Text
  import opened Claims
  import opened Environment
  import opened Inventory
  import opened ApiServer
  import opened Passes
  import opened Holdings
  import opened Exclusivity
  import opened Bookkeeping
  import ClusterPass
  import opened Runs

  /** A Ready cluster claim, not on its way out, whose machines are all in the inventory. */
  ghost predicate Steady(w: World, key: Key, c: Claim) {
    && Current(w.kube.store, key) == Some(c)
    && c.Cluster? && c.st.phase == Ready && c.meta.finalizer && !c.meta.deleting && !c.meta.deleteAt.Deadline?
    && TenantSlug(key.ns) != "" && UniqueIDs(w.nb.devices)
    && forall id :: id in c.st.machineIDs ==> HasDevice(w.nb.devices, id)
  }

  /** The claim's next pass, from its current version. */
  function PassNow(e: Env, w: World, key: Key): World {
    Next(e, w, Pass(key, Latest(w, key)))
  }

  /** The world after the pass has read its claim. */
  function HavingRead(w: World): World {
    w.(kube := w.kube.(calls := w.kube.calls + 1))
  }

  lemma PassScales(e: Env, w: World, key: Key, c: Claim)
    requires NoFaults(e) && Steady(w, key, c)
    ensures PassNow(e, w, key) == ClusterPass.Scale(e, HavingRead(w), key, Latest(w, key), c).w
  {
    hide ClusterPass.Scale;
    assert ReadClaim(e, w.kube, key, Latest(w, key)) == Got(HavingRead(w).kube, Found(c));
  }

  /** The machines a larger cluster is offered. */
  function OfferedTo(w: World, c: Claim): seq<Device>
    requires c.Cluster? && c.spec.site in w.kube.sites
  {
    AvailableDevices(w.nb.sem, w.nb.devices, w.kube.sites[c.spec.site].slug, c.spec.machineClass)
  }

  /** When one pass can bring the cluster to the size its spec asks for. */
  predicate Scalable(w: World, c: Claim)
    requires c.Cluster?
  {
    var desired, actual := c.spec.machineCount, |c.st.machineIDs|;
    if desired > actual then c.spec.site in w.kube.sites && |OfferedTo(w, c)| >= desired - actual
    else if desired < actual then
      c.spec.profile in w.kube.profiles && !ClusterPass.UsesRook(w.kube.profiles[c.spec.profile])
    else true
  }

  /** What a pass that grows the cluster leaves: the first machines offered, staged and appended. */
  ghost predicate Grown(w: World, w': World, key: Key, c: Claim)
    requires c.Cluster?
  {
    c.spec.site in w.kube.sites &&
    var n, slug := c.spec.machineCount - |c.st.machineIDs|, TenantSlug(key.ns);
    var offered := OfferedTo(w, c);
    0 <= n <= |offered| &&
    var ids := seq(n, i requires 0 <= i < n => offered[i].id);
    && Current(w'.kube.store, key) == Some(c.(st := c.st.(machineIDs := c.st.machineIDs + ids)))
    && |w'.nb.devices| == |w.nb.devices|
    && (forall i :: 0 <= i < |w.nb.devices| ==>
          w'.nb.devices[i] == if w.nb.devices[i].id in ids then StagedFor(w.nb.devices[i], slug) else w.nb.devices[i])
    && (forall i :: 0 <= i < |w.nb.devices| && w.nb.devices[i].id in ids ==> Available(w.nb.devices[i]))
    && (forall id :: id in ids ==> HasDevice(w.nb.devices, id))
  }

  /** What a pass that shrinks it leaves: the last machines released and dropped from the list. */
  ghost predicate Shrunk(w: World, w': World, key: Key, c: Claim)
    requires c.Cluster? && c.spec.machineCount <= |c.st.machineIDs|
  {
    var keep := c.spec.machineCount;
    && Current(w'.kube.store, key) == Some(c.(st := c.st.(machineIDs := c.st.machineIDs[..keep])))
    && ReleasedExactly(w.nb.sem, w.nb.devices, w'.nb.devices, c.st.machineIDs[keep..])
  }

  /** The list is as it was and so is the inventory. */
  predicate Untouched(w: World, w': World, key: Key, c: Claim)
    requires c.Cluster?
  {
    var c' := Current(w'.kube.store, key);
    && c'.Some? && c'.value.Cluster? && c'.value.(st := c'.value.st.(conditions := c.st.conditions)) == c
    && w'.nb.devices == w.nb.devices
  }

  lemma GrowResult(e: Env, w: World, key: Key, c: Claim)
    requires NoFaults(e) && Steady(w, key, c) && c.spec.machineCount > |c.st.machineIDs|
    ensures if Scalable(w, c) then Grown(w, PassNow(e, w, key), key, c) else Untouched(w, PassNow(e, w, key), key, c)
  {
    hide PassNow, Stage, Selected, Available, WriteClaim;
    var w1, ver, n := HavingRead(w), Latest(w, key), c.spec.machineCount - |c.st.machineIDs|;
    PassScales(e, w, key, c);
    if c.spec.site in w.kube.sites {
      var w2 := w1.(kube := Get(e, w1.kube, w1.kube.sites, c.spec.site).k);
      var offered := OfferedTo(w, c);
      ListingOffers(e, w2.nb, w.kube.sites[c.spec.site].slug, c.spec.machineClass);
      var nb := w2.nb.(calls := w2.nb.calls + 1);
      if |offered| < n {
        SaveWorks(e, w2.(nb := nb), key, ver, c.(st := ClusterPass.Mark(c.st, "ScaleUpBlocked", true, "InsufficientMachines")));
      } else {
        var t := Stage(e, nb, offered, n, TenantSlug(key.ns), false);
        StageSucceeds(e, nb, offered, n, TenantSlug(key.ns), false);
        StageFacts(e, nb, offered, n, TenantSlug(key.ns), false);
        var ids := seq(n, i requires 0 <= i < n => offered[i].id);
        assert t.ids == ids;
        SaveWorks(e, w2.(nb := t.nb), key, ver, c.(st := c.st.(machineIDs := c.st.machineIDs + ids)));
        FirstOffered(w.nb.devices, offered, n, ids);
      }
    }
  }

  lemma FirstOffered(ds: seq<Device>, devs: seq<Device>, n: nat, ids: seq<int>)
    requires UniqueIDs(ds) && Offered(ds, devs) && n <= |devs| && |ids| == n
    requires forall i :: 0 <= i < n ==> ids[i] == devs[i].id
    ensures forall i :: 0 <= i < |ds| && ds[i].id in ids ==> Available(ds[i])
    ensures forall id :: id in ids ==> HasDevice(ds, id)
  {
    forall i | 0 <= i < |ds| && ds[i].id in ids ensures Available(ds[i]) {
      var x :| 0 <= x < n && ids[x] == ds[i].id;
      OfferedIsAvailable(ds, devs, x, i);
    }
    forall id | id in ids ensures HasDevice(ds, id) {
      var x :| 0 <= x < n && ids[x] == id;
      assert devs[x] in devs;
      var j :| 0 <= j < |ds| && ds[j] == devs[x];
    }
  }

  lemma ShrinkPass(e: Env, w: World, key: Key, c: Claim)
    requires NoFaults(e) && Steady(w, key, c) && c.spec.machineCount < |c.st.machineIDs|
    ensures if Scalable(w, c) then Shrunk(w, PassNow(e, w, key), key, c) else Untouched(w, PassNow(e, w, key), key, c)
  {
    hide PassNow, ClusterPass.Shrink, ClusterPass.UsesRook;
    var w1, ver, n := HavingRead(w), Latest(w, key), |c.st.machineIDs| - c.spec.machineCount;
    PassScales(e, w, key, c);
    var w2 := w1.(kube := Get(e, w1.kube, w1.kube.profiles, c.spec.profile).k);
    if Scalable(w, c) {
      ShrinkResult(e, w2, key, ver, c, n);
      HeldAfter(w2.kube.store, key, Some(c.(st := c.st.(machineIDs := c.st.machineIDs[..c.spec.machineCount]))));
    } else {
      SaveWorks(e, w2, key, ver, c.(st := ClusterPass.Mark(c.st, "ScaleDownBlocked", true, "RookCephPresent")));
    }
  }

  ghost predicate Converged(w: World, w': World, key: Key, c: Claim)
    requires c.Cluster?
  {
    var c' := Current(w'.kube.store, key);
    && c'.Some? && c'.value.Cluster?
    && (|c'.value.st.machineIDs| == c.spec.machineCount <==> Scalable(w, c))
    && (!Scalable(w, c) ==> Untouched(w, w', key, c))
  }

  /** One pass without faults reaches the wanted size exactly when it can; otherwise it touches neither
      the list nor the inventory. */
  lemma {:induction false} ScalingConverges(e: Env, r: Run, n: nat, key: Key, c: Claim)
    requires IsRun(e, r) && n < |r.events| && r.events[n] == Pass(key, Latest(r.worlds[n], key))
    requires NoFaults(e) && Steady(r.worlds[n], key, c)
    ensures Converged(r.worlds[n], r.worlds[n + 1], key, c)
  {
    hide Reconcile;
    assert Linked(e, r, n) && r.worlds[n + 1] == PassNow(e, r.worlds[n], key);
    PassConverges(e, r.worlds[n], key, c);
  }

  lemma PassConverges(e: Env, w: World, key: Key, c: Claim)
    requires NoFaults(e) && Steady(w, key, c)
    ensures Converged(w, PassNow(e, w, key), key, c)
  {
    if c.spec.machineCount > |c.st.machineIDs| {
      GrowResult(e, w, key, c);
    } else if c.spec.machineCount < |c.st.machineIDs| {
      ShrinkPass(e, w, key, c);
    } else {
      PassScales(e, w, key, c);
    }
  }

  // ---- There and back ---------------------------------------------------------------------

  function Edited(w: World, key: Key, c: Claim, size: nat): World
    requires c.Cluster?
  {
    Put(w, key, Some(c.(spec := c.spec.(machineCount := size))))
  }

  lemma EditSteady(w: World, key: Key, c: Claim, size: nat)
    requires Steady(w, key, c)
    ensures Steady(Edited(w, key, c, size), key, c.(spec := c.spec.(machineCount := size)))
  {
    HeldAfter(w.kube.store, key, Some(c.(spec := c.spec.(machineCount := size))));
  }

  /** Same machines as before: identical under the fake, and under the real client up to the tenant,
      which its release leaves in place. */
  predicate Back(sem: Semantics, ds: seq<Device>, ds': seq<Device>) {
    && |ds'| == |ds|
    && forall i :: 0 <= i < |ds| ==>
         && ds'[i].status == ds[i].status
         && (sem == Fake ==> ds'[i] == ds[i])
         && ds'[i].(tenant := ds[i].tenant) == ds[i]
  }

  predicate Restored(w: World, w': World, key: Key, c: Claim)
    requires c.Cluster?
  {
    var c' := Current(w'.kube.store, key);
    && c'.Some? && c'.value.Cluster? && c'.value.st.machineIDs == c.st.machineIDs
    && Back(w.nb.sem, w.nb.devices, w'.nb.devices)
  }

  /** The run in which a user asks for another size, the claim gets a pass, and the same once more. */
  ghost predicate Resizes(e: Env, r: Run, key: Key, spec: ClusterSpec, first: nat, second: nat) {
    && IsRun(e, r) && |r.events| == 4
    && r.events[0] == EditSpec(key, spec.(machineCount := first))
    && r.events[1] == Pass(key, Latest(r.worlds[1], key))
    && r.events[2] == EditSpec(key, spec.(machineCount := second))
    && r.events[3] == Pass(key, Latest(r.worlds[3], key))
  }

  /** Grow by d and shrink by d: the list and every status are restored, and with the fake every tenant,
      whether or not there were enough machines to grow. */
  lemma {:induction false} ShrinkUndoesGrow(e: Env, r: Run, key: Key, c: Claim, d: nat)
    requires c.Cluster? && Resizes(e, r, key, c.spec, |c.st.machineIDs| + d, |c.st.machineIDs|)
    requires NoFaults(e) && Steady(r.worlds[0], key, c)
    requires c.spec.profile in r.worlds[0].kube.profiles && !ClusterPass.UsesRook(r.worlds[0].kube.profiles[c.spec.profile])
    ensures Restored(r.worlds[0], r.worlds[4], key, c)
  {
    hide Reconcile, ClusterPass.UsesRook, Steady;
    var size, w := |c.st.machineIDs|, r.worlds[0];
    assert Linked(e, r, 0) && Linked(e, r, 1) && Linked(e, r, 2) && Linked(e, r, 3);
    SteadyCurrent(w, key, c);
    EditSteady(w, key, c, size + d);
    assert r.worlds[1] == Edited(w, key, c, size + d);
    var c1 := c.(spec := c.spec.(machineCount := size + d));
    var c2 := GrownOrNot(e, r.worlds[1], r.worlds[2], key, c1);
    SteadyCurrent(r.worlds[2], key, c2);
    EditSteady(r.worlds[2], key, c2, size);
    assert r.worlds[3] == Edited(r.worlds[2], key, c2, size);
    ShrunkBack(e, r.worlds[1], r.worlds[2], r.worlds[3], r.worlds[4], key, c1, c2);
  }

  lemma SteadyCurrent(w: World, key: Key, c: Claim)
    requires Steady(w, key, c)
    ensures Current(w.kube.store, key) == Some(c) && c.Cluster?
  {
  }

  /** After the pass that should grow: the claim is still steady and has its old spec. */
  lemma GrownOrNot(e: Env, w: World, w': World, key: Key, c: Claim) returns (c': Claim)
    requires NoFaults(e) && Steady(w, key, c) && w' == PassNow(e, w, key) && c.spec.machineCount >= |c.st.machineIDs|
    ensures Steady(w', key, c') && c'.spec == c.spec
    ensures if c.spec.machineCount > |c.st.machineIDs| && Scalable(w, c) then Grown(w, w', key, c) else Untouched(w, w', key, c)
    ensures w'.kube.profiles == w.kube.profiles && w'.nb.sem == w.nb.sem
  {
    hide PassNow;
    PassFrame(e, w, key, c);
    if c.spec.machineCount > |c.st.machineIDs| && Scalable(w, c) {
      GrowResult(e, w, key, c);
      c' := Current(w'.kube.store, key).value;
      GrownSteady(w, w', key, c, c');
    } else {
      Unchanged(e, w, key, c);
      c' := Current(w'.kube.store, key).value;
    }
  }

  lemma ShrunkBack(e: Env, w1: World, w2: World, w3: World, w4: World, key: Key, c1: Claim, c2: Claim)
    requires NoFaults(e) && Steady(w1, key, c1) && Steady(w2, key, c2) && c2.spec == c1.spec && w2.nb.sem == w1.nb.sem
    requires c1.spec.machineCount >= |c1.st.machineIDs|
    requires if c1.spec.machineCount > |c1.st.machineIDs| && Scalable(w1, c1) then Grown(w1, w2, key, c1) else Untouched(w1, w2, key, c1)
    requires w3 == Edited(w2, key, c2, |c1.st.machineIDs|) && w4 == PassNow(e, w3, key)
    requires c1.spec.profile in w2.kube.profiles && !ClusterPass.UsesRook(w2.kube.profiles[c1.spec.profile])
    ensures Restored(w1, w4, key, c1)
  {
    hide PassNow, ClusterPass.UsesRook;
    var c3 := c2.(spec := c2.spec.(machineCount := |c1.st.machineIDs|));
    EditSteady(w2, key, c2, |c1.st.machineIDs|);
    if c1.spec.machineCount > |c1.st.machineIDs| && Scalable(w1, c1) {
      ShrinkPass(e, w3, key, c3);
      Returned(w1, w2, w4, key, c1, c2);
    } else {
      Unchanged(e, w3, key, c3);
    }
  }

  /** A scaling pass leaves sites, profiles and the kind of client alone. */
  lemma PassFrame(e: Env, w: World, key: Key, c: Claim)
    requires NoFaults(e) && Steady(w, key, c)
    ensures var w' := PassNow(e, w, key);
            w'.kube.sites == w.kube.sites && w'.kube.profiles == w.kube.profiles && w'.nb.sem == w.nb.sem
  {
    hide PassNow, Selected, Stage, SetDeviceStatus;
    PassScales(e, w, key, c);
    if c.spec.machineCount > |c.st.machineIDs| && c.spec.site in w.kube.sites {
      ListingOffers(e, w.nb, w.kube.sites[c.spec.site].slug, c.spec.machineClass);
      if Scalable(w, c) {
        StageFacts(e, w.nb.(calls := w.nb.calls + 1), OfferedTo(w, c), c.spec.machineCount - |c.st.machineIDs|, TenantSlug(key.ns), false);
      }
    } else if c.spec.machineCount < |c.st.machineIDs| {
      var n := |c.st.machineIDs| - c.spec.machineCount;
      ReleaseUntilErrorFacts(e, w.nb, c.st.machineIDs[c.spec.machineCount..], n);
    }
  }

  /** A claim of the wanted size, or one that cannot have it, keeps what it has. */
  lemma Unchanged(e: Env, w: World, key: Key, c: Claim)
    requires NoFaults(e) && Steady(w, key, c)
    requires c.spec.machineCount == |c.st.machineIDs| || !Scalable(w, c)
    ensures Untouched(w, PassNow(e, w, key), key, c)
  {
    if c.spec.machineCount == |c.st.machineIDs| {
      PassScales(e, w, key, c);
    } else {
      PassConverges(e, w, key, c);
    }
  }

  lemma GrownSteady(w: World, w': World, key: Key, c: Claim, c': Claim)
    requires Steady(w, key, c) && Grown(w, w', key, c) && Current(w'.kube.store, key) == Some(c')
    ensures Steady(w', key, c')
  {
    forall id | HasDevice(w.nb.devices, id) ensures HasDevice(w'.nb.devices, id) {
      var i :| 0 <= i < |w.nb.devices| && w.nb.devices[i].id == id;
      assert w'.nb.devices[i].id == id;
    }
  }

  lemma Returned(w: World, w1: World, w2: World, key: Key, c: Claim, c1: Claim)
    requires Steady(w, key, c) && Grown(w, w1, key, c) && c1.Cluster? && w1.nb.sem == w.nb.sem
    requires Current(w1.kube.store, key) == Some(c1)
    requires var size := |c.st.machineIDs|;
             size <= |c1.st.machineIDs| &&
             Shrunk(Edited(w1, key, c1, size), w2, key, c1.(spec := c1.spec.(machineCount := size)))
    ensures Restored(w, w2, key, c)
  {
    var size := |c.st.machineIDs|;
    assert c1.st.machineIDs[..size] == c.st.machineIDs;
    var n, offered := c.spec.machineCount - size, OfferedTo(w, c);
    var ids := seq(n, i requires 0 <= i < n => offered[i].id);
    assert c1.st.machineIDs[size..] == ids;
    forall i | 0 <= i < |w.nb.devices|
      ensures w2.nb.devices[i] == if w.nb.devices[i].id in ids then Patch(w.nb.sem, w1.nb.devices[i], Active, "") else w.nb.devices[i]
    {
      assert w1.nb.devices[i].id == w.nb.devices[i].id;
    }
  }
}
