/** Exclusive ownership of machines: the theorems, and the two ways in which it can be lost. */
module Ownership {
  import opened Basics
  import opened Text
  import opened Claims
  import opened Environment
  import opened Inventory
  import opened ApiServer
  import opened Passes
  import opened Holdings
  import opened Exclusivity
  import opened Releasing
  import ClusterPass
  import ServerPass
  import opened Runs

  /** With the real client nothing more is asked of the passes than to happen in tenant namespaces. */
  lemma TenantRunAllowed(e: Env, r: Run)
    requires IsRun(e, r) && TenantRun(r)
    ensures AllowedRun(false, e, r)
  {
    hide Careful, Next;
    forall n: nat | n < |r.events| ensures AllowedAt(false, e, r, n) {
      assert InTenant(r.events[n]);
    }
  }

  /** With the real client: at every moment of every run, whatever fails, wherever passes stop and however
      old the versions they read, no machine is recorded by two claims or twice by one. */
  lemma {:induction false} RealClientExclusive(e: Env, r: Run, n: nat, k1: Key, k2: Key)
    requires IsRun(e, r) && Start(r.worlds[0]) && r.worlds[0].nb.sem == Real && TenantRun(r) && n < |r.worlds|
    ensures var s := r.worlds[n].kube.store;
            && NoDup(Held(s, Machine, k1))
            && (k1 != k2 ==> Apart(Held(s, Machine, k1), Held(s, Machine, k2)))
  {
    StartInv(false, r.worlds[0]);
    TenantRunAllowed(e, r);
    RunKeeps(false, e, r, n);
    assert Fits(r.worlds[n].kube.store, Machine, k1, Held(r.worlds[n].kube.store, Machine, k1));
  }

  /** The same for the address records of every live claim. */
  lemma {:induction false} RealClientAddressesExclusive(e: Env, r: Run, n: nat, k1: Key, k2: Key)
    requires IsRun(e, r) && Start(r.worlds[0]) && r.worlds[0].nb.sem == Real && TenantRun(r) && n < |r.worlds|
    ensures var w := r.worlds[n];
            && NoDup(Held(w.kube.store, Address, k1)) && Issued(w.nb, Held(w.kube.store, Address, k1))
            && (k1 != k2 ==> Apart(Held(w.kube.store, Address, k1), Held(w.kube.store, Address, k2)))
  {
    StartInv(false, r.worlds[0]);
    TenantRunAllowed(e, r);
    RunKeeps(false, e, r, n);
    var w := r.worlds[n];
    assert Fits(w.kube.store, Address, k1, Held(w.kube.store, Address, k1));
    assert Issued(w.nb, Held(w.kube.store, Address, k1));
  }

  /** With either client: while every pass that releases machines is careful (judged before it, by the version
      it sees and the fate of its calls), each recorded machine is staged under its own holder's tenant and no
      machine has two holders. Allocating passes may fail anywhere and read old versions. */
  lemma {:induction false} IntendedReleaseExclusive(e: Env, r: Run, n: nat, k1: Key, k2: Key)
    requires IsRun(e, r) && Start(r.worlds[0]) && AllowedRun(true, e, r) && n < |r.worlds|
    ensures var w := r.worlds[n];
            && NoDup(Held(w.kube.store, Machine, k1))
            && (k1 != k2 ==> Apart(Held(w.kube.store, Machine, k1), Held(w.kube.store, Machine, k2)))
            && Secured(true, w.nb.devices, TenantSlug(k1.ns), Held(w.kube.store, Machine, k1))
  {
    StartInv(true, r.worlds[0]);
    RunKeeps(true, e, r, n);
    var w := r.worlds[n];
    assert Fits(w.kube.store, Machine, k1, Held(w.kube.store, Machine, k1));
    assert Secured(true, w.nb.devices, TenantSlug(k1.ns), Held(w.kube.store, Machine, k1));
  }

  /** And only then: a run in tenant namespaces keeps the strong invariant at every moment exactly when every
      one of its passes is careful. */
  lemma {:induction false} IntendedReleaseExactly(e: Env, r: Run)
    requires IsRun(e, r) && Start(r.worlds[0]) && TenantRun(r)
    ensures AlwaysInv(r) <==> AllowedRun(true, e, r)
  {
    hide Next, Inv, Careful;
    StartInv(true, r.worlds[0]);
    if AllowedRun(true, e, r) {
      forall n: nat | n < |r.worlds| ensures InvAt(r, n) { RunKeeps(true, e, r, n); }
    }
    if AlwaysInv(r) {
      forall n: nat | n < |r.events| ensures AllowedAt(true, e, r, n) {
        assert Linked(e, r, n) && InTenant(r.events[n]) && InvAt(r, n) && InvAt(r, n + 1);
        if r.events[n].Pass? { CarefulKeepsExactly(e, r.worlds[n], r.events[n].key, r.events[n].ver); }
      }
    }
  }

  ghost predicate AlwaysInv(r: Run) {
    forall n: nat :: n < |r.worlds| ==> InvAt(r, n)
  }

  ghost predicate InvAt(r: Run, n: nat)
    requires n < |r.worlds|
  {
    Inv(true, r.worlds[n])
  }

  /** At moment n of the run the claim gets a pass from version ver. */
  predicate PassAt(r: Run, n: nat, key: Key, ver: nat) {
    |r.worlds| == |r.events| + 1 && n < |r.events| && r.events[n] == Pass(key, ver)
  }

  /** A finalizer pass keeps the strong invariant exactly when its read fails, the version it read is current and
      the removal is not refused, or every PATCH of a machine that somebody records is refused. */
  lemma {:induction false} FinalizeExactly(e: Env, r: Run, n: nat, key: Key, ver: nat, c: Claim)
    requires IsRun(e, r) && PassAt(r, n, key, ver) && Inv(true, r.worlds[n]) && TenantSlug(key.ns) != ""
    requires Seen(r.worlds[n].kube.store, key, ver) == Some(c) && c.meta.deleting
    ensures var w, ids := r.worlds[n], Recorded(Machine, c);
            var patches := w.nb.calls + |Recorded(Address, c)|;
            Inv(true, r.worlds[n + 1]) <==>
              || e.kube(w.kube.calls) != Ok
              || (IsCurrent(w.kube.store, key, ver) && e.kube(RemovalCall(e, w.kube, key, c)) != Refused)
              || (forall j: nat :: j < |ids| && Somebodys(w.kube.store, ids[j]) ==> e.netbox(patches + j) == Refused)
  {
    hide Next, Inv;
    var w, ids := r.worlds[n], Recorded(Machine, c);
    var patches := w.nb.calls + |Recorded(Address, c)|;
    assert Linked(e, r, n);
    CarefulKeepsExactly(e, w, key, ver);
    FreedNobodys(e, w.kube.store, ids, patches);
  }

  lemma FreedNobodys(e: Env, s: Store, ids: seq<int>, calls: nat)
    ensures Nobodys(s, Freed(e, ids, calls, |ids|)) <==>
              forall j: nat :: j < |ids| && Somebodys(s, ids[j]) ==> e.netbox(calls + j) == Refused
  {
    hide Somebodys;
    if Nobodys(s, Freed(e, ids, calls, |ids|)) {
      forall j: nat | j < |ids| && Somebodys(s, ids[j]) ensures e.netbox(calls + j) == Refused {
        assert ids[j] !in Freed(e, ids, calls, |ids|);
      }
    }
  }

  /** A pass over a claim that has too many machines keeps the strong invariant exactly when a read fails, rook-ceph
      is in its profile, every PATCH is answered and the shorter list written, or no machine is freed that
      somebody records. */
  lemma {:induction false} ScaleDownExactly(e: Env, r: Run, n: nat, key: Key, ver: nat, c: Claim)
    requires IsRun(e, r) && PassAt(r, n, key, ver) && Inv(true, r.worlds[n]) && TenantSlug(key.ns) != ""
    requires Seen(r.worlds[n].kube.store, key, ver) == Some(c) && Shrinks(c)
    ensures var w, c0, tail := r.worlds[n], r.worlds[n].kube.calls, c.st.machineIDs[c.spec.machineCount..];
            var answered := Answered(e, w.nb.devices, tail, w.nb.calls, |tail|);
            Inv(true, r.worlds[n + 1]) <==>
              || e.kube(c0) != Ok || e.kube(c0 + 1) != Ok
              || c.spec.profile !in w.kube.profiles || ClusterPass.UsesRook(w.kube.profiles[c.spec.profile])
              || (answered && IsCurrent(w.kube.store, key, ver) && e.kube(c0 + 2) != Refused)
              || Nobodys(w.kube.store, FreedUntilError(e, w.nb.devices, tail, w.nb.calls, |tail|))
  {
    hide Next, Inv, IsCurrent, Nobodys, FreedUntilError, Answered, ClusterPass.UsesRook;
    assert Linked(e, r, n);
    CarefulKeepsExactly(e, r.worlds[n], key, ver);
  }

  /** Finalizing or shrinking a claim, from its current version, never changes a machine another claim holds. */
  lemma {:induction false} ReleasesOnlyItsOwn(strong: bool, e: Env, r: Run, n: nat, key: Key, ver: nat, other: Key)
    requires IsRun(e, r) && PassAt(r, n, key, ver) && Inv(strong, r.worlds[n]) && other != key
    requires IsCurrent(r.worlds[n].kube.store, key, ver)
    requires var c := Current(r.worlds[n].kube.store, key); c.Some? && MayRelease(c.value)
    ensures OthersUntouched(r.worlds[n], r.worlds[n + 1], other)
  {
    hide ClusterPass.Finalize, ServerPass.Finalize, ClusterPass.ScaleDown, OthersUntouched;
    var w, w' := r.worlds[n], r.worlds[n + 1];
    assert Linked(e, r, n);
    var c := Current(w.kube.store, key).value;
    var got := ReadClaim(e, w.kube, key, ver);
    var w1 := w.(kube := got.k);
    SameDevices(w, w1, other);
    if got.read.Found? {
      if c.meta.deleting {
        FinalizeShape(e, w1, key, ver, c);
        OwnReleased(strong, w, w', key, other, c, Recorded(Machine, c));
      } else if c.meta.deleteAt.Deadline? {
        SameDevices(w, w', other);
      } else {
        var delta := |c.st.machineIDs| - c.spec.machineCount;
        ScaleDownShape(e, w1, key, ver, c, delta);
        OwnReleased(strong, w, w', key, other, c,
                    if OnlyReleased(w.nb.sem, w.nb.devices, w'.nb.devices, []) then [] else c.st.machineIDs[c.spec.machineCount..]);
      }
    }
  }

  ghost predicate OthersUntouched(w: World, w': World, other: Key) {
    |w'.nb.devices| == |w.nb.devices| &&
    forall i :: 0 <= i < |w.nb.devices| && w.nb.devices[i].id in Held(w.kube.store, Machine, other)
      ==> w'.nb.devices[i] == w.nb.devices[i]
  }

  lemma SameDevices(w: World, w': World, other: Key)
    requires w'.nb.devices == w.nb.devices
    ensures OthersUntouched(w, w', other)
  {
  }

  lemma OwnReleased(strong: bool, w: World, w': World, key: Key, other: Key, c: Claim, ids: seq<int>)
    requires Inv(strong, w) && other != key && Current(w.kube.store, key) == Some(c)
    requires OnlyReleased(w.nb.sem, w.nb.devices, w'.nb.devices, ids) && forall id :: id in ids ==> id in Recorded(Machine, c)
    ensures OthersUntouched(w, w', other)
  {
    assert Fits(w.kube.store, Machine, key, Held(w.kube.store, Machine, key));
    assert Apart(Recorded(Machine, c), Held(w.kube.store, Machine, other));
  }
}
