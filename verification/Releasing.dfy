/** When a pass that releases machines keeps the holdings apart, told from the world before it and from what becomes
    of its calls; then the holdings invariant over whole runs.
    With the intended release a pass does harm exactly when it frees a machine that somebody records and does not
    get its claim written. */
module Releasing {
  import opened Basics
  import opened Text
  import opened Claims
  import opened Environment
  import opened Inventory
  import opened ApiServer
  import opened Passes
  import opened Holdings
  import opened Exclusivity
  import ClusterPass
  import RoleRules
  import ServerPass
  import opened Runs

  // ---- Which machines the loops free ------------------------------------------------------

  /** The machines among the first n whose PATCH, numbered from `calls`, is not refused. */
  ghost function Freed(e: Env, ids: seq<int>, calls: nat, n: nat): (r: set<int>)
    requires n <= |ids|
    ensures forall id :: id in r <==> exists j: nat :: j < n && ids[j] == id && e.netbox(calls + j) != Refused
  {
    set j: nat | j < n && e.netbox(calls + j) != Refused :: ids[j]
  }

  /** The first n PATCHes are all answered, by devices that exist. */
  ghost predicate Answered(e: Env, ds: seq<Device>, ids: seq<int>, calls: nat, n: nat)
    requires n <= |ids|
  {
    forall j: nat :: j < n ==> AnsweredAt(e, ds, ids, calls, j)
  }

  predicate AnsweredAt(e: Env, ds: seq<Device>, ids: seq<int>, calls: nat, j: nat)
    requires j < |ids|
  {
    e.netbox(calls + j) == Ok && HasDevice(ds, ids[j])
  }

  /** The same machines in a loop that ends at its first error. */
  ghost function FreedUntilError(e: Env, ds: seq<Device>, ids: seq<int>, calls: nat, n: nat): (r: set<int>)
    requires n <= |ids|
    ensures forall id :: id in r <==>
      exists j: nat :: j < n && ids[j] == id && e.netbox(calls + j) != Refused && Answered(e, ds, ids, calls, j)
  {
    set j: nat | j < n && e.netbox(calls + j) != Refused && Answered(e, ds, ids, calls, j) :: ids[j]
  }

  ghost predicate FreesExactly(sem: Semantics, ds: seq<Device>, ds': seq<Device>, freed: set<int>) {
    && |ds'| == |ds|
    && forall i :: 0 <= i < |ds| ==> ds'[i] == if ds[i].id in freed then Patch(sem, ds[i], Active, "") else ds[i]
  }

  lemma {:induction false} ReleaseEachExactly(e: Env, nb: Netbox, ids: seq<int>, n: nat)
    requires n <= |ids|
    ensures var nb' := ReleaseEach(e, nb, ids, n);
            nb'.calls == nb.calls + n && nb'.sem == nb.sem && FreesExactly(nb.sem, nb.devices, nb'.devices, Freed(e, ids, nb.calls, n))
  {
    if n > 0 {
      ReleaseEachExactly(e, nb, ids, n - 1);
      assert Freed(e, ids, nb.calls, n)
          == Freed(e, ids, nb.calls, n - 1) + if e.netbox(nb.calls + n - 1) != Refused then {ids[n - 1]} else {};
    }
  }

  lemma {:induction false} ReleaseUntilErrorExactly(e: Env, nb: Netbox, ids: seq<int>, n: nat)
    requires n <= |ids|
    ensures var d := ReleaseUntilError(e, nb, ids, n);
            && (d.ok <==> Answered(e, nb.devices, ids, nb.calls, n)) && (d.ok ==> d.nb.calls == nb.calls + n)
            && d.nb.sem == nb.sem
            && FreesExactly(nb.sem, nb.devices, d.nb.devices, FreedUntilError(e, nb.devices, ids, nb.calls, n))
  {
    hide HasDevice, FreesExactly;
    if n == 0 {
      assert FreedUntilError(e, nb.devices, ids, nb.calls, 0) == {};
      NothingFreed(nb.sem, nb.devices);
    } else {
      ReleaseUntilErrorExactly(e, nb, ids, n - 1);
      var d := ReleaseUntilError(e, nb, ids, n - 1);
      var freed := FreedUntilError(e, nb.devices, ids, nb.calls, n - 1);
      FreedOneMore(e, nb.devices, ids, nb.calls, n - 1);
      AnsweredOneMore(e, nb.devices, ids, nb.calls, n - 1);
      SameIDs(nb.sem, nb.devices, d.nb.devices, freed, ids[n - 1]);
      OneMoreFreed(nb.sem, nb.devices, d.nb.devices, freed, ids[n - 1]);
      assert freed + {} == freed;
    }
  }

  lemma AnsweredOneMore(e: Env, ds: seq<Device>, ids: seq<int>, calls: nat, n: nat)
    requires n < |ids|
    ensures Answered(e, ds, ids, calls, n + 1) <==>
              Answered(e, ds, ids, calls, n) && e.netbox(calls + n) == Ok && HasDevice(ds, ids[n])
  {
    hide HasDevice;
    assert AnsweredAt(e, ds, ids, calls, n) <==> e.netbox(calls + n) == Ok && HasDevice(ds, ids[n]);
  }

  lemma NothingFreed(sem: Semantics, ds: seq<Device>)
    ensures FreesExactly(sem, ds, ds, {})
  {
  }

  lemma OneMoreFreed(sem: Semantics, ds: seq<Device>, ds': seq<Device>, freed: set<int>, id: int)
    requires FreesExactly(sem, ds, ds', freed)
    ensures FreesExactly(sem, ds, PatchDevice(sem, ds', id, Active, ""), freed + {id})
  {
  }

  lemma FreedOneMore(e: Env, ds: seq<Device>, ids: seq<int>, calls: nat, n: nat)
    requires n < |ids|
    ensures FreedUntilError(e, ds, ids, calls, n + 1)
         == FreedUntilError(e, ds, ids, calls, n)
            + if Answered(e, ds, ids, calls, n) && e.netbox(calls + n) != Refused then {ids[n]} else {}
  {
    hide Answered;
  }

  lemma SameIDs(sem: Semantics, ds: seq<Device>, ds': seq<Device>, freed: set<int>, id: int)
    requires FreesExactly(sem, ds, ds', freed)
    ensures HasDevice(ds', id) <==> HasDevice(ds, id)
  {
    if HasDevice(ds, id) {
      var i :| 0 <= i < |ds| && ds[i].id == id;
      assert ds'[i].id == id;
    }
  }

  // ---- Machines that somebody records -----------------------------------------------------

  ghost predicate Somebodys(s: Store, id: int) {
    exists key :: id in Held(s, Machine, key)
  }

  ghost predicate Nobodys(s: Store, ids: set<int>) {
    forall id :: id in ids ==> !Somebodys(s, id)
  }

  /** Held machines are spared exactly when only machines that nobody records are freed. */
  lemma SparedExactly(w: World, w': World, freed: set<int>)
    requires Inv(true, w) && FreesExactly(w.nb.sem, w.nb.devices, w'.nb.devices, freed)
    ensures SparedHeld(w, w') <==> Nobodys(w.kube.store, freed)
  {
    if !Nobodys(w.kube.store, freed) {
      var id :| id in freed && Somebodys(w.kube.store, id);
      var k :| id in Held(w.kube.store, Machine, k);
      assert Secured(true, w.nb.devices, TenantSlug(k.ns), Held(w.kube.store, Machine, k));
      var i :| 0 <= i < |w.nb.devices| && w.nb.devices[i].id == id;
      assert w'.nb.devices[i].status == Active && w.nb.devices[i].status == Staged;
    }
  }

  // ---- Careful passes ---------------------------------------------------------------------

  /** The write from this version, at that call to the API server, takes effect. */
  predicate Writes(e: Env, w: World, key: Key, ver: nat, call: nat) {
    IsCurrent(w.kube.store, key, ver) && e.kube(call) != Refused
  }

  /** Which call removes the claim: after reading it, a cluster claim with a kubeconfig reads the Role, and
      updates it when it got it. */
  function RemovalCall(e: Env, k: Kube, key: Key, c: Claim): nat {
    if c.Server? || c.st.kubeconfig == "" then k.calls + 1
    else if e.kube(k.calls + 1) == Ok && key.ns in k.roles then k.calls + 3
    else k.calls + 2
  }

  /** A finalizer does no harm: its read fails, its claim is removed, or it frees nobody's machine. */
  ghost predicate CarefulFinalizer(e: Env, w: World, key: Key, ver: nat, c: Claim) {
    var ips, ids := Recorded(Address, c), Recorded(Machine, c);
    || e.kube(w.kube.calls) != Ok
    || Writes(e, w, key, ver, RemovalCall(e, w.kube, key, c))
    || Nobodys(w.kube.store, Freed(e, ids, w.nb.calls + |ips|, |ids|))
  }

  /** This version is about to be shrunk. */
  predicate Shrinks(c: Claim) {
    && c.Cluster? && !c.meta.deleting && c.meta.finalizer && !c.meta.deleteAt.Deadline?
    && c.st.phase == Ready && c.spec.machineCount < |c.st.machineIDs|
  }

  /** Shrinking does no harm: a read fails, rook-ceph forbids it, all goes well up to the write, or it frees
      nobody's machine. */
  ghost predicate CarefulShrink(e: Env, w: World, key: Key, ver: nat, c: Claim)
    requires Shrinks(c)
  {
    var c0, tail := w.kube.calls, c.st.machineIDs[c.spec.machineCount..];
    || e.kube(c0) != Ok || e.kube(c0 + 1) != Ok
    || c.spec.profile !in w.kube.profiles || ClusterPass.UsesRook(w.kube.profiles[c.spec.profile])
    || (Answered(e, w.nb.devices, tail, w.nb.calls, |tail|) && Writes(e, w, key, ver, c0 + 2))
    || Nobodys(w.kube.store, FreedUntilError(e, w.nb.devices, tail, w.nb.calls, |tail|))
  }

  /** Told before the pass, from the version it will see and the fate of its calls. */
  ghost predicate Careful(e: Env, w: World, key: Key, ver: nat) {
    var c := Seen(w.kube.store, key, ver);
    c.Some? ==>
      && (c.value.meta.deleting ==> CarefulFinalizer(e, w, key, ver, c.value))
      && (Shrinks(c.value) ==> CarefulShrink(e, w, key, ver, c.value))
  }

  lemma WriteOutcome(e: Env, k: Kube, key: Key, ver: nat, v: Option<Claim>)
    ensures var d := WriteClaim(e, k, key, ver, v);
            d.k == k.(store := if IsCurrent(k.store, key, ver) && e.kube(k.calls) != Refused then Append(k.store, key, v) else k.store,
                      calls := k.calls + 1)
  {
  }

  lemma WrittenExactly(e: Env, k: Kube, key: Key, ver: nat, v: Option<Claim>)
    ensures var s' := WriteClaim(e, k, key, ver, v).k.store;
            |HistoryOf(s', key)| > |HistoryOf(k.store, key)| <==> IsCurrent(k.store, key, ver) && e.kube(k.calls) != Refused
  {
    HeldAfter(k.store, key, v);
  }

  /** What a finalizer comes to: the machines it frees, and whether its claim goes. */
  lemma FinalizerOutcome(e: Env, w: World, key: Key, ver: nat, c: Claim)
    requires Seen(w.kube.store, key, ver) == Some(c) && c.meta.deleting && e.kube(w.kube.calls) == Ok
    ensures var w', ips, ids := Next(e, w, Pass(key, ver)), Recorded(Address, c), Recorded(Machine, c);
            && FreesExactly(w.nb.sem, w.nb.devices, w'.nb.devices, Freed(e, ids, w.nb.calls + |ips|, |ids|))
            && (Written(w, w', key) <==> Writes(e, w, key, ver, RemovalCall(e, w.kube, key, c)))
  {
    hide ReleaseIPs, ReleaseEach, WriteClaim, RoleRules.Revoke, FreesExactly, Freed;
    var w1 := w.(kube := ReadClaim(e, w.kube, key, ver).k);
    var ips, ids := Recorded(Address, c), Recorded(Machine, c);
    var nb1 := ReleaseIPs(e, w.nb, ips, |ips|);
    ReleaseIPsFacts(e, w.nb, ips, |ips|);
    ReleaseIPsCalls(e, w.nb, ips, |ips|);
    ReleaseEachExactly(e, nb1, ids, |ids|);
    var k1 := if c.Cluster? then ClusterPass.RevokeKubeconfig(e, w1.kube, key, c.st.kubeconfig) else w1.kube;
    assert k1.store == w.kube.store && k1.calls == RemovalCall(e, w.kube, key, c);
    WrittenExactly(e, k1, key, ver, None);
  }

  lemma FinalizerSettles(e: Env, w: World, key: Key, ver: nat, c: Claim)
    requires Inv(true, w) && Seen(w.kube.store, key, ver) == Some(c) && c.meta.deleting && e.kube(w.kube.calls) == Ok
    ensures Settles(true, w, Next(e, w, Pass(key, ver)), key) <==> CarefulFinalizer(e, w, key, ver, c)
  {
    hide Inv, Next, Written, SparedHeld, FreesExactly, Freed, Nobodys;
    var ips, ids := Recorded(Address, c), Recorded(Machine, c);
    FinalizerOutcome(e, w, key, ver, c);
    SparedExactly(w, Next(e, w, Pass(key, ver)), Freed(e, ids, w.nb.calls + |ips|, |ids|));
  }

  lemma {:induction false} ReleaseIPsCalls(e: Env, nb: Netbox, ids: seq<int>, n: nat)
    requires n <= |ids|
    ensures ReleaseIPs(e, nb, ids, n).calls == nb.calls + n
  {
    if n > 0 { ReleaseIPsCalls(e, nb, ids, n - 1); }
  }

  lemma ShrinkSettles(e: Env, w: World, key: Key, ver: nat, c: Claim)
    requires Inv(true, w) && Seen(w.kube.store, key, ver) == Some(c) && Shrinks(c) && e.kube(w.kube.calls) == Ok
    ensures var w' := Next(e, w, Pass(key, ver));
            Settles(true, w, w', key) <==> CarefulShrink(e, w, key, ver, c)
  {
    hide Inv, ReleaseUntilError, WriteClaim, SetCondition, SparedHeld, FreesExactly, ClusterPass.UsesRook;
    var w1 := w.(kube := ReadClaim(e, w.kube, key, ver).k);
    var count := c.spec.machineCount;
    var tail, delta := c.st.machineIDs[count..], |c.st.machineIDs| - count;
    var w' := Next(e, w, Pass(key, ver));
    assert w' == ClusterPass.ScaleDown(e, w1, key, ver, c, delta).w;
    var p := Get(e, w1.kube, w1.kube.profiles, c.spec.profile);
    SameSpared(w, w');
    if p.read.Found? && !ClusterPass.UsesRook(p.read.value) {
      var d := ReleaseUntilError(e, w.nb, tail, delta);
      ReleaseUntilErrorExactly(e, w.nb, tail, delta);
      SparedExactly(w, w', FreedUntilError(e, w.nb.devices, tail, w.nb.calls, delta));
      WrittenExactly(e, p.k, key, ver, Some(c.(st := c.st.(machineIDs := c.st.machineIDs[..count]))));
    }
  }

  lemma SameSpared(w: World, w': World)
    ensures w'.nb.devices == w.nb.devices ==> SparedHeld(w, w')
  {
  }

  /** Every pass in a tenant namespace keeps the strong invariant exactly when it is careful. */
  lemma CarefulKeepsExactly(e: Env, w: World, key: Key, ver: nat)
    requires Inv(true, w) && TenantSlug(key.ns) != ""
    ensures Inv(true, Next(e, w, Pass(key, ver))) <==> Careful(e, w, key, ver)
  {
    hide Inv, Next, CarefulFinalizer, CarefulShrink, Settles, ReleasesAndWrites, IsCurrent;
    var w' := Next(e, w, Pass(key, ver));
    var seen := Seen(w.kube.store, key, ver);
    if seen.None? || !MayRelease(seen.value) {
      PassKeeps(true, e, w, key, ver);
    } else if e.kube(w.kube.calls) != Ok || (!seen.value.meta.deleting && seen.value.meta.deleteAt.Deadline?) {
      IdleDevices(e, w, key, ver, seen.value);
      PassKeeps(true, e, w, key, ver);
    } else {
      var c := seen.value;
      if c.meta.deleting { FinalizerSettles(e, w, key, ver, c); } else { ShrinkSettles(e, w, key, ver, c); }
      if Settles(true, w, w', key) {
        PassKeeps(true, e, w, key, ver);
      } else {
        UnsettledPassBreaks(e, w, key, ver, c);
      }
    }
  }

  /** A pass that cannot read its claim, or that only looks at its deadline, touches no device. */
  lemma IdleDevices(e: Env, w: World, key: Key, ver: nat, c: Claim)
    requires Seen(w.kube.store, key, ver) == Some(c) && MayRelease(c)
    requires e.kube(w.kube.calls) != Ok || (!c.meta.deleting && c.meta.deleteAt.Deadline?)
    ensures Settles(true, w, Next(e, w, Pass(key, ver)), key)
    ensures c.meta.deleting ==> CarefulFinalizer(e, w, key, ver, c)
    ensures Shrinks(c) ==> CarefulShrink(e, w, key, ver, c)
  {
    hide ClusterPass.Finalize, ServerPass.Finalize, ClusterPass.Scale;
    SameSpared(w, Next(e, w, Pass(key, ver)));
  }

  lemma UnsettledPassBreaks(e: Env, w: World, key: Key, ver: nat, c: Claim)
    requires Inv(true, w) && Seen(w.kube.store, key, ver) == Some(c) && e.kube(w.kube.calls) == Ok
    requires c.meta.deleting || Shrinks(c)
    requires !Settles(true, w, Next(e, w, Pass(key, ver)), key)
    ensures !Inv(true, Next(e, w, Pass(key, ver)))
  {
    hide Inv, ClusterPass.Finalize, ServerPass.Finalize, ClusterPass.ScaleDown;
    var w' := Next(e, w, Pass(key, ver));
    var w1 := w.(kube := ReadClaim(e, w.kube, key, ver).k);
    if c.meta.deleting {
      FinalizeShape(e, w1, key, ver, c);
      UnsettledBreaks(w, w', key, ver, Recorded(Machine, c), None);
    } else {
      var keep, delta := c.spec.machineCount, |c.st.machineIDs| - c.spec.machineCount;
      assert w' == ClusterPass.ScaleDown(e, w1, key, ver, c, delta).w;
      ScaleDownShape(e, w1, key, ver, c, delta);
      var blocked := c.(st := ClusterPass.Mark(c.st, "ScaleDownBlocked", true, "RookCephPresent"));
      if ReleasesAndWrites(w1, w', key, ver, [], Some(blocked)) {
        UnsettledBreaks(w, w', key, ver, [], Some(blocked));
      } else {
        UnsettledBreaks(w, w', key, ver, c.st.machineIDs[keep..],
                        Some(c.(st := c.st.(machineIDs := c.st.machineIDs[..keep]))));
      }
    }
  }

  // ---- Runs -------------------------------------------------------------------------------

  /** The event belongs to a namespace with a tenant and, under the strong invariant, its pass is careful. */
  ghost predicate Allowed(strong: bool, e: Env, w: World, ev: Event) {
    ev.Pass? ==> TenantSlug(ev.key.ns) != "" && (strong ==> Careful(e, w, ev.key, ev.ver))
  }

  ghost predicate AllowedRun(strong: bool, e: Env, r: Run)
    requires |r.worlds| == |r.events| + 1
  {
    forall n: nat :: n < |r.events| ==> AllowedAt(strong, e, r, n)
  }

  ghost predicate AllowedAt(strong: bool, e: Env, r: Run, n: nat)
    requires n < |r.events| && n < |r.worlds|
  {
    Allowed(strong, e, r.worlds[n], r.events[n])
  }

  lemma AllowedPassKeeps(strong: bool, e: Env, w: World, key: Key, ver: nat)
    requires Inv(strong, w) && Allowed(strong, e, w, Pass(key, ver))
    ensures Inv(strong, Next(e, w, Pass(key, ver)))
  {
    hide Inv, Next, Careful, SparedHeld, Written;
    if strong {
      CarefulKeepsExactly(e, w, key, ver);
    } else {
      PassKeeps(false, e, w, key, ver);
    }
  }

  lemma {:induction false} RunKeeps(strong: bool, e: Env, r: Run, n: nat)
    requires IsRun(e, r) && n < |r.worlds| && Inv(strong, r.worlds[0]) && AllowedRun(strong, e, r)
    ensures Inv(strong, r.worlds[n])
  {
    hide Next, Inv, Careful;
    if n > 0 {
      var w, ev := r.worlds[n - 1], r.events[n - 1];
      RunKeeps(strong, e, r, n - 1);
      assert Linked(e, r, n - 1) && AllowedAt(strong, e, r, n - 1);
      if ev.Pass? {
        AllowedPassKeeps(strong, e, w, ev.key, ev.ver);
      } else {
        OutsideKeeps(strong, e, w, ev);
      }
    }
  }
}
