/** Where machines are lost, how many, and that a machine left marked and unrecorded is never recorded again. */
module MachineLedger {
  import opened Basics
  import opened Text
  import opened Claims
  import opened Environment
  import opened Inventory
  import opened ApiServer
  import opened Passes
  import opened Holdings
  import opened Exclusivity
  import opened Histories
  import opened MachineAccounts
  import opened Releasing
  import ClusterPass
  import ServerPass
  import opened Runs

  /** A pass over claim c, in any run: it draws at most what the claim wants, and what the claim newly holds it
      has drawn. */
  lemma {:induction false} PassDraws(e: Env, r: Run, n: nat, key: Key, ver: nat, c: Claim)
    requires IsRun(e, r) && n < |r.events| && r.events[n] == Pass(key, ver) && TenantSlug(key.ns) != ""
    requires UniqueIDs(r.worlds[n].nb.devices) && Seen(r.worlds[n].kube.store, key, ver) == Some(c)
    ensures var w, w' := r.worlds[n], r.worlds[n + 1];
            && |w'.nb.devices| == |w.nb.devices|
            && |Drawn(w.nb.devices, w'.nb.devices)| <= Wanted(c)
            && SetOf(Held(w'.kube.store, Machine, key))
               <= SetOf(Held(w.kube.store, Machine, key)) + Drawn(w.nb.devices, w'.nb.devices)
  {
    hide Reconcile, TenantSlug, Wanted;
    assert Linked(e, r, n);
    PassAccount(e, r.worlds[n], key, ver);
  }

  predicate HeldBySome(s: Store, id: int, key: Key) {
    id in Held(s, Machine, key)
  }

  /** Marked for a tenant and in no claim. */
  ghost predicate IsStranded(w: World, i: nat)
    requires i < |w.nb.devices|
  {
    w.nb.devices[i].tenant.Some? && forall key :: !HeldBySome(w.kube.store, w.nb.devices[i].id, key)
  }

  /** Where a newly stranded machine comes from: drawn by a pass that ended in an error, or dropped from its
      claim's list; and with the fake, dropped although its release did not take effect. */
  lemma PassStrands(e: Env, w: World, key: Key, ver: nat, i: nat)
    requires UniqueIDs(w.nb.devices) && TenantSlug(key.ns) != "" && i < |w.nb.devices|
    ensures var r := Reconcile(e, w, key, ver);
            |r.w.nb.devices| == |w.nb.devices| &&
            var d, d' := w.nb.devices[i], r.w.nb.devices[i];
            IsStranded(r.w, i) && !IsStranded(w, i) ==>
              || (IsDrawn(d, d') && r.reply == Error)
              || (&& HeldBySome(w.kube.store, d.id, key) && !HeldBySome(r.w.kube.store, d.id, key)
                  && (w.nb.sem == Fake ==> d' == d && d.tenant.Some?))
  {
    hide Reconcile;
    PassAccount(e, w, key, ver);
    var r := Reconcile(e, w, key, ver);
    var d, d' := w.nb.devices[i], r.w.nb.devices[i];
    assert Moves(w.nb.sem, d, d', TenantSlug(key.ns));
    if IsStranded(r.w, i) && !IsStranded(w, i) {
      assert d'.id == d.id;
      if d.tenant.None? {
        assert IsDrawn(d, d') && d.id in Drawn(w.nb.devices, r.w.nb.devices);
        assert !HeldBySome(r.w.kube.store, d.id, key);
      } else {
        var k :| HeldBySome(w.kube.store, d.id, k);
        assert !HeldBySome(r.w.kube.store, d.id, k);
      }
    }
  }

  /** With the real client a stranded machine stays stranded through every event. */
  lemma StrandedStays(e: Env, w: World, ev: Event, i: nat)
    requires w.nb.sem == Real && UniqueIDs(w.nb.devices) && i < |w.nb.devices| && IsStranded(w, i)
    requires ev.Pass? ==> TenantSlug(ev.key.ns) != ""
    ensures var w' := Next(e, w, ev);
            && w'.nb.sem == Real && UniqueIDs(w'.nb.devices) && |w'.nb.devices| == |w.nb.devices|
            && IsStranded(w', i) && w'.nb.devices[i].id == w.nb.devices[i].id
  {
    hide Reconcile, TenantSlug;
    if ev.Pass? {
      PassAccount(e, w, ev.key, ev.ver);
      AccountKeepsStranded(w, Next(e, w, ev), Reconcile(e, w, ev.key, ev.ver).reply, ev.key, i, WantedBy(w, ev.key, ev.ver));
    } else {
      OutsideHolds(e, w, ev, w.nb.devices[i].id);
    }
  }

  lemma AccountKeepsStranded(w: World, w': World, reply: Reply, key: Key, i: nat, limit: nat)
    requires w.nb.sem == Real && UniqueIDs(w.nb.devices) && i < |w.nb.devices| && IsStranded(w, i)
    requires LooseAccount(w, Stop(w', reply), key, limit)
    ensures IsStranded(w', i) && w'.nb.devices[i].id == w.nb.devices[i].id
  {
    hide TenantSlug;
    var d, d' := w.nb.devices[i], w'.nb.devices[i];
    assert Moves(Real, d, d', TenantSlug(key.ns));
    forall j | 0 <= j < |w.nb.devices| && w.nb.devices[j].id == d.id ensures !IsDrawn(w.nb.devices[j], w'.nb.devices[j]) {
      assert j == i;
    }
    assert d.id !in Drawn(w.nb.devices, w'.nb.devices);
    forall k ensures !HeldBySome(w'.kube.store, d.id, k) {
      assert !HeldBySome(w.kube.store, d.id, k);
    }
  }

  /** Nothing outside the passes puts a machine into a claim. */
  lemma OutsideHolds(e: Env, w: World, ev: Event, id: int)
    requires !ev.Pass?
    ensures Next(e, w, ev).nb == w.nb
    ensures (forall key :: !HeldBySome(w.kube.store, id, key)) ==> forall key :: !HeldBySome(Next(e, w, ev).kube.store, id, key)
  {
    var w' := Next(e, w, ev);
    if !ev.Change? && w' != w {
      HeldAfter(w.kube.store, ev.key, Current(w'.kube.store, ev.key));
      assert forall x :: x in Held(w'.kube.store, Machine, ev.key) ==> x in Held(w.kube.store, Machine, ev.key);
    }
    if forall key :: !HeldBySome(w.kube.store, id, key) {
      forall key ensures !HeldBySome(w'.kube.store, id, key) {
        assert !HeldBySome(w.kube.store, id, key);
      }
    }
  }

  /** With the real client, over every run: a machine that is marked and in no claim, whether a pass aborted or
      its claim released it, is never recorded again. */
  lemma {:induction false} StrandedForever(e: Env, r: Run, m: nat, n: nat, i: nat)
    requires IsRun(e, r) && TenantRun(r) && m <= n < |r.worlds|
    requires var w := r.worlds[m]; w.nb.sem == Real && UniqueIDs(w.nb.devices) && i < |w.nb.devices| && IsStranded(w, i)
    ensures var w, w' := r.worlds[m], r.worlds[n];
            && w'.nb.sem == Real && UniqueIDs(w'.nb.devices) && |w'.nb.devices| == |w.nb.devices|
            && IsStranded(w', i) && w'.nb.devices[i].id == w.nb.devices[i].id
  {
    hide Next, TenantSlug, IsStranded;
    if m < n {
      StrandedForever(e, r, m, n - 1, i);
      assert Linked(e, r, n - 1) && InTenant(r.events[n - 1]);
      StrandedStays(e, r.worlds[n - 1], r.events[n - 1], i);
    }
  }

  ghost function StrandedIDs(w: World): set<int> {
    set i: nat | i < |w.nb.devices| && IsStranded(w, i) :: w.nb.devices[i].id
  }

  /** What a pass turns out to strand: the machines it draws when it ends in an error, and the machines its claim
      drops, with the fake only those whose release did not take effect. */
  ghost function LosesMachines(e: Env, w: World, ev: Event): set<int> {
    if !ev.Pass? then {}
    else
      var r := Reconcile(e, w, ev.key, ev.ver);
      set i: nat | i < |w.nb.devices| && i < |r.w.nb.devices| && Loses(w, r, ev.key, i) :: w.nb.devices[i].id
  }

  predicate Loses(w: World, r: PassResult, key: Key, i: nat)
    requires i < |w.nb.devices| && i < |r.w.nb.devices|
  {
    var d, d' := w.nb.devices[i], r.w.nb.devices[i];
    || (IsDrawn(d, d') && r.reply == Error)
    || (&& HeldBySome(w.kube.store, d.id, key) && !HeldBySome(r.w.kube.store, d.id, key)
        && (w.nb.sem == Fake ==> d' == d && d.tenant.Some?))
  }

  // ---- How many at most, told before the pass ---------------------------------------------

  /** The machines whose PATCH, numbered from `calls`, is refused. */
  ghost function RefusedPatches(e: Env, ids: seq<int>, calls: nat): (r: set<int>)
    ensures forall id :: id in r <==> exists j: nat :: j < |ids| && ids[j] == id && e.netbox(calls + j) == Refused
  {
    set j: nat | j < |ids| && e.netbox(calls + j) == Refused :: ids[j]
  }

  /** How many machines are at stake in an event. A pass that allocates: as many as its claim wants. A finalizer: with
      the HTTP client all of the claim's machines, since their tenants stay; with the fake those whose PATCH is
      refused. Shrinking: with the HTTP client the surplus, with the fake none. */
  ghost function AtStake(e: Env, w: World, ev: Event): nat {
    if !ev.Pass? || Seen(w.kube.store, ev.key, ev.ver).None? then 0
    else
      var c := Seen(w.kube.store, ev.key, ev.ver).value;
      if c.meta.deleting then
        if w.nb.sem == Real then |Recorded(Machine, c)|
        else |RefusedPatches(e, Recorded(Machine, c), w.nb.calls + |Recorded(Address, c)|)|
      else if Shrinks(c) then
        if w.nb.sem == Real then |c.st.machineIDs| - c.spec.machineCount else 0
      else Wanted(c)
  }

  /** No pass strands more than was at stake. */
  lemma LosesAtMost(e: Env, w: World, key: Key, ver: nat)
    requires Sane(w) && TenantSlug(key.ns) != ""
    ensures |LosesMachines(e, w, Pass(key, ver))| <= AtStake(e, w, Pass(key, ver))
  {
    hide Sane, Reconcile, TenantSlug, Wanted, RefusedPatches, Loses, MayDrop, Shrinks, LooseAccount, Account;
    SaneIDs(w);
    PassAccount(e, w, key, ver);
    var seen := Seen(w.kube.store, key, ver);
    if seen.None? {
      UnseenLoses(e, w, key, ver);
    } else if seen.value.meta.deleting {
      FinalizerLoses(e, w, key, ver, seen.value);
    } else if Shrinks(seen.value) {
      ShrinkLoses(e, w, key, ver, seen.value);
    } else if MayDrop(seen.value) {
      DeadlineLoses(e, w, key, ver, seen.value);
    } else {
      KeeperLoses(e, w, key, ver, Wanted(seen.value));
    }
  }

  /** A pass that drops nothing loses only what it has drawn. */
  lemma KeeperLoses(e: Env, w: World, key: Key, ver: nat, limit: nat)
    requires UniqueIDs(w.nb.devices)
    requires var r := Reconcile(e, w, key, ver); Account(w, Stop(r.w, r.reply), key, limit)
    ensures |LosesMachines(e, w, Pass(key, ver))| <= limit
  {
    hide Reconcile, TenantSlug, Moves, UniqueIDs;
    var r := Reconcile(e, w, key, ver);
    var drawn := Drawn(w.nb.devices, r.w.nb.devices);
    forall id | id in LosesMachines(e, w, Pass(key, ver)) ensures id in drawn {
      var i: nat :| i < |w.nb.devices| && Loses(w, r, key, i) && w.nb.devices[i].id == id;
      if HeldBySome(w.kube.store, id, key) { assert id in SetOf(Held(r.w.kube.store, Machine, key)); }
    }
    SubsetSize(LosesMachines(e, w, Pass(key, ver)), drawn);
  }

  lemma UnseenLoses(e: Env, w: World, key: Key, ver: nat)
    requires Seen(w.kube.store, key, ver).None?
    ensures LosesMachines(e, w, Pass(key, ver)) == {}
  {
    hide Step;
  }

  /** A pass that draws nothing loses only machines that its claim drops. */
  lemma DropsAmong(e: Env, w: World, key: Key, ver: nat, all: set<int>)
    requires var r := Reconcile(e, w, key, ver);
             && LooseAccount(w, Stop(r.w, r.reply), key, 0)
             && forall i :: 0 <= i < |w.nb.devices| && i < |r.w.nb.devices| && HeldBySome(w.kube.store, w.nb.devices[i].id, key)
                  && !HeldBySome(r.w.kube.store, w.nb.devices[i].id, key)
                  && (w.nb.sem == Fake ==> r.w.nb.devices[i] == w.nb.devices[i] && w.nb.devices[i].tenant.Some?)
                  ==> w.nb.devices[i].id in all
    ensures |LosesMachines(e, w, Pass(key, ver))| <= |all|
  {
    hide Reconcile, TenantSlug, Moves, UniqueIDs;
    var r := Reconcile(e, w, key, ver);
    NoneDrawn(w.nb.devices, r.w.nb.devices);
    forall id | id in LosesMachines(e, w, Pass(key, ver)) ensures id in all {
      var i: nat :| i < |w.nb.devices| && i < |r.w.nb.devices| && Loses(w, r, key, i) && w.nb.devices[i].id == id;
    }
    SubsetSize(LosesMachines(e, w, Pass(key, ver)), all);
  }

  lemma NoneDrawn(ds: seq<Device>, ds': seq<Device>)
    requires |ds'| == |ds| && |Drawn(ds, ds')| == 0
    ensures forall i :: 0 <= i < |ds| ==> !IsDrawn(ds[i], ds'[i])
  {
    assert forall i :: 0 <= i < |ds| ==> ds[i].id !in Drawn(ds, ds');
  }

  lemma FinalizerLoses(e: Env, w: World, key: Key, ver: nat, c: Claim)
    requires Seen(w.kube.store, key, ver) == Some(c) && c.meta.deleting
    requires var r := Reconcile(e, w, key, ver); LooseAccount(w, Stop(r.w, r.reply), key, Wanted(c))
    ensures |LosesMachines(e, w, Pass(key, ver))| <= AtStake(e, w, Pass(key, ver))
  {
    hide Reconcile, LooseAccount, LosesMachines, FreesExactly, Written, Recorded;
    var r, ids, calls := Reconcile(e, w, key, ver), Recorded(Machine, c), w.nb.calls + |Recorded(Address, c)|;
    var all := if w.nb.sem == Real then SetOf(ids) else RefusedPatches(e, ids, calls);
    SetOfSize(ids);
    FinalizerDrops(e, w, key, ver, c);
    DropsAmong(e, w, key, ver, all);
  }

  /** A finalizer drops its claim's machines; with the fake, one that keeps its tenant was refused. */
  lemma FinalizerDrops(e: Env, w: World, key: Key, ver: nat, c: Claim)
    requires Seen(w.kube.store, key, ver) == Some(c) && c.meta.deleting
    ensures var r, ids, calls := Reconcile(e, w, key, ver), Recorded(Machine, c), w.nb.calls + |Recorded(Address, c)|;
            forall i :: 0 <= i < |w.nb.devices| && i < |r.w.nb.devices| && HeldBySome(w.kube.store, w.nb.devices[i].id, key)
              && !HeldBySome(r.w.kube.store, w.nb.devices[i].id, key)
              && (w.nb.sem == Fake ==> r.w.nb.devices[i] == w.nb.devices[i] && w.nb.devices[i].tenant.Some?)
              ==> w.nb.devices[i].id in if w.nb.sem == Real then SetOf(ids) else RefusedPatches(e, ids, calls)
  {
    hide Step, Held, Recorded, Freed, RefusedPatches, RemovalCall;
    var r, ids, calls := Reconcile(e, w, key, ver), Recorded(Machine, c), w.nb.calls + |Recorded(Address, c)|;
    if e.kube(w.kube.calls) == Ok {
      FinalizerOutcome(e, w, key, ver, c);
      FinalizerHeld(e, w, key, ver, c);
      forall i | 0 <= i < |w.nb.devices| && HeldBySome(w.kube.store, w.nb.devices[i].id, key)
                 && !HeldBySome(r.w.kube.store, w.nb.devices[i].id, key)
                 && (w.nb.sem == Fake ==> r.w.nb.devices[i] == w.nb.devices[i] && w.nb.devices[i].tenant.Some?)
        ensures w.nb.devices[i].id in if w.nb.sem == Real then SetOf(ids) else RefusedPatches(e, ids, calls)
      {
        var id := w.nb.devices[i].id;
        assert id in ids;
        if w.nb.sem == Fake {
          assert id !in Freed(e, ids, calls, |ids|);
          var j: nat :| j < |ids| && ids[j] == id;
          assert e.netbox(calls + j) == Refused;
        }
      }
    }
  }

  /** What the claim held before a finalizer took it away was in the version it read. */
  lemma FinalizerHeld(e: Env, w: World, key: Key, ver: nat, c: Claim)
    requires Seen(w.kube.store, key, ver) == Some(c) && c.meta.deleting && e.kube(w.kube.calls) == Ok
    ensures var s, s' := w.kube.store, Reconcile(e, w, key, ver).w.kube.store;
            s' == s || Held(s, Machine, key) == Recorded(Machine, c)
  {
    hide ClusterPass.Finalize, ServerPass.Finalize, Recorded;
    var w1 := w.(kube := ReadClaim(e, w.kube, key, ver).k);
    FinalizeShape(e, w1, key, ver, c);
  }

  lemma ShrinkLoses(e: Env, w: World, key: Key, ver: nat, c: Claim)
    requires Seen(w.kube.store, key, ver) == Some(c) && Shrinks(c)
    requires var r := Reconcile(e, w, key, ver); LooseAccount(w, Stop(r.w, r.reply), key, Wanted(c))
    ensures |LosesMachines(e, w, Pass(key, ver))| <= AtStake(e, w, Pass(key, ver))
  {
    hide Reconcile, LooseAccount, LosesMachines;
    var tail := c.st.machineIDs[c.spec.machineCount..];
    var all: set<int> := if w.nb.sem == Real then SetOf(tail) else {};
    SetOfSize(tail);
    ShrinkDrops(e, w, key, ver, c);
    DropsAmong(e, w, key, ver, all);
  }

  /** Shrinking drops the surplus; with the fake each of them has lost its tenant by then. */
  lemma ShrinkDrops(e: Env, w: World, key: Key, ver: nat, c: Claim)
    requires Seen(w.kube.store, key, ver) == Some(c) && Shrinks(c)
    ensures var r, tail := Reconcile(e, w, key, ver), c.st.machineIDs[c.spec.machineCount..];
            forall i :: 0 <= i < |w.nb.devices| && i < |r.w.nb.devices| && HeldBySome(w.kube.store, w.nb.devices[i].id, key)
              && !HeldBySome(r.w.kube.store, w.nb.devices[i].id, key)
              && (w.nb.sem == Fake ==> r.w.nb.devices[i] == w.nb.devices[i] && w.nb.devices[i].tenant.Some?)
              ==> w.nb.sem == Real && w.nb.devices[i].id in tail
  {
    hide Step, Answered, FreedUntilError;
    var r, tail := Reconcile(e, w, key, ver), c.st.machineIDs[c.spec.machineCount..];
    if e.kube(w.kube.calls) == Ok {
      ShrinkOutcome(e, w, key, ver, c);
      if Held(r.w.kube.store, Machine, key) != Held(w.kube.store, Machine, key) {
        AllFreed(e, w.nb.devices, tail, w.nb.calls);
        HeadOrTail(c.st.machineIDs, c.spec.machineCount);
      }
    }
  }

  lemma HeadOrTail(ids: seq<int>, n: nat)
    requires n <= |ids|
    ensures forall id :: id in ids ==> id in ids[..n] || id in ids[n..]
  {
    assert ids == ids[..n] + ids[n..];
  }

  lemma AllFreed(e: Env, ds: seq<Device>, ids: seq<int>, calls: nat)
    requires Answered(e, ds, ids, calls, |ids|)
    ensures forall id :: id in ids ==> id in FreedUntilError(e, ds, ids, calls, |ids|)
  {
    forall id | id in ids ensures id in FreedUntilError(e, ds, ids, calls, |ids|) {
      var j: nat :| j < |ids| && ids[j] == id;
      assert AnsweredAt(e, ds, ids, calls, j) && Answered(e, ds, ids, calls, j);
    }
  }

  /** What shrinking comes to for what the claim holds: nothing, or the head of its list with the tail all released. */
  lemma ShrinkOutcome(e: Env, w: World, key: Key, ver: nat, c: Claim)
    requires Seen(w.kube.store, key, ver) == Some(c) && Shrinks(c) && e.kube(w.kube.calls) == Ok
    ensures var s, w', tail := w.kube.store, Reconcile(e, w, key, ver).w, c.st.machineIDs[c.spec.machineCount..];
            || Held(w'.kube.store, Machine, key) == Held(s, Machine, key)
            || (&& Held(s, Machine, key) == c.st.machineIDs
                && Held(w'.kube.store, Machine, key) == c.st.machineIDs[..c.spec.machineCount]
                && Answered(e, w.nb.devices, tail, w.nb.calls, |tail|)
                && FreesExactly(w.nb.sem, w.nb.devices, w'.nb.devices, FreedUntilError(e, w.nb.devices, tail, w.nb.calls, |tail|)))
  {
    hide ReleaseUntilError, SetCondition, FreesExactly, Answered, FreedUntilError, ClusterPass.UsesRook, WriteClaim, Append;
    var w1 := w.(kube := ReadClaim(e, w.kube, key, ver).k);
    var count := c.spec.machineCount;
    var tail, delta := c.st.machineIDs[count..], |c.st.machineIDs| - count;
    var head := Some(c.(st := c.st.(machineIDs := c.st.machineIDs[..count])));
    var blocked := Some(c.(st := ClusterPass.Mark(c.st, "ScaleDownBlocked", true, "RookCephPresent")));
    assert Reconcile(e, w, key, ver).w == ClusterPass.ScaleDown(e, w1, key, ver, c, delta).w;
    ReleaseUntilErrorExactly(e, w.nb, tail, delta);
    var k1 := Get(e, w1.kube, w1.kube.profiles, c.spec.profile).k;
    WriteOutcome(e, k1, key, ver, head);
    WriteOutcome(e, k1, key, ver, blocked);
    HeldAfter(w.kube.store, key, head);
    HeldAfter(w.kube.store, key, blocked);
  }

  /** A pass over a claim with a deadline waits or asks for its deletion; a claim that this removes at once has no
      finalizer, and so no machine yet. */
  lemma DeadlineLoses(e: Env, w: World, key: Key, ver: nat, c: Claim)
    requires Sane(w) && Seen(w.kube.store, key, ver) == Some(c) && MayDrop(c) && !Shrinks(c) && !c.meta.deleting
    ensures LosesMachines(e, w, Pass(key, ver)) == {}
  {
    hide Sane, Loses, Deleted;
    DeadlineKeeps(e, w, key, ver, c);
    var r := Reconcile(e, w, key, ver);
    assert forall i: nat :: i < |w.nb.devices| && i < |r.w.nb.devices| ==> !Loses(w, r, key, i) by { SameLoses(w, r, key); }
  }

  lemma SameLoses(w: World, r: PassResult, key: Key)
    requires r.w.nb.devices == w.nb.devices && Held(r.w.kube.store, Machine, key) == Held(w.kube.store, Machine, key)
    ensures forall i: nat :: i < |w.nb.devices| ==> !Loses(w, r, key, i)
  {
  }

  lemma DeadlineKeeps(e: Env, w: World, key: Key, ver: nat, c: Claim)
    requires Sane(w) && Seen(w.kube.store, key, ver) == Some(c) && MayDrop(c) && !Shrinks(c) && !c.meta.deleting
    ensures var w' := Reconcile(e, w, key, ver).w;
            w'.nb.devices == w.nb.devices && Held(w'.kube.store, Machine, key) == Held(w.kube.store, Machine, key)
  {
    hide ClusterPass.Scale, ClusterPass.Finalize, ClusterPass.Validate, ClusterPass.Provision, ClusterPass.WatchAddons,
      ClusterPass.ExposeKubeconfig, ServerPass.Step, Sane, Append;
    var now := Current(w.kube.store, key);
    if now.Some? {
      NoFinalizerNoMachine(w, key, now.value);
      HeldAfter(w.kube.store, key, Deleted(now.value));
    }
  }

  lemma NoFinalizerNoMachine(w: World, key: Key, c: Claim)
    requires Sane(w) && Current(w.kube.store, key) == Some(c)
    ensures !c.meta.finalizer ==> Recorded(Machine, c) == []
  {
    hide Adjacent;
    assert SaneKey(w, key);
  }

  /** How many machines the events of a run put at stake, counted event by event, each before it happens. */
  ghost function StakeOf(e: Env, r: Run, n: nat): nat
    requires n <= |r.events| && n <= |r.worlds|
  {
    if n == 0 then 0 else StakeOf(e, r, n - 1) + AtStake(e, r.worlds[n - 1], r.events[n - 1])
  }

  lemma EventStrands(e: Env, w: World, ev: Event)
    requires Sane(w) && UniqueIDs(w.nb.devices) && (ev.Pass? ==> TenantSlug(ev.key.ns) != "")
    ensures UniqueIDs(Next(e, w, ev).nb.devices)
    ensures StrandedIDs(Next(e, w, ev)) <= StrandedIDs(w) + LosesMachines(e, w, ev)
  {
    hide Reconcile, TenantSlug, IsStranded, Loses;
    var w' := Next(e, w, ev);
    if ev.Pass? {
      PassAccount(e, w, ev.key, ev.ver);
      var r := Reconcile(e, w, ev.key, ev.ver);
      forall id | id in StrandedIDs(w') ensures id in StrandedIDs(w) + LosesMachines(e, w, ev) {
        var i: nat :| i < |w'.nb.devices| && IsStranded(w', i) && w'.nb.devices[i].id == id;
        PassLoses(e, w, ev.key, ev.ver, i);
        assert IsStranded(w, i) || Loses(w, r, ev.key, i);
      }
    } else {
      forall id | id in StrandedIDs(w') ensures id in StrandedIDs(w) {
        OutsideStrands(e, w, ev, id);
      }
    }
  }

  lemma PassLoses(e: Env, w: World, key: Key, ver: nat, i: nat)
    requires UniqueIDs(w.nb.devices) && TenantSlug(key.ns) != ""
    requires i < |Reconcile(e, w, key, ver).w.nb.devices| && IsStranded(Reconcile(e, w, key, ver).w, i)
    ensures var r := Reconcile(e, w, key, ver);
            && |r.w.nb.devices| == |w.nb.devices| && r.w.nb.devices[i].id == w.nb.devices[i].id
            && (IsStranded(w, i) || Loses(w, r, key, i))
  {
    hide Reconcile, TenantSlug;
    PassAccount(e, w, key, ver);
    PassStrands(e, w, key, ver, i);
    assert Moves(w.nb.sem, w.nb.devices[i], Reconcile(e, w, key, ver).w.nb.devices[i], TenantSlug(key.ns));
  }

  lemma OutsideStrands(e: Env, w: World, ev: Event, id: int)
    requires !ev.Pass? && Sane(w) && id in StrandedIDs(Next(e, w, ev))
    ensures id in StrandedIDs(w)
  {
    var w' := Next(e, w, ev);
    var i: nat :| i < |w'.nb.devices| && IsStranded(w', i) && w'.nb.devices[i].id == id;
    OutsideKeepsHeld(e, w, ev, id);
    assert IsStranded(w, i);
  }

  /** An event outside the passes takes a machine out of a claim only by removing a claim that has no
      finalizer, and such a claim has no machine yet. */
  lemma OutsideKeepsHeld(e: Env, w: World, ev: Event, id: int)
    requires !ev.Pass? && Sane(w)
    ensures Next(e, w, ev).nb == w.nb
    ensures (forall key :: !HeldBySome(Next(e, w, ev).kube.store, id, key)) ==> forall key :: !HeldBySome(w.kube.store, id, key)
  {
    hide PhaseStep, ForwardCluster, ForwardServer, Adjacent;
    var w' := Next(e, w, ev);
    if !ev.Change? && w' != w {
      var now := Current(w.kube.store, ev.key);
      assert SaneKey(w, ev.key);
      HeldAfter(w.kube.store, ev.key, Current(w'.kube.store, ev.key));
      assert Held(w'.kube.store, Machine, ev.key) == Held(w.kube.store, Machine, ev.key);
    }
    if forall key :: !HeldBySome(w'.kube.store, id, key) {
      forall key ensures !HeldBySome(w.kube.store, id, key) {
        assert !HeldBySome(w'.kube.store, id, key);
      }
    }
  }

  /** At every moment of a run, no more machines are stranded than its events put at stake: what allocating passes
      wanted, what finalizers and shrinking passes gave up without Netbox freeing it. */
  lemma {:induction false} MachineLeakBound(e: Env, r: Run, n: nat)
    requires IsRun(e, r) && Start(r.worlds[0]) && AddressesNonempty(e) && TenantRun(r) && n < |r.worlds|
    ensures |StrandedIDs(r.worlds[n])| <= |StrandedIDs(r.worlds[0])| + StakeOf(e, r, n)
  {
    hide Next, TenantSlug, Sane, StrandedIDs, LosesMachines, AtStake;
    StartSane(r.worlds[0]);
    if n > 0 {
      var w, ev := r.worlds[n - 1], r.events[n - 1];
      MachineLeakBound(e, r, n - 1);
      RunSane(e, r, n - 1);
      SaneIDs(w);
      assert Linked(e, r, n - 1) && InTenant(ev);
      EventStrands(e, w, ev);
      SetSizes(StrandedIDs(r.worlds[n]), StrandedIDs(w), LosesMachines(e, w, ev));
      EventStakes(e, w, ev);
    }
  }

  lemma EventStakes(e: Env, w: World, ev: Event)
    requires Sane(w) && (ev.Pass? ==> TenantSlug(ev.key.ns) != "")
    ensures |LosesMachines(e, w, ev)| <= AtStake(e, w, ev)
  {
    hide AtStake, Reconcile, Sane;
    if ev.Pass? { LosesAtMost(e, w, ev.key, ev.ver); }
  }

  lemma SaneIDs(w: World)
    requires Sane(w)
    ensures UniqueIDs(w.nb.devices)
  {
  }
}
