/** The address ledger: which addresses can get lost, how many per pass, and that a lost one never
    comes back into a claim. Holds for both clients, with any faults and stale reads. */
module AddressLedger {
  import opened Basics
  import opened Text
  import opened Claims
  import opened Environment
  import opened Inventory
  import opened ApiServer
  import opened Passes
  import opened Holdings
  import opened Exclusivity
  import opened Histories
  import ClusterPass
  import ServerPass
  import opened Runs

  ghost predicate IsHeld(s: Store, id: int) {
    exists key :: id in Held(s, Address, key)
  }

  /** Handed out, not released, and in no claim. */
  ghost function Stranded(w: World): set<int> {
    set id | 0 < id < w.nb.nextIP && id !in w.nb.released && !IsHeld(w.kube.store, id)
  }

  /** The releases of `ids`, starting at call number `calls`, that Netbox refuses. */
  ghost function RefusedReleases(e: Env, ids: seq<int>, calls: nat): set<int> {
    set i | 0 <= i < |ids| && e.netbox(calls + i) == Refused :: ids[i]
  }

  /** The addresses an event may strand: a finalizer the ones whose release is refused, any other pass
      that ends in an error at most the last one it was given. */
  ghost function AtRisk(e: Env, w: World, ev: Event): set<int> {
    if !ev.Pass? || Seen(w.kube.store, ev.key, ev.ver).None? then {}
    else
      var c := Seen(w.kube.store, ev.key, ev.ver).value;
      var r := Reconcile(e, w, ev.key, ev.ver);
      if c.meta.deleting then RefusedReleases(e, Recorded(Address, c), w.nb.calls)
      else if r.reply == Error && r.w.nb.nextIP > w.nb.nextIP then {r.w.nb.nextIP - 1}
      else {}
  }

  lemma {:induction false} ReleaseIPsAnswers(e: Env, nb: Netbox, ids: seq<int>, n: nat)
    requires n <= |ids|
    ensures var nb' := ReleaseIPs(e, nb, ids, n);
            && nb'.calls == nb.calls + n
            && (forall id :: id in nb.released ==> id in nb'.released)
            && (forall i :: 0 <= i < n ==> ids[i] in nb'.released || e.netbox(nb.calls + i) == Refused)
            && (forall id :: id in nb'.released ==> id in nb.released || id in ids)
  {
    if n > 0 { ReleaseIPsAnswers(e, nb, ids, n - 1); }
  }

  lemma FinalizeAddresses(e: Env, w: World, key: Key, ver: nat, c: Claim)
    ensures var w' := (if c.Cluster? then ClusterPass.Finalize(e, w, key, ver, c) else ServerPass.Finalize(e, w, key, ver, c)).w;
            var ids := Recorded(Address, c);
            && w'.nb.nextIP == w.nb.nextIP
            && (forall id :: id in w.nb.released ==> id in w'.nb.released)
            && (forall i :: 0 <= i < |ids| ==> ids[i] in w'.nb.released || e.netbox(w.nb.calls + i) == Refused)
            && (|| w'.kube.store == w.kube.store
                || (IsCurrent(w.kube.store, key, ver) && w'.kube.store == Append(w.kube.store, key, None)))
  {
    var ips, ids := Recorded(Address, c), Recorded(Machine, c);
    var nb1 := ReleaseIPs(e, w.nb, ips, |ips|);
    ReleaseIPsAnswers(e, w.nb, ips, |ips|);
    ReleaseIPsFacts(e, w.nb, ips, |ips|);
    ReleaseEachFacts(e, nb1, ids, |ids|);
    FinalizeShape(e, w, key, ver, c);
  }

  /** What one claim holds after an event: nothing but what it held before and fresh addresses. */
  ghost predicate NoRevival(w: World, w': World) {
    && w.nb.nextIP <= w'.nb.nextIP
    && forall key, id :: id in Held(w'.kube.store, Address, key) ==>
         id in Held(w.kube.store, Address, key) || w.nb.nextIP <= id
  }

  ghost predicate Accounts(w: World, w': World, risk: set<int>) {
    NoRevival(w, w') && Stranded(w') <= Stranded(w) + risk
  }

  lemma FinalizeAccounts(e: Env, w: World, key: Key, ver: nat, c: Claim)
    requires SaneFlow(Go(w, ver, c), key)
    ensures var w' := (if c.Cluster? then ClusterPass.Finalize(e, w, key, ver, c) else ServerPass.Finalize(e, w, key, ver, c)).w;
            Accounts(w, w', RefusedReleases(e, Recorded(Address, c), w.nb.calls))
  {
    hide ClusterPass.Finalize, ServerPass.Finalize;
    var w' := (if c.Cluster? then ClusterPass.Finalize(e, w, key, ver, c) else ServerPass.Finalize(e, w, key, ver, c)).w;
    var ids := Recorded(Address, c);
    FinalizeAddresses(e, w, key, ver, c);
    HeldAfter(w.kube.store, key, None);
    forall id | id in Stranded(w') && id !in Stranded(w)
      ensures id in RefusedReleases(e, ids, w.nb.calls)
    {
      var k :| id in Held(w.kube.store, Address, k);
      assert k == key && Held(w.kube.store, Address, key) == ids by {
        assert id !in Held(w'.kube.store, Address, k);
      }
      var i :| 0 <= i < |ids| && ids[i] == id;
    }
  }

  lemma StepAccounts(e: Env, w: World, f: Flow, key: Key)
    requires Sane(w) && Ledger(w, f, key) && f.Stop?
    ensures Accounts(w, f.w, if f.reply == Error && f.w.nb.nextIP > w.nb.nextIP then {f.w.nb.nextIP - 1} else {})
  {
    forall k ensures k != key ==> Held(f.w.kube.store, Address, k) == Held(w.kube.store, Address, k) {
      assert k != key ==> HistoryOf(f.w.kube.store, k) == HistoryOf(w.kube.store, k);
    }
    forall id | IsHeld(w.kube.store, id) ensures IsHeld(f.w.kube.store, id) {
      var k :| id in Held(w.kube.store, Address, k);
      assert id in Held(f.w.kube.store, Address, k);
    }
    forall id | id in Stranded(f.w) && w.nb.nextIP <= id
      ensures f.reply == Error && id == f.w.nb.nextIP - 1
    {
      assert id !in Held(f.w.kube.store, Address, key);
    }
  }

  lemma ProvisionStops(e: Env, w: World, key: Key, ver: nat, c: Claim)
    ensures c.Cluster? ==> ClusterPass.Provision(e, w, key, ver, c).Stop?
    ensures c.Server? ==> ServerPass.Provision(e, w, key, ver, c).Stop?
  {
    hide AllocateIP, ListAvailable, Stage, ClusterPass.EnsureAll, WriteClaim;
  }

  lemma StepStops(e: Env, w: World, key: Key, ver: nat, c: Claim)
    ensures Step(e, w, key, ver, c).Stop?
  {
    hide ClusterPass.Provision, ServerPass.Provision;
    ProvisionStops(e, w, key, ver, c);
  }

  /** A change of one claim that leaves its addresses alone accounts for everything. */
  lemma TouchAccounts(w: World, key: Key, v: Option<Claim>)
    requires (if v.Some? then Recorded(Address, v.value) else []) == Held(w.kube.store, Address, key)
    ensures Accounts(w, Put(w, key, v), {})
  {
    HeldAfter(w.kube.store, key, v);
    var s' := Put(w, key, v).kube.store;
    assert forall k :: Held(s', Address, k) == Held(w.kube.store, Address, k);
    assert forall id :: IsHeld(w.kube.store, id) ==> IsHeld(s', id);
  }

  /** The leak bound of one pass; a pass that is not a finalizer strands at most one address. */
  lemma PassAccounts(e: Env, w: World, key: Key, ver: nat)
    requires Sane(w) && AddressesNonempty(e) && TenantSlug(key.ns) != ""
    ensures Accounts(w, Next(e, w, Pass(key, ver)), AtRisk(e, w, Pass(key, ver)))
    ensures var c := Seen(w.kube.store, key, ver);
            c.Some? && !c.value.meta.deleting ==> |AtRisk(e, w, Pass(key, ver))| <= 1
  {
    var got := ReadClaim(e, w.kube, key, ver);
    var w1 := w.(kube := got.k);
    SameSane(w, w1);
    assert Stranded(w1) == Stranded(w);
    if got.read.Found? {
      var c := got.read.value;
      if c.meta.deleting {
        FinalizeAccounts(e, w1, key, ver, c);
      } else {
        StepStops(e, w1, key, ver, c);
        StepSane(e, w1, key, ver, c);
        StepAccounts(e, w1, Step(e, w1, key, ver, c), key);
      }
    }
  }

  lemma OutsideAccounts(e: Env, w: World, ev: Event)
    requires Sane(w) && !ev.Pass?
    ensures Accounts(w, Next(e, w, ev), {})
  {
    if ev.Change? {
      assert Stranded(Next(e, w, ev)) == Stranded(w);
    } else {
      var now := Current(w.kube.store, ev.key);
      assert SaneKey(w, ev.key);
      match ev {
        case CreateCluster(key, spec) =>
          if now.None? { TouchAccounts(w, key, Some(Cluster(NEW_META, spec, EMPTY_CLUSTER_STATUS))); }
        case CreateServer(key, sspec) =>
          if now.None? { TouchAccounts(w, key, Some(Server(NEW_META, sspec, EMPTY_SERVER_STATUS))); }
        case EditSpec(key, spec) =>
          if now.Some? && now.value.Cluster? { TouchAccounts(w, key, Some(now.value.(spec := spec))); }
        case Annotate(key, deleteAt) =>
          if now.Some? { TouchAccounts(w, key, Some(WithMeta(now.value, now.value.meta.(deleteAt := deleteAt)))); }
        case Delete(key) =>
          if now.Some? { TouchAccounts(w, key, Deleted(now.value)); }
      }
    }
  }

  lemma EventAccounts(e: Env, w: World, ev: Event)
    requires Sane(w) && AddressesNonempty(e) && (ev.Pass? ==> TenantSlug(ev.key.ns) != "")
    ensures Accounts(w, Next(e, w, ev), AtRisk(e, w, ev))
  {
    if ev.Pass? {
      PassAccounts(e, w, ev.key, ev.ver);
    } else {
      OutsideAccounts(e, w, ev);
    }
  }

  /** How many addresses the events of a run may strand, counted event by event. */
  ghost function RiskOf(e: Env, r: Run, n: nat): nat
    requires n <= |r.events| && n <= |r.worlds|
  {
    if n == 0 then 0 else RiskOf(e, r, n - 1) + |AtRisk(e, r.worlds[n - 1], r.events[n - 1])|
  }

  /** At every moment of a run, no more addresses are stranded than the aborted provisioning passes and the
      refused releases account for. */
  lemma {:induction false} LeakBound(e: Env, r: Run, n: nat)
    requires IsRun(e, r) && Start(r.worlds[0]) && AddressesNonempty(e) && TenantRun(r) && n < |r.worlds|
    ensures |Stranded(r.worlds[n])| <= RiskOf(e, r, n)
  {
    hide Next, Sane, AtRisk, TenantSlug;
    StartSane(r.worlds[0]);
    if n > 0 {
      var w, ev := r.worlds[n - 1], r.events[n - 1];
      LeakBound(e, r, n - 1);
      RunSane(e, r, n - 1);
      assert Linked(e, r, n - 1) && InTenant(ev);
      EventAccounts(e, w, ev);
      SetSizes(Stranded(r.worlds[n]), Stranded(w), AtRisk(e, w, ev));
    }
  }

  /** An address that was handed out and is in no claim, stranded or released, is never recorded again. */
  lemma {:induction false} NeverRecordedAgain(e: Env, r: Run, m: nat, n: nat, id: int)
    requires IsRun(e, r) && Sane(r.worlds[0]) && AddressesNonempty(e) && TenantRun(r) && m <= n < |r.worlds|
    requires id < r.worlds[m].nb.nextIP && !IsHeld(r.worlds[m].kube.store, id)
    ensures !IsHeld(r.worlds[n].kube.store, id) && id < r.worlds[n].nb.nextIP
  {
    hide Next, Sane, AtRisk, TenantSlug;
    if m < n {
      var w, ev := r.worlds[n - 1], r.events[n - 1];
      NeverRecordedAgain(e, r, m, n - 1, id);
      RunSane(e, r, n - 1);
      assert Linked(e, r, n - 1) && InTenant(ev);
      EventAccounts(e, w, ev);
      forall key ensures id !in Held(r.worlds[n].kube.store, Address, key) {
        assert id !in Held(w.kube.store, Address, key);
      }
    }
  }
}
