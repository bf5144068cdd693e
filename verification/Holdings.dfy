/** What the live claims hold, and the invariant that keeps holdings apart: no machine and no address
    is recorded twice, and every recorded machine is marked in Netbox so that nobody else is offered it.
    Then what writing a claim and staging machines do to it. */
module Holdings {
  import opened Basics
  import opened Text
  import opened Claims
  import opened Environment
  import opened Inventory
  import opened ApiServer
  import opened Passes

  function Held(s: Store, which: Resource, key: Key): seq<int> {
    var c := Current(s, key);
    if c.Some? then Recorded(which, c.value) else []
  }

  /** `ids` could be what `key` holds: no repetition, nothing that another claim holds. */
  ghost predicate Fits(s: Store, which: Resource, key: Key, ids: seq<int>) {
    NoDup(ids) && forall k :: k != key ==> Apart(ids, Held(s, which, k))
  }

  ghost predicate Exclusive(s: Store, which: Resource) {
    forall key :: Fits(s, which, key, Held(s, which, key))
  }

  /** How Netbox marks a machine as taken. Strong: staged under the holder's tenant.
      Weak: under some tenant, which is all that survives a release by the real client, so the weak
      invariant speaks of the real client only. */
  predicate Taken(strong: bool, d: Device, slug: string) {
    if strong then d.status == Staged && d.tenant == Some(slug) else d.tenant.Some?
  }

  ghost predicate Secured(strong: bool, ds: seq<Device>, slug: string, ids: seq<int>) {
    && (forall i :: 0 <= i < |ds| && ds[i].id in ids ==> Taken(strong, ds[i], slug))
    && (forall id :: id in ids ==> HasDevice(ds, id))
  }

  ghost predicate Issued(nb: Netbox, ids: seq<int>) {
    forall id :: id in ids ==> 0 < id < nb.nextIP
  }

  ghost predicate Inv(strong: bool, w: World) {
    && (strong || w.nb.sem == Real)
    && UniqueIDs(w.nb.devices) && w.nb.nextIP > 0
    && Exclusive(w.kube.store, Machine) && Exclusive(w.kube.store, Address)
    && (forall key: Key :: Secured(strong, w.nb.devices, TenantSlug(key.ns), Held(w.kube.store, Machine, key)))
    && (forall key :: Issued(w.nb, Held(w.kube.store, Address, key)))
  }

  /** Writing c for key now would keep the invariant. */
  ghost predicate Writable(strong: bool, w: World, key: Key, c: Claim) {
    && Fits(w.kube.store, Machine, key, Recorded(Machine, c))
    && Fits(w.kube.store, Address, key, Recorded(Address, c))
    && Secured(strong, w.nb.devices, TenantSlug(key.ns), Recorded(Machine, c))
    && Issued(w.nb, Recorded(Address, c))
  }

  /** The invariant of a pass under way; a pass working on an old version cannot write at all. */
  ghost predicate FlowInv(strong: bool, f: Flow, key: Key) {
    Inv(strong, f.w) && (f.Go? && IsCurrent(f.w.kube.store, key, f.ver) ==> Writable(strong, f.w, key, f.c))
  }

  // ---- Writing ----------------------------------------------------------------------------

  lemma HeldAfter(s: Store, key: Key, v: Option<Claim>)
    ensures var s' := Append(s, key, v);
            && Current(s', key) == v
            && (forall k :: k != key ==> HistoryOf(s', k) == HistoryOf(s, k) && Current(s', k) == Current(s, k))
            && |HistoryOf(s', key)| == |HistoryOf(s, key)| + 1
  {
  }

  lemma AppendKeepsExclusive(s: Store, which: Resource, key: Key, v: Option<Claim>)
    requires Exclusive(s, which) && (v.Some? ==> Fits(s, which, key, Recorded(which, v.value)))
    ensures Exclusive(Append(s, key, v), which)
  {
    var s' := Append(s, key, v);
    HeldAfter(s, key, v);
    var new_ := if v.Some? then Recorded(which, v.value) else [];
    assert Fits(s, which, key, new_);
    forall k ensures Fits(s', which, k, Held(s', which, k)) {
      assert Fits(s, which, k, Held(s, which, k));
      assert Held(s', which, k) == if k == key then new_ else Held(s, which, k);
      forall k2 | k2 != k ensures Apart(Held(s', which, k), Held(s', which, k2)) {
        assert Held(s', which, k2) == if k2 == key then new_ else Held(s, which, k2);
        if k2 == key {
          assert Apart(new_, Held(s, which, k));
        }
      }
    }
  }

  lemma AppendKeepsInv(strong: bool, w: World, key: Key, v: Option<Claim>)
    requires Inv(strong, w) && (v.Some? ==> Writable(strong, w, key, v.value))
    ensures Inv(strong, w.(kube := w.kube.(store := Append(w.kube.store, key, v))))
  {
    var s := w.kube.store;
    var s' := Append(s, key, v);
    HeldAfter(s, key, v);
    AppendKeepsExclusive(s, Machine, key, v);
    AppendKeepsExclusive(s, Address, key, v);
    forall k: Key ensures Secured(strong, w.nb.devices, TenantSlug(k.ns), Held(s', Machine, k)) {
      assert Secured(strong, w.nb.devices, TenantSlug(k.ns), Held(s, Machine, k));
    }
    forall k ensures Issued(w.nb, Held(s', Address, k)) {
      assert Issued(w.nb, Held(s, Address, k));
    }
  }

  /** Only the store and Netbox matter to the invariant. */
  lemma SameInv(strong: bool, w: World, w': World, key: Key, c: Claim)
    requires Inv(strong, w) && w'.nb == w.nb && w'.kube.store == w.kube.store
    ensures Inv(strong, w')
    ensures Writable(strong, w, key, c) ==> Writable(strong, w', key, c)
  {
  }

  lemma SaveKeepsInv(strong: bool, e: Env, w: World, key: Key, ver: nat, c: Claim)
    requires Inv(strong, w) && (IsCurrent(w.kube.store, key, ver) ==> Writable(strong, w, key, c))
    ensures FlowInv(strong, Save(e, w, key, ver, c), key)
    ensures forall reply :: FlowInv(strong, SaveAndStop(e, w, key, ver, c, reply), key)
  {
    hide Inv, Writable;
    var d := WriteClaim(e, w.kube, key, ver, Some(c));
    var w' := w.(kube := d.k);
    if d.k.store == w.kube.store {
      SameInv(strong, w, w', key, c);
    } else {
      AppendKeepsInv(strong, w, key, Some(c));
      SameInv(strong, w.(kube := w.kube.(store := Append(w.kube.store, key, Some(c)))), w', key, c);
      HeldAfter(w.kube.store, key, Some(c));
      StoredWritable(strong, w', key, c);
    }
  }

  /** What is stored may be stored again. */
  lemma StoredWritable(strong: bool, w: World, key: Key, c: Claim)
    requires Inv(strong, w) && Current(w.kube.store, key) == Some(c)
    ensures Writable(strong, w, key, c)
  {
    assert Fits(w.kube.store, Machine, key, Held(w.kube.store, Machine, key));
    assert Fits(w.kube.store, Address, key, Held(w.kube.store, Address, key));
    assert Secured(strong, w.nb.devices, TenantSlug(key.ns), Held(w.kube.store, Machine, key));
    assert Issued(w.nb, Held(w.kube.store, Address, key));
  }

  // ---- Staging ----------------------------------------------------------------------------

  function StagedFor(d: Device, slug: string): Device {
    d.(status := Staged, tenant := Some(slug))
  }

  /** Between ds and ds' some available devices were staged for a tenant, and nothing else happened. */
  ghost predicate OnlyStaged(ds: seq<Device>, ds': seq<Device>, slug: string) {
    && |ds'| == |ds|
    && forall i :: 0 <= i < |ds| ==> ds'[i] == ds[i] || (Available(ds[i]) && ds'[i] == StagedFor(ds[i], slug))
  }

  /** What a listing gives the staging loops: distinct available devices of this inventory. */
  ghost predicate Offered(ds: seq<Device>, devs: seq<Device>) {
    UniqueIDs(devs) && forall d :: d in devs ==> d in ds && Available(d)
  }

  /** What the staging loop has done after n devices. */
  ghost predicate StagedSoFar(nb: Netbox, devs: seq<Device>, n: nat, slug: string, s: Staging)
    requires n <= |devs|
  {
    && s.nb == nb.(devices := s.nb.devices, calls := s.nb.calls)
    && OnlyStaged(nb.devices, s.nb.devices, slug)
    && |s.ids| <= n && (s.ok ==> |s.ids| == n)
    && (forall i :: 0 <= i < |s.ids| ==> s.ids[i] == devs[i].id)
    && (forall i :: 0 <= i < |nb.devices| && nb.devices[i].id in s.ids ==>
          s.nb.devices[i] == StagedFor(nb.devices[i], slug))
    && (s.ok ==> forall i :: 0 <= i < |nb.devices| && nb.devices[i].id !in s.ids ==>
          s.nb.devices[i] == nb.devices[i])
  }

  lemma OfferedIsAvailable(ds: seq<Device>, devs: seq<Device>, n: nat, i: nat)
    requires UniqueIDs(ds) && Offered(ds, devs) && n < |devs| && i < |ds| && ds[i].id == devs[n].id
    ensures ds[i] == devs[n] && Available(ds[i])
  {
    assert devs[n] in devs;
    var j :| 0 <= j < |ds| && ds[j] == devs[n];
    assert i == j;
  }

  lemma StageOneFacts(e: Env, nb: Netbox, devs: seq<Device>, n: nat, slug: string, disks: bool, s: Staging)
    requires UniqueIDs(nb.devices) && Offered(nb.devices, devs) && n < |devs| && slug != ""
    requires s.ok && StagedSoFar(nb, devs, n, slug, s)
    ensures StagedSoFar(nb, devs, n + 1, slug, StageOne(e, s, devs[n].id, slug, disks))
  {
    hide DisksOf;
    var id := devs[n].id;
    var s' := StageOne(e, s, id, slug, disks);
    assert s'.ids == s.ids || s'.ids == s.ids + [id];
    forall i | 0 <= i < |nb.devices|
      ensures s'.nb.devices[i] == s.nb.devices[i] ||
              (nb.devices[i].id == id && Available(nb.devices[i]) && s'.nb.devices[i] == StagedFor(nb.devices[i], slug))
      ensures nb.devices[i].id == id && id in s'.ids ==> s'.nb.devices[i] == StagedFor(nb.devices[i], slug)
    {
      if nb.devices[i].id == id { OfferedIsAvailable(nb.devices, devs, n, i); }
    }
  }

  /** The staging loop touches only offered devices; the IDs it returns are the first ones offered,
      all staged; when it succeeds they are exactly the first n and nothing else was touched. */
  lemma {:induction false} StageFacts(e: Env, nb: Netbox, devs: seq<Device>, n: nat, slug: string, disks: bool)
    requires UniqueIDs(nb.devices) && Offered(nb.devices, devs) && n <= |devs| && slug != ""
    ensures StagedSoFar(nb, devs, n, slug, Stage(e, nb, devs, n, slug, disks))
  {
    hide StageOne;
    if n > 0 {
      StageFacts(e, nb, devs, n - 1, slug, disks);
      var s := Stage(e, nb, devs, n - 1, slug, disks);
      if s.ok {
        StageOneFacts(e, nb, devs, n - 1, slug, disks, s);
      }
    }
  }

  /** Nobody holds an available device. */
  lemma AvailableIsFree(strong: bool, w: World, key: Key, i: nat)
    requires Inv(strong, w) && i < |w.nb.devices| && Available(w.nb.devices[i])
    ensures w.nb.devices[i].id !in Held(w.kube.store, Machine, key)
  {
    assert Secured(strong, w.nb.devices, TenantSlug(key.ns), Held(w.kube.store, Machine, key));
  }

  lemma OnlyStagedKeepsIDs(ds: seq<Device>, ds': seq<Device>, slug: string)
    requires OnlyStaged(ds, ds', slug)
    ensures forall i :: 0 <= i < |ds| ==> ds'[i].id == ds[i].id
    ensures UniqueIDs(ds) ==> UniqueIDs(ds')
    ensures forall id :: HasDevice(ds, id) ==> HasDevice(ds', id)
  {
    forall id | HasDevice(ds, id) ensures HasDevice(ds', id) {
      var i :| 0 <= i < |ds| && ds[i].id == id;
      assert ds'[i].id == id;
    }
  }

  lemma OnlyStagedKeepsSecured(strong: bool, ds: seq<Device>, ds': seq<Device>, slug: string, holder: string, ids: seq<int>)
    requires OnlyStaged(ds, ds', slug) && Secured(strong, ds, holder, ids)
    ensures Secured(strong, ds', holder, ids)
  {
    OnlyStagedKeepsIDs(ds, ds', slug);
  }

  lemma StagingKeepsInv(strong: bool, w: World, nb': Netbox, slug: string)
    requires Inv(strong, w) && OnlyStaged(w.nb.devices, nb'.devices, slug)
    requires nb'.nextIP >= w.nb.nextIP && nb'.sem == w.nb.sem
    ensures Inv(strong, w.(nb := nb'))
  {
    OnlyStagedKeepsIDs(w.nb.devices, nb'.devices, slug);
    forall k: Key ensures Secured(strong, nb'.devices, TenantSlug(k.ns), Held(w.kube.store, Machine, k)) {
      OnlyStagedKeepsSecured(strong, w.nb.devices, nb'.devices, slug, TenantSlug(k.ns), Held(w.kube.store, Machine, k));
    }
    forall k ensures Issued(nb', Held(w.kube.store, Address, k)) {
      assert Issued(w.nb, Held(w.kube.store, Address, k));
    }
  }

  /** Whatever a claim held, it may hold with freshly staged machines added. */
  lemma StagedFit(strong: bool, w: World, key: Key, nb: Netbox, devs: seq<Device>, n: nat, e: Env, disks: bool, old_: seq<int>)
    requires Inv(strong, w) && nb.devices == w.nb.devices && Offered(nb.devices, devs) && n <= |devs|
    requires TenantSlug(key.ns) != ""
    requires Fits(w.kube.store, Machine, key, old_) && Secured(strong, w.nb.devices, TenantSlug(key.ns), old_)
    ensures var s := Stage(e, nb, devs, n, TenantSlug(key.ns), disks);
            && Fits(w.kube.store, Machine, key, old_ + s.ids)
            && Secured(strong, s.nb.devices, TenantSlug(key.ns), old_ + s.ids)
  {
    var slug := TenantSlug(key.ns);
    var s := Stage(e, nb, devs, n, slug, disks);
    StageFacts(e, nb, devs, n, slug, disks);
    OnlyStagedKeepsIDs(nb.devices, s.nb.devices, slug);
    OnlyStagedKeepsSecured(strong, nb.devices, s.nb.devices, slug, slug, old_);
    forall i, j | 0 <= i < j < |s.ids| ensures s.ids[i] != s.ids[j] {
      assert devs[i].id != devs[j].id;
    }
    forall id | id in s.ids
      ensures HasDevice(s.nb.devices, id) && id !in old_ && forall k :: id !in Held(w.kube.store, Machine, k)
    {
      var x :| 0 <= x < |s.ids| && s.ids[x] == id;
      assert devs[x] in devs;
      var i :| 0 <= i < |nb.devices| && nb.devices[i] == devs[x];
      assert s.nb.devices[i].id == id;
      forall k ensures id !in Held(w.kube.store, Machine, k) {
        AvailableIsFree(strong, w, k, i);
      }
    }
    assert forall i :: 0 <= i < |s.ids| ==> s.ids[i] in s.ids;
    assert NoDup(old_ + s.ids);
  }
}
