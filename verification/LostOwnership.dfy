/** Two ways in which one machine ends up recorded by two claims: what the ownership theorems exclude by assumption
    is really possible. */
module LostOwnership {
  import opened Basics
  import opened Text
  import opened Claims
  import opened Environment
  import opened Inventory
  import opened ApiServer
  import opened Passes
  import opened Holdings
  import ClusterPass
  import ServerPass
  import opened Runs

  // ---- A server claim that gets the only free machine -------------------------------------

  const SITE := Site("s", "z", "o", "l")
  const SPEC := ServerSpec("m", "s")
  const FREE := Device(7, Active, "s", "m", None, [])

  /** What the claim says after its first, second, third and fourth pass wrote it. */
  const NEW_CLAIM := Server(NEW_META, SPEC, EMPTY_SERVER_STATUS)
  const GUARDED := Server(NEW_META.(finalizer := true), SPEC, EMPTY_SERVER_STATUS)
  const ACCEPTED := GUARDED.(sst := EMPTY_SERVER_STATUS.(phase := Provisioning))

  function Addressed(ip: string, dns: string, id: int): Claim {
    ACCEPTED.(sst := ACCEPTED.sst.(ip := ip, dns := dns, ipamID := id))
  }

  function Equipped(ip: string, dns: string, id: int): Claim {
    ACCEPTED.(sst := ACCEPTED.sst.(ip := ip, dns := dns, ipamID := id, machineID := 7))
  }

  /** Version n of the claim is its current one and says c. */
  predicate At(w: World, key: Key, n: nat, c: Claim) {
    var h := HistoryOf(w.kube.store, key);
    |h| == n + 1 && h[n] == Some(c)
  }

  /** The in-memory inventory with one free machine, on the one site there is. */
  predicate OneFree(w: World) {
    w.nb.sem == Fake && w.nb.devices == [FREE] && w.kube.sites == map["s" := SITE]
  }

  /** Netbox answers every call, and the API server those from number `from` to before number `to`. */
  ghost predicate Works(e: Env, from: nat, to: nat) {
    (forall n :: e.netbox(n) == Ok) && (forall n :: from <= n < to ==> e.kube(n) == Ok)
  }

  /** Nothing but this claim, the calls and the jobs of this claim changed between two worlds. */
  ghost predicate Alone(w: World, w': World, key: Key) {
    && w'.kube.sites == w.kube.sites && w'.nb.sem == w.nb.sem
    && (forall k :: k != key ==> HistoryOf(w'.kube.store, k) == HistoryOf(w.kube.store, k))
    && (forall o :: o in w'.kube.jobs ==> o in w.kube.jobs || o == JobOf(key))
  }

  lemma PassReads(e: Env, w: World, key: Key, n: nat, c: Claim)
    requires At(w, key, n, c) && e.kube(w.kube.calls) == Ok
    ensures Next(e, w, Pass(key, n)) == Step(e, w.(kube := w.kube.(calls := w.kube.calls + 1)), key, n, c).w
  {
    hide Step;
  }

  /** The first two passes set the finalizer and accept the claim. */
  lemma GetsAccepted(e: Env, w: World, key: Key)
    requires OneFree(w) && key.kind == ServerKind && HistoryOf(w.kube.store, key) == []
    requires Works(e, w.kube.calls, w.kube.calls + 5)
    ensures var w1 := Next(e, w, CreateServer(key, SPEC));
            var w2 := Next(e, w1, Pass(key, 0));
            var w3 := Next(e, w2, Pass(key, 1));
            && At(w3, key, 2, ACCEPTED) && OneFree(w3) && Alone(w, w3, key) && w3.kube.calls == w.kube.calls + 5
            && w3.kube.jobs == w.kube.jobs
  {
    hide Next, ListAvailable;
    var w1 := Next(e, w, CreateServer(key, SPEC));
    Creates(e, w, key);
    var w2 := Next(e, w1, Pass(key, 0));
    SetsFinalizer(e, w1, key);
    Accepts(e, w2, key);
  }

  lemma Creates(e: Env, w: World, key: Key)
    requires key.kind == ServerKind && HistoryOf(w.kube.store, key) == []
    ensures var w1 := Next(e, w, CreateServer(key, SPEC));
            && At(w1, key, 0, NEW_CLAIM) && Alone(w, w1, key) && w1.nb == w.nb
            && w1.kube == w.kube.(store := w1.kube.store)
  {
  }

  lemma SetsFinalizer(e: Env, w: World, key: Key)
    requires At(w, key, 0, NEW_CLAIM) && Works(e, w.kube.calls, w.kube.calls + 2)
    ensures var w1 := Next(e, w, Pass(key, 0));
            && At(w1, key, 1, GUARDED) && Alone(w, w1, key) && w1.nb == w.nb
            && w1.kube == w.kube.(store := w1.kube.store, calls := w.kube.calls + 2)
  {
    PassReads(e, w, key, 0, NEW_CLAIM);
  }

  lemma OffersFree(e: Env, nb: Netbox)
    requires nb.sem == Fake && nb.devices == [FREE] && e.netbox(nb.calls) == Ok
    ensures ListAvailable(e, nb, "s", "m") == Answer(nb.(calls := nb.calls + 1), Some([FREE]))
  {
    var ds := [FREE];
    assert ds[..0] == [] && Selected(Fake, ds[..0], "s", "m") == [];
    assert Selects(Fake, FREE, "s", "m");
    assert Selected(Fake, ds, "s", "m") == [FREE];
  }

  lemma Accepts(e: Env, w: World, key: Key)
    requires At(w, key, 1, GUARDED) && OneFree(w) && Works(e, w.kube.calls, w.kube.calls + 3)
    ensures var w1 := Next(e, w, Pass(key, 1));
            && At(w1, key, 2, ACCEPTED) && Alone(w, w1, key) && OneFree(w1)
            && w1.kube == w.kube.(store := w1.kube.store, calls := w.kube.calls + 3)
  {
    hide Next, ListAvailable;
    PassReads(e, w, key, 1, GUARDED);
    OffersFree(e, w.nb);
  }

  function Staged7(key: Key): Device { FREE.(status := Staged, tenant := Some(TenantSlug(key.ns))) }

  lemma StagesFree(e: Env, nb: Netbox, key: Key)
    requires nb.sem == Fake && nb.devices == [FREE] && e.netbox(nb.calls) == Ok && TenantSlug(key.ns) != ""
    ensures Stage(e, nb, [FREE], 1, TenantSlug(key.ns), false)
         == Staging(nb.(devices := [Staged7(key)], calls := nb.calls + 1), [7], map[], true)
  {
    assert Stage(e, nb, [FREE], 0, TenantSlug(key.ns), false) == Staging(nb, [], map[], true);
    assert nb.devices[0].id == 7;
    assert PatchDevice(Fake, nb.devices, 7, Staged, TenantSlug(key.ns)) == [Staged7(key)];
  }

  lemma TakesAddress(e: Env, w: World, key: Key)
    requires At(w, key, 2, ACCEPTED) && Works(e, w.kube.calls, w.kube.calls + 1)
    ensures var dns := key.name + "." + TenantSlug(key.ns) + "." + SITE.zone;
            var c1 := Addressed(StripPrefix(e.address(w.nb.nextIP)), dns, w.nb.nextIP);
            var f := ServerPass.AllocateServerIP(e, w, key, 2, ACCEPTED, SITE);
            && f == Go(f.w, 3, c1) && At(f.w, key, 3, c1) && Alone(w, f.w, key)
            && f.w.nb == w.nb.(nextIP := w.nb.nextIP + 1, calls := w.nb.calls + 1)
            && f.w.kube == w.kube.(store := f.w.kube.store, calls := w.kube.calls + 1)
  {
    hide StripPrefix, TenantSlug;
  }

  lemma TakesMachine(e: Env, w: World, key: Key, ip: string, dns: string, id: int)
    requires At(w, key, 3, Addressed(ip, dns, id)) && OneFree(w) && TenantSlug(key.ns) != "" && Works(e, w.kube.calls, w.kube.calls + 1)
    ensures var f := ServerPass.AllocateMachine(e, w, key, 3, Addressed(ip, dns, id), SITE);
            && f == Go(f.w, 4, Equipped(ip, dns, id)) && At(f.w, key, 4, f.c) && Alone(w, f.w, key)
            && f.w.nb.devices == [Staged7(key)]
            && f.w.kube == w.kube.(store := f.w.kube.store, calls := w.kube.calls + 1)
  {
    hide ListAvailable, Stage, TenantSlug;
    OffersFree(e, w.nb);
    StagesFree(e, w.nb.(calls := w.nb.calls + 1), key);
  }

  /** The third pass takes an address and the machine and starts the Job. */
  lemma GetsMachine(e: Env, w: World, key: Key) returns (c: Claim)
    requires At(w, key, 2, ACCEPTED) && OneFree(w) && TenantSlug(key.ns) != ""
    requires Works(e, w.kube.calls, w.kube.calls + 6) && JobOf(key) !in w.kube.jobs
    ensures var w1 := Next(e, w, Pass(key, 2));
            && c.Server? && c.meta == GUARDED.meta && c.sst.machineID == 7 && |Recorded(Address, c)| <= 1
            && At(w1, key, 4, c) && Alone(w, w1, key)
            && w1.nb.devices == [Staged7(key)] && w1.kube.calls == w.kube.calls + 6
  {
    hide Next, StripPrefix, TenantSlug, JobOf, ServerPass.AllocateServerIP, ServerPass.AllocateMachine;
    PassReads(e, w, key, 2, ACCEPTED);
    var w0 := w.(kube := w.kube.(calls := w.kube.calls + 2));
    TakesAddress(e, w0, key);
    var dns := key.name + "." + TenantSlug(key.ns) + "." + SITE.zone;
    var f1 := ServerPass.AllocateServerIP(e, w0, key, 2, ACCEPTED, SITE);
    TakesMachine(e, f1.w, key, StripPrefix(e.address(w.nb.nextIP)), dns, w.nb.nextIP);
    c := Equipped(StripPrefix(e.address(w.nb.nextIP)), dns, w.nb.nextIP);
    var f2 := ServerPass.AllocateMachine(e, f1.w, key, 3, f1.c, SITE);
    assert Next(e, w, Pass(key, 2)) == ServerPass.RunJob(e, f2.w, key, 4, c).w;
  }

  /** Created, guarded, accepted, equipped: four events, and the claim holds the machine. */
  lemma ServerGetsMachine(e: Env, w: World, key: Key) returns (c: Claim)
    requires OneFree(w) && key.kind == ServerKind && HistoryOf(w.kube.store, key) == [] && TenantSlug(key.ns) != ""
    requires Works(e, w.kube.calls, w.kube.calls + 11) && JobOf(key) !in w.kube.jobs
    ensures var w1 := Next(e, w, CreateServer(key, SPEC));
            var w4 := Next(e, Next(e, Next(e, w1, Pass(key, 0)), Pass(key, 1)), Pass(key, 2));
            && c.Server? && c.meta == GUARDED.meta && c.sst.machineID == 7 && |Recorded(Address, c)| <= 1
            && At(w4, key, 4, c) && Alone(w, w4, key)
            && w4.nb.devices == [Staged7(key)] && w4.kube.calls == w.kube.calls + 11
  {
    hide Next, OneFree;
    GetsAccepted(e, w, key);
    var w1 := Next(e, w, CreateServer(key, SPEC));
    var w3 := Next(e, Next(e, w1, Pass(key, 0)), Pass(key, 1));
    c := GetsMachine(e, w3, key);
  }

  // ---- A removal that is refused ----------------------------------------------------------

  /** The user deletes the claim; its finalizer frees the machine, but the removal is refused. */
  lemma FreesAndStays(e: Env, w: World, key: Key, c: Claim)
    requires At(w, key, 4, c) && c.Server? && c.meta == GUARDED.meta && c.sst.machineID == 7 && |Recorded(Address, c)| <= 1
    requires w.nb.sem == Fake && w.nb.devices == [Staged7(key)] && w.kube.sites == map["s" := SITE]
    requires (forall n :: e.netbox(n) == Ok) && e.kube(w.kube.calls) == Ok && e.kube(w.kube.calls + 1) == Refused
    ensures var w2 := Next(e, Next(e, w, Delete(key)), Pass(key, 5));
            && At(w2, key, 5, WithMeta(c, c.meta.(deleting := true))) && Alone(w, w2, key)
            && OneFree(w2) && w2.kube.calls == w.kube.calls + 2
  {
    hide Next, ReleaseIPs;
    var c' := WithMeta(c, c.meta.(deleting := true));
    var w1 := Next(e, w, Delete(key));
    Deletes(e, w, key, c);
    PassReads(e, w1, key, 5, c');
    var ips := Recorded(Address, c);
    ReleasesOne(e, w.nb, ips, key);
  }

  lemma Deletes(e: Env, w: World, key: Key, c: Claim)
    requires At(w, key, 4, c) && c.Server? && c.meta == GUARDED.meta
    ensures var w1 := Next(e, w, Delete(key));
            && At(w1, key, 5, WithMeta(c, c.meta.(deleting := true))) && Alone(w, w1, key)
            && w1.nb == w.nb && w1.kube == w.kube.(store := w1.kube.store)
  {
  }

  lemma ReleasesOne(e: Env, nb: Netbox, ips: seq<int>, key: Key)
    requires nb.sem == Fake && nb.devices == [Staged7(key)] && |ips| <= 1 && forall n :: e.netbox(n) == Ok
    ensures var nb' := ReleaseEach(e, ReleaseIPs(e, nb, ips, |ips|), [7], 1);
            nb'.devices == [FREE] && nb'.sem == Fake
  {
    var nb1 := ReleaseIPs(e, nb, ips, |ips|);
    assert ReleaseIPs(e, nb, ips, 0) == nb;
    assert nb1.devices == nb.devices && nb1.sem == Fake;
    assert ReleaseEach(e, nb1, [7], 0) == nb1;
    assert PatchDevice(Fake, nb1.devices, 7, Active, "") == [FREE];
  }

  // ---- The run ----------------------------------------------------------------------------

  const ALICE := Key(ServerKind, "tenant-a", "alice")
  const BOB := Key(ServerKind, "tenant-b", "bob")

  /** Nothing claimed, one free machine. */
  function Before(): World {
    World(Netbox(Fake, [FREE], map[], 1, [], 0), Kube(map[], map["s" := SITE], map[], map[], map[], map[], 0), 0)
  }

  /** One call to the API server fails: the removal of Alice's finalizer. */
  function RefusesRemoval(): Env {
    Env(n => Ok, n => if n == 12 then Refused else Ok, n => "10.0.0.1/24", n => 0, (n, cs) => cs, (n, m) => [])
  }

  function Story(): seq<Event> {
    [CreateServer(ALICE, SPEC), Pass(ALICE, 0), Pass(ALICE, 1), Pass(ALICE, 2), Delete(ALICE), Pass(ALICE, 5),
     CreateServer(BOB, SPEC), Pass(BOB, 0), Pass(BOB, 1), Pass(BOB, 2)]
  }

  lemma KeysApart()
    ensures ALICE != BOB && JobOf(ALICE) != JobOf(BOB) && TenantSlug(ALICE.ns) != "" && TenantSlug(BOB.ns) != ""
  {
    assert "tenant-a"[7] != "tenant-b"[7];
    assert |"tenant-a"| == 8 && |"tenant-b"| == 8 && |"tenant-"| == 7;
  }

  /** The first six events: Alice holds a machine that has been freed. */
  lemma {:induction false} AliceLosesHerRemoval(e: Env, r: Run) returns (c: Claim)
    requires IsRun(e, r) && r.events == Story() && r.worlds[0] == Before() && e == RefusesRemoval()
    ensures At(r.worlds[6], ALICE, 5, c) && c.Server? && c.sst.machineID == 7
    ensures OneFree(r.worlds[6]) && r.worlds[6].kube.calls == 13
    ensures HistoryOf(r.worlds[6].kube.store, BOB) == [] && JobOf(BOB) !in r.worlds[6].kube.jobs
  {
    hide Next, JobOf, TenantSlug;
    KeysApart();
    Unrolled(e, r);
    var w := r.worlds[0];
    var live := ServerGetsMachine(e, w, ALICE);
    var w4 := Next(e, Next(e, Next(e, Next(e, w, CreateServer(ALICE, SPEC)), Pass(ALICE, 0)), Pass(ALICE, 1)), Pass(ALICE, 2));
    FreesAndStays(e, w4, ALICE, live);
    c := WithMeta(live, live.meta.(deleting := true));
  }

  /** The last four: Bob is offered the machine and records it, while Alice still does. */
  lemma {:induction false} BobTakesIt(e: Env, r: Run, c: Claim)
    requires IsRun(e, r) && r.events == Story() && OneFree(r.worlds[6])
    requires At(r.worlds[6], ALICE, 5, c) && c.Server? && c.sst.machineID == 7
    requires HistoryOf(r.worlds[6].kube.store, BOB) == [] && JobOf(BOB) !in r.worlds[6].kube.jobs
    requires Works(e, r.worlds[6].kube.calls, r.worlds[6].kube.calls + 11)
    ensures 7 in Held(r.worlds[10].kube.store, Machine, ALICE) && 7 in Held(r.worlds[10].kube.store, Machine, BOB)
  {
    hide Next, JobOf, TenantSlug;
    KeysApart();
    Unrolled(e, r);
    var w, w4 := r.worlds[6], r.worlds[10];
    var bobs := ServerGetsMachine(e, w, BOB);
    assert HistoryOf(w4.kube.store, ALICE) == HistoryOf(w.kube.store, ALICE);
    assert Current(w4.kube.store, ALICE) == Some(c) && Current(w4.kube.store, BOB) == Some(bobs);
  }

  /** With the intended release, one refused write is enough to lose exclusivity: a run from the start, each pass
      from the current version, in which the machine of a claim being deleted is handed to a second claim. */
  lemma LostRemovalDoubleBooks() returns (e: Env, r: Run)
    ensures IsRun(e, r) && Start(r.worlds[0]) && TenantRun(r) && |r.events| == 10
    ensures (forall n :: e.netbox(n) == Ok) && (forall n :: n != 12 ==> e.kube(n) == Ok)
    ensures !Exclusive(r.worlds[10].kube.store, Machine)
  {
    hide Next, TenantSlug;
    e := RefusesRemoval();
    r := Play(e, Before(), Story());
    KeysApart();
    assert forall n: nat :: n < 10 ==> InTenant(r.events[n]);
    var c := AliceLosesHerRemoval(e, r);
    BobTakesIt(e, r, c);
    var s := r.worlds[10].kube.store;
    assert !Fits(s, Machine, ALICE, Held(s, Machine, ALICE));
  }

  lemma Unrolled(e: Env, r: Run)
    requires IsRun(e, r) && r.events == Story()
    ensures r.worlds[6] == Next(e, Next(e, Next(e, Next(e, Next(e, Next(e, r.worlds[0], CreateServer(ALICE, SPEC)),
                             Pass(ALICE, 0)), Pass(ALICE, 1)), Pass(ALICE, 2)), Delete(ALICE)), Pass(ALICE, 5))
    ensures r.worlds[10] == Next(e, Next(e, Next(e, Next(e, r.worlds[6], CreateServer(BOB, SPEC)),
                             Pass(BOB, 0)), Pass(BOB, 1)), Pass(BOB, 2))
  {
    hide Next;
    assert Linked(e, r, 0) && Linked(e, r, 1) && Linked(e, r, 2) && Linked(e, r, 3) && Linked(e, r, 4);
    assert Linked(e, r, 5) && Linked(e, r, 6) && Linked(e, r, 7) && Linked(e, r, 8) && Linked(e, r, 9);
  }

  // ---- Passes that overlap ----------------------------------------------------------------

  /** A server claim's pass lists the free machines; before it goes on, the pass of a cluster claim, which the other
      controller runs, lists, stages and records; then the first one stages and records what it was offered. No
      call fails, yet both claims hold the machine. */
  lemma OverlapDoubleBooks(e: Env, w: World, server: Key, cluster: Key, sver: nat, cver: nat, sc: Claim, cc: Claim, site: Site)
    requires NoFaults(e) && UniqueIDs(w.nb.devices) && server != cluster
    requires Current(w.kube.store, server) == Some(sc) && IsCurrent(w.kube.store, server, sver)
    requires Current(w.kube.store, cluster) == Some(cc) && IsCurrent(w.kube.store, cluster, cver)
    requires sc.Server? && sc.sst.machineID == 0 && TenantSlug(server.ns) != ""
    requires cc.Cluster? && cc.st.machineIDs == [] && cc.spec.machineCount > 0 && TenantSlug(cluster.ns) != ""
    requires cc.spec.machineClass == sc.sspec.machineClass
    requires AvailableDevices(w.nb.sem, w.nb.devices, site.slug, sc.sspec.machineClass) != []
    ensures var offer := ListAvailable(e, w.nb, site.slug, sc.sspec.machineClass);
            var between := ClusterPass.AllocateMachines(e, w.(nb := offer.nb), cluster, cver, cc, site);
            var after := ServerPass.TakeMachine(e, between.w, server, sver, sc, offer.value);
            && offer.value.Some? && offer.value.value != [] && between.Go? && after.Go?
            && offer.value.value[0].id in Held(after.w.kube.store, Machine, cluster)
            && offer.value.value[0].id in Held(after.w.kube.store, Machine, server)
            && !Exclusive(after.w.kube.store, Machine)
  {
    hide TenantSlug, Stage, AvailableDevices, ClusterPass.AllocateMachines, ServerPass.TakeMachine;
    var offer := ListAvailable(e, w.nb, site.slug, sc.sspec.machineClass);
    var w1, id := w.(nb := offer.nb), offer.value.value[0].id;
    ClusterTakes(e, w1, cluster, cver, cc, site);
    var w2 := ClusterPass.AllocateMachines(e, w1, cluster, cver, cc, site).w;
    ServerTakes(e, w2, server, sver, sc, offer.value.value);
    var t := ServerPass.TakeMachine(e, w2, server, sver, sc, offer.value).w.kube.store;
    assert id in Held(t, Machine, server) && id in Held(t, Machine, cluster);
    assert !Apart(Held(t, Machine, server), Held(t, Machine, cluster));
    assert !Fits(t, Machine, server, Held(t, Machine, server));
  }

  lemma ClusterTakes(e: Env, w: World, key: Key, ver: nat, c: Claim, site: Site)
    requires NoFaults(e) && UniqueIDs(w.nb.devices) && IsCurrent(w.kube.store, key, ver)
    requires c.Cluster? && c.st.machineIDs == [] && c.spec.machineCount > 0 && TenantSlug(key.ns) != ""
    requires AvailableDevices(w.nb.sem, w.nb.devices, site.slug, c.spec.machineClass) != []
    ensures var devs := AvailableDevices(w.nb.sem, w.nb.devices, site.slug, c.spec.machineClass);
            var f := ClusterPass.AllocateMachines(e, w, key, ver, c, site);
            && f.Go? && HasDevice(f.w.nb.devices, devs[0].id) && devs[0].id != 0 && devs[0].id in Held(f.w.kube.store, Machine, key)
            && (forall k :: k != key ==> HistoryOf(f.w.kube.store, k) == HistoryOf(w.kube.store, k))
  {
    hide TenantSlug, Stage, AvailableDevices;
    var devs := AvailableDevices(w.nb.sem, w.nb.devices, site.slug, c.spec.machineClass);
    ListedAreAvailable(e, w.nb, site.slug, c.spec.machineClass);
    var n, nb := ClusterPass.Min(c.spec.machineCount, |devs|), w.nb.(calls := w.nb.calls + 1);
    var s := Stage(e, nb, devs, n, TenantSlug(key.ns), true);
    StageFacts(e, nb, devs, n, TenantSlug(key.ns), true);
    OfferedExist(nb.devices, devs);
    StageWorks(e, nb, devs, n, TenantSlug(key.ns), true);
    HeldAfter(w.kube.store, key, Some(c.(st := c.st.(machineIDs := s.ids, osdDevices := s.osd))));
    assert s.ids[0] == devs[0].id;
  }

  lemma ServerTakes(e: Env, w: World, key: Key, ver: nat, c: Claim, devs: seq<Device>)
    requires NoFaults(e) && IsCurrent(w.kube.store, key, ver) && c.Server?
    requires devs != [] && HasDevice(w.nb.devices, devs[0].id) && devs[0].id != 0
    ensures var f := ServerPass.TakeMachine(e, w, key, ver, c, Some(devs));
            && f.Go? && devs[0].id in Held(f.w.kube.store, Machine, key)
            && (forall k :: k != key ==> HistoryOf(f.w.kube.store, k) == HistoryOf(w.kube.store, k))
  {
    hide TenantSlug;
    assert Stage(e, w.nb, devs, 0, TenantSlug(key.ns), false) == Staging(w.nb, [], map[], true);
    HeldAfter(w.kube.store, key, Some(c.(sst := c.sst.(machineID := devs[0].id))));
  }

  lemma OfferedExist(ds: seq<Device>, devs: seq<Device>)
    requires Offered(ds, devs)
    ensures forall i :: 0 <= i < |devs| ==> HasDevice(ds, devs[i].id)
  {
    forall i | 0 <= i < |devs| ensures HasDevice(ds, devs[i].id) {
      assert devs[i] in devs;
      var j :| 0 <= j < |ds| && ds[j] == devs[i];
    }
  }

  /** Staging devices that exist succeeds when no call fails, even if they are staged already. */
  lemma {:induction false} StageWorks(e: Env, nb: Netbox, devs: seq<Device>, n: nat, slug: string, disks: bool)
    requires NoFaults(e) && n <= |devs| && forall i :: 0 <= i < |devs| ==> HasDevice(nb.devices, devs[i].id)
    ensures var s := Stage(e, nb, devs, n, slug, disks);
            && s.ok && (forall id :: HasDevice(nb.devices, id) ==> HasDevice(s.nb.devices, id))
  {
    hide DisksOf, AddDisks;
    if n > 0 {
      StageWorks(e, nb, devs, n - 1, slug, disks);
      var s := Stage(e, nb, devs, n - 1, slug, disks);
      var s' := StageOne(e, s, devs[n - 1].id, slug, disks);
      forall id | HasDevice(s.nb.devices, id) ensures HasDevice(s'.nb.devices, id) {
        var i :| 0 <= i < |s.nb.devices| && s.nb.devices[i].id == id;
        assert s'.nb.devices[i].id == id;
      }
    }
  }
}
