/** The history of a claim: what each stored version must show for the phase it is in and which version may
    follow which, and that every step of every pass keeps all of it, together with an account of the addresses
    that the pass was given. It holds for both clients, with any faults and any stale reads. */
module Histories {
  import opened Basics
  import opened Text
  import opened Claims
  import opened Conditions
  import opened Environment
  import opened Inventory
  import opened ApiServer
  import opened Passes
  import opened Holdings
  import opened Exclusivity
  import ClusterPass
  import ServerPass
  import RoleRules
  import opened Runs

  // ---- What a version must show -----------------------------------------------------------

  function One(s: string): nat { if s == "" then 0 else 1 }

  predicate Reached(p: Phase, q: Phase) {
    match q
    case ClusterReady => p == ClusterReady || p == AddonsReady || p == Ready
    case AddonsReady => p == AddonsReady || p == Ready
    case _ => p == q
  }

  predicate SoundCluster(key: Key, m: Meta, st: ClusterStatus) {
    && |st.ipamIDs| == One(st.cpIP) + One(st.whIP) && (st.whIP != "" ==> st.cpIP != "")
    && (|st.ipamIDs| == 2 ==> st.ipamIDs[0] != st.ipamIDs[1])
    && (!m.finalizer || st.phase == Pending ==> st == EMPTY_CLUSTER_STATUS)
    && (st.phase == Provisioning ==> IsTrue(st.conditions, "Validated"))
    && (st.phase == Failed ==> Lookup(st.conditions, "Validated").Some? && !IsTrue(st.conditions, "Validated"))
    && (Reached(st.phase, ClusterReady) ==>
          && st.cpIP != "" && st.whIP != "" && st.clusterRef == Some(key.name)
          && IsTrue(st.conditions, "Validated")
          && IsTrue(st.conditions, "MachineCfgDone")
          && IsTrue(st.conditions, "CAPIReady"))
    && (Reached(st.phase, AddonsReady) ==> IsTrue(st.conditions, "AddonsReady"))
    && st.kubeconfig == (if st.phase == Ready then ClusterPass.SecretOf(key) else "")
  }

  predicate SoundServer(m: Meta, st: ServerStatus) {
    && (st.ip != "" <==> st.ipamID != 0)
    && (st.machineID != 0 ==> st.ip != "")
    && (!m.finalizer || st.phase == Pending ==> st == EMPTY_SERVER_STATUS)
    && (st.phase == Ready ==> st.machineID != 0)
    && st.phase != ClusterReady && st.phase != AddonsReady
  }

  predicate Sound(key: Key, c: Claim) {
    match c
    case Cluster(m, _, st) => SoundCluster(key, m, st)
    case Server(m, _, sst) => SoundServer(m, sst)
  }

  // ---- Which version may follow which -----------------------------------------------------

  predicate PhaseStep(p: Phase, q: Phase) {
    p == q ||
    match p
    case Pending => q == Provisioning || q == Failed
    case Provisioning => q == ClusterReady || q == Failed
    case ClusterReady => q == AddonsReady
    case AddonsReady => q == Ready
    case _ => false
  }

  predicate ForwardCluster(st: ClusterStatus, st': ClusterStatus) {
    && PhaseStep(st.phase, st'.phase)
    && st.ipamIDs <= st'.ipamIDs
    && (st.cpIP != "" ==> st'.cpIP == st.cpIP && st'.cpDNS == st.cpDNS)
    && (st.whIP != "" ==> st'.whIP == st.whIP && st'.whDNS == st.whDNS)
    && (st'.machineIDs == st.machineIDs || st.phase == Ready || (st.phase == Provisioning && st.machineIDs == []))
    && (st'.osdDevices == st.osdDevices || (st.phase == Provisioning && st.machineIDs == []))
  }

  predicate ForwardServer(st: ServerStatus, st': ServerStatus) {
    && (PhaseStep(st.phase, st'.phase) || (st.phase == Provisioning && st'.phase == Ready))
    && (st.ip != "" ==> st'.ip == st.ip && st'.ipamID == st.ipamID)
    && (st.machineID != 0 ==> st'.machineID == st.machineID)
  }

  predicate Forward(c: Claim, c': Claim) {
    && (c.meta.finalizer ==> c'.meta.finalizer) && (c.meta.deleting ==> c'.meta.deleting)
    && match (c, c')
       case (Cluster(_, _, st), Cluster(_, _, st')) => ForwardCluster(st, st')
       case (Server(_, _, st), Server(_, _, st')) => ForwardServer(st, st')
       case _ => false
  }

  predicate Fresh(c: Claim) {
    && c.meta == NEW_META
    && match c
       case Cluster(_, _, st) => st == EMPTY_CLUSTER_STATUS
       case Server(_, _, sst) => sst == EMPTY_SERVER_STATUS
  }

  /** A claim appears fresh, moves forward, and goes only when it is deleted or never had its finalizer. */
  predicate Adjacent(v: Option<Claim>, v': Option<Claim>) {
    match (v, v')
    case (None, None) => false
    case (None, Some(c')) => Fresh(c')
    case (Some(c), None) => c.meta.deleting || !c.meta.finalizer
    case (Some(c), Some(c')) => Forward(c, c')
  }

  ghost predicate SoundHistory(key: Key, h: History) {
    && (h != [] ==> Adjacent(None, h[0]))
    && (forall i :: 0 <= i < |h| && h[i].Some? ==> Sound(key, h[i].value))
    && (forall i :: 0 < i < |h| ==> Adjacent(h[i - 1], h[i]))
  }

  ghost predicate Sane(w: World) {
    && UniqueIDs(w.nb.devices) && w.nb.nextIP > 0
    && forall key :: SaneKey(w, key)
  }

  ghost predicate SaneKey(w: World, key: Key) {
    SoundHistory(key, HistoryOf(w.kube.store, key)) && IssuedHistory(w.nb, HistoryOf(w.kube.store, key))
  }

  /** Every address recorded in any version was handed out by Netbox. */
  ghost predicate IssuedHistory(nb: Netbox, h: History) {
    forall i :: 0 <= i < |h| && h[i].Some? ==> Issued(nb, Recorded(Address, h[i].value))
  }

  /** What a pass sees of a claim in a sane world is sound. */
  lemma SeenSound(w: World, key: Key, ver: nat)
    requires Sane(w) && Seen(w.kube.store, key, ver).Some?
    ensures Sound(key, Seen(w.kube.store, key, ver).value)
  {
    hide Sound, Adjacent;
    assert SaneKey(w, key);
  }

  /** A pass under way: its working copy is the version it holds. */
  ghost predicate SaneFlow(f: Flow, key: Key) {
    && Sane(f.w)
    && (f.Go? ==> f.ver < |HistoryOf(f.w.kube.store, key)| && HistoryOf(f.w.kube.store, key)[f.ver] == Some(f.c))
  }

  // ---- What a pass may do to the addresses ------------------------------------------------

  /** Nothing about addresses has changed, and no other claim has. */
  ghost predicate Quiet(w: World, w': World, key: Key) {
    && w'.nb.nextIP == w.nb.nextIP && w'.nb.released == w.nb.released
    && Held(w'.kube.store, Address, key) == Held(w.kube.store, Address, key)
    && forall k :: k != key ==> HistoryOf(w'.kube.store, k) == HistoryOf(w.kube.store, k)
  }

  /** The claim keeps its addresses and gains only fresh ones; every fresh address is recorded, except
      that a pass that ends in an error may strand the last one. */
  ghost predicate Ledger(w: World, f: Flow, key: Key) {
    var old_, new_ := Held(w.kube.store, Address, key), Held(f.w.kube.store, Address, key);
    && w.nb.nextIP <= f.w.nb.nextIP && f.w.nb.released == w.nb.released
    && (forall id :: id in old_ ==> id in new_)
    && (forall id :: id in new_ ==> id in old_ || w.nb.nextIP <= id < f.w.nb.nextIP)
    && (forall id :: w.nb.nextIP <= id < f.w.nb.nextIP ==>
          id in new_ || (f.Stop? && f.reply == Error && id == f.w.nb.nextIP - 1))
    && forall k :: k != key ==> HistoryOf(f.w.kube.store, k) == HistoryOf(w.kube.store, k)
  }

  // ---- Writing ----------------------------------------------------------------------------

  lemma AppendSane(w: World, key: Key, v: Option<Claim>)
    requires Sane(w)
    requires v.Some? ==> Sound(key, v.value) && Issued(w.nb, Recorded(Address, v.value))
    requires Adjacent(Current(w.kube.store, key), v)
    ensures Sane(Put(w, key, v))
  {
    var s := w.kube.store;
    HeldAfter(s, key, v);
    var h := HistoryOf(s, key);
    forall k ensures SaneKey(Put(w, key, v), k) {
      assert SaneKey(w, k);
      if k == key {
        assert HistoryOf(Append(s, key, v), k) == h + [v];
      }
    }
  }

  lemma CarrySane(w: World, w': World, key: Key, ver: nat, c: Claim)
    requires SaneFlow(Go(w, ver, c), key)
    requires UniqueIDs(w'.nb.devices) && w'.nb.nextIP >= w.nb.nextIP && w'.kube.store == w.kube.store
    ensures SaneFlow(Go(w', ver, c), key) && Sane(w')
  {
    SameSane(w, w');
  }

  lemma SameSane(w: World, w': World)
    requires Sane(w)
    requires UniqueIDs(w'.nb.devices) && w'.nb.nextIP >= w.nb.nextIP && w'.kube.store == w.kube.store
    ensures Sane(w')
  {
    forall k ensures SaneKey(w', k) {
      assert SaneKey(w, k);
    }
  }

  lemma SaveSane(e: Env, w: World, key: Key, ver: nat, c: Claim, c': Claim)
    requires SaneFlow(Go(w, ver, c), key) && Sound(key, c') && Forward(c, c')
    requires Recorded(Address, c') == Recorded(Address, c) || Issued(w.nb, Recorded(Address, c'))
    ensures SaneFlow(Save(e, w, key, ver, c'), key)
    ensures forall reply :: SaneFlow(SaveAndStop(e, w, key, ver, c', reply), key)
    ensures Recorded(Address, c') == Recorded(Address, c) ==>
      && Quiet(w, Save(e, w, key, ver, c').w, key)
      && forall reply :: Quiet(w, SaveAndStop(e, w, key, ver, c', reply).w, key)
  {
    SoundNow(Go(w, ver, c), key);
    var w' := w.(kube := WriteClaim(e, w.kube, key, ver, Some(c')).k);
    if w'.kube.store == w.kube.store {
      SameSane(w, w');
    } else {
      AppendSane(w, key, Some(c'));
      HeldAfter(w.kube.store, key, Some(c'));
      SameSane(Put(w, key, Some(c')), w');
    }
  }

  lemma SoundNow(f: Flow, key: Key)
    requires f.Go? && SaneFlow(f, key)
    ensures Sound(key, f.c) && Issued(f.w.nb, Recorded(Address, f.c))
  {
    assert SaneKey(f.w, key);
  }

  // ---- Cluster steps ----------------------------------------------------------------------

  lemma MarkKeeps(st: ClusterStatus, ctype: string, status: bool, reason: string)
    ensures var st' := ClusterPass.Mark(st, ctype, status, reason);
            && Lookup(st'.conditions, ctype) == Some(Condition(ctype, status, reason))
            && forall other :: other != ctype ==> Lookup(st'.conditions, other) == Lookup(st.conditions, other)
  {
    LookupAfterSet(st.conditions, ctype, status, reason, ctype);
    forall other | other != ctype
      ensures Lookup(SetCondition(st.conditions, ctype, status, reason), other) == Lookup(st.conditions, other)
    {
      LookupAfterSet(st.conditions, ctype, status, reason, other);
    }
  }

  lemma FailSane(e: Env, w: World, key: Key, ver: nat, c: Claim, reason: string)
    requires c.Cluster? && SaneFlow(Go(w, ver, c), key) && c.meta.finalizer
    requires c.st.phase == Pending || c.st.phase == Provisioning
    ensures SaneFlow(ClusterPass.Fail(e, w, key, ver, c, reason), key)
    ensures Quiet(w, ClusterPass.Fail(e, w, key, ver, c, reason).w, key)
  {
    SoundNow(Go(w, ver, c), key);
    MarkKeeps(c.st.(phase := Failed), "Validated", false, reason);
    SaveSane(e, w, key, ver, c, c.(st := ClusterPass.Mark(c.st.(phase := Failed), "Validated", false, reason)));
  }

  lemma CheckMachinesSane(e: Env, w: World, key: Key, ver: nat, c: Claim, site: Site, profile: Profile)
    requires c.Cluster? && SaneFlow(Go(w, ver, c), key) && c.meta.finalizer && c.st.phase == Pending
    ensures SaneFlow(ClusterPass.CheckMachines(e, w, key, ver, c, site, profile), key)
    ensures Quiet(w, ClusterPass.CheckMachines(e, w, key, ver, c, site, profile).w, key)
  {
    hide SaneKey;
    var w1 := w.(nb := ListAvailable(e, w.nb, site.slug, c.spec.machineClass).nb);
    CarrySane(w, w1, key, ver, c);
    FailSane(e, w1, key, ver, c, "InsufficientMachines");
    FailSane(e, w1, key, ver, c, "MachineClassIncompatible");
    PassedSane(e, w1, key, ver, c);
  }

  lemma PassedSane(e: Env, w: World, key: Key, ver: nat, c: Claim)
    requires c.Cluster? && SaneFlow(Go(w, ver, c), key) && c.meta.finalizer && c.st.phase == Pending
    ensures var f := SaveAndStop(e, w, key, ver, c.(st := ClusterPass.Validated(c.st)), Requeue);
            SaneFlow(f, key) && Quiet(w, f.w, key)
  {
    SoundNow(Go(w, ver, c), key);
    MarkKeeps(c.st.(phase := Provisioning), "Validated", true, "ValidationPassed");
    SaveSane(e, w, key, ver, c, c.(st := ClusterPass.Validated(c.st)));
  }

  lemma ValidateSane(e: Env, w: World, key: Key, ver: nat, c: Claim)
    requires c.Cluster? && SaneFlow(Go(w, ver, c), key) && c.meta.finalizer && c.st.phase == Pending
    ensures SaneFlow(ClusterPass.Validate(e, w, key, ver, c), key)
    ensures Quiet(w, ClusterPass.Validate(e, w, key, ver, c).w, key)
  {
    var p := Get(e, w.kube, w.kube.profiles, c.spec.profile);
    CarrySane(w, w.(kube := p.k), key, ver, c);
    FailSane(e, w.(kube := p.k), key, ver, c, "AddonProfileNotFound");
    if p.read.Found? {
      var s := Get(e, p.k, p.k.sites, c.spec.site);
      CarrySane(w, w.(kube := s.k), key, ver, c);
      FailSane(e, w.(kube := s.k), key, ver, c, "SiteConfigNotFound");
      if s.read.Found? {
        CheckMachinesSane(e, w.(kube := s.k), key, ver, c, s.read.value, p.read.value);
      }
    }
  }

  /** Each part of the provisioning step either stops or hands on a claim still being provisioned. */
  ghost predicate StillProvisioning(f: Flow, key: Key) {
    SaneFlow(f, key) && (f.Go? ==> f.c.Cluster? && f.c.meta.finalizer && f.c.st.phase == Provisioning)
  }

  lemma ControlPlaneIPSane(e: Env, w: World, key: Key, ver: nat, c: Claim, site: Site)
    requires c.Cluster? && StillProvisioning(Go(w, ver, c), key) && AddressesNonempty(e)
    ensures var f := ClusterPass.AllocateControlPlaneIP(e, w, key, ver, c, site);
            StillProvisioning(f, key) && Ledger(w, f, key) && (f.Go? ==> f.c.st.cpIP != "")
  {
    hide SaneKey;
    SoundNow(Go(w, ver, c), key);
    if c.st.cpIP == "" {
      var a := AllocateIP(e, w.nb);
      CarrySane(w, w.(nb := a.nb), key, ver, c);
      if a.value.Some? {
        SaveSane(e, w.(nb := a.nb), key, ver, c, c.(st := c.st.(
          cpIP := StripPrefix(a.value.value.address),
          cpDNS := key.name + "-api." + TenantSlug(key.ns) + "." + site.zone,
          ipamIDs := c.st.ipamIDs + [a.value.value.id])));
      }
    }
  }

  lemma WebhookIPSane(e: Env, w: World, key: Key, ver: nat, c: Claim, site: Site)
    requires c.Cluster? && StillProvisioning(Go(w, ver, c), key) && AddressesNonempty(e) && c.st.cpIP != ""
    ensures var f := ClusterPass.AllocateWebhookIP(e, w, key, ver, c, site);
            StillProvisioning(f, key) && Ledger(w, f, key) && (f.Go? ==> f.c.st.cpIP != "" && f.c.st.whIP != "")
  {
    hide SaneKey;
    SoundNow(Go(w, ver, c), key);
    if c.st.whIP == "" {
      assert c.st.ipamIDs[0] in c.st.ipamIDs;
      var a := AllocateIP(e, w.nb);
      CarrySane(w, w.(nb := a.nb), key, ver, c);
      if a.value.Some? {
        SaveSane(e, w.(nb := a.nb), key, ver, c, c.(st := c.st.(
          whIP := StripPrefix(a.value.value.address),
          whDNS := key.name + "-wh." + TenantSlug(key.ns) + "." + site.zone,
          ipamIDs := c.st.ipamIDs + [a.value.value.id])));
      }
    }
  }

  lemma StageSane(e: Env, w: World, key: Key, ver: nat, c: Claim, nb: Netbox, site: string, model: string, n: nat, disks: bool)
    requires SaneFlow(Go(w, ver, c), key) && TenantSlug(key.ns) != "" && nb == w.nb
    requires var a := ListAvailable(e, nb, site, model); a.value.Some? && n <= |a.value.value|
    ensures var a := ListAvailable(e, nb, site, model);
            var w' := w.(nb := Stage(e, a.nb, a.value.value, n, TenantSlug(key.ns), disks).nb);
            SaneFlow(Go(w', ver, c), key) && Sane(w') && Quiet(w, w', key)
  {
    var a := ListAvailable(e, nb, site, model);
    ListingOffers(e, nb, site, model);
    StageFacts(e, a.nb, a.value.value, n, TenantSlug(key.ns), disks);
    var s := Stage(e, a.nb, a.value.value, n, TenantSlug(key.ns), disks);
    OnlyStagedKeepsIDs(nb.devices, s.nb.devices, TenantSlug(key.ns));
    CarrySane(w, w.(nb := s.nb), key, ver, c);
  }

  lemma AllocateMachinesSane(e: Env, w: World, key: Key, ver: nat, c: Claim, site: Site)
    requires c.Cluster? && StillProvisioning(Go(w, ver, c), key) && TenantSlug(key.ns) != ""
    requires c.st.cpIP != "" && c.st.whIP != ""
    ensures var f := ClusterPass.AllocateMachines(e, w, key, ver, c, site);
            StillProvisioning(f, key) && Quiet(w, f.w, key) && (f.Go? ==> f.c.st.cpIP != "" && f.c.st.whIP != "")
  {
    hide SaneKey;
    SoundNow(Go(w, ver, c), key);
    if c.st.machineIDs == [] {
      var a := ListAvailable(e, w.nb, site.slug, c.spec.machineClass);
      CarrySane(w, w.(nb := a.nb), key, ver, c);
      if a.value.Some? {
        var n := ClusterPass.Min(c.spec.machineCount, |a.value.value|);
        var s := Stage(e, a.nb, a.value.value, n, TenantSlug(key.ns), true);
        StageSane(e, w, key, ver, c, w.nb, site.slug, c.spec.machineClass, n, true);
        SaveSane(e, w.(nb := s.nb), key, ver, c, c.(st := c.st.(machineIDs := s.ids, osdDevices := s.osd)));
      }
    }
  }

  lemma EnsureClusterSane(e: Env, w: World, key: Key, ver: nat, c: Claim, site: Site)
    requires c.Cluster? && StillProvisioning(Go(w, ver, c), key)
    requires c.st.cpIP != "" && c.st.whIP != ""
    ensures SaneFlow(ClusterPass.EnsureCluster(e, w, key, ver, c, site), key)
    ensures Quiet(w, ClusterPass.EnsureCluster(e, w, key, ver, c, site).w, key)
  {
    SoundNow(Go(w, ver, c), key);
    var objs := ClusterPass.CAPIObjects(key, c, site);
    EnsureAllFrame(e, w.kube, objs, |objs|);
    var d := ClusterPass.EnsureAll(e, w.kube, objs, |objs|);
    CarrySane(w, w.(kube := d.k), key, ver, c);
    var got := Get(e, d.k, d.k.objects, ClusterPass.CAPICluster(key));
    CarrySane(w, w.(kube := got.k), key, ver, c);
    if got.read.Found? {
      ConfiguredSound(key, c, got.read.value.ready);
      SaveSane(e, w.(kube := got.k), key, ver, c, c.(st := ClusterPass.Configured(c.st, key.name, got.read.value.ready)));
    }
  }

  lemma ConfiguredSound(key: Key, c: Claim, ready: bool)
    requires c.Cluster? && Sound(key, c) && c.meta.finalizer && c.st.phase == Provisioning
    requires c.st.cpIP != "" && c.st.whIP != ""
    ensures var c' := c.(st := ClusterPass.Configured(c.st, key.name, ready));
            Sound(key, c') && Forward(c, c')
  {
    var st1 := c.st.(clusterRef := Some(key.name));
    MarkKeeps(st1.(phase := ClusterReady), "CAPIReady", true, "ControlPlaneReady");
    var st2 := if ready then ClusterPass.Mark(st1.(phase := ClusterReady), "CAPIReady", true, "ControlPlaneReady") else st1;
    MarkKeeps(st2, "MachineCfgDone", true, "MachineCfgComplete");
  }

  lemma RunJobSane(e: Env, w: World, key: Key, ver: nat, c: Claim, site: Site)
    requires c.Cluster? && StillProvisioning(Go(w, ver, c), key)
    requires c.st.cpIP != "" && c.st.whIP != ""
    ensures SaneFlow(ClusterPass.RunJob(e, w, key, ver, c, site), key)
    ensures Quiet(w, ClusterPass.RunJob(e, w, key, ver, c, site).w, key)
  {
    hide ClusterPass.Fail, ClusterPass.EnsureCluster;
    var got := Get(e, w.kube, w.kube.jobs, JobOf(key));
    var w1 := w.(kube := got.k);
    CarrySane(w, w1, key, ver, c);
    CarrySane(w, w.(kube := CreateJob(e, got.k, JobOf(key)).k), key, ver, c);
    FailSane(e, w1, key, ver, c, "MachineCfgFailed");
    EnsureClusterSane(e, w1, key, ver, c, site);
  }

  lemma ProvisionSane(e: Env, w: World, key: Key, ver: nat, c: Claim)
    requires c.Cluster? && StillProvisioning(Go(w, ver, c), key) && TenantSlug(key.ns) != "" && AddressesNonempty(e)
    ensures SaneFlow(ClusterPass.Provision(e, w, key, ver, c), key)
    ensures Ledger(w, ClusterPass.Provision(e, w, key, ver, c), key)
  {
    var s := Get(e, w.kube, w.kube.sites, c.spec.site);
    var w1 := w.(kube := s.k);
    CarrySane(w, w1, key, ver, c);
    if s.read.Found? {
      var site := s.read.value;
      ControlPlaneIPSane(e, w1, key, ver, c, site);
      var f1 := ClusterPass.AllocateControlPlaneIP(e, w1, key, ver, c, site);
      if f1.Go? {
        WebhookIPSane(e, f1.w, key, f1.ver, f1.c, site);
        var f2 := ClusterPass.AllocateWebhookIP(e, f1.w, key, f1.ver, f1.c, site);
        if f2.Go? {
          AllocateMachinesSane(e, f2.w, key, f2.ver, f2.c, site);
          var f3 := ClusterPass.AllocateMachines(e, f2.w, key, f2.ver, f2.c, site);
          if f3.Go? {
            RunJobSane(e, f3.w, key, f3.ver, f3.c, site);
          }
        }
      }
    }
  }

  lemma WatchAddonsSane(e: Env, w: World, key: Key, ver: nat, c: Claim)
    requires c.Cluster? && SaneFlow(Go(w, ver, c), key) && c.meta.finalizer && c.st.phase == ClusterReady
    ensures SaneFlow(ClusterPass.WatchAddons(e, w, key, ver, c), key)
    ensures Quiet(w, ClusterPass.WatchAddons(e, w, key, ver, c).w, key)
  {
    hide SaneKey, WriteClaim;
    SoundNow(Go(w, ver, c), key);
    var p := Get(e, w.kube, w.kube.profiles, c.spec.profile);
    CarrySane(w, w.(kube := p.k), key, ver, c);
    if p.read.Found? {
      var comps := e.sort(p.k.calls, p.read.value.components);
      var d := ClusterPass.Install(e, p.k, key, c.st, comps, |comps|);
      InstallFrame(e, p.k, key, c.st, comps, |comps|);
      CarrySane(w, w.(kube := d.k), key, ver, c);
      var r := ClusterPass.CheckReady(e, d.k, key, comps, |comps|);
      CheckReadyFrame(e, d.k, key, comps, |comps|);
      CarrySane(w, w.(kube := r.k), key, ver, c);
      MarkKeeps(c.st.(phase := AddonsReady), "AddonsReady", true, "AllAddonsReady");
      SaveSane(e, w.(kube := r.k), key, ver, c,
               c.(st := ClusterPass.Mark(c.st.(phase := AddonsReady), "AddonsReady", true, "AllAddonsReady")));
    }
  }

  lemma ExposeSane(e: Env, w: World, key: Key, ver: nat, c: Claim)
    requires c.Cluster? && SaneFlow(Go(w, ver, c), key) && c.meta.finalizer && c.st.phase == AddonsReady
    ensures SaneFlow(ClusterPass.ExposeKubeconfig(e, w, key, ver, c), key)
    ensures Quiet(w, ClusterPass.ExposeKubeconfig(e, w, key, ver, c).w, key)
  {
    hide SaneKey;
    SoundNow(Go(w, ver, c), key);
    var got := Get(e, w.kube, w.kube.roles, key.ns);
    CarrySane(w, w.(kube := got.k), key, ver, c);
    if got.read.Found? {
      var c' := c.(st := c.st.(phase := Ready, kubeconfig := ClusterPass.SecretOf(key)));
      var put := PutRole(e, got.k, key.ns, RoleRules.Grant(got.read.value, ClusterPass.SecretOf(key)));
      CarrySane(w, w.(kube := put.k), key, ver, c);
      SaveSane(e, w.(kube := put.k), key, ver, c, c');
      SaveSane(e, w.(kube := got.k), key, ver, c, c');
    }
  }

  lemma GrowSane(e: Env, w: World, key: Key, ver: nat, c: Claim, site: Site, delta: nat)
    requires c.Cluster? && SaneFlow(Go(w, ver, c), key) && c.meta.finalizer && c.st.phase == Ready
    requires TenantSlug(key.ns) != ""
    ensures SaneFlow(ClusterPass.Grow(e, w, key, ver, c, site, delta), key)
    ensures Quiet(w, ClusterPass.Grow(e, w, key, ver, c, site, delta).w, key)
  {
    hide SaneKey, WriteClaim, Stage;
    SoundNow(Go(w, ver, c), key);
    var a := ListAvailable(e, w.nb, site.slug, c.spec.machineClass);
    var w1 := w.(nb := a.nb);
    CarrySane(w, w1, key, ver, c);
    if a.value.Some? {
      if |a.value.value| < delta {
        MarkKeeps(c.st, "ScaleUpBlocked", true, "InsufficientMachines");
        SaveSane(e, w1, key, ver, c, c.(st := ClusterPass.Mark(c.st, "ScaleUpBlocked", true, "InsufficientMachines")));
      } else {
        StageSane(e, w, key, ver, c, w.nb, site.slug, c.spec.machineClass, delta, false);
        var t := Stage(e, a.nb, a.value.value, delta, TenantSlug(key.ns), false);
        SaveSane(e, w.(nb := t.nb), key, ver, c, c.(st := c.st.(machineIDs := c.st.machineIDs + t.ids)));
      }
    }
  }

  lemma ShrinkSane(e: Env, w: World, key: Key, ver: nat, c: Claim, delta: nat)
    requires c.Cluster? && SaneFlow(Go(w, ver, c), key) && c.meta.finalizer && c.st.phase == Ready
    requires delta <= |c.st.machineIDs|
    ensures SaneFlow(ClusterPass.Shrink(e, w, key, ver, c, delta), key)
    ensures Quiet(w, ClusterPass.Shrink(e, w, key, ver, c, delta).w, key)
  {
    SoundNow(Go(w, ver, c), key);
    var keep := |c.st.machineIDs| - delta;
    var d := ReleaseUntilError(e, w.nb, c.st.machineIDs[keep..], delta);
    ReleaseUntilErrorFacts(e, w.nb, c.st.machineIDs[keep..], delta);
    ReleaseKeepsIDs(w.nb.sem, w.nb.devices, d.nb.devices, c.st.machineIDs[keep..]);
    CarrySane(w, w.(nb := d.nb), key, ver, c);
    SaveSane(e, w.(nb := d.nb), key, ver, c, c.(st := c.st.(machineIDs := c.st.machineIDs[..keep])));
  }

  lemma BlockedSane(e: Env, w: World, key: Key, ver: nat, c: Claim)
    requires c.Cluster? && SaneFlow(Go(w, ver, c), key) && c.meta.finalizer && c.st.phase == Ready
    ensures var c' := c.(st := ClusterPass.Mark(c.st, "ScaleDownBlocked", true, "RookCephPresent"));
            var f := SaveAndStop(e, w, key, ver, c', Finished);
            SaneFlow(f, key) && Quiet(w, f.w, key)
  {
    SoundNow(Go(w, ver, c), key);
    MarkKeeps(c.st, "ScaleDownBlocked", true, "RookCephPresent");
    SaveSane(e, w, key, ver, c, c.(st := ClusterPass.Mark(c.st, "ScaleDownBlocked", true, "RookCephPresent")));
  }

  lemma ScaleSane(e: Env, w: World, key: Key, ver: nat, c: Claim)
    requires c.Cluster? && SaneFlow(Go(w, ver, c), key) && c.meta.finalizer && c.st.phase == Ready
    requires TenantSlug(key.ns) != ""
    ensures SaneFlow(ClusterPass.Scale(e, w, key, ver, c), key)
    ensures Quiet(w, ClusterPass.Scale(e, w, key, ver, c).w, key)
  {
    hide ClusterPass.Grow, ClusterPass.Shrink, SaneKey;
    var desired, actual := c.spec.machineCount, |c.st.machineIDs|;
    if desired > actual {
      var s := Get(e, w.kube, w.kube.sites, c.spec.site);
      CarrySane(w, w.(kube := s.k), key, ver, c);
      if s.read.Found? {
        GrowSane(e, w.(kube := s.k), key, ver, c, s.read.value, desired - actual);
      }
    } else if desired < actual {
      var p := Get(e, w.kube, w.kube.profiles, c.spec.profile);
      CarrySane(w, w.(kube := p.k), key, ver, c);
      if p.read.Found? {
        BlockedSane(e, w.(kube := p.k), key, ver, c);
        ShrinkSane(e, w.(kube := p.k), key, ver, c, actual - desired);
      }
    }
  }

  /** Deleting the claim as it stands, whatever version the caller saw. */
  lemma DeletedSane(w: World, key: Key)
    requires Sane(w) && Current(w.kube.store, key).Some?
    ensures Sane(Put(w, key, Deleted(Current(w.kube.store, key).value)))
    ensures Quiet(w, Put(w, key, Deleted(Current(w.kube.store, key).value)), key)
  {
    assert SaneKey(w, key);
    HeldAfter(w.kube.store, key, Deleted(Current(w.kube.store, key).value));
    AppendSane(w, key, Deleted(Current(w.kube.store, key).value));
  }

  lemma DeleteSane(e: Env, w: World, key: Key)
    requires Sane(w)
    ensures forall ticks :: Sane(w.(kube := DeleteClaim(e, w.kube, key).k, ticks := ticks))
    ensures forall ticks :: Quiet(w, w.(kube := DeleteClaim(e, w.kube, key).k, ticks := ticks), key)
  {
    forall ticks
      ensures Sane(w.(kube := DeleteClaim(e, w.kube, key).k, ticks := ticks))
      ensures Quiet(w, w.(kube := DeleteClaim(e, w.kube, key).k, ticks := ticks), key)
    {
      var w' := w.(kube := DeleteClaim(e, w.kube, key).k, ticks := ticks);
      if w'.kube.store == w.kube.store {
        SameSane(w, w');
      } else {
        DeletedSane(w, key);
        SameSane(Put(w, key, Deleted(Current(w.kube.store, key).value)), w');
      }
    }
  }

  lemma SteadyStateSane(e: Env, w: World, key: Key, ver: nat, c: Claim)
    requires c.Cluster? && SaneFlow(Go(w, ver, c), key) && c.meta.finalizer && c.st.phase == Ready
    requires TenantSlug(key.ns) != ""
    ensures Sane(ClusterPass.SteadyState(e, w, key, ver, c).w)
    ensures Quiet(w, ClusterPass.SteadyState(e, w, key, ver, c).w, key)
  {
    if c.meta.deleteAt.Deadline? {
      DeleteSane(e, w, key);
      SameSane(w, w.(ticks := w.ticks + 2));
    } else {
      ScaleSane(e, w, key, ver, c);
    }
  }

  // ---- Server steps -----------------------------------------------------------------------

  lemma ServerFailSane(e: Env, w: World, key: Key, ver: nat, c: Claim, reason: string)
    requires c.Server? && SaneFlow(Go(w, ver, c), key) && c.meta.finalizer
    requires c.sst.phase == Pending || c.sst.phase == Provisioning
    ensures SaneFlow(ServerPass.Fail(e, w, key, ver, c, reason), key)
    ensures Quiet(w, ServerPass.Fail(e, w, key, ver, c, reason).w, key)
  {
    SoundNow(Go(w, ver, c), key);
    SaveSane(e, w, key, ver, c,
             c.(sst := c.sst.(phase := Failed, conditions := c.sst.conditions + [Condition("Ready", false, reason)])));
  }

  lemma ServerValidateSane(e: Env, w: World, key: Key, ver: nat, c: Claim)
    requires c.Server? && SaneFlow(Go(w, ver, c), key) && c.meta.finalizer && c.sst.phase == Pending
    ensures SaneFlow(ServerPass.Validate(e, w, key, ver, c), key)
    ensures Quiet(w, ServerPass.Validate(e, w, key, ver, c).w, key)
  {
    hide SaneKey, WriteClaim, ServerPass.Fail;
    SoundNow(Go(w, ver, c), key);
    var s := Get(e, w.kube, w.kube.sites, c.sspec.site);
    var w1 := w.(kube := s.k);
    CarrySane(w, w1, key, ver, c);
    ServerFailSane(e, w1, key, ver, c, "SiteConfigNotFound");
    if s.read.Found? {
      var w2 := w1.(nb := ListAvailable(e, w1.nb, s.read.value.slug, c.sspec.machineClass).nb);
      CarrySane(w1, w2, key, ver, c);
      ServerFailSane(e, w2, key, ver, c, "InsufficientMachines");
      SaveSane(e, w2, key, ver, c, c.(sst := c.sst.(phase := Provisioning)));
    }
  }

  ghost predicate ServerProvisioning(f: Flow, key: Key) {
    SaneFlow(f, key) && (f.Go? ==> f.c.Server? && f.c.meta.finalizer && f.c.sst.phase == Provisioning)
  }

  lemma ServerIPSane(e: Env, w: World, key: Key, ver: nat, c: Claim, site: Site)
    requires c.Server? && ServerProvisioning(Go(w, ver, c), key) && AddressesNonempty(e)
    ensures var f := ServerPass.AllocateServerIP(e, w, key, ver, c, site);
            ServerProvisioning(f, key) && Ledger(w, f, key) && (f.Go? ==> f.c.sst.ip != "")
  {
    hide SaneKey;
    SoundNow(Go(w, ver, c), key);
    if c.sst.ip == "" {
      var a := AllocateIP(e, w.nb);
      CarrySane(w, w.(nb := a.nb), key, ver, c);
      if a.value.Some? {
        SaveSane(e, w.(nb := a.nb), key, ver, c, c.(sst := c.sst.(
          ip := StripPrefix(a.value.value.address),
          dns := key.name + "." + TenantSlug(key.ns) + "." + site.zone,
          ipamID := a.value.value.id)));
      }
    }
  }

  lemma AllocateMachineSane(e: Env, w: World, key: Key, ver: nat, c: Claim, site: Site)
    requires c.Server? && ServerProvisioning(Go(w, ver, c), key) && TenantSlug(key.ns) != "" && c.sst.ip != ""
    ensures var f := ServerPass.AllocateMachine(e, w, key, ver, c, site);
            ServerProvisioning(f, key) && Quiet(w, f.w, key) && (f.Go? ==> f.c.sst.ip != "" && f.c.sst.machineID != 0)
  {
    SoundNow(Go(w, ver, c), key);
    if c.sst.machineID == 0 {
      var a := ListAvailable(e, w.nb, site.slug, c.sspec.machineClass);
      ListingOffers(e, w.nb, site.slug, c.sspec.machineClass);
      CarrySane(w, w.(nb := a.nb), key, ver, c);
      if a.value.Some? {
        if a.value.value == [] {
          ServerFailSane(e, w.(nb := a.nb), key, ver, c, "InsufficientMachines");
        } else {
          StageSane(e, w, key, ver, c, w.nb, site.slug, c.sspec.machineClass, 1, false);
          var s := Stage(e, a.nb, a.value.value, 1, TenantSlug(key.ns), false);
          SaveSane(e, w.(nb := s.nb), key, ver, c, c.(sst := c.sst.(machineID := a.value.value[0].id)));
        }
      }
    }
  }

  lemma ServerProvisionSane(e: Env, w: World, key: Key, ver: nat, c: Claim)
    requires c.Server? && ServerProvisioning(Go(w, ver, c), key) && TenantSlug(key.ns) != "" && AddressesNonempty(e)
    ensures SaneFlow(ServerPass.Provision(e, w, key, ver, c), key)
    ensures Ledger(w, ServerPass.Provision(e, w, key, ver, c), key)
  {
    var s := Get(e, w.kube, w.kube.sites, c.sspec.site);
    var w1 := w.(kube := s.k);
    CarrySane(w, w1, key, ver, c);
    if s.read.Found? {
      ServerIPSane(e, w1, key, ver, c, s.read.value);
      var f1 := ServerPass.AllocateServerIP(e, w1, key, ver, c, s.read.value);
      if f1.Go? {
        AllocateMachineSane(e, f1.w, key, f1.ver, f1.c, s.read.value);
        var f2 := ServerPass.AllocateMachine(e, f1.w, key, f1.ver, f1.c, s.read.value);
        if f2.Go? {
          ServerJobSane(e, f2.w, key, f2.ver, f2.c);
        }
      }
    }
  }

  lemma ServerJobSane(e: Env, w: World, key: Key, ver: nat, c: Claim)
    requires c.Server? && ServerProvisioning(Go(w, ver, c), key) && c.sst.machineID != 0
    ensures SaneFlow(ServerPass.RunJob(e, w, key, ver, c), key)
    ensures Quiet(w, ServerPass.RunJob(e, w, key, ver, c).w, key)
  {
    hide SaneKey, WriteClaim, ServerPass.Fail;
    SoundNow(Go(w, ver, c), key);
    var got := Get(e, w.kube, w.kube.jobs, JobOf(key));
    var w1 := w.(kube := got.k);
    CarrySane(w, w1, key, ver, c);
    CarrySane(w, w.(kube := CreateJob(e, got.k, JobOf(key)).k), key, ver, c);
    ServerFailSane(e, w1, key, ver, c, "MachineCfgFailed");
    SaveSane(e, w1, key, ver, c, c.(sst := c.sst.(phase := Ready)));
  }

  // ---- Passes and runs --------------------------------------------------------------------

  lemma FinalizeSane(e: Env, w: World, key: Key, ver: nat, c: Claim)
    requires SaneFlow(Go(w, ver, c), key) && c.meta.deleting
    ensures Sane((if c.Cluster? then ClusterPass.Finalize(e, w, key, ver, c) else ServerPass.Finalize(e, w, key, ver, c)).w)
  {
    var w' := (if c.Cluster? then ClusterPass.Finalize(e, w, key, ver, c) else ServerPass.Finalize(e, w, key, ver, c)).w;
    FinalizeShape(e, w, key, ver, c);
    ReleaseKeepsIDs(w.nb.sem, w.nb.devices, w'.nb.devices, Recorded(Machine, c));
    if w'.kube.store == w.kube.store {
      SameSane(w, w');
    } else {
      AppendSane(w, key, None);
      SameSane(Put(w, key, None), w');
    }
  }

  lemma StepSane(e: Env, w: World, key: Key, ver: nat, c: Claim)
    requires SaneFlow(Go(w, ver, c), key) && TenantSlug(key.ns) != "" && AddressesNonempty(e)
    ensures Sane(Step(e, w, key, ver, c).w)
    ensures !c.meta.deleting ==> Ledger(w, Step(e, w, key, ver, c), key)
  {
    SoundNow(Go(w, ver, c), key);
    if c.meta.deleting {
      FinalizeSane(e, w, key, ver, c);
    } else if !c.meta.finalizer {
      SaveSane(e, w, key, ver, c, WithMeta(c, c.meta.(finalizer := true)));
    } else if c.Cluster? {
      match c.st.phase {
        case Pending => ValidateSane(e, w, key, ver, c);
        case Provisioning => ProvisionSane(e, w, key, ver, c);
        case ClusterReady => WatchAddonsSane(e, w, key, ver, c);
        case AddonsReady => ExposeSane(e, w, key, ver, c);
        case Ready => SteadyStateSane(e, w, key, ver, c);
        case Failed =>
      }
    } else {
      match c.sst.phase {
        case Pending => ServerValidateSane(e, w, key, ver, c);
        case Provisioning => ServerProvisionSane(e, w, key, ver, c);
        case _ =>
      }
    }
  }

  lemma NextSane(e: Env, w: World, ev: Event)
    requires Sane(w) && AddressesNonempty(e) && (ev.Pass? ==> TenantSlug(ev.key.ns) != "")
    ensures Sane(Next(e, w, ev))
  {
    hide Runs.Step;
    if ev.Pass? {
      var got := ReadClaim(e, w.kube, ev.key, ev.ver);
      var w1 := w.(kube := got.k);
      SameSane(w, w1);
      if got.read.Found? {
        StepSane(e, w1, ev.key, ev.ver, got.read.value);
      }
    } else if ev.Change? {
      SameSane(w, Next(e, w, ev));
    } else {
      var now := Current(w.kube.store, ev.key);
      assert SaneKey(w, ev.key);
      match ev {
        case CreateCluster(key, spec) =>
          if now.None? { AppendSane(w, key, Some(Cluster(NEW_META, spec, EMPTY_CLUSTER_STATUS))); }
        case CreateServer(key, sspec) =>
          if now.None? { AppendSane(w, key, Some(Server(NEW_META, sspec, EMPTY_SERVER_STATUS))); }
        case EditSpec(key, spec) =>
          if now.Some? && now.value.Cluster? { AppendSane(w, key, Some(now.value.(spec := spec))); }
        case Annotate(key, deleteAt) =>
          if now.Some? { AppendSane(w, key, Some(WithMeta(now.value, now.value.meta.(deleteAt := deleteAt)))); }
        case Delete(key) =>
          if now.Some? { DeletedSane(w, key); }
      }
    }
  }

  lemma {:induction false} RunSane(e: Env, r: Run, n: nat)
    requires IsRun(e, r) && n < |r.worlds| && Sane(r.worlds[0]) && AddressesNonempty(e) && TenantRun(r)
    ensures Sane(r.worlds[n])
  {
    hide Next, Sane, TenantSlug;
    if n > 0 {
      RunSane(e, r, n - 1);
      assert Linked(e, r, n - 1) && InTenant(r.events[n - 1]);
      NextSane(e, r.worlds[n - 1], r.events[n - 1]);
    }
  }

  lemma StartSane(w: World)
    requires Start(w)
    ensures Sane(w)
  {
  }
}
