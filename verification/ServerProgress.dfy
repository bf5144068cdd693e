/** When nothing fails, every pass of a server claim brings it nearer to Ready; a fresh one needs at most four. */
module ServerProgress {
  import opened Basics
  import opened Text
  import opened Claims
  import opened Environment
  import opened Inventory
  import opened ApiServer
  import opened Passes
  import opened Holdings
  import opened Exclusivity
  import AddonSteps
  import Bookkeeping
  import JobVerdicts
  import MachineAccounts
  import Progress
  import ServerPass
  import Verdicts
  import opened Runs

  /** The claim's Job has completed and not failed, if it exists. */
  predicate JobFinished(w: World, key: Key) {
    JobOf(key) in w.kube.jobs ==> w.kube.jobs[JobOf(key)] == Job(true, false)
  }

  /** How many turns are left at most. */
  function Remaining(w: World, key: Key, c: Claim): nat
    requires c.Server?
  {
    if !c.meta.finalizer then 4
    else
      match c.sst.phase
      case Pending => 3
      case Provisioning => if JobOf(key) in w.kube.jobs then 1 else 2
      case _ => 0
  }

  /** Until the claim has its machine, there is one to have. */
  predicate Offer(nb: Netbox, c: Claim, site: Site) {
    c.Server? && (c.sst.phase == Pending || (c.sst.phase == Provisioning && c.sst.machineID == 0)) ==>
      AvailableDevices(nb.sem, nb.devices, site.slug, c.sspec.machineClass) != []
  }

  /** What the claim needs from the outside. */
  ghost predicate Provided(w: World, key: Key, c: Claim, site: Site) {
    && c.Server? && !c.meta.deleting && (c.sst.phase == Pending || c.sst.phase == Provisioning) && TenantSlug(key.ns) != ""
    && (!c.meta.finalizer ==> c.sst.phase == Pending)
    && UniqueIDs(w.nb.devices)
    && Current(w.kube.store, key) == Some(c)
    && c.sspec.site in w.kube.sites && w.kube.sites[c.sspec.site] == site
    && Offer(w.nb, c, site)
  }

  predicate IsReady(w: World, key: Key) {
    var c := Current(w.kube.store, key);
    c.Some? && c.value.Server? && c.value.sst.phase == Ready
  }

  /** The claim after a turn: Ready, or further on with its needs still met. */
  ghost predicate Nearer(w: World, w': World, key: Key, c: Claim, c': Claim, site: Site)
    requires c.Server?
  {
    IsReady(w', key) || (Provided(w', key, c', site) && Remaining(w', key, c') < Remaining(w, key, c))
  }

  // ---- The passes -------------------------------------------------------------------------

  lemma ProvisionNearer(e: Env, w: World, key: Key, ver: nat, c: Claim, site: Site) returns (c': Claim)
    requires NoFaults(e) && Provided(w, key, c, site) && c.meta.finalizer && c.sst.phase == Provisioning
    requires IsCurrent(w.kube.store, key, ver) && JobFinished(w, key)
    ensures Nearer(w, ServerPass.Provision(e, w, key, ver, c).w, key, c, c', site)
  {
    hide TenantSlug, AvailableDevices, UniqueIDs, ServerPass.AllocateServerIP, ServerPass.AllocateMachine, ServerPass.RunJob;
    var w1 := w.(kube := Get(e, w.kube, w.kube.sites, c.sspec.site).k);
    AddressGoesOn(e, w1, key, ver, c, site);
    var f1 := ServerPass.AllocateServerIP(e, w1, key, ver, c, site);
    MachineGoesOn(e, f1.w, key, f1.ver, f1.c, site);
    var f2 := ServerPass.AllocateMachine(e, f1.w, key, f1.ver, f1.c, site);
    JobVerdicts.ServerRunJobDecides(e, f2.w, key, f2.ver, f2.c);
    c' := f2.c;
  }

  /** A part of the provisioning step that went through. */
  ghost predicate GoesOn(w: World, key: Key, c: Claim, f: Flow) {
    && f.Go? && IsCurrent(f.w.kube.store, key, f.ver) && Current(f.w.kube.store, key) == Some(f.c)
    && UniqueIDs(f.w.nb.devices) && f.w.nb.sem == w.nb.sem
    && f.w.kube == w.kube.(store := f.w.kube.store, calls := f.w.kube.calls)
    && c.Server? && f.c.Server? && f.c.meta == c.meta && f.c.sspec == c.sspec && f.c.sst.phase == c.sst.phase
  }

  lemma AddressGoesOn(e: Env, w: World, key: Key, ver: nat, c: Claim, site: Site)
    requires NoFaults(e) && c.Server? && GoesOn(w, key, c, Go(w, ver, c))
    ensures var f := ServerPass.AllocateServerIP(e, w, key, ver, c, site);
            GoesOn(w, key, c, f) && f.w.nb.devices == w.nb.devices && f.c.sst.machineID == c.sst.machineID
  {
    hide TenantSlug, StripPrefix, UniqueIDs;
  }

  lemma MachineGoesOn(e: Env, w: World, key: Key, ver: nat, c: Claim, site: Site)
    requires NoFaults(e) && c.Server? && GoesOn(w, key, c, Go(w, ver, c)) && TenantSlug(key.ns) != "" && c.sst.phase == Provisioning
    requires Offer(w.nb, c, site)
    ensures var f := ServerPass.AllocateMachine(e, w, key, ver, c, site);
            GoesOn(w, key, c, f) && f.c.sst.machineID != 0
  {
    hide TenantSlug, AvailableDevices, Stage;
    if c.sst.machineID == 0 {
      ListingOffers(e, w.nb, site.slug, c.sspec.machineClass);
      var a := ListAvailable(e, w.nb, site.slug, c.sspec.machineClass);
      Bookkeeping.StageSucceeds(e, a.nb, a.value.value, 1, TenantSlug(key.ns), false);
      StageFacts(e, a.nb, a.value.value, 1, TenantSlug(key.ns), false);
      OnlyStagedKeepsIDs(w.nb.devices, Stage(e, a.nb, a.value.value, 1, TenantSlug(key.ns), false).nb.devices, TenantSlug(key.ns));
      HeldAfter(w.kube.store, key, Some(c.(sst := c.sst.(machineID := a.value.value[0].id))));
    }
  }

  /** A pass of the claim from its current version. */
  lemma PassNearer(e: Env, w: World, key: Key, c: Claim, site: Site) returns (c': Claim)
    requires NoFaults(e) && Provided(w, key, c, site) && JobFinished(w, key)
    ensures Nearer(w, Next(e, w, Pass(key, Latest(w, key))), key, c, c', site)
  {
    hide AvailableDevices, TenantSlug, ServerPass.Validate, ServerPass.Provision, Passes.SaveAndStop;
    var ver := |HistoryOf(w.kube.store, key)| - 1;
    var w1 := w.(kube := w.kube.(calls := w.kube.calls + 1));
    assert ReadClaim(e, w.kube, key, ver) == Got(w1.kube, Found(c));
    if !c.meta.finalizer {
      c' := WithMeta(c, c.meta.(finalizer := true));
      Verdicts.Saved(e, w1, key, ver, c', Finished);
    } else if c.sst.phase == Pending {
      c' := c.(sst := c.sst.(phase := Provisioning));
      Verdicts.ServerValidateDecides(e, w1, key, ver, c);
      ValidateLeaves(e, w1, key, ver, c);
    } else {
      c' := ProvisionNearer(e, w1, key, ver, c, site);
    }
  }

  lemma ValidateLeaves(e: Env, w: World, key: Key, ver: nat, c: Claim)
    requires c.Server?
    ensures var w' := ServerPass.Validate(e, w, key, ver, c).w;
            w'.nb.devices == w.nb.devices && w'.nb.sem == w.nb.sem && w'.kube.sites == w.kube.sites && w'.kube.jobs == w.kube.jobs
  {
    hide ListAvailable, WriteClaim;
    AddonSteps.WriteObjects(e);
    ListingLeaves(e);
  }

  lemma ListingLeaves(e: Env)
    ensures forall nb: Netbox, site: string, model: string :: ListAvailable(e, nb, site, model).nb == nb.(calls := nb.calls + 1)
  {
    hide AvailableDevices;
  }

  // ---- What may happen between the passes -------------------------------------------------

  /** The claim's site, and its Job if it was there, are still there. */
  predicate StillThere(w: World, w': World, key: Key, c: Claim) {
    && c.Server?
    && (c.sspec.site in w.kube.sites ==> c.sspec.site in w'.kube.sites && w'.kube.sites[c.sspec.site] == w.kube.sites[c.sspec.site])
    && (JobOf(key) in w.kube.jobs ==> JobOf(key) in w'.kube.jobs)
  }

  /** An event of somebody else: any pass of another claim that leaves a machine for one that still needs it, anything
      users do to other claims, and any change outside that keeps the site and the Job. */
  ghost predicate Harmless(e: Env, w: World, ev: Event, key: Key, c: Claim, site: Site) {
    match ev
    case Pass(k, ver) => k != key && TenantSlug(k.ns) != "" && Offer(Next(e, w, ev).nb, c, site)
    case Change(o) => StillThere(w, Next(e, w, ev), key, c)
    case _ => ev.key != key
  }

  lemma HarmlessHelps(e: Env, w: World, ev: Event, key: Key, c: Claim, site: Site)
    requires SortsComponents(e) && Provided(w, key, c, site) && Harmless(e, w, ev, key, c, site)
    ensures var w' := Next(e, w, ev);
            Provided(w', key, c, site) && Remaining(w', key, c) <= Remaining(w, key, c)
  {
    hide Reconcile, Offer, TenantSlug;
    var w' := Next(e, w, ev);
    if ev.Pass? {
      AddonSteps.PassMakes(e, w, ev.key, ev.ver);
      GrownKeeps(w, w', key, c);
      MachineAccounts.PassAccount(e, w, ev.key, ev.ver);
      Progress.OthersStay(w, w', Reconcile(e, w, ev.key, ev.ver).reply, ev.key, key, MachineAccounts.WantedBy(w, ev.key, ev.ver));
    } else if !ev.Change? {
      if w' != w { HeldAfter(w.kube.store, ev.key, Current(w'.kube.store, ev.key)); }
    }
  }

  lemma GrownKeeps(w: World, w': World, key: Key, c: Claim)
    requires AddonSteps.Grown(w.kube, w'.kube) && c.Server?
    ensures StillThere(w, w', key, c)
  {
    hide AddonSteps.HasRule;
  }

  // ---- Runs -------------------------------------------------------------------------------

  /** At moment n the claim gets a pass from its current version, and its Job is finished, if it exists. */
  predicate TurnAt(r: Run, n: nat, key: Key)
    requires |r.worlds| == |r.events| + 1
  {
    n < |r.events| && r.events[n] == Pass(key, Latest(r.worlds[n], key)) && JobFinished(r.worlds[n], key)
  }

  ghost predicate HarmlessAt(e: Env, r: Run, n: nat, key: Key, site: Site)
    requires |r.worlds| == |r.events| + 1 && n < |r.events|
  {
    var c := Current(r.worlds[n].kube.store, key);
    c.Some? ==> Harmless(e, r.worlds[n], r.events[n], key, c.value, site)
  }

  ghost predicate Meanwhile(e: Env, r: Run, from: nat, to: nat, key: Key, site: Site)
    requires |r.worlds| == |r.events| + 1
  {
    forall n: nat :: from <= n < to && n < |r.events| ==> HarmlessAt(e, r, n, key, site)
  }

  /** The claim's turns, in order, with only harmless events before and between them. */
  ghost predicate Turns(e: Env, r: Run, from: nat, turns: seq<nat>, key: Key, site: Site)
    requires |r.worlds| == |r.events| + 1
    decreases |turns|
  {
    turns != [] ==>
      && from <= turns[0] && TurnAt(r, turns[0], key)
      && Meanwhile(e, r, from, turns[0], key, site)
      && Turns(e, r, turns[0] + 1, turns[1..], key, site)
  }

  lemma {:induction false} WaitHelps(e: Env, r: Run, from: nat, to: nat, key: Key, c: Claim, site: Site)
    requires IsRun(e, r) && from <= to < |r.worlds| && SortsComponents(e) && Meanwhile(e, r, from, to, key, site)
    requires Provided(r.worlds[from], key, c, site)
    ensures Provided(r.worlds[to], key, c, site)
    ensures Remaining(r.worlds[to], key, c) <= Remaining(r.worlds[from], key, c)
  {
    hide Next, Remaining, Harmless, Offer;
    if from < to {
      WaitHelps(e, r, from, to - 1, key, c, site);
      assert Linked(e, r, to - 1) && HarmlessAt(e, r, to - 1, key, site);
      HarmlessHelps(e, r.worlds[to - 1], r.events[to - 1], key, c, site);
    }
  }

  lemma TurnProgress(e: Env, r: Run, n: nat, key: Key, c: Claim, site: Site) returns (c': Claim)
    requires NoFaults(e) && IsRun(e, r) && TurnAt(r, n, key) && Provided(r.worlds[n], key, c, site)
    ensures Nearer(r.worlds[n], r.worlds[n + 1], key, c, c', site)
  {
    hide Reconcile, Provided, Remaining, Nearer, JobFinished;
    assert Linked(e, r, n);
    c' := PassNearer(e, r.worlds[n], key, c, site);
  }

  /** From any moment on, the claim is Ready within as many turns as remain. */
  lemma {:induction false} ReadyWithin(e: Env, r: Run, from: nat, turns: seq<nat>, key: Key, c: Claim, site: Site) returns (n: nat)
    requires NoFaults(e) && SortsComponents(e) && IsRun(e, r) && from < |r.worlds|
    requires Provided(r.worlds[from], key, c, site) && Turns(e, r, from, turns, key, site)
    requires Remaining(r.worlds[from], key, c) <= |turns|
    ensures 0 < n <= Remaining(r.worlds[from], key, c) && n <= |turns|
    ensures turns[n - 1] + 1 < |r.worlds| && IsReady(r.worlds[turns[n - 1] + 1], key)
    decreases |turns|
  {
    hide Provided, Remaining, IsReady, JobFinished, Linked, Meanwhile;
    SomethingRemains(r.worlds[from], key, c, site);
    WaitHelps(e, r, from, turns[0], key, c, site);
    var c' := TurnProgress(e, r, turns[0], key, c, site);
    n := 1;
    if !IsReady(r.worlds[turns[0] + 1], key) {
      var m := ReadyWithin(e, r, turns[0] + 1, turns[1..], key, c', site);
      n := m + 1;
      assert turns[n - 1] == turns[1..][m - 1];
    }
  }

  lemma SomethingRemains(w: World, key: Key, c: Claim, site: Site)
    requires Provided(w, key, c, site)
    ensures c.Server? && Remaining(w, key, c) > 0
  {
  }

  /** A server claim just created is Ready after at most four turns, whatever happens to other claims in between; one
      further on needs no more than remain. */
  lemma {:induction false} ReadyInFourTurns(e: Env, r: Run, turns: seq<nat>, key: Key, c: Claim, site: Site) returns (n: nat)
    requires NoFaults(e) && SortsComponents(e) && IsRun(e, r) && |turns| == 4 && Turns(e, r, 0, turns, key, site)
    requires Provided(r.worlds[0], key, c, site)
    ensures 0 < n <= Remaining(r.worlds[0], key, c) <= 4
    ensures turns[n - 1] + 1 < |r.worlds| && IsReady(r.worlds[turns[n - 1] + 1], key)
  {
    hide Turns, Linked;
    n := ReadyWithin(e, r, 0, turns, key, c, site);
  }
}
