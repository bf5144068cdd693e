/** What a pass decides when nothing disturbs it, told from the world it finds: which claims are accepted, which machines
    they get, and what the machinecfg Job makes of them; for both kinds of claim. */
module Verdicts {
  import opened Basics
  import opened Claims
  import opened Conditions
  import opened Environment
  import opened Inventory
  import opened ApiServer
  import opened Passes
  import opened Holdings
  import opened EvidenceSteps
  import opened ServerEvidence
  import ClusterPass
  import ServerPass
  import opened Runs

  /** At moment n the claim, which is c and has its finalizer, gets a pass from that version, and no call fails. */
  ghost predicate Undisturbed(e: Env, r: Run, n: nat, key: Key, c: Claim) {
    && IsRun(e, r) && NoFaults(e) && n < |r.events| && r.events[n] == Pass(key, Latest(r.worlds[n], key))
    && Current(r.worlds[n].kube.store, key) == Some(c) && c.meta.finalizer && !c.meta.deleting
  }

  /** The claim after that pass, and what the pass answered. */
  function Afterwards(r: Run, n: nat, key: Key): Option<Claim>
    requires n + 1 < |r.worlds|
  {
    Current(r.worlds[n + 1].kube.store, key)
  }

  function ReplyAt(e: Env, r: Run, n: nat, key: Key): Reply
    requires n < |r.worlds|
  {
    Reconcile(e, r.worlds[n], key, Latest(r.worlds[n], key)).reply
  }

  /** The step that such a pass takes. */
  lemma StepTaken(e: Env, r: Run, n: nat, key: Key, c: Claim) returns (w1: World, ver: nat)
    requires Undisturbed(e, r, n, key, c)
    ensures w1 == r.worlds[n].(kube := w1.kube) && w1.kube == r.worlds[n].kube.(calls := w1.kube.calls)
    ensures IsCurrent(w1.kube.store, key, ver) && Current(w1.kube.store, key) == Some(c)
    ensures r.worlds[n + 1] == Step(e, w1, key, ver, c).w
    ensures Step(e, w1, key, ver, c).Stop? ==> ReplyAt(e, r, n, key) == Step(e, w1, key, ver, c).reply
  {
    hide Step;
    assert Linked(e, r, n);
    var w := r.worlds[n];
    ver := Latest(w, key);
    w1 := w.(kube := w.kube.(calls := w.kube.calls + 1));
    assert ReadClaim(e, w.kube, key, ver) == Got(w1.kube, Found(c));
  }

  /** Writing the claim as the last act of such a pass. */
  lemma Saved(e: Env, w: World, key: Key, ver: nat, v: Claim, reply: Reply)
    requires NoFaults(e) && IsCurrent(w.kube.store, key, ver)
    ensures var f := SaveAndStop(e, w, key, ver, v, reply);
            && f == Stop(f.w, reply) && Current(f.w.kube.store, key) == Some(v)
            && f.w.nb == w.nb && f.w.kube == w.kube.(store := f.w.kube.store, calls := f.w.kube.calls)
  {
    HeldAfter(w.kube.store, key, Some(v));
  }

  // ---- Validation -------------------------------------------------------------------------

  /** The claim as it was but for its phase and its Validated condition. */
  ghost predicate Judged(c: Claim, c': Option<Claim>, phase: Phase, status: bool, reason: string) {
    && c.Cluster? && c'.Some? && c'.value.Cluster?
    && c'.value == c.(st := c.st.(phase := phase, conditions := c'.value.st.conditions))
    && Lookup(c'.value.st.conditions, "Validated") == Some(Condition("Validated", status, reason))
    && forall t :: t != "Validated" ==> Lookup(c'.value.st.conditions, t) == Lookup(c.st.conditions, t)
  }

  lemma MarkJudges(c: Claim, phase: Phase, status: bool, reason: string)
    requires c.Cluster?
    ensures Judged(c, Some(c.(st := ClusterPass.Mark(c.st.(phase := phase), "Validated", status, reason))), phase, status, reason)
  {
    hide SetCondition, Lookup;
    forall t { LookupAfterSet(c.st.conditions, "Validated", status, reason, t); }
  }

  lemma FailJudges(e: Env, w: World, key: Key, ver: nat, c: Claim, reason: string)
    requires NoFaults(e) && c.Cluster? && IsCurrent(w.kube.store, key, ver)
    ensures var f := ClusterPass.Fail(e, w, key, ver, c, reason);
            f.Stop? && f.reply == Finished && Judged(c, Current(f.w.kube.store, key), Failed, false, reason)
            && f.w.nb == w.nb && f.w.kube == w.kube.(store := f.w.kube.store, calls := f.w.kube.calls)
  {
    hide SetCondition, Lookup, Passes.SaveAndStop, Judged;
    Saved(e, w, key, ver, c.(st := ClusterPass.Mark(c.st.(phase := Failed), "Validated", false, reason)), Finished);
    MarkJudges(c, Failed, false, reason);
  }

  /** A pending cluster claim is accepted exactly when its profile and site exist and the machines suffice; otherwise it
      fails, and its Validated condition says what was missing first. */
  lemma {:induction false} ValidatesExactly(e: Env, r: Run, n: nat, key: Key, c: Claim)
    requires Undisturbed(e, r, n, key, c) && c.Cluster? && c.st.phase == Pending
    ensures var w, c' := r.worlds[n], Afterwards(r, n, key);
            && c'.Some? && c'.value.Cluster?
            && (c'.value.st.phase == Provisioning <==> Acceptable(w, c.spec)) && (c'.value.st.phase == Failed <==> !Acceptable(w, c.spec))
            && ReplyAt(e, r, n, key) == (if Acceptable(w, c.spec) then Requeue else Finished)
            && Judged(c, c', if Acceptable(w, c.spec) then Provisioning else Failed, Acceptable(w, c.spec), Reason(w, c.spec))
  {
    hide Step, Acceptable, Judged, Reason, Reconcile, Next, NoFaults, Latest, ReplyAt, Current;
    var w1, ver := StepTaken(e, r, n, key, c);
    ValidateJudges(e, w1, key, ver, c);
    SameVerdict(r.worlds[n], w1, c.spec);
    StepValidates(e, w1, key, ver, c);
    var ok := Acceptable(r.worlds[n], c.spec);
    JudgedPhase(c, Afterwards(r, n, key), if ok then Provisioning else Failed, ok, Reason(r.worlds[n], c.spec));
  }

  lemma JudgedPhase(c: Claim, c': Option<Claim>, phase: Phase, status: bool, reason: string)
    ensures Judged(c, c', phase, status, reason) ==> c'.Some? && c'.value.Cluster? && c'.value.st.phase == phase
  {
  }

  lemma StepValidates(e: Env, w: World, key: Key, ver: nat, c: Claim)
    requires c.Cluster? && c.meta.finalizer && !c.meta.deleting && c.st.phase == Pending
    ensures Step(e, w, key, ver, c) == ClusterPass.Validate(e, w, key, ver, c)
  {
    hide ClusterPass.Validate;
  }

  /** What is missing first. */
  function Reason(w: World, spec: ClusterSpec): string {
    if spec.profile !in w.kube.profiles then "AddonProfileNotFound"
    else if spec.site !in w.kube.sites then "SiteConfigNotFound"
    else
      var devs := AvailableDevices(w.nb.sem, w.nb.devices, w.kube.sites[spec.site].slug, spec.machineClass);
      if |devs| < spec.machineCount then "InsufficientMachines"
      else if exists t :: t in w.kube.profiles[spec.profile].requiredTags && forall i: nat :: i < spec.machineCount ==> t !in devs[i].tags
      then "MachineClassIncompatible"
      else "ValidationPassed"
  }

  lemma SameVerdict(w: World, w1: World, spec: ClusterSpec)
    requires w1 == w.(kube := w1.kube) && w1.kube == w.kube.(calls := w1.kube.calls)
    ensures Acceptable(w1, spec) <==> Acceptable(w, spec)
    ensures Reason(w1, spec) == Reason(w, spec)
  {
  }

  lemma UntaggedAgree(devs: seq<Device>, n: nat, tags: seq<string>)
    requires n <= |devs|
    ensures (exists t :: t in tags && forall i: nat :: i < n ==> t !in devs[i].tags) <==> !(forall t :: t in tags ==> SomeCarries(devs, n, t))
  {
    forall t ensures SomeCarries(devs, n, t) <==> !(forall i: nat :: i < n ==> t !in devs[i].tags) {
    }
  }

  lemma ValidateJudges(e: Env, w: World, key: Key, ver: nat, c: Claim)
    requires NoFaults(e) && c.Cluster? && IsCurrent(w.kube.store, key, ver)
    ensures var f := ClusterPass.Validate(e, w, key, ver, c);
            && f.Stop? && f.reply == (if Acceptable(w, c.spec) then Requeue else Finished)
            && var phase := if Acceptable(w, c.spec) then Provisioning else Failed;
            Judged(c, Current(f.w.kube.store, key), phase, Acceptable(w, c.spec), Reason(w, c.spec))
  {
    hide AvailableDevices, SetCondition, Lookup, Passes.SaveAndStop, ClusterPass.Fail, ClusterPass.SomeHasTag, SomeCarries, Judged;
    var p := Get(e, w.kube, w.kube.profiles, c.spec.profile);
    FailJudges(e, w.(kube := p.k), key, ver, c, "AddonProfileNotFound");
    if p.read.Found? {
      var s := Get(e, p.k, p.k.sites, c.spec.site);
      FailJudges(e, w.(kube := s.k), key, ver, c, "SiteConfigNotFound");
      if s.read.Found? {
        var devs := AvailableDevices(w.nb.sem, w.nb.devices, s.read.value.slug, c.spec.machineClass);
        var w1 := w.(kube := s.k, nb := w.nb.(calls := w.nb.calls + 1));
        FailJudges(e, w1, key, ver, c, "InsufficientMachines");
        FailJudges(e, w1, key, ver, c, "MachineClassIncompatible");
        Saved(e, w1, key, ver, c.(st := ClusterPass.Validated(c.st)), Requeue);
        MarkJudges(c, Provisioning, true, "ValidationPassed");
        if c.spec.machineCount <= |devs| {
          TagsAgree(devs, c.spec.machineCount, p.read.value.requiredTags);
          UntaggedAgree(devs, c.spec.machineCount, p.read.value.requiredTags);
        }
      }
    }
  }

  /** A server claim that has failed for this reason, and is otherwise as it was. */
  predicate ServerFailed(c: Claim, c': Option<Claim>, reason: string) {
    c.Server? && c' == Some(c.(sst := c.sst.(phase := Failed, conditions := c.sst.conditions + [Condition("Ready", false, reason)])))
  }

  lemma ServerFails(e: Env, w: World, key: Key, ver: nat, c: Claim, reason: string)
    requires NoFaults(e) && c.Server? && IsCurrent(w.kube.store, key, ver)
    ensures var f := ServerPass.Fail(e, w, key, ver, c, reason);
            f.Stop? && f.reply == Finished && ServerFailed(c, Current(f.w.kube.store, key), reason)
            && f.w.nb == w.nb && f.w.kube == w.kube.(store := f.w.kube.store, calls := f.w.kube.calls)
  {
    hide Passes.SaveAndStop;
    Saved(e, w, key, ver, c.(sst := c.sst.(phase := Failed, conditions := c.sst.conditions + [Condition("Ready", false, reason)])), Finished);
  }

  /** A pending server claim is accepted exactly when its site exists and offers a machine of its class; otherwise it
      fails and says which of the two was missing. */
  lemma {:induction false} ServerValidatesExactly(e: Env, r: Run, n: nat, key: Key, c: Claim)
    requires Undisturbed(e, r, n, key, c) && c.Server? && c.sst.phase == Pending
    ensures var w, c' := r.worlds[n], Afterwards(r, n, key);
            if ServerAcceptable(w, c.sspec)
            then c' == Some(c.(sst := c.sst.(phase := Provisioning))) && ReplyAt(e, r, n, key) == Requeue
            else ReplyAt(e, r, n, key) == Finished
                 && ServerFailed(c, c', if c.sspec.site in w.kube.sites then "InsufficientMachines" else "SiteConfigNotFound")
  {
    hide Step, AvailableDevices, ServerFailed;
    var w1, ver := StepTaken(e, r, n, key, c);
    ServerValidateDecides(e, w1, key, ver, c);
    assert Step(e, w1, key, ver, c) == ServerPass.Validate(e, w1, key, ver, c) by { ServerStepValidates(e, w1, key, ver, c); }
  }

  lemma ServerStepValidates(e: Env, w: World, key: Key, ver: nat, c: Claim)
    requires c.Server? && c.meta.finalizer && !c.meta.deleting && c.sst.phase == Pending
    ensures Step(e, w, key, ver, c) == ServerPass.Validate(e, w, key, ver, c)
  {
    hide ServerPass.Validate;
  }

  lemma ServerValidateDecides(e: Env, w: World, key: Key, ver: nat, c: Claim)
    requires NoFaults(e) && c.Server? && IsCurrent(w.kube.store, key, ver)
    ensures var f := ServerPass.Validate(e, w, key, ver, c);
            f.Stop? &&
            if ServerAcceptable(w, c.sspec)
            then Current(f.w.kube.store, key) == Some(c.(sst := c.sst.(phase := Provisioning))) && f.reply == Requeue
            else f.reply == Finished
                 && var reason := if c.sspec.site in w.kube.sites then "InsufficientMachines" else "SiteConfigNotFound";
                 ServerFailed(c, Current(f.w.kube.store, key), reason)
  {
    hide AvailableDevices, Passes.SaveAndStop, ServerPass.Fail, ServerFailed;
    var s := Get(e, w.kube, w.kube.sites, c.sspec.site);
    var w1 := w.(kube := s.k);
    ServerFails(e, w1, key, ver, c, "SiteConfigNotFound");
    if s.read.Found? {
      var w2 := w1.(nb := ListAvailable(e, w1.nb, s.read.value.slug, c.sspec.machineClass).nb);
      ServerFails(e, w2, key, ver, c, "InsufficientMachines");
      Saved(e, w2, key, ver, c.(sst := c.sst.(phase := Provisioning)), Requeue);
    }
  }
}
