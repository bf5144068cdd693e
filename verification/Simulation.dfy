/** The two inventories in step: after the same status calls the real one offers nothing the fake would not. */
module Simulation {
  import opened Environment
  import opened Inventory

  datatype Call = Call(id: int, status: DeviceStatus, slug: string)

  function Play(e: Env, nb: Netbox, calls: seq<Call>): Netbox {
    if calls == [] then nb
    else
      var n := |calls| - 1;
      SetDeviceStatus(e, Play(e, nb, calls[..n]), calls[n].id, calls[n].status, calls[n].slug).nb
  }

  /** What the calls, the first of them the `at`-th of this client, make of one device. */
  function Follow(e: Env, sem: Semantics, at: nat, calls: seq<Call>, d: Device): Device {
    if calls == [] then d
    else
      var n := |calls| - 1;
      var before := Follow(e, sem, at, calls[..n], d);
      if calls[n].id == d.id && e.netbox(at + n) != Refused
      then Patch(sem, before, calls[n].status, calls[n].slug)
      else before
  }

  lemma {:induction false} FollowKeeps(e: Env, sem: Semantics, at: nat, calls: seq<Call>, d: Device)
    ensures var d' := Follow(e, sem, at, calls, d);
            d'.id == d.id && d'.site == d.site && d'.model == d.model && d'.tags == d.tags
  {
    if calls != [] { FollowKeeps(e, sem, at, calls[..|calls| - 1], d); }
  }

  lemma {:induction false} PlayFollows(e: Env, nb: Netbox, calls: seq<Call>)
    ensures var nb' := Play(e, nb, calls);
            && nb'.sem == nb.sem && nb'.calls == nb.calls + |calls| && |nb'.devices| == |nb.devices|
            && forall i :: 0 <= i < |nb.devices| ==>
                 nb'.devices[i] == Follow(e, nb.sem, nb.calls, calls, nb.devices[i])
  {
    hide Patch;
    if calls != [] {
      var before := calls[..|calls| - 1];
      PlayFollows(e, nb, before);
      forall i | 0 <= i < |nb.devices|
        ensures Play(e, nb, calls).devices[i] == Follow(e, nb.sem, nb.calls, calls, nb.devices[i])
      {
        FollowKeeps(e, nb.sem, nb.calls, before, nb.devices[i]);
      }
    }
  }

  /** Some call that took effect gave the device a tenant. */
  ghost predicate Claimed(e: Env, at: nat, calls: seq<Call>, id: int) {
    exists j :: 0 <= j < |calls| && Claims(e, at, calls, id, j)
  }

  predicate Claims(e: Env, at: nat, calls: seq<Call>, id: int, j: nat)
    requires j < |calls|
  {
    calls[j].id == id && calls[j].slug != "" && e.netbox(at + j) != Refused
  }

  /** With the real client a tenant, once given, stays: a device is free exactly when it was free at the
      start and no effective call has ever claimed it. */
  lemma {:induction false} RealTenantStays(e: Env, at: nat, calls: seq<Call>, d: Device)
    ensures Follow(e, Real, at, calls, d).tenant.None? <==> d.tenant.None? && !Claimed(e, at, calls, d.id)
  {
    if calls != [] {
      var n := |calls| - 1;
      var before := calls[..n];
      RealTenantStays(e, at, before, d);
      assert forall j :: 0 <= j < n ==> Claims(e, at, before, d.id, j) == Claims(e, at, calls, d.id, j);
      assert Claimed(e, at, calls, d.id) <==> Claimed(e, at, before, d.id) || Claims(e, at, calls, d.id, n);
    }
  }

  /** Device by device: same status; a tenant held in the fake is held in the real one. */
  lemma {:induction false} StaysInStep(e: Env, at: nat, calls: seq<Call>, d: Device)
    ensures var real_, fake := Follow(e, Real, at, calls, d), Follow(e, Fake, at, calls, d);
            && fake.status == real_.status
            && (fake.tenant.Some? ==> real_.tenant == fake.tenant)
  {
    if calls != [] { StaysInStep(e, at, calls[..|calls| - 1], d); }
  }

  /** Statuses agree, and whatever the real client may offer for a site and a model, cut or not, is offered
      by the fake too, the very same device. */
  lemma RealOffersLess(e: Env, nb: Netbox, calls: seq<Call>, site: string, model: string)
    ensures var real_, fake := Play(e, nb.(sem := Real), calls).devices, Play(e, nb.(sem := Fake), calls).devices;
            && |real_| == |fake| == |nb.devices|
            && (forall i :: 0 <= i < |fake| ==>
                  fake[i].status == real_[i].status && (fake[i].tenant.Some? ==> real_[i].tenant == fake[i].tenant))
            && (forall d :: d in AvailableDevices(Real, real_, site, model) ==> d in AvailableDevices(Fake, fake, site, model))
  {
    var real_, fake := Play(e, nb.(sem := Real), calls).devices, Play(e, nb.(sem := Fake), calls).devices;
    hide Follow, Selected;
    PlayFollows(e, nb.(sem := Real), calls);
    PlayFollows(e, nb.(sem := Fake), calls);
    forall i | 0 <= i < |fake|
      ensures fake[i].status == real_[i].status && (fake[i].tenant.Some? ==> real_[i].tenant == fake[i].tenant)
      ensures Available(real_[i]) ==> fake[i] == real_[i]
    {
      StaysInStep(e, nb.calls, calls, nb.devices[i]);
      FollowKeeps(e, Real, nb.calls, calls, nb.devices[i]);
      FollowKeeps(e, Fake, nb.calls, calls, nb.devices[i]);
    }
    forall d | d in AvailableDevices(Real, real_, site, model) ensures d in AvailableDevices(Fake, fake, site, model) {
      PagedFrom(real_, site, model, d);
      var i :| 0 <= i < |real_| && real_[i] == d;
      assert fake[i] == d;
    }
  }

  lemma PagedFrom(ds: seq<Device>, site: string, model: string, d: Device)
    requires d in AvailableDevices(Real, ds, site, model)
    ensures d in ds && Selects(Real, d, site, model)
  {
    assert d in Selected(Real, ds, site, model);
  }

  /** What the fake selects and the real client does not, for a named site and model: devices of another
      site, and devices that had a tenant from the start or were claimed and have been released since. */
  lemma FakeOffersMore(e: Env, nb: Netbox, calls: seq<Call>, site: string, model: string, i: nat)
    requires i < |nb.devices| && site != "" && model != ""
    ensures var real_, fake := Play(e, nb.(sem := Real), calls).devices, Play(e, nb.(sem := Fake), calls).devices;
            && |real_| == |fake| == |nb.devices|
            && (Selects(Real, real_[i], site, model) <==>
                  && Selects(Fake, fake[i], site, model)
                  && nb.devices[i].site == site
                  && nb.devices[i].tenant.None? && !Claimed(e, nb.calls, calls, nb.devices[i].id))
  {
    PlayFollows(e, nb.(sem := Real), calls);
    PlayFollows(e, nb.(sem := Fake), calls);
    StaysInStep(e, nb.calls, calls, nb.devices[i]);
    FollowKeeps(e, Real, nb.calls, calls, nb.devices[i]);
    FollowKeeps(e, Fake, nb.calls, calls, nb.devices[i]);
    RealTenantStays(e, nb.calls, calls, nb.devices[i]);
  }
}
