/** What the passes of both reconcilers share: the world they act on, how a pass ends, saving the
    claim, and the loops that stage and release machines. */
module Passes {
  import opened Basics
  import opened Text
  import opened Claims
  import opened Environment
  import opened Inventory
  import opened ApiServer

  datatype World = World(nb: Netbox, kube: Kube, ticks: nat)

  const SECOND: int := 1_000_000_000

  /** ctrl.Result and error: nothing more, requeue now, requeue after a delay, or an error. */
  datatype Reply = Finished | Requeue | After(delay: int) | Error

  /** A pass under way holds the version it last read or wrote and its working copy of the claim. */
  datatype Flow = Go(w: World, ver: nat, c: Claim) | Stop(w: World, reply: Reply)

  /** The machinecfg Job; both kinds of claim use the same name. */
  function JobOf(key: Key): Obj { Obj("Job", key.ns, key.name + "-machinecfg") }

  function Save(e: Env, w: World, key: Key, ver: nat, c: Claim): Flow {
    var d := WriteClaim(e, w.kube, key, ver, Some(c));
    if d.ok then Go(w.(kube := d.k), ver + 1, c) else Stop(w.(kube := d.k), Error)
  }

  /** Save as the last act of a pass. */
  function SaveAndStop(e: Env, w: World, key: Key, ver: nat, c: Claim, reply: Reply): Flow {
    var d := WriteClaim(e, w.kube, key, ver, Some(c));
    Stop(w.(kube := d.k), if d.ok then reply else Error)
  }

  // ---- Staging ----------------------------------------------------------------------------

  datatype Staging = Staging(nb: Netbox, ids: seq<int>, osd: map<string, seq<string>>, ok: bool)

  function AddDisks(osd: map<string, seq<string>>, id: int, names: seq<string>): map<string, seq<string>> {
    var key := Decimal(id);
    if names == [] then osd else osd[key := (if key in osd then osd[key] else []) + names]
  }

  /** Stage the first n devices for a tenant, one call each, and with `disks` also list their OSD
      disks; the first error ends the loop. */
  function Stage(e: Env, nb: Netbox, devs: seq<Device>, n: nat, slug: string, disks: bool): Staging
    requires n <= |devs|
  {
    if n == 0 then Staging(nb, [], map[], true)
    else
      var s := Stage(e, nb, devs, n - 1, slug, disks);
      if !s.ok then s else StageOne(e, s, devs[n - 1].id, slug, disks)
  }

  function StageOne(e: Env, s: Staging, id: int, slug: string, disks: bool): Staging {
    var d := SetDeviceStatus(e, s.nb, id, Staged, slug);
    if !d.ok then Staging(d.nb, s.ids, s.osd, false)
    else if !disks then Staging(d.nb, s.ids + [id], s.osd, true)
    else
      var a := ListDisks(e, d.nb, id);
      if a.value.None? then Staging(a.nb, s.ids + [id], s.osd, false)
      else Staging(a.nb, s.ids + [id], AddDisks(s.osd, id, a.value.value), true)
  }

  // ---- Releasing --------------------------------------------------------------------------

  /** The finalizer's loop: release the first n machines and go on after an error. */
  function ReleaseEach(e: Env, nb: Netbox, ids: seq<int>, n: nat): Netbox
    requires n <= |ids|
  {
    if n == 0 then nb
    else SetDeviceStatus(e, ReleaseEach(e, nb, ids, n - 1), ids[n - 1], Active, "").nb
  }

  /** The shrinking loop: the first error ends it. */
  function ReleaseUntilError(e: Env, nb: Netbox, ids: seq<int>, n: nat): Done
    requires n <= |ids|
  {
    if n == 0 then Done(nb, true)
    else
      var d := ReleaseUntilError(e, nb, ids, n - 1);
      if !d.ok then d else SetDeviceStatus(e, d.nb, ids[n - 1], Active, "")
  }

  /** The finalizer's address loop: errors are logged and ignored. */
  function ReleaseIPs(e: Env, nb: Netbox, ids: seq<int>, n: nat): Netbox
    requires n <= |ids|
  {
    if n == 0 then nb
    else ReleaseIP(e, ReleaseIPs(e, nb, ids, n - 1), ids[n - 1]).nb
  }
}
