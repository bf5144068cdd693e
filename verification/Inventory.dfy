/** Netbox as the operator uses it: devices, OSD disks and addresses. One state serves both clients; they differ in
    how a release treats the tenant, in which devices a query selects, and in where a long answer is cut. */
module Inventory {
  import opened Basics
  import opened Environment

  datatype DeviceStatus = Active | Staged | Offline | Decommissioning

  datatype Device = Device(
    id: int, status: DeviceStatus, site: string, model: string,
    tenant: Option<string>, tags: seq<string>)

  /** Real: the HTTP client. Fake: the in-memory client. */
  datatype Semantics = Real | Fake

  datatype Netbox = Netbox(
    sem: Semantics,
    devices: seq<Device>,
    disks: map<int, seq<string>>,
    nextIP: nat,
    released: seq<int>,
    calls: nat)

  datatype IP = IP(id: int, address: string)

  /** The answer to a query or an allocation; None is an error. */
  datatype Answer<T> = Answer(nb: Netbox, value: Option<T>)

  /** The answer to an update. */
  datatype Done = Done(nb: Netbox, ok: bool)

  const PAGE_SIZE: nat := 1000
  const DISK_PAGE_SIZE: nat := 100

  predicate Available(d: Device) {
    d.status == Active && d.tenant.None?
  }

  predicate HasDevice(ds: seq<Device>, id: int) {
    exists i :: 0 <= i < |ds| && ds[i].id == id
  }

  /** Netbox keys devices by a nonzero ID. */
  ghost predicate UniqueIDs(ds: seq<Device>) {
    && (forall i :: 0 <= i < |ds| ==> ds[i].id != 0)
    && (forall i, j :: 0 <= i < j < |ds| ==> ds[i].id != ds[j].id)
  }

  // ---- Queries ----------------------------------------------------------------------------

  /** Does ListAvailableDevices select d? The in-memory client never looks at the site. */
  predicate Selects(sem: Semantics, d: Device, site: string, model: string) {
    Available(d) &&
    match sem
    case Real => d.site == site && d.model == model
    case Fake => site == "" || model == "" || d.model == model
  }

  function Selected(sem: Semantics, ds: seq<Device>, site: string, model: string): (r: seq<Device>)
    ensures forall d :: d in r <==> d in ds && Selects(sem, d, site, model)
  {
    if ds == [] then []
    else
      var n := |ds| - 1;
      assert ds == ds[..n] + [ds[n]];
      Selected(sem, ds[..n], site, model) + (if Selects(sem, ds[n], site, model) then [ds[n]] else [])
  }

  /** One page: the real client asks for at most `limit` items. */
  function Page<T>(sem: Semantics, s: seq<T>, limit: nat): (r: seq<T>)
    ensures r <= s
  {
    if sem == Real && |s| > limit then s[..limit] else s
  }

  function AvailableDevices(sem: Semantics, ds: seq<Device>, site: string, model: string): seq<Device> {
    Page(sem, Selected(sem, ds, site, model), PAGE_SIZE)
  }

  function OnSite(ds: seq<Device>, site: string): (r: seq<Device>)
    ensures forall d :: d in r <==> d in ds && d.status == Active && d.site == site
  {
    if ds == [] then []
    else
      var n := |ds| - 1;
      assert ds == ds[..n] + [ds[n]];
      OnSite(ds[..n], site) + (if ds[n].status == Active && ds[n].site == site then [ds[n]] else [])
  }

  /** An error answer with a JSON body decodes as an empty list without an error, hence Lost. */
  function Query<T>(e: Env, nb: Netbox, items: seq<T>): Answer<seq<T>> {
    var nb' := nb.(calls := nb.calls + 1);
    match e.netbox(nb.calls)
    case Ok => Answer(nb', Some(items))
    case Refused => Answer(nb', None)
    case Lost => Answer(nb', Some([]))
  }

  function ListAvailable(e: Env, nb: Netbox, site: string, model: string): Answer<seq<Device>> {
    Query(e, nb, AvailableDevices(nb.sem, nb.devices, site, model))
  }

  function DisksOf(nb: Netbox, id: int): seq<string> {
    if id in nb.disks then Page(nb.sem, nb.disks[id], DISK_PAGE_SIZE) else []
  }

  function ListDisks(e: Env, nb: Netbox, id: int): Answer<seq<string>> {
    Query(e, nb, DisksOf(nb, id))
  }

  // ---- Updates ----------------------------------------------------------------------------

  /** One PATCH. Without a slug the real request leaves the tenant alone; the fake clears it. */
  function Patch(sem: Semantics, d: Device, status: DeviceStatus, slug: string): Device {
    d.(status := status,
       tenant := if slug != "" then Some(slug) else if sem == Real then d.tenant else None)
  }

  function PatchDevice(sem: Semantics, ds: seq<Device>, id: int, status: DeviceStatus, slug: string): (r: seq<Device>)
    ensures |r| == |ds|
    ensures forall i :: 0 <= i < |ds| ==> r[i] == if ds[i].id == id then Patch(sem, ds[i], status, slug) else ds[i]
  {
    seq(|ds|, i requires 0 <= i < |ds| => if ds[i].id == id then Patch(sem, ds[i], status, slug) else ds[i])
  }

  function SetDeviceStatus(e: Env, nb: Netbox, id: int, status: DeviceStatus, slug: string): Done {
    var nb' := nb.(calls := nb.calls + 1);
    match e.netbox(nb.calls)
    case Refused => Done(nb', false)
    case o => Done(nb'.(devices := PatchDevice(nb.sem, nb.devices, id, status, slug)),
                   o == Ok && HasDevice(nb.devices, id))
  }

  function AllocateIP(e: Env, nb: Netbox): Answer<IP> {
    var nb' := nb.(calls := nb.calls + 1);
    match e.netbox(nb.calls)
    case Refused => Answer(nb', None)
    case o =>
      Answer(nb'.(nextIP := nb.nextIP + 1),
             if o == Ok then Some(IP(nb.nextIP, e.address(nb.nextIP))) else None)
  }

  /** Netbox deletes an address once; the in-memory client logs every request. */
  function ReleaseIP(e: Env, nb: Netbox, id: int): Done {
    var nb' := nb.(calls := nb.calls + 1);
    if e.netbox(nb.calls) == Refused || (nb.sem == Real && id in nb.released) then Done(nb', false)
    else Done(nb'.(released := nb.released + [id]), e.netbox(nb.calls) == Ok)
  }

  // ---- The client -------------------------------------------------------------------------

  class NetboxClient {
    const sem: Semantics
    const env: Env
    const disks: map<int, seq<string>>
    var devices: seq<Device>
    var nextIP: nat
    var released: seq<int>
    var calls: nat

    ghost function State(): Netbox
      reads this
    {
      Netbox(sem, devices, disks, nextIP, released, calls)
    }

    constructor (sem: Semantics, env: Env, devices: seq<Device>, disks: map<int, seq<string>>)
      ensures State() == Netbox(sem, devices, disks, 1, [], 0) && this.env == env
    {
      this.sem, this.env, this.devices, this.disks := sem, env, devices, disks;
      nextIP, released, calls := 1, [], 0;
    }

    method ListAvailableDevices(site: string, model: string) returns (value: Option<seq<Device>>)
      modifies this`calls
      ensures Answer(State(), value) == ListAvailable(env, old(State()), site, model)
    {
      var out: seq<Device> := [];
      var i := 0;
      while i < |devices|
        invariant 0 <= i <= |devices|
        invariant out == Selected(sem, devices[..i], site, model)
      {
        assert devices[..i + 1][..i] == devices[..i];
        if Selects(sem, devices[i], site, model) {
          out := out + [devices[i]];
        }
        i := i + 1;
      }
      assert devices[..i] == devices;
      value := AnswerQuery(Page(sem, out, PAGE_SIZE));
    }

    method ListDevicesBySite(site: string) returns (value: Option<seq<Device>>)
      modifies this`calls
      ensures Answer(State(), value) == Query(env, old(State()), Page(sem, OnSite(devices, site), PAGE_SIZE))
    {
      var out: seq<Device> := [];
      var i := 0;
      while i < |devices|
        invariant 0 <= i <= |devices|
        invariant out == OnSite(devices[..i], site)
      {
        assert devices[..i + 1][..i] == devices[..i];
        if devices[i].status == Active && devices[i].site == site {
          out := out + [devices[i]];
        }
        i := i + 1;
      }
      assert devices[..i] == devices;
      value := AnswerQuery(Page(sem, out, PAGE_SIZE));
    }

    method ListOSDDisks(id: int) returns (value: Option<seq<string>>)
      modifies this`calls
      ensures Answer(State(), value) == ListDisks(env, old(State()), id)
    {
      var items: seq<string> := if id in disks then Page(sem, disks[id], DISK_PAGE_SIZE) else [];
      value := AnswerQuery(items);
    }

    method AnswerQuery<T>(items: seq<T>) returns (value: Option<seq<T>>)
      modifies this`calls
      ensures Answer(State(), value) == Query(env, old(State()), items)
    {
      var o := env.netbox(calls);
      calls := calls + 1;
      match o {
        case Ok => value := Some(items);
        case Refused => value := None;
        case Lost => value := Some([]);
      }
    }

    method SetStatus(id: int, status: DeviceStatus, slug: string) returns (ok: bool)
      requires UniqueIDs(devices)
      modifies this`devices, this`calls
      ensures Done(State(), ok) == SetDeviceStatus(env, old(State()), id, status, slug)
      ensures UniqueIDs(devices)
    {
      var o := env.netbox(calls);
      calls := calls + 1;
      if o == Refused { return false; }
      var found := false;
      var i := 0;
      ghost var ds := devices;
      while i < |devices| && !found
        modifies this`devices
        invariant 0 <= i <= |devices| == |ds|
        invariant !found ==> devices == ds && forall j :: 0 <= j < i ==> ds[j].id != id
        invariant found ==> HasDevice(ds, id) && devices == PatchDevice(sem, ds, id, status, slug)
      {
        if devices[i].id == id {
          devices := devices[i := Patch(sem, devices[i], status, slug)];
          found := true;
        }
        i := i + 1;
      }
      assert devices == PatchDevice(sem, ds, id, status, slug);
      ok := o == Ok && found;
    }

    method Allocate() returns (value: Option<IP>)
      modifies this`nextIP, this`calls
      ensures Answer(State(), value) == AllocateIP(env, old(State()))
    {
      var o := env.netbox(calls);
      calls := calls + 1;
      if o == Refused { return None; }
      var id := nextIP;
      nextIP := nextIP + 1;
      value := if o == Ok then Some(IP(id, env.address(id))) else None;
    }

    method Release(id: int) returns (ok: bool)
      modifies this`released, this`calls
      ensures Done(State(), ok) == ReleaseIP(env, old(State()), id)
    {
      var o := env.netbox(calls);
      calls := calls + 1;
      if o == Refused || (sem == Real && id in released) { return false; }
      released := released + [id];
      ok := o == Ok;
    }
  }

  // ---- Facts about the specification ------------------------------------------------------

  /** A query answers with distinct devices when IDs are unique. */
  lemma {:induction false} SelectedDistinct(sem: Semantics, ds: seq<Device>, site: string, model: string)
    requires UniqueIDs(ds)
    ensures UniqueIDs(Selected(sem, ds, site, model))
  {
    if ds != [] {
      var n := |ds| - 1;
      SelectedDistinct(sem, ds[..n], site, model);
      var r := Selected(sem, ds[..n], site, model);
      forall k | 0 <= k < |r| ensures r[k].id != ds[n].id {
        assert r[k] in ds[..n];
      }
    }
  }

  /** What ListAvailableDevices can answer: distinct devices of the inventory, each one available. */
  lemma ListedAreAvailable(e: Env, nb: Netbox, site: string, model: string)
    requires UniqueIDs(nb.devices)
    ensures var a := ListAvailable(e, nb, site, model);
            a.value.Some? ==>
              && UniqueIDs(a.value.value)
              && forall d :: d in a.value.value ==> d in nb.devices && Available(d)
  {
    SelectedDistinct(nb.sem, nb.devices, site, model);
  }
}
