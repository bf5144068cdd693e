/** Whole runs: passes of any claim from any version it ever had, users creating, editing and deleting
    claims, the tenant synchronisation, and everything else the outside may do between passes. */
module Runs {
  import opened Basics
  import opened Text
  import opened Claims
  import opened Environment
  import opened Inventory
  import opened ApiServer
  import opened Passes
  import ClusterPass
  import ServerPass

  /** What administrators and other controllers own. */
  datatype Outside = Outside(
    sites: map<string, Site>,
    profiles: map<string, Profile>,
    jobs: map<Obj, Job>,
    objects: map<Obj, Object>,
    roles: map<string, seq<Rule>>)

  datatype Event =
    | Pass(key: Key, ver: nat)
    | CreateCluster(key: Key, spec: ClusterSpec)
    | CreateServer(key: Key, sspec: ServerSpec)
    | EditSpec(key: Key, spec: ClusterSpec)
    | Annotate(key: Key, deleteAt: DeleteAt)
    | Delete(key: Key)
    | Change(outside: Outside)

  /** The version a fresh read returns. */
  function Latest(w: World, key: Key): nat {
    var h := HistoryOf(w.kube.store, key);
    if h == [] then 0 else |h| - 1
  }

  datatype PassResult = PassResult(w: World, reply: Reply)

  function Step(e: Env, w: World, key: Key, ver: nat, c: Claim): Flow {
    if c.Cluster? then ClusterPass.Step(e, w, key, ver, c) else ServerPass.Step(e, w, key, ver, c)
  }

  /** Reconcile: read the claim, at whatever version the cache still holds, and take its step. */
  function Reconcile(e: Env, w: World, key: Key, ver: nat): PassResult {
    var got := ReadClaim(e, w.kube, key, ver);
    var w1 := w.(kube := got.k);
    match got.read
    case Broken => PassResult(w1, Error)
    case NotFound => PassResult(w1, Finished)
    case Found(c) =>
      var f := Step(e, w1, key, ver, c);
      PassResult(f.w, if f.Stop? then f.reply else Finished)
  }

  function Put(w: World, key: Key, v: Option<Claim>): World {
    w.(kube := w.kube.(store := Append(w.kube.store, key, v)))
  }

  function Next(e: Env, w: World, ev: Event): World {
    match ev
    case Pass(key, ver) => Reconcile(e, w, key, ver).w
    case CreateCluster(key, spec) =>
      if key.kind != ClusterKind || Current(w.kube.store, key).Some? then w
      else Put(w, key, Some(Cluster(NEW_META, spec, EMPTY_CLUSTER_STATUS)))
    case CreateServer(key, sspec) =>
      if key.kind != ServerKind || Current(w.kube.store, key).Some? then w
      else Put(w, key, Some(Server(NEW_META, sspec, EMPTY_SERVER_STATUS)))
    case EditSpec(key, spec) =>
      var now := Current(w.kube.store, key);
      if now.None? || now.value.Server? then w
      else Put(w, key, Some(now.value.(spec := spec)))
    case Annotate(key, deleteAt) =>
      var now := Current(w.kube.store, key);
      if now.None? then w
      else Put(w, key, Some(WithMeta(now.value, now.value.meta.(deleteAt := deleteAt))))
    case Delete(key) =>
      var now := Current(w.kube.store, key);
      if now.None? then w else Put(w, key, Deleted(now.value))
    case Change(o) =>
      w.(kube := w.kube.(sites := o.sites, profiles := o.profiles, jobs := o.jobs, objects := o.objects, roles := o.roles))
  }

  /** A run: what happened, and the world before each event and after the last one. */
  datatype Run = Run(events: seq<Event>, worlds: seq<World>)

  ghost predicate IsRun(e: Env, r: Run) {
    && |r.worlds| == |r.events| + 1
    && forall n: nat :: n < |r.events| ==> Linked(e, r, n)
  }

  ghost predicate Linked(e: Env, r: Run, n: nat)
    requires n < |r.events| && n + 1 < |r.worlds|
  {
    r.worlds[n + 1] == Next(e, r.worlds[n], r.events[n])
  }

  /** Every pass of the run is in a tenant namespace. */
  ghost predicate TenantRun(r: Run) {
    forall n: nat :: n < |r.events| ==> InTenant(r.events[n])
  }

  predicate InTenant(ev: Event) {
    ev.Pass? ==> TenantSlug(ev.key.ns) != ""
  }

  /** Any events can happen from any world. */
  lemma {:induction false} Play(e: Env, w: World, evs: seq<Event>) returns (r: Run)
    ensures IsRun(e, r) && r.events == evs && r.worlds[0] == w
  {
    hide Next;
    if evs == [] {
      r := Run([], [w]);
    } else {
      var n := |evs| - 1;
      var before := Play(e, w, evs[..n]);
      r := Run(evs, before.worlds + [Next(e, before.worlds[n], evs[n])]);
      forall m: nat | m < |evs| ensures Linked(e, r, m) {
        assert m < n ==> Linked(e, before, m) && before.events[m] == evs[m];
      }
    }
  }

  /** Where runs start: nothing claimed, no address handed out, device IDs unique and nonzero. */
  ghost predicate Start(w: World) {
    && UniqueIDs(w.nb.devices)
    && w.nb.nextIP == 1 && w.nb.released == []
    && w.kube.store == map[]
  }
}
