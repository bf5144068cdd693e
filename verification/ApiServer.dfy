/** The Kubernetes API as the operator uses it. Claims are kept with their whole history: the index
    in the history is the resource version, a read may return any version (the informer cache lags),
    and a write is accepted only from the last one. */
module ApiServer {
  import opened Basics
  import opened Claims
  import opened Environment

  datatype Kind = ClusterKind | ServerKind

  datatype Key = Key(kind: Kind, ns: string, name: string)

  type History = seq<Option<Claim>>

  type Store = map<Key, History>

  datatype Job = Job(completed: bool, failed: bool)

  datatype Obj = Obj(kind: string, ns: string, name: string)

  /** What an object says, as far as the operator decides it: a release's chart and values, the references of a
      Cluster, the replica count of a MachineDeployment, the address and pool of a Service. */
  datatype Body =
    | Plain
    | Helm(cluster: string, chart: HelmRef, bootstrap: bool)
    | References(infrastructure: string, controlPlane: string)
    | Replicas(count: int)
    | LoadBalancer(ip: string, pool: string)

  datatype Object = Object(body: Body, ready: bool)

  datatype Rule = Rule(apiGroups: seq<string>, resources: seq<string>, verbs: seq<string>, names: seq<string>)

  datatype Kube = Kube(
    store: Store,
    sites: map<string, Site>,
    profiles: map<string, Profile>,
    jobs: map<Obj, Job>,
    objects: map<Obj, Object>,
    roles: map<string, seq<Rule>>,
    calls: nat)

  datatype Reading<T> = Found(value: T) | NotFound | Broken

  datatype Got<T> = Got(k: Kube, read: Reading<T>)

  datatype Did = Did(k: Kube, ok: bool)

  // ---- Claims -----------------------------------------------------------------------------

  function HistoryOf(s: Store, key: Key): History {
    if key in s then s[key] else []
  }

  /** The claim as it is now; None when there is none. */
  function Current(s: Store, key: Key): Option<Claim> {
    var h := HistoryOf(s, key);
    if h == [] then None else h[|h| - 1]
  }

  predicate IsCurrent(s: Store, key: Key, ver: nat) {
    ver + 1 == |HistoryOf(s, key)|
  }

  function Append(s: Store, key: Key, v: Option<Claim>): Store {
    s[key := HistoryOf(s, key) + [v]]
  }

  function ReadClaim(e: Env, k: Kube, key: Key, ver: nat): Got<Claim> {
    var k' := k.(calls := k.calls + 1);
    var h := HistoryOf(k.store, key);
    if e.kube(k.calls) != Ok then Got(k', Broken)
    else if ver < |h| && h[ver].Some? then Got(k', Found(h[ver].value))
    else Got(k', NotFound)
  }

  /** Update or Status().Update from version ver; a conflict answers 409 and changes nothing. */
  function WriteClaim(e: Env, k: Kube, key: Key, ver: nat, v: Option<Claim>): Did {
    var k' := k.(calls := k.calls + 1);
    if e.kube(k.calls) == Refused || !IsCurrent(k.store, key, ver) then Did(k', false)
    else Did(k'.(store := Append(k.store, key, v)), e.kube(k.calls) == Ok)
  }

  /** What a delete request does to a claim: mark it while its finalizer is set, else remove it. */
  function Deleted(c: Claim): Option<Claim> {
    if c.meta.finalizer then Some(WithMeta(c, c.meta.(deleting := true))) else None
  }

  /** Delete goes by name, whatever version the caller holds. */
  function DeleteClaim(e: Env, k: Kube, key: Key): Did {
    var k' := k.(calls := k.calls + 1);
    var now := Current(k.store, key);
    if e.kube(k.calls) == Refused || now.None? then Did(k', false)
    else Did(k'.(store := Append(k.store, key, Deleted(now.value))), e.kube(k.calls) == Ok)
  }

  // ---- Other objects ----------------------------------------------------------------------

  function Get<K, V>(e: Env, k: Kube, m: map<K, V>, key: K): Got<V> {
    Got(k.(calls := k.calls + 1),
        if e.kube(k.calls) != Ok then Broken else if key in m then Found(m[key]) else NotFound)
  }

  function CreateJob(e: Env, k: Kube, obj: Obj): Did {
    var k' := k.(calls := k.calls + 1);
    if e.kube(k.calls) == Refused then Did(k', false)
    else Did(k'.(jobs := if obj in k.jobs then k.jobs else k.jobs[obj := Job(false, false)]), e.kube(k.calls) == Ok)
  }

  /** applyUnstructured and CreateOrUpdate: create the object when it is missing. When it is there the first
      leaves it alone; the second sets what the operator decides and sends an update if that changes anything. */
  function Ensure(e: Env, k: Kube, obj: Obj, body: Body, update: bool): Did {
    var got := Get(e, k, k.objects, obj);
    var k' := got.k.(calls := got.k.calls + 1);
    match got.read
    case Broken => Did(got.k, false)
    case Found(o) =>
      if !update || o.body == body then Did(got.k, true)
      else if e.kube(got.k.calls) == Refused then Did(k', false)
      else Did(k'.(objects := k.objects[obj := o.(body := body)]), e.kube(got.k.calls) == Ok)
    case NotFound =>
      if e.kube(got.k.calls) == Refused then Did(k', false)
      else Did(k'.(objects := k.objects[obj := Object(body, false)]), e.kube(got.k.calls) == Ok)
  }

  function PutRole(e: Env, k: Kube, ns: string, rules: seq<Rule>): Did {
    var k' := k.(calls := k.calls + 1);
    if e.kube(k.calls) == Refused then Did(k', false)
    else Did(k'.(roles := k.roles[ns := rules]), e.kube(k.calls) == Ok)
  }

  // ---- The client -------------------------------------------------------------------------

  class KubeClient {
    const env: Env
    const sites: map<string, Site>
    const profiles: map<string, Profile>
    var store: Store
    var jobs: map<Obj, Job>
    var objects: map<Obj, Object>
    var roles: map<string, seq<Rule>>
    var calls: nat

    ghost function State(): Kube
      reads this
    {
      Kube(store, sites, profiles, jobs, objects, roles, calls)
    }

    constructor (k: Kube, env: Env)
      ensures State() == k && this.env == env
    {
      this.env, sites, profiles := env, k.sites, k.profiles;
      store, jobs, objects, roles, calls := k.store, k.jobs, k.objects, k.roles, k.calls;
    }

    method Read(key: Key, ver: nat) returns (read: Reading<Claim>)
      modifies this`calls
      ensures Got(State(), read) == ReadClaim(env, old(State()), key, ver)
    {
      var o := env.kube(calls);
      calls := calls + 1;
      var h := HistoryOf(store, key);
      read := if o != Ok then Broken else if ver < |h| && h[ver].Some? then Found(h[ver].value) else NotFound;
    }

    method Write(key: Key, ver: nat, v: Option<Claim>) returns (ok: bool)
      modifies this`store, this`calls
      ensures Did(State(), ok) == WriteClaim(env, old(State()), key, ver, v)
    {
      var o := env.kube(calls);
      calls := calls + 1;
      if o == Refused || !IsCurrent(store, key, ver) { return false; }
      store := Append(store, key, v);
      ok := o == Ok;
    }

    method Delete(key: Key) returns (ok: bool)
      modifies this`store, this`calls
      ensures Did(State(), ok) == DeleteClaim(env, old(State()), key)
    {
      var o := env.kube(calls);
      calls := calls + 1;
      var now := Current(store, key);
      if o == Refused || now.None? { return false; }
      store := Append(store, key, Deleted(now.value));
      ok := o == Ok;
    }

    method Fetch<K(==), V>(m: map<K, V>, key: K) returns (read: Reading<V>)
      modifies this`calls
      ensures Got(State(), read) == Get(env, old(State()), m, key)
    {
      var o := env.kube(calls);
      calls := calls + 1;
      read := if o != Ok then Broken else if key in m then Found(m[key]) else NotFound;
    }

    method NewJob(obj: Obj) returns (ok: bool)
      modifies this`jobs, this`calls
      ensures Did(State(), ok) == CreateJob(env, old(State()), obj)
    {
      var o := env.kube(calls);
      calls := calls + 1;
      if o == Refused { return false; }
      if obj !in jobs { jobs := jobs[obj := Job(false, false)]; }
      ok := o == Ok;
    }

    method EnsureObject(obj: Obj, body: Body, update: bool) returns (ok: bool)
      modifies this`objects, this`calls
      ensures Did(State(), ok) == Ensure(env, old(State()), obj, body, update)
    {
      var read := Fetch(objects, obj);
      match read {
        case Broken => return false;
        case Found(existing) =>
          if !update || existing.body == body { return true; }
          var o := env.kube(calls);
          calls := calls + 1;
          if o == Refused { return false; }
          objects := objects[obj := existing.(body := body)];
          ok := o == Ok;
        case NotFound =>
          var o := env.kube(calls);
          calls := calls + 1;
          if o == Refused { return false; }
          objects := objects[obj := Object(body, false)];
          ok := o == Ok;
      }
    }

    method UpdateRole(ns: string, rules: seq<Rule>) returns (ok: bool)
      modifies this`roles, this`calls
      ensures Did(State(), ok) == PutRole(env, old(State()), ns, rules)
    {
      var o := env.kube(calls);
      calls := calls + 1;
      if o == Refused { return false; }
      roles := roles[ns := rules];
      ok := o == Ok;
    }
  }
}
