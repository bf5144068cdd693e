/** Everything a pass cannot see or choose: what becomes of each remote call, the text of a fresh
    address, the clock, and the two orders Go leaves open (ties in sort.Slice, map iteration). */
module Environment {
  import opened Basics
  import opened Claims

  /** One remote call: it works; it is refused and nothing happens; or it takes effect but the
      answer is lost, so the caller sees an error. Stopping a pass is refusing all its later calls. */
  datatype Outcome = Ok | Refused | Lost

  datatype Env = Env(
    netbox: nat -> Outcome,
    kube: nat -> Outcome,
    address: nat -> string,
    clock: nat -> int,
    sort: (nat, seq<Component>) -> seq<Component>,
    keys: (nat, map<string, seq<string>>) -> seq<string>)

  /** Netbox hands out addresses with a nonempty host part. */
  ghost predicate AddressesNonempty(e: Env) {
    forall n :: e.address(n) != "" && e.address(n)[0] != '/'
  }

  ghost predicate OrderedBy(cs: seq<Component>) {
    forall i, j :: 0 <= i < j < |cs| ==> cs[i].order <= cs[j].order
  }

  /** sort.Slice returns the components in nondecreasing order; ties come out in any order. */
  ghost predicate SortsComponents(e: Env) {
    forall n, cs :: multiset(e.sort(n, cs)) == multiset(cs) && OrderedBy(e.sort(n, cs))
  }

  /** Ranging over a map visits each key once, in any order. */
  ghost predicate EnumeratesKeys(e: Env) {
    forall n, m :: NoDup(e.keys(n, m)) && SetOf(e.keys(n, m)) == m.Keys
  }

  /** No call fails. */
  ghost predicate NoFaults(e: Env) {
    (forall n :: e.netbox(n) == Ok) && (forall n :: e.kube(n) == Ok)
  }
}
