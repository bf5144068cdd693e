/** setCondition: a list edited in place that behaves as a map from condition type to last write. */
module Conditions {
  import opened Basics
  import opened Claims

  ghost predicate UniqueTypes(cs: seq<Condition>) {
    forall i, j :: 0 <= i < j < |cs| ==> cs[i].ctype != cs[j].ctype
  }

  /** One write changes what its own type looks up to, and nothing else. */
  lemma LookupAfterSet(cs: seq<Condition>, ctype: string, status: bool, reason: string, other: string)
    ensures Lookup(SetCondition(cs, ctype, status, reason), other)
         == if other == ctype then Some(Condition(ctype, status, reason)) else Lookup(cs, other)
  {
    var i, j := IndexOf(cs, ctype), IndexOf(cs, other);
    var cs' := SetCondition(cs, ctype, status, reason);
    var j' := IndexOf(cs', other);
    if other == ctype {
      assert cs'[i].ctype == other;
      assert j' == i;
    } else if j < |cs| {
      assert cs'[j].ctype == other;
      assert j' == j;
    } else {
      assert forall k :: 0 <= k < |cs'| ==> cs'[k].ctype != other;
    }
  }

  datatype Update = Update(ctype: string, status: bool, reason: string)

  function SetAll(cs: seq<Condition>, us: seq<Update>): seq<Condition> {
    if us == [] then cs
    else
      var u := us[|us| - 1];
      SetCondition(SetAll(cs, us[..|us| - 1]), u.ctype, u.status, u.reason)
  }

  /** The map that the list stands for. */
  function WriteAll(m: map<string, Condition>, us: seq<Update>): map<string, Condition> {
    if us == [] then m
    else
      var u := us[|us| - 1];
      WriteAll(m, us[..|us| - 1])[u.ctype := Condition(u.ctype, u.status, u.reason)]
  }

  function Types(cs: seq<Condition>): (r: seq<string>)
    ensures |r| == |cs| && forall i :: 0 <= i < |cs| ==> r[i] == cs[i].ctype
  {
    seq(|cs|, i requires 0 <= i < |cs| => cs[i].ctype)
  }

  /** After any updates of an empty list: types are unique, a lookup gives the last write of its type,
      and the types stand in the order in which they were first written. */
  lemma {:induction false} ListRefinesMap(us: seq<Update>, ctype: string)
    ensures var cs := SetAll([], us);
            && UniqueTypes(cs)
            && Lookup(cs, ctype) == (var m := WriteAll(map[], us); if ctype in m then Some(m[ctype]) else None)
            && (us != [] ==>
                  var before, t := Types(SetAll([], us[..|us| - 1])), us[|us| - 1].ctype;
                  Types(cs) == if t in before then before else before + [t])
  {
    if us != [] {
      var u := us[|us| - 1];
      var cs := SetAll([], us[..|us| - 1]);
      ListRefinesMap(us[..|us| - 1], ctype);
      LookupAfterSet(cs, u.ctype, u.status, u.reason, ctype);
      var i := IndexOf(cs, u.ctype);
      assert i < |cs| ==> Types(cs)[i] == u.ctype;
      if u.ctype in Types(cs) {
        assert Types(SetAll([], us)) == Types(cs);
      } else {
        assert Types(SetAll([], us)) == Types(cs) + [u.ctype];
      }
    }
  }
}
