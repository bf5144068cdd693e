/** The machine classes a site reports: a group-by over a hash map, visited in whatever order the map
    gives, that must agree with the query the claims are served from. */
module MachineClasses {
  import opened Basics
  import opened Inventory

  // ---- Go's string order ------------------------------------------------------------------

  predicate Less(a: string, b: string) {
    b != "" && (a == "" || a[0] < b[0] || (a[0] == b[0] && Less(a[1..], b[1..])))
  }

  lemma {:induction false} LessTotal(a: string, b: string)
    ensures Less(a, b) || Less(b, a) || a == b
    ensures !(Less(a, b) && Less(b, a)) && !(a == b && Less(a, b))
  {
    if a != "" && b != "" && a[0] == b[0] {
      LessTotal(a[1..], b[1..]);
      assert a == [a[0]] + a[1..] && b == [b[0]] + b[1..];
    }
  }

  lemma {:induction false} LessTransitive(a: string, b: string, c: string)
    requires Less(a, b) && Less(b, c)
    ensures Less(a, c)
  {
    if a != "" && a[0] == b[0] == c[0] { LessTransitive(a[1..], b[1..], c[1..]); }
  }

  ghost predicate Increasing(s: seq<string>) {
    forall i, j :: 0 <= i < j < |s| ==> Less(s[i], s[j])
  }

  /** An increasing list is determined by its elements. */
  lemma {:induction false} IncreasingUnique(s: seq<string>, t: seq<string>)
    requires Increasing(s) && Increasing(t) && (forall x :: x in s <==> x in t)
    ensures s == t
  {
    if s == [] {
      assert forall i :: 0 <= i < |t| ==> t[i] in t;
    } else {
      assert s[0] in t && t != [];
      assert t[0] in s;
      FirstIsLeast(s, t[0]);
      FirstIsLeast(t, s[0]);
      LessTotal(s[0], t[0]);
      forall x ensures x in s[1..] <==> x in t[1..] {
        RestWithoutFirst(s, x);
        RestWithoutFirst(t, x);
      }
      IncreasingUnique(s[1..], t[1..]);
      assert s == [s[0]] + s[1..] && t == [t[0]] + t[1..];
    }
  }

  lemma FirstIsLeast(s: seq<string>, x: string)
    requires Increasing(s) && x in s
    ensures x == s[0] || Less(s[0], x)
  {
  }

  lemma RestWithoutFirst(s: seq<string>, x: string)
    requires Increasing(s) && s != []
    ensures x in s[1..] <==> x in s && x != s[0]
  {
    if x in s[1..] {
      var i :| 1 <= i < |s| && s[i] == x;
      LessTotal(s[0], x);
    }
  }

  /** Put x into an increasing list that does not have it: the result of sorting one more element. */
  function Insert(s: seq<string>, x: string): (r: seq<string>) {
    if s == [] || Less(x, s[0]) then [x] + s else [s[0]] + Insert(s[1..], x)
  }

  lemma {:induction false} InsertIncreasing(s: seq<string>, x: string)
    requires Increasing(s) && x !in s
    ensures Increasing(Insert(s, x)) && forall y :: y in Insert(s, x) <==> y in s || y == x
  {
    if s != [] {
      if Less(x, s[0]) {
        forall i | 0 <= i < |s| ensures Less(x, s[i]) {
          if i > 0 { LessTransitive(x, s[0], s[i]); }
        }
      } else {
        LessTotal(x, s[0]);
        InsertIncreasing(s[1..], x);
        var r := Insert(s[1..], x);
        assert forall y :: y in r ==> y == x || y in s[1..];
        forall i | 0 <= i < |r| ensures Less(s[0], r[i]) {
          assert r[i] in r;
        }
      }
    }
  }

  // ---- The summary of one class -----------------------------------------------------------

  datatype Summary = Summary(machineClass: string, available: nat, tags: seq<string>)

  predicate Offers(d: Device, machineClass: string) {
    d.model == machineClass && d.tenant.None?
  }

  function Count(ds: seq<Device>, machineClass: string): nat {
    if ds == [] then 0
    else
      var n := |ds| - 1;
      Count(ds[..n], machineClass) + if Offers(ds[n], machineClass) then 1 else 0
  }

  ghost predicate HasClass(ds: seq<Device>, machineClass: string) {
    machineClass != "" && exists i :: 0 <= i < |ds| && ds[i].model == machineClass
  }

  ghost predicate Carries(ds: seq<Device>, machineClass: string, tag: string) {
    exists i :: 0 <= i < |ds| && ds[i].model == machineClass && tag in ds[i].tags
  }

  ghost predicate Describes(s: Summary, ds: seq<Device>) {
    && HasClass(ds, s.machineClass)
    && s.available == Count(ds, s.machineClass)
    && Increasing(s.tags) && forall tag :: tag in s.tags <==> Carries(ds, s.machineClass, tag)
  }

  function Classes(out: seq<Summary>): (r: seq<string>)
    ensures |r| == |out| && forall i :: 0 <= i < |out| ==> r[i] == out[i].machineClass
  {
    seq(|out|, i requires 0 <= i < |out| => out[i].machineClass)
  }

  /** The classes in strictly increasing order, each named class once, each described correctly. */
  ghost predicate Summarises(ds: seq<Device>, out: seq<Summary>) {
    && Increasing(Classes(out))
    && (forall i :: 0 <= i < |out| ==> Describes(out[i], ds))
    && forall m :: HasClass(ds, m) ==> m in Classes(out)
  }

  // ---- The group-by -----------------------------------------------------------------------

  datatype Entry = Entry(available: nat, tagSet: set<string>)

  ghost predicate Grouped(m: map<string, Entry>, ds: seq<Device>) {
    && (forall c :: c in m <==> HasClass(ds, c))
    && (forall c :: c in m ==> EntryOf(m[c], ds, c))
  }

  ghost predicate EntryOf(e: Entry, ds: seq<Device>, machineClass: string) {
    e.available == Count(ds, machineClass) && forall tag :: tag in e.tagSet <==> Carries(ds, machineClass, tag)
  }

  function TagSet(tags: seq<string>): (r: set<string>)
    ensures forall t :: t in r <==> t in tags
  {
    set t | t in tags
  }

  /** What one more device does to its class and to no other. */
  lemma OneMore(ds: seq<Device>, d: Device, machineClass: string)
    ensures Count(ds + [d], machineClass) == Count(ds, machineClass) + if Offers(d, machineClass) then 1 else 0
    ensures HasClass(ds + [d], machineClass) <==> HasClass(ds, machineClass) || (machineClass != "" && d.model == machineClass)
    ensures forall tag :: Carries(ds + [d], machineClass, tag) <==> Carries(ds, machineClass, tag) || (d.model == machineClass && tag in d.tags)
  {
    var ds' := ds + [d];
    assert ds'[..|ds|] == ds && ds'[|ds|] == d;
    assert forall i :: 0 <= i < |ds| ==> ds'[i] == ds[i];
  }

  lemma AbsentClass(ds: seq<Device>, machineClass: string)
    requires machineClass != "" && !HasClass(ds, machineClass)
    ensures Count(ds, machineClass) == 0 && forall tag :: !Carries(ds, machineClass, tag)
  {
    if ds != [] {
      var n := |ds| - 1;
      assert forall i :: 0 <= i < n ==> ds[..n][i] == ds[i];
      AbsentClass(ds[..n], machineClass);
    }
  }

  method Group(devices: seq<Device>) returns (classes: map<string, Entry>)
    ensures Grouped(classes, devices)
  {
    classes := map[];
    for i := 0 to |devices|
      invariant Grouped(classes, devices[..i])
    {
      var d := devices[i];
      ghost var before, was := devices[..i], classes;
      assert devices[..i + 1] == before + [d];
      if d.model != "" {
        if d.model !in classes {
          AbsentClass(before, d.model);
          classes := classes[d.model := Entry(0, {})];
        }
        var e := classes[d.model];
        if d.tenant.None? { e := e.(available := e.available + 1); }
        e := e.(tagSet := e.tagSet + TagSet(d.tags));
        classes := classes[d.model := e];
      }
      forall c ensures c in classes <==> HasClass(before + [d], c)
               ensures c in classes ==> EntryOf(classes[c], before + [d], c) {
        OneMore(before, d, c);
        assert c != d.model && c in was ==> EntryOf(was[c], before, c);
        assert c == d.model && c in was ==> EntryOf(was[c], before, c);
      }
    }
    assert devices[..|devices|] == devices;
  }

  method SortTags(tagSet: set<string>) returns (tags: seq<string>)
    ensures Increasing(tags) && forall t :: t in tags <==> t in tagSet
  {
    tags := [];
    var left := tagSet;
    while left != {}
      invariant left <= tagSet && Increasing(tags)
      invariant forall t :: t in tags <==> t in tagSet && t !in left
    {
      var slug :| slug in left;
      InsertIncreasing(tags, slug);
      tags := Insert(tags, slug);
      left := left - {slug};
    }
  }

  /** Put one more summary into a list ordered by class: sort.Slice, element by element. */
  function Place(out: seq<Summary>, x: Summary): (r: seq<Summary>)
    ensures |r| == |out| + 1 && forall y :: y in r <==> y in out || y == x
  {
    if out == [] || Less(x.machineClass, out[0].machineClass) then [x] + out else [out[0]] + Place(out[1..], x)
  }

  lemma {:induction false} PlaceClasses(out: seq<Summary>, x: Summary)
    ensures Classes(Place(out, x)) == Insert(Classes(out), x.machineClass)
  {
    if out != [] && !Less(x.machineClass, out[0].machineClass) {
      PlaceClasses(out[1..], x);
      assert Classes(out)[1..] == Classes(out[1..]);
      assert Classes([out[0]] + Place(out[1..], x)) == [out[0].machineClass] + Classes(Place(out[1..], x));
    } else {
      assert Classes([x] + out) == [x.machineClass] + Classes(out);
    }
  }

  lemma ClassIn(out: seq<Summary>, c: string)
    ensures c in Classes(out) <==> exists s :: s in out && s.machineClass == c
  {
    if c in Classes(out) {
      var i :| 0 <= i < |out| && Classes(out)[i] == c;
      assert out[i] in out;
    }
    if s :| s in out && s.machineClass == c {
      var i :| 0 <= i < |out| && out[i] == s;
      assert Classes(out)[i] == c;
    }
  }

  lemma NewClass(summaries: seq<Summary>, i: nat, out: seq<Summary>)
    requires NoDup(Classes(summaries)) && i < |summaries| && forall s :: s in out <==> s in summaries[..i]
    ensures summaries[i].machineClass !in Classes(out)
  {
    ClassIn(out, summaries[i].machineClass);
    forall s | s in out ensures s.machineClass != summaries[i].machineClass {
      var j :| 0 <= j < i && summaries[j] == s;
      assert Classes(summaries)[j] != Classes(summaries)[i];
    }
  }

  method SortSummaries(summaries: seq<Summary>) returns (out: seq<Summary>)
    requires NoDup(Classes(summaries))
    ensures Increasing(Classes(out)) && forall s :: s in out <==> s in summaries
  {
    out := [];
    for i := 0 to |summaries|
      invariant Increasing(Classes(out)) && forall s :: s in out <==> s in summaries[..i]
    {
      var x := summaries[i];
      NewClass(summaries, i, out);
      PlaceClasses(out, x);
      InsertIncreasing(Classes(out), x.machineClass);
      out := Place(out, x);
      assert summaries[..i + 1] == summaries[..i] + [x];
    }
    assert summaries[..|summaries|] == summaries;
  }

  /** aggregateMachineClasses: group, summarise the classes in map order, and sort. */
  method AggregateMachineClasses(devices: seq<Device>) returns (out: seq<Summary>)
    ensures Summarises(devices, out)
  {
    var classes := Group(devices);
    var summaries: seq<Summary> := [];
    var left := classes.Keys;
    while left != {}
      invariant left <= classes.Keys && NoDup(Classes(summaries))
      invariant forall s :: s in summaries ==> s.machineClass in classes && s.machineClass !in left && Describes(s, devices)
      invariant forall c :: c in classes.Keys - left ==> c in Classes(summaries)
    {
      var model :| model in left;
      var tags := SortTags(classes[model].tagSet);
      var s := Summary(model, classes[model].available, tags);
      assert EntryOf(classes[model], devices, model);
      ghost var before := summaries;
      summaries := summaries + [s];
      assert Classes(summaries) == Classes(before) + [model];
      if model in Classes(before) { ClassIn(before, model); }
      left := left - {model};
    }
    out := SortSummaries(summaries);
    forall m | HasClass(devices, m) ensures m in Classes(out) {
      assert m in classes.Keys;
      ClassIn(summaries, m);
      ClassIn(out, m);
    }
    forall i | 0 <= i < |out| ensures Describes(out[i], devices) {
      assert out[i] in out;
    }
  }

  // ---- What the summary means -------------------------------------------------------------

  /** The summary depends on the devices only, not on their order, nor on the order of the map. */
  lemma SummaryUnique(ds: seq<Device>, ds': seq<Device>, a: seq<Summary>, b: seq<Summary>)
    requires multiset(ds) == multiset(ds') && Summarises(ds, a) && Summarises(ds', b)
    ensures a == b
  {
    forall c ensures HasClass(ds, c) <==> HasClass(ds', c) { SameDevices(ds, ds', c); }
    forall x ensures x in Classes(a) <==> x in Classes(b) {
      ClassIn(a, x);
      ClassIn(b, x);
    }
    IncreasingUnique(Classes(a), Classes(b));
    forall i | 0 <= i < |a| ensures a[i] == b[i] {
      assert Classes(a)[i] == Classes(b)[i];
      SameDevices(ds, ds', a[i].machineClass);
      IncreasingUnique(a[i].tags, b[i].tags);
    }
  }

  lemma SameDevices(ds: seq<Device>, ds': seq<Device>, c: string)
    requires multiset(ds) == multiset(ds')
    ensures HasClass(ds, c) <==> HasClass(ds', c)
    ensures Count(ds, c) == Count(ds', c)
    ensures forall tag :: Carries(ds, c, tag) <==> Carries(ds', c, tag)
  {
    SameMembers(ds, ds');
    CountByMultiset(ds, ds', c);
    if i :| 0 <= i < |ds| && ds[i].model == c { assert ds[i] in ds'; }
    if i :| 0 <= i < |ds'| && ds'[i].model == c { assert ds'[i] in ds; }
    forall tag ensures Carries(ds, c, tag) <==> Carries(ds', c, tag) {
      if i :| 0 <= i < |ds| && ds[i].model == c && tag in ds[i].tags { assert ds[i] in ds'; }
      if i :| 0 <= i < |ds'| && ds'[i].model == c && tag in ds'[i].tags { assert ds'[i] in ds; }
    }
  }

  lemma SameMembers(ds: seq<Device>, ds': seq<Device>)
    requires multiset(ds) == multiset(ds')
    ensures forall d :: d in ds <==> d in ds'
  {
    assert forall d :: d in ds <==> d in multiset(ds);
    assert forall d :: d in ds' <==> d in multiset(ds');
  }

  lemma CountAppend(s: seq<Device>, t: seq<Device>, c: string)
    ensures Count(s + t, c) == Count(s, c) + Count(t, c)
  {
    if t == [] {
      assert s + t == s;
    } else {
      var n := |t| - 1;
      assert (s + t)[..|s + t| - 1] == s + t[..n];
      CountAppend(s, t[..n], c);
    }
  }

  lemma CountOne(d: Device, c: string)
    ensures Count([d], c) == if Offers(d, c) then 1 else 0
  {
    assert [d][..0] == [];
  }

  lemma Remove(t: seq<Device>, i: nat, c: string)
    requires i < |t|
    ensures multiset(t[..i] + t[i + 1..]) == multiset(t) - multiset{t[i]}
    ensures Count(t, c) == Count(t[..i] + t[i + 1..], c) + Count([t[i]], c)
  {
    assert t == t[..i] + [t[i]] + t[i + 1..];
    CountAppend(t[..i], [t[i]], c);
    CountAppend(t[..i] + [t[i]], t[i + 1..], c);
    CountAppend(t[..i], t[i + 1..], c);
  }

  lemma {:induction false} CountByMultiset(s: seq<Device>, t: seq<Device>, c: string)
    requires multiset(s) == multiset(t)
    ensures Count(s, c) == Count(t, c)
  {
    hide Count;
    if s == [] {
      assert |multiset(t)| == 0;
    } else {
      var n := |s| - 1;
      assert s[n] in multiset(t);
      var i :| 0 <= i < |t| && t[i] == s[n];
      Remove(s, n, c);
      Remove(t, i, c);
      assert s[..n] + s[n + 1..] == s[..n];
      CountByMultiset(s[..n], t[..i] + t[i + 1..], c);
    }
  }

  // ---- Agreement with the direct query ----------------------------------------------------

  lemma QueriesStep(ds: seq<Device>, site: string, machineClass: string)
    requires ds != []
    ensures var n, d := |ds| - 1, ds[|ds| - 1];
            && OnSite(ds, site) == OnSite(ds[..n], site) + (if d.status == Active && d.site == site then [d] else [])
            && Selected(Real, ds, site, machineClass)
               == Selected(Real, ds[..n], site, machineClass) + (if Selects(Real, d, site, machineClass) then [d] else [])
  {
  }

  lemma QueriesEmpty(site: string, machineClass: string)
    ensures OnSite([], site) == [] && Selected(Real, [], site, machineClass) == [] && Count([], machineClass) == 0
  {
  }

  /** The devices a claim of that class would be offered are the ones counted, before any page is cut. */
  lemma {:induction false} CountIsSelected(ds: seq<Device>, site: string, machineClass: string)
    ensures Count(OnSite(ds, site), machineClass) == |Selected(Real, ds, site, machineClass)|
  {
    hide OnSite, Selected, Count;
    if ds == [] {
      QueriesEmpty(site, machineClass);
    } else {
      var n := |ds| - 1;
      QueriesStep(ds, site, machineClass);
      CountIsSelected(ds[..n], site, machineClass);
      CountOne(ds[n], machineClass);
      CountAppend(OnSite(ds[..n], site), [ds[n]], machineClass);
      assert OnSite(ds[..n], site) + [] == OnSite(ds[..n], site);
    }
  }

  lemma {:induction false} CountBound(ds: seq<Device>, machineClass: string)
    ensures Count(ds, machineClass) <= |ds|
  {
    if ds != [] { CountBound(ds[..|ds| - 1], machineClass); }
  }

  /** The list the summary is computed from: one page of the site's active devices. */
  function SitePage(ds: seq<Device>, site: string): seq<Device> {
    Page(Real, OnSite(ds, site), PAGE_SIZE)
  }

  /** A class's AvailableCount agrees with the number of machines offered to its claims exactly when no
      free machine of that class is past the first page of the site's active devices, or that page is full
      of such machines. In particular it always does on sites of at most a thousand active devices. */
  lemma CountsAgree(ds: seq<Device>, site: string, machineClass: string)
    ensures var offered, all := AvailableDevices(Real, ds, site, machineClass), OnSite(ds, site);
            && (Count(SitePage(ds, site), machineClass) == |offered| <==>
                  || |all| <= PAGE_SIZE
                  || Count(all[PAGE_SIZE..], machineClass) == 0
                  || Count(all[..PAGE_SIZE], machineClass) == PAGE_SIZE)
            && Count(SitePage(ds, site), machineClass) <= |offered|
  {
    CountIsSelected(ds, site, machineClass);
    var all := OnSite(ds, site);
    CountBound(all, machineClass);
    if |all| > PAGE_SIZE {
      assert all == all[..PAGE_SIZE] + all[PAGE_SIZE..];
      CountAppend(all[..PAGE_SIZE], all[PAGE_SIZE..], machineClass);
      CountBound(all[..PAGE_SIZE], machineClass);
    }
  }

  /** On such a site the published summary is the answer every claim would get, class by class; a class
      that is not listed has no machine to offer. */
  lemma SummaryAgrees(ds: seq<Device>, site: string, out: seq<Summary>, machineClass: string)
    requires |OnSite(ds, site)| <= PAGE_SIZE && Summarises(SitePage(ds, site), out) && machineClass != ""
    ensures forall i :: 0 <= i < |out| && out[i].machineClass == machineClass ==>
              out[i].available == |AvailableDevices(Real, ds, site, machineClass)|
    ensures machineClass !in Classes(out) ==> AvailableDevices(Real, ds, site, machineClass) == []
  {
    CountsAgree(ds, site, machineClass);
    if machineClass !in Classes(out) {
      AbsentClass(SitePage(ds, site), machineClass);
    }
  }
}
