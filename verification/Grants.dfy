/** Which kubeconfigs a tenant Role lists, when exactly each pass keeps that right, and who can read what: a list
    without names restricts nothing. */
module Grants {
  import opened Basics
  import opened Text
  import opened Claims
  import opened Environment
  import opened ApiServer
  import opened Passes
  import opened Holdings
  import opened Exclusivity
  import opened Histories
  import opened RoleRules
  import ClusterPass
  import ServerPass
  import opened Runs
  import opened GrantSteps
  import opened Releasing

  // ---- Expose and finalize are inverse on a Role ------------------------------------------

  lemma {:induction false} WithoutAbsent(names: seq<string>, s: string)
    requires s !in names
    ensures Without(names, s) == names
  {
    if names != [] {
      var n := |names| - 1;
      assert names == names[..n] + [names[n]];
      WithoutAbsent(names[..n], s);
    }
  }

  lemma WithoutLast(names: seq<string>, s: string)
    requires s !in names
    ensures Without(names + [s], s) == names
  {
    assert (names + [s])[..|names|] == names;
    WithoutAbsent(names, s);
  }

  ghost predicate Unknown(rules: seq<Rule>, secret: string) {
    forall i :: 0 <= i < |rules| && CoversSecrets(rules[i]) ==> secret !in rules[i].names
  }

  /** Granting a fresh name and taking it back restores every rule of an arbitrary Role. */
  lemma RevokeUndoesGrant(rules: seq<Rule>, secret: string)
    requires Unknown(rules, secret)
    ensures Revoke(Grant(rules, secret), secret) == rules
  {
    var i := SecretsRule(rules);
    var granted := Grant(rules, secret);
    forall j | 0 <= j < |rules| ensures RevokeIn(granted[j], secret) == rules[j] {
      if CoversSecrets(rules[j]) {
        if i == j { WithoutLast(rules[j].names, secret); } else { WithoutAbsent(rules[j].names, secret); }
      }
    }
    assert Revoke(granted, secret) == rules;
  }

  /** What filtering keeps: everything else, in order, and nothing twice that was there once. */
  lemma {:induction false} WithoutFacts(names: seq<string>, s: string)
    ensures forall x :: x in Without(names, s) <==> x in names && x != s
    ensures NoDup(names) ==> NoDup(Without(names, s))
  {
    if names != [] {
      var n := |names| - 1;
      assert names == names[..n] + [names[n]];
      WithoutFacts(names[..n], s);
      assert NoDup(names) ==> names[n] !in Without(names[..n], s);
    }
  }

  // ---- When a pass keeps the grants right -------------------------------------------------

  /** This version is about to be exposed. */
  predicate Exposes(c: Claim) {
    c.Cluster? && !c.meta.deleting && c.meta.finalizer && c.st.phase == AddonsReady
  }

  /** At that call the Role is read without failure, and it has a secrets rule. */
  predicate FindsRule(e: Env, k: Kube, ns: string, call: nat) {
    e.kube(call) == Ok && ns in k.roles && SecretsRule(k.roles[ns]) < |k.roles[ns]|
  }

  predicate Lists(k: Kube, key: Key) {
    ClusterPass.SecretOf(key) in Granted(k, key.ns)
  }

  /** Exposing does no harm: a read finds nothing, the name is listed already, its update of the Role is refused, the
      claim is Ready by now, or the update is answered and the status write takes effect. */
  predicate CarefulExposer(e: Env, w: World, key: Key, ver: nat) {
    var c0 := w.kube.calls;
    || e.kube(c0) != Ok || !FindsRule(e, w.kube, key.ns, c0 + 1) || Lists(w.kube, key)
    || e.kube(c0 + 2) == Refused
    || IsReady(w.kube.store, key)
    || (e.kube(c0 + 2) == Ok && Writes(e, w, key, ver, c0 + 3))
  }

  /** The finalizer's update of the Role takes effect. */
  predicate Revokes(e: Env, k: Kube, key: Key, c: Claim)
    requires c.Cluster?
  {
    c.st.kubeconfig != "" && e.kube(k.calls + 1) == Ok && key.ns in k.roles && e.kube(k.calls + 2) != Refused
  }

  /** Finalizing does no harm: the claim cannot be read; or its name leaves the Role if the claim goes, and, where all
      live Ready claims are to be listed, does not leave it while the claim stays and is Ready. */
  predicate CarefulRevoker(exact: bool, e: Env, w: World, key: Key, ver: nat, c: Claim)
    requires c.Cluster?
  {
    var removed := Writes(e, w, key, ver, RemovalCall(e, w.kube, key, c));
    || e.kube(w.kube.calls) != Ok
    || (&& (removed && Lists(w.kube, key) ==> Revokes(e, w.kube, key, c))
        && (exact && Revokes(e, w.kube, key, c) && !removed ==> !IsReady(w.kube.store, key)))
  }

  /** Told before the pass, from the version it will see and the fate of its calls. */
  predicate Tidy(exact: bool, e: Env, w: World, key: Key, ver: nat) {
    var c := Seen(w.kube.store, key, ver);
    c.Some? && c.value.Cluster? ==>
      && (Exposes(c.value) ==> CarefulExposer(e, w, key, ver))
      && (c.value.meta.deleting ==> CarefulRevoker(exact, e, w, key, ver, c.value))
  }

  // ---- What each kind of step does to the grants ------------------------------------------

  ghost predicate AllRight(exact: bool, w: World) {
    && Typed(w.kube.store)
    && forall ns :: GrantsRight(exact, w, ns)
  }

  lemma DiscreetKeeps(exact: bool, w: World, f: Flow, key: Key)
    requires AllRight(exact, w) && Discreet(w, f, key) && SoundSecrets(w) && SoundSecrets(f.w)
    ensures AllRight(exact, f.w)
  {
    var s, s' := w.kube.store, f.w.kube.store;
    forall k ensures IsReady(s', k) == IsReady(s, k) && TypedKey(s', k) {
      assert TypedKey(s, k);
    }
    forall ns ensures GrantsRight(exact, f.w, ns) {
      assert GrantsRight(exact, w, ns);
      forall x | x in Granted(f.w.kube, ns) ensures SomeEntitled(s', ns, x) {
        var k: Key :| k.ns == ns && Entitled(s, k, x);
        assert SoundSecret(w, k) && SoundSecret(f.w, k);
        assert Entitled(s', k, x);
      }
      forall k: Key | exact && k.ns == ns ensures Covered(f.w, k) {
        assert Covered(w, k);
      }
    }
  }

  /** A Ready claim's secret is the one named after it, and it has its finalizer. */
  ghost predicate SoundSecrets(w: World) {
    forall key :: SoundSecret(w, key)
  }

  predicate SoundSecret(w: World, key: Key) {
    IsReady(w.kube.store, key) ==>
      var c := Current(w.kube.store, key).value;
      c.st.kubeconfig == ClusterPass.SecretOf(key) && c.meta.finalizer
  }

  lemma SaneSecrets(w: World)
    requires Sane(w)
    ensures SoundSecrets(w)
  {
    hide PhaseStep, ForwardCluster, ForwardServer;
    forall key ensures SoundSecret(w, key) {
      assert SaneKey(w, key);
    }
  }

  /** Between the worlds only the names listed in one namespace have changed, and one claim was written or not. */
  ghost predicate Became(w: World, w': World, key: Key, names: seq<string>, written: bool, v: Option<Claim>) {
    && w'.kube.store == (if written then Append(w.kube.store, key, v) else w.kube.store)
    && (forall ns :: ns != key.ns ==> Granted(w'.kube, ns) == Granted(w.kube, ns))
    && Granted(w'.kube, key.ns) == names
  }

  /** What writing the extended Role grants, where there is a rule to extend. */
  lemma Granting(k: Kube, ns: string, secret: string)
    requires ns in k.roles
    ensures var i, rules := SecretsRule(k.roles[ns]), k.roles[ns];
            && Granted(k, ns) == (if i < |rules| then rules[i].names else [])
            && (i < |rules| && secret !in rules[i].names ==>
                  Granted(k.(roles := k.roles[ns := Grant(rules, secret)]), ns) == Granted(k, ns) + [secret])
  {
    GrantKeepsPlace(k.roles[ns], secret);
  }

  lemma Revoking(k: Kube, ns: string, secret: string)
    requires ns in k.roles
    ensures Granted(k.(roles := k.roles[ns := Revoke(k.roles[ns], secret)]), ns) == Without(Granted(k, ns), secret)
  {
    SamePlace(Revoke(k.roles[ns], secret), k.roles[ns]);
  }

  function Exposed(key: Key, c: Claim): Claim
    requires c.Cluster?
  {
    c.(st := c.st.(phase := Ready, kubeconfig := ClusterPass.SecretOf(key)))
  }

  /** Exposing, call by call. */
  lemma ExposeOutcome(e: Env, w: World, key: Key, ver: nat, c: Claim)
    requires Seen(w.kube.store, key, ver) == Some(c) && Exposes(c) && e.kube(w.kube.calls) == Ok
    ensures var c0, names := w.kube.calls, Granted(w.kube, key.ns);
            var finds, listed := FindsRule(e, w.kube, key.ns, c0 + 1), Lists(w.kube, key);
            Became(w, Next(e, w, Pass(key, ver)), key,
                   if finds && !listed && e.kube(c0 + 2) != Refused then names + [ClusterPass.SecretOf(key)] else names,
                   finds && if listed then Writes(e, w, key, ver, c0 + 2) else e.kube(c0 + 2) == Ok && Writes(e, w, key, ver, c0 + 3),
                   Some(Exposed(key, c)))
  {
    hide Grant, SecretsRule, ClusterPass.SecretOf, Granted, WriteClaim, PutRole;
    var secret, c0 := ClusterPass.SecretOf(key), w.kube.calls;
    var w1 := w.(kube := ReadClaim(e, w.kube, key, ver).k);
    var w' := Next(e, w, Pass(key, ver));
    assert w' == ClusterPass.ExposeKubeconfig(e, w1, key, ver, c).w;
    var k2 := w1.kube.(calls := c0 + 2);
    SameRoles(w.kube, k2);
    WriteOutcome(e, k2, key, ver, Some(Exposed(key, c)));
    if key.ns in w.kube.roles {
      Granting(w.kube, key.ns, secret);
      var d := PutRole(e, k2, key.ns, Grant(w.kube.roles[key.ns], secret));
      PutOutcome(e, k2, key.ns, Grant(w.kube.roles[key.ns], secret));
      SameRoles(w.kube.(roles := w.kube.roles[key.ns := Grant(w.kube.roles[key.ns], secret)]), d.k);
      OtherRoles(w.kube, d.k, key.ns);
      SameRoles(d.k, w'.kube);
      WriteOutcome(e, d.k, key, ver, Some(Exposed(key, c)));
    }
    SameRoles(w.kube, w'.kube);
  }

  lemma SameRoles(k: Kube, k': Kube)
    ensures k'.roles == k.roles ==> forall ns :: Granted(k', ns) == Granted(k, ns)
  {
    hide SecretsRule;
  }

  lemma OtherRoles(k: Kube, k': Kube, ns: string)
    ensures ns in k'.roles && k'.roles == k.roles[ns := k'.roles[ns]] ==> forall o :: o != ns ==> Granted(k', o) == Granted(k, o)
    ensures k'.roles == k.roles ==> forall o :: Granted(k', o) == Granted(k, o)
  {
    hide SecretsRule;
  }

  lemma PutOutcome(e: Env, k: Kube, ns: string, rules: seq<Rule>)
    ensures var d := PutRole(e, k, ns, rules);
            && d.k == k.(roles := if e.kube(k.calls) != Refused then k.roles[ns := rules] else k.roles, calls := k.calls + 1)
            && (d.ok <==> e.kube(k.calls) == Ok)
  {
  }

  /** What the finalizer leaves of the names. */
  lemma RevokeOutcome(e: Env, w: World, key: Key, ver: nat, c: Claim)
    requires Seen(w.kube.store, key, ver) == Some(c) && c.Cluster? && e.kube(w.kube.calls) == Ok
    ensures var k1 := ClusterPass.RevokeKubeconfig(e, w.kube.(calls := w.kube.calls + 1), key, c.st.kubeconfig);
            && k1.store == w.kube.store && k1.calls == RemovalCall(e, w.kube, key, c)
            && Became(w, w.(kube := k1), key,
                      if Revokes(e, w.kube, key, c) then Without(Granted(w.kube, key.ns), c.st.kubeconfig) else Granted(w.kube, key.ns),
                      false, None)
  {
    hide Revoke, SecretsRule, Without, Granted, PutRole;
    var k := w.kube;
    var k1 := ClusterPass.RevokeKubeconfig(e, k.(calls := k.calls + 1), key, c.st.kubeconfig);
    if key.ns in k.roles {
      var rules := Revoke(k.roles[key.ns], c.st.kubeconfig);
      Revoking(k, key.ns, c.st.kubeconfig);
      PutOutcome(e, k.(calls := k.calls + 2), key.ns, rules);
      SameRoles(k.(roles := k.roles[key.ns := rules]), k1);
    }
    OtherRoles(k, k1, key.ns);
  }

  /** Finalizing, call by call. */
  lemma FinalizeOutcome(e: Env, w: World, key: Key, ver: nat, c: Claim)
    requires Seen(w.kube.store, key, ver) == Some(c) && c.Cluster? && c.meta.deleting && e.kube(w.kube.calls) == Ok
    ensures var names := Granted(w.kube, key.ns);
            Became(w, Next(e, w, Pass(key, ver)), key,
                   if Revokes(e, w.kube, key, c) then Without(names, c.st.kubeconfig) else names,
                   Writes(e, w, key, ver, RemovalCall(e, w.kube, key, c)), None)
  {
    hide ReleaseIPs, ReleaseEach, Without, Granted, WriteClaim, RemovalCall, Revokes, ClusterPass.RevokeKubeconfig;
    var w1, w' := w.(kube := ReadClaim(e, w.kube, key, ver).k), Next(e, w, Pass(key, ver));
    assert w' == ClusterPass.Finalize(e, w1, key, ver, c).w;
    RevokeOutcome(e, w, key, ver, c);
    var k1 := ClusterPass.RevokeKubeconfig(e, w1.kube, key, c.st.kubeconfig);
    WriteOutcome(e, k1, key, ver, None);
    SameRoles(k1, w'.kube);
  }

  /** Every claim but one is as entitled as it was. */
  lemma OthersEntitled(s: Store, key: Key, v: Option<Claim>, k: Key, x: string)
    requires k != key
    ensures Entitled(Append(s, key, v), k, x) == Entitled(s, k, x)
  {
    HeldAfter(s, key, v);
  }

  /** Nobody but the claim itself can be entitled to its secret. */
  lemma OnlyOwner(w: World, key: Key, k: Key)
    requires Typed(w.kube.store) && SoundSecrets(w) && key.kind == ClusterKind
    requires k.ns == key.ns && Entitled(w.kube.store, k, ClusterPass.SecretOf(key))
    ensures k == key
  {
    assert TypedKey(w.kube.store, k) && SoundSecret(w, k);
    SecretInjective(k, key);
  }

  lemma SeenKind(s: Store, key: Key, ver: nat)
    requires Typed(s) && Seen(s, key, ver).Some? && Seen(s, key, ver).value.Cluster?
    ensures key.kind == ClusterKind
  {
    assert TypedKey(s, key);
  }

  lemma AppendTyped(s: Store, key: Key, v: Option<Claim>)
    requires Typed(s) && (v.Some? ==> (v.value.Cluster? <==> key.kind == ClusterKind))
    ensures Typed(Append(s, key, v))
  {
    HeldAfter(s, key, v);
    forall k ensures TypedKey(Append(s, key, v), k) { assert TypedKey(s, k); }
  }

  lemma SameGrants(exact: bool, w: World, w': World)
    requires AllRight(exact, w) && w'.kube.store == w.kube.store && forall ns :: Granted(w'.kube, ns) == Granted(w.kube, ns)
    ensures AllRight(exact, w')
  {
    hide Granted;
    forall ns ensures GrantsRight(exact, w', ns) {
      assert GrantsRight(exact, w, ns);
      forall k: Key | exact && k.ns == ns ensures Covered(w', k) { assert Covered(w, k); }
    }
  }

  /** The claim becomes Ready as its name is listed. */
  lemma ExposedKeeps(exact: bool, w: World, w': World, key: Key, c: Claim)
    requires AllRight(exact, w) && SoundSecrets(w) && Current(w.kube.store, key) == Some(c) && Exposes(c)
    requires var secret, names := ClusterPass.SecretOf(key), Granted(w.kube, key.ns);
             Became(w, w', key, if secret in names then names else names + [secret], true, Some(Exposed(key, c)))
    ensures AllRight(exact, w')
  {
    hide Granted, TypedKey;
    var s, s' := w.kube.store, w'.kube.store;
    HeldAfter(s, key, Some(Exposed(key, c)));
    CurrentKind(s, key);
    AppendTyped(s, key, Some(Exposed(key, c)));
    forall ns ensures GrantsRight(exact, w', ns) {
      assert GrantsRight(exact, w, ns);
      forall x | x in Granted(w'.kube, ns) ensures SomeEntitled(s', ns, x) {
        if x in Granted(w.kube, ns) {
          var k: Key :| k.ns == ns && Entitled(s, k, x);
          assert k != key;
          OthersEntitled(s, key, Some(Exposed(key, c)), k, x);
        } else {
          assert Entitled(s', key, x);
        }
      }
      forall k: Key | exact && k.ns == ns ensures Covered(w', k) {
        assert Covered(w, k);
      }
    }
  }

  lemma CurrentKind(s: Store, key: Key)
    requires Typed(s) && Current(s, key).Some?
    ensures Current(s, key).value.Cluster? <==> key.kind == ClusterKind
  {
    assert TypedKey(s, key);
  }

  /** A name is listed and nothing written: right exactly when the claim is Ready by now. */
  lemma ListedExactly(exact: bool, w: World, w': World, key: Key, v: Option<Claim>)
    requires AllRight(exact, w) && SoundSecrets(w) && key.kind == ClusterKind && !Lists(w.kube, key)
    requires Became(w, w', key, Granted(w.kube, key.ns) + [ClusterPass.SecretOf(key)], false, v)
    ensures AllRight(exact, w') <==> IsReady(w.kube.store, key)
  {
    hide Granted, TypedKey;
    var s, secret := w.kube.store, ClusterPass.SecretOf(key);
    if IsReady(s, key) {
      assert SoundSecret(w, key);
      forall ns ensures GrantsRight(exact, w', ns) {
        assert GrantsRight(exact, w, ns);
        forall x | x in Granted(w'.kube, ns) ensures SomeEntitled(s, ns, x) {
          if x !in Granted(w.kube, ns) { assert Entitled(s, key, x); }
        }
        forall k: Key | exact && k.ns == ns ensures Covered(w', k) { assert Covered(w, k); }
      }
    } else {
      assert secret in Granted(w'.kube, key.ns);
      assert !SomeEntitled(s, key.ns, secret) by {
        forall k: Key | k.ns == key.ns && Entitled(s, k, secret) ensures k == key { OnlyOwner(w, key, k); }
      }
      assert !GrantsRight(exact, w', key.ns);
    }
  }

  /** The claim is gone: the grants are right exactly when its name is not listed any more. */
  lemma GoneExactly(exact: bool, w: World, w': World, key: Key, c: Claim, names: seq<string>)
    requires AllRight(exact, w) && SoundSecrets(w) && Current(w.kube.store, key) == Some(c) && c.Cluster?
    requires names == Granted(w.kube, key.ns) || names == Without(Granted(w.kube, key.ns), ClusterPass.SecretOf(key))
    requires Became(w, w', key, names, true, None)
    ensures AllRight(exact, w') <==> ClusterPass.SecretOf(key) !in names
  {
    hide Granted, Without, TypedKey;
    var s, s', secret := w.kube.store, w'.kube.store, ClusterPass.SecretOf(key);
    HeldAfter(s, key, None);
    CurrentKind(s, key);
    AppendTyped(s, key, None);
    if secret in names {
      assert !SomeEntitled(s', key.ns, secret) by {
        forall k: Key | k.ns == key.ns && Entitled(s', k, secret) ensures false {
          OthersEntitled(s, key, None, k, secret);
          OnlyOwner(w, key, k);
        }
      }
      assert !GrantsRight(exact, w', key.ns);
    } else {
      WithoutFacts(Granted(w.kube, key.ns), secret);
      assert GrantsRight(exact, w, key.ns);
      forall ns ensures GrantsRight(exact, w', ns) {
        assert GrantsRight(exact, w, ns);
        GoneNames(w, w', key, names, ns);
        forall k: Key | exact && k.ns == ns ensures Covered(w', k) { GoneCovers(w, w', key, names, k); }
      }
    }
  }

  lemma GoneNames(w: World, w': World, key: Key, names: seq<string>, ns: string)
    requires GrantsRight(false, w, ns) && SoundSecrets(w) && Became(w, w', key, names, true, None)
    requires ClusterPass.SecretOf(key) !in names
    requires NoDup(names) && forall x :: x in names ==> x in Granted(w.kube, key.ns)
    ensures NoDup(Granted(w'.kube, ns)) && forall x :: x in Granted(w'.kube, ns) ==> SomeEntitled(w'.kube.store, ns, x)
  {
    hide Granted, ClusterPass.SecretOf;
    forall x | x in Granted(w'.kube, ns) ensures SomeEntitled(w'.kube.store, ns, x) {
      var k: Key :| k.ns == ns && Entitled(w.kube.store, k, x);
      assert SoundSecret(w, k) && k != key;
      OthersEntitled(w.kube.store, key, None, k, x);
    }
  }

  lemma GoneCovers(w: World, w': World, key: Key, names: seq<string>, k: Key)
    requires Typed(w.kube.store) && key.kind == ClusterKind && Covered(w, k) && Became(w, w', key, names, true, None)
    requires names == Granted(w.kube, key.ns) || names == Without(Granted(w.kube, key.ns), ClusterPass.SecretOf(key))
    ensures Covered(w', k)
  {
    hide Granted, Without;
    HeldAfter(w.kube.store, key, None);
    if k != key { StillListed(w, key, k, names); }
  }

  /** Taking one name away leaves those of the other Ready claims. */
  lemma StillListed(w: World, key: Key, k: Key, names: seq<string>)
    requires Typed(w.kube.store) && key.kind == ClusterKind && k != key
    requires names == Granted(w.kube, key.ns) || names == Without(Granted(w.kube, key.ns), ClusterPass.SecretOf(key))
    ensures IsReady(w.kube.store, k) && k.ns == key.ns && Lists(w.kube, k) ==> ClusterPass.SecretOf(k) in names
  {
    hide Granted, Without, ClusterPass.SecretOf;
    WithoutFacts(Granted(w.kube, key.ns), ClusterPass.SecretOf(key));
    if IsReady(w.kube.store, k) && k.ns == key.ns && ClusterPass.SecretOf(k) == ClusterPass.SecretOf(key) {
      CurrentKind(w.kube.store, k);
      SecretInjective(k, key);
    }
  }

  /** The name is taken away and the claim stays: right unless all Ready claims are to be listed and it is one. */
  lemma RevokedExactly(exact: bool, w: World, w': World, key: Key, v: Option<Claim>)
    requires AllRight(exact, w) && SoundSecrets(w) && key.kind == ClusterKind
    requires Became(w, w', key, Without(Granted(w.kube, key.ns), ClusterPass.SecretOf(key)), false, v)
    ensures AllRight(exact, w') <==> !(exact && IsReady(w.kube.store, key))
  {
    hide Granted, Without, TypedKey, ClusterPass.SecretOf;
    var names := Granted(w.kube, key.ns);
    WithoutFacts(names, ClusterPass.SecretOf(key));
    if exact && IsReady(w.kube.store, key) {
      assert !Covered(w', key);
      assert !GrantsRight(exact, w', key.ns);
    } else {
      forall ns ensures GrantsRight(exact, w', ns) {
        assert GrantsRight(exact, w, ns);
        forall k: Key | exact && k.ns == ns ensures Covered(w', k) {
          assert Covered(w, k);
          if k != key { StillListed(w, key, k, Without(names, ClusterPass.SecretOf(key))); }
        }
      }
    }
  }

  // ---- The pass ---------------------------------------------------------------------------

  /** An exposing pass, from any version and whatever happens to its calls, keeps the grants right exactly when it
      is careful: otherwise its name is listed while the claim is not Ready. */
  lemma ExposeExactly(exact: bool, e: Env, w: World, key: Key, ver: nat, c: Claim)
    requires AllRight(exact, w) && SoundSecrets(w) && Seen(w.kube.store, key, ver) == Some(c) && Exposes(c)
    ensures AllRight(exact, Next(e, w, Pass(key, ver))) <==> CarefulExposer(e, w, key, ver)
  {
    hide AllRight, SoundSecrets, Next, Granted, FindsRule, IsReady, ClusterPass.SecretOf;
    var c0, w' := w.kube.calls, Next(e, w, Pass(key, ver));
    if e.kube(c0) != Ok {
      UnreadSame(e, w, key, ver);
      SameGrants(exact, w, w');
    } else {
      ExposeOutcome(e, w, key, ver, c);
      RightTyped(exact, w);
      SeenKind(w.kube.store, key, ver);
      var lists := FindsRule(e, w.kube, key.ns, c0 + 1) && !Lists(w.kube, key) && e.kube(c0 + 2) != Refused;
      if w'.kube.store != w.kube.store {
        AppendedNow(w.kube.store, key, ver, c);
        ExposedKeeps(exact, w, w', key, c);
      } else if lists {
        NotAppended(w.kube.store, key, Some(Exposed(key, c)));
        ListedExactly(exact, w, w', key, Some(Exposed(key, c)));
      } else {
        SameGrants(exact, w, w');
      }
    }
  }

  lemma RightTyped(exact: bool, w: World)
    requires AllRight(exact, w)
    ensures Typed(w.kube.store)
  {
  }

  lemma UnreadSame(e: Env, w: World, key: Key, ver: nat)
    requires e.kube(w.kube.calls) != Ok
    ensures var w' := Next(e, w, Pass(key, ver)); w'.kube.store == w.kube.store && forall ns :: Granted(w'.kube, ns) == Granted(w.kube, ns)
  {
    hide Step, SecretsRule;
  }

  lemma AppendedNow(s: Store, key: Key, ver: nat, c: Claim)
    requires Seen(s, key, ver) == Some(c)
    ensures IsCurrent(s, key, ver) ==> Current(s, key) == Some(c)
  {
  }

  lemma NotAppended(s: Store, key: Key, v: Option<Claim>)
    ensures Append(s, key, v) != s
  {
    HeldAfter(s, key, v);
  }

  /** A finalizing pass keeps them right exactly when it is careful: its errors are ignored, so a name may outlive its
      claim; and one whose removal fails leaves a claim without its name. */
  lemma FinalizeExactly(exact: bool, e: Env, w: World, key: Key, ver: nat, c: Claim)
    requires AllRight(exact, w) && SoundSecrets(w) && Seen(w.kube.store, key, ver) == Some(c) && c.Cluster? && c.meta.deleting
    requires Sound(key, c)
    ensures AllRight(exact, Next(e, w, Pass(key, ver))) <==> CarefulRevoker(exact, e, w, key, ver, c)
  {
    hide AllRight, SoundSecrets, Next, Granted, Without, IsReady, ClusterPass.SecretOf, RemovalCall;
    var w' := Next(e, w, Pass(key, ver));
    if e.kube(w.kube.calls) != Ok {
      UnreadSame(e, w, key, ver);
      SameGrants(exact, w, w');
    } else {
      FinalizeOutcome(e, w, key, ver, c);
      RightTyped(exact, w);
      SeenKind(w.kube.store, key, ver);
      SecretOrNone(key, c);
      NotAppended(w.kube.store, key, None);
      AppendedNow(w.kube.store, key, ver, c);
      var names, secret := Granted(w.kube, key.ns), ClusterPass.SecretOf(key);
      WithoutFacts(names, secret);
      if Writes(e, w, key, ver, RemovalCall(e, w.kube, key, c)) {
        GoneExactly(exact, w, w', key, c, if Revokes(e, w.kube, key, c) then Without(names, secret) else names);
      } else if Revokes(e, w.kube, key, c) {
        RevokedExactly(exact, w, w', key, None);
      } else {
        SameGrants(exact, w, w');
      }
    }
  }

  lemma SecretOrNone(key: Key, c: Claim)
    requires c.Cluster? && Sound(key, c)
    ensures c.st.kubeconfig == "" || c.st.kubeconfig == ClusterPass.SecretOf(key)
  {
  }

  lemma TidyKeepsExactly(exact: bool, e: Env, w: World, key: Key, ver: nat)
    requires AllRight(exact, w) && Sane(w) && AddressesNonempty(e) && TenantSlug(key.ns) != ""
    ensures AllRight(exact, Next(e, w, Pass(key, ver))) <==> Tidy(exact, e, w, key, ver)
  {
    hide AllRight, Sane, Sound, Next, CarefulExposer, CarefulRevoker, TenantSlug;
    var seen, w' := Seen(w.kube.store, key, ver), Next(e, w, Pass(key, ver));
    SaneSecrets(w);
    if seen.Some? { SeenSound(w, key, ver); }
    if seen.Some? && seen.value.Cluster? && Exposes(seen.value) {
      ExposeExactly(exact, e, w, key, ver, seen.value);
    } else if seen.Some? && seen.value.Cluster? && seen.value.meta.deleting {
      FinalizeExactly(exact, e, w, key, ver, seen.value);
    } else {
      NextSane(e, w, Pass(key, ver));
      SaneSecrets(w');
      PassDiscreet(exact, e, w, key, ver);
      DiscreetKeeps(exact, w, Stop(w', Finished), key);
    }
  }

  /** A pass that neither exposes nor finalizes a cluster claim. */
  lemma PassDiscreet(exact: bool, e: Env, w: World, key: Key, ver: nat)
    requires AllRight(exact, w) && SoundSecrets(w)
    requires var c := Seen(w.kube.store, key, ver);
             c.Some? ==> Sound(key, c.value) && (c.value.Cluster? ==> !Exposes(c.value) && !c.value.meta.deleting)
    ensures Discreet(w, Stop(Next(e, w, Pass(key, ver)), Finished), key)
  {
    hide AllRight, ClusterPass.Step, ServerPass.Step;
    var c := Seen(w.kube.store, key, ver);
    var w1 := w.(kube := ReadClaim(e, w.kube, key, ver).k);
    if c.Some? && e.kube(w.kube.calls) == Ok {
      RightTyped(exact, w);
      StandingNow(w1.kube.store, key, ver, c.value);
      ReadyGuarded(w, w1, key);
      StepDiscreet(e, w1, key, ver, c.value);
    }
  }

  lemma ReadyGuarded(w: World, w1: World, key: Key)
    requires SoundSecrets(w) && w1.kube.store == w.kube.store
    ensures IsReady(w1.kube.store, key) ==> Current(w1.kube.store, key).value.meta.finalizer
  {
    assert SoundSecret(w, key);
  }

  lemma StandingNow(s: Store, key: Key, ver: nat, c: Claim)
    requires Seen(s, key, ver) == Some(c) && Typed(s)
    ensures IsCurrent(s, key, ver) ==> Standing(s, key, c)
    ensures SameKind(s, s, key)
  {
    assert TypedKey(s, key);
  }

  lemma StepDiscreet(e: Env, w: World, key: Key, ver: nat, c: Claim)
    requires Discreet(w, Go(w, ver, c), key) && Sound(key, c) && Seen(w.kube.store, key, ver) == Some(c)
    requires c.Cluster? ==> !Exposes(c) && !c.meta.deleting
    requires IsReady(w.kube.store, key) ==> Current(w.kube.store, key).value.meta.finalizer
    ensures Discreet(w, Step(e, w, key, ver, c), key)
  {
    hide SameKind, Standing, ClusterPass.Step, ServerPass.Step;
    if c.Cluster? {
      ClusterStepDiscreet(e, w, key, ver, c);
    } else if c.meta.deleting {
      assert Step(e, w, key, ver, c) == ServerPass.Step(e, w, key, ver, c);
      ServerFinalizeDiscreet(e, w, key, ver, c);
    } else {
      ServerStepDiscreet(w, e, w, key, ver, c);
    }
  }

  lemma ServerFinalizeDiscreet(e: Env, w: World, key: Key, ver: nat, c: Claim)
    requires c.Server? && c.meta.deleting && Seen(w.kube.store, key, ver) == Some(c)
    ensures Discreet(w, ServerPass.Step(e, w, key, ver, c), key)
  {
    hide ReleaseIPs, ReleaseEach;
    HeldAfter(w.kube.store, key, None);
  }

  // ---- Runs -------------------------------------------------------------------------------

  /** The Role as the tenant synchronisation writes it. */
  const TENANT_ROLE: seq<Rule> :=
    [Rule(["portal.smeltry.io"], ["clusterclaims", "serverclaims"], ["get", "list", "create", "delete"], []),
     Rule([""], ["secrets"], ["get"], []),
     Rule(["portal.smeltry.io"], ["addonprofiles", "siteconfigs"], ["get", "list"], [])]

  /** Between two worlds the Role of ns stayed, or the tenant synchronisation wrote it, which in an exact run
      happens only while no claim of that namespace is Ready. */
  ghost predicate RoleAllowed(exact: bool, w: World, roles: map<string, seq<Rule>>, ns: string) {
    || (ns in roles && ns in w.kube.roles && roles[ns] == w.kube.roles[ns])
    || (ns !in roles && ns !in w.kube.roles)
    || (ns in roles && roles[ns] == TENANT_ROLE && (exact ==> NobodyReady(w.kube.store, ns)))
  }

  ghost predicate NobodyReady(s: Store, ns: string) {
    forall key: Key :: key.ns == ns ==> !IsReady(s, key)
  }

  /** What a run may bring: passes in tenant namespaces that are tidy, whatever version they see and whatever else
      fails; and Roles overwritten by the tenant synchronisation. */
  ghost predicate GrantEvent(exact: bool, e: Env, w: World, ev: Event) {
    match ev
    case Pass(key, ver) => TenantSlug(key.ns) != "" && Tidy(exact, e, w, key, ver)
    case Change(o) => forall ns :: RoleAllowed(exact, w, o.roles, ns)
    case _ => true
  }

  ghost predicate GrantRun(exact: bool, e: Env, r: Run)
    requires |r.worlds| == |r.events| + 1
  {
    forall n: nat :: n < |r.events| ==> GrantEvent(exact, e, r.worlds[n], r.events[n])
  }

  /** A Role as the tenant synchronisation writes it, with some names in its secrets rule. */
  function RoleListing(names: seq<string>): seq<Rule> {
    TENANT_ROLE[1 := TENANT_ROLE[1].(names := names)]
  }

  lemma ListingRule(names: seq<string>)
    ensures |RoleListing(names)| == 3 && SecretsRule(RoleListing(names)) == 1
    ensures !CoversSecrets(RoleListing(names)[0]) && CoversSecrets(RoleListing(names)[1]) && !CoversSecrets(RoleListing(names)[2])
  {
    assert "clusterclaims"[0] == 'c' && "serverclaims"[2] == 'r' && "secrets"[0] == 's' && "secrets"[2] == 'c';
    assert "addonprofiles"[0] == 'a' && "siteconfigs"[1] == 'i' && "secrets"[1] == 'e';
  }

  /** The secrets rule that the tenant synchronisation writes lists no name, which restricts nothing: see Readable. */
  lemma TenantRoleListsNothing()
    ensures SecretsRule(TENANT_ROLE) == 1 && TENANT_ROLE[1].names == [] && TENANT_ROLE == RoleListing([])
  {
    ListingRule([]);
  }

  lemma ChangeKeeps(exact: bool, e: Env, w: World, ev: Event)
    requires AllRight(exact, w) && ev.Change? && GrantEvent(exact, e, w, ev)
    ensures AllRight(exact, Next(e, w, ev))
  {
    var w' := Next(e, w, ev);
    TenantRoleListsNothing();
    forall ns ensures GrantsRight(exact, w', ns) {
      assert GrantsRight(exact, w, ns) && RoleAllowed(exact, w, ev.outside.roles, ns);
      if Granted(w'.kube, ns) == Granted(w.kube, ns) {
        forall k: Key | exact && k.ns == ns ensures Covered(w', k) { assert Covered(w, k); }
      } else {
        assert Granted(w'.kube, ns) == [];
        forall k: Key | exact && k.ns == ns ensures Covered(w', k) { assert !IsReady(w.kube.store, k); }
      }
    }
  }

  lemma OtherEventsKeep(exact: bool, e: Env, w: World, ev: Event)
    requires AllRight(exact, w) && SoundSecrets(w) && SoundSecrets(Next(e, w, ev)) && !ev.Pass? && !ev.Change?
    requires forall c :: Current(w.kube.store, ev.key) == Some(c) ==> Sound(ev.key, c)
    ensures AllRight(exact, Next(e, w, ev))
  {
    hide AllRight, SoundSecrets;
    var w' := Next(e, w, ev);
    if w' == w {
    } else {
      RightTyped(exact, w);
      assert TypedKey(w.kube.store, ev.key);
      HeldAfter(w.kube.store, ev.key, Current(w'.kube.store, ev.key));
      DiscreetKeeps(exact, w, Stop(w', Finished), ev.key);
    }
  }

  /** In every run whose passes are tidy, whatever else fails, however old the versions they see, and whenever the
      tenant synchronisation overwrites a Role: no name is listed twice and every listed name is the kubeconfig of a
      live Ready claim of that namespace. When Roles are overwritten only while nobody there is Ready, every live
      Ready claim's secret is listed. */
  lemma {:induction false} GrantsAlwaysRight(exact: bool, e: Env, r: Run, n: nat, ns: string)
    requires IsRun(e, r) && Start(r.worlds[0]) && r.worlds[0].kube.roles == map[] && n < |r.worlds|
    requires AddressesNonempty(e) && GrantRun(exact, e, r)
    ensures GrantsRight(exact, r.worlds[n], ns)
  {
    AllGrantsRight(exact, e, r, n);
  }

  lemma {:induction false} AllGrantsRight(exact: bool, e: Env, r: Run, n: nat)
    requires IsRun(e, r) && Start(r.worlds[0]) && r.worlds[0].kube.roles == map[] && n < |r.worlds|
    requires AddressesNonempty(e) && GrantRun(exact, e, r)
    ensures AllRight(exact, r.worlds[n]) && Sane(r.worlds[n]) && AllListings(r.worlds[n].kube)
  {
    hide Next, Sane, AllRight, AllListings, GrantEvent;
    if n == 0 {
      StartRight(exact, r.worlds[0]);
    } else {
      AllGrantsRight(exact, e, r, n - 1);
      assert Linked(e, r, n - 1) && GrantEvent(exact, e, r.worlds[n - 1], r.events[n - 1]);
      GrantStep(exact, e, r.worlds[n - 1], r.events[n - 1]);
      ListingStep(exact, e, r.worlds[n - 1], r.events[n - 1]);
    }
  }

  lemma StartRight(exact: bool, w: World)
    requires Start(w) && w.kube.roles == map[]
    ensures AllRight(exact, w) && Sane(w) && AllListings(w.kube)
  {
    forall ns ensures GrantsRight(exact, w, ns) {
      forall k: Key | exact && k.ns == ns ensures Covered(w, k) {
      }
    }
  }

  lemma GrantStep(exact: bool, e: Env, w: World, ev: Event)
    requires AllRight(exact, w) && Sane(w) && AddressesNonempty(e) && GrantEvent(exact, e, w, ev)
    ensures AllRight(exact, Next(e, w, ev)) && Sane(Next(e, w, ev))
  {
    hide AllRight, Sane, Sound, Reconcile, TenantSlug, Tidy, RoleAllowed;
    NextSane(e, w, ev);
    SaneSecrets(w);
    SaneSecrets(Next(e, w, ev));
    if ev.Pass? {
      TidyKeepsExactly(exact, e, w, ev.key, ev.ver);
    } else if ev.Change? {
      ChangeKeeps(exact, e, w, ev);
    } else {
      forall c | Current(w.kube.store, ev.key) == Some(c) ensures Sound(ev.key, c) {
        SeenSound(w, ev.key, |HistoryOf(w.kube.store, ev.key)| - 1);
      }
      OtherEventsKeep(exact, e, w, ev);
    }
  }

  /** From a world where all is right, a pass of any run, from any version, keeps it so exactly when it is tidy. */
  lemma {:induction false} PassKeepsExactly(exact: bool, e: Env, r: Run, n: nat, key: Key, ver: nat)
    requires IsRun(e, r) && n < |r.events| && r.events[n] == Pass(key, ver) && TenantSlug(key.ns) != ""
    requires AllRight(exact, r.worlds[n]) && Sane(r.worlds[n]) && AddressesNonempty(e)
    ensures AllRight(exact, r.worlds[n + 1]) <==> Tidy(exact, e, r.worlds[n], key, ver)
  {
    hide AllRight, Sane, Next, Tidy;
    assert Linked(e, r, n);
    TidyKeepsExactly(exact, e, r.worlds[n], key, ver);
  }

  // ---- Who can read what ------------------------------------------------------------------

  /** Every Role is the tenant synchronisation's, but for the names in its secrets rule. */
  ghost predicate AllListings(k: Kube) {
    forall ns :: ns in k.roles ==> k.roles[ns] == RoleListing(Granted(k, ns))
  }

  lemma ListingGranted(k: Kube, ns: string, names: seq<string>)
    requires ns in k.roles && k.roles[ns] == RoleListing(names)
    ensures Granted(k, ns) == names
  {
    ListingRule(names);
  }

  lemma GrantListing(names: seq<string>, secret: string)
    ensures Grant(RoleListing(names), secret) == RoleListing(if secret in names then names else names + [secret])
    ensures Revoke(RoleListing(names), secret) == RoleListing(Without(names, secret))
  {
    ListingRule(names);
  }

  lemma PutListing(k: Kube, k': Kube, ns: string, names: seq<string>)
    requires AllListings(k) && k'.roles == k.roles[ns := RoleListing(names)]
    ensures AllListings(k')
  {
    ListingGranted(k', ns, names);
    hide RoleListing, SecretsRule;
  }

  lemma WriteRoles(e: Env)
    ensures forall k: Kube, key: Key, ver: nat, v: Option<Claim> :: WriteClaim(e, k, key, ver, v).k.roles == k.roles
  {
  }

  lemma ExposeListing(e: Env, w: World, key: Key, ver: nat, c: Claim)
    requires c.Cluster? && AllListings(w.kube)
    ensures AllListings(ClusterPass.ExposeKubeconfig(e, w, key, ver, c).w.kube)
  {
    hide AllListings, SecretsRule, Grant, RoleListing, ClusterPass.SecretOf, WriteClaim;
    WriteRoles(e);
    var w' := ClusterPass.ExposeKubeconfig(e, w, key, ver, c).w;
    SameListings(w.kube, w'.kube);
    if w'.kube.roles != w.kube.roles {
      var names := Granted(w.kube, key.ns);
      ListingOf(w.kube, key.ns);
      GrantListing(names, ClusterPass.SecretOf(key));
      PutListing(w.kube, w'.kube, key.ns, if ClusterPass.SecretOf(key) in names then names else names + [ClusterPass.SecretOf(key)]);
    }
  }

  lemma ListingOf(k: Kube, ns: string)
    requires AllListings(k) && ns in k.roles
    ensures k.roles[ns] == RoleListing(Granted(k, ns))
  {
  }

  lemma SameListings(k: Kube, k': Kube)
    ensures AllListings(k) && k'.roles == k.roles ==> AllListings(k')
  {
    hide RoleListing, SecretsRule;
  }

  lemma FinalizeListing(e: Env, w: World, key: Key, ver: nat, c: Claim)
    requires c.Cluster? && AllListings(w.kube)
    ensures AllListings(ClusterPass.Finalize(e, w, key, ver, c).w.kube)
  {
    hide AllListings, SecretsRule, Revoke, RoleListing, ReleaseIPs, ReleaseEach;
    var w' := ClusterPass.Finalize(e, w, key, ver, c).w;
    SameListings(w.kube, w'.kube);
    if w'.kube.roles != w.kube.roles {
      ListingOf(w.kube, key.ns);
      GrantListing(Granted(w.kube, key.ns), c.st.kubeconfig);
      PutListing(w.kube, w'.kube, key.ns, Without(Granted(w.kube, key.ns), c.st.kubeconfig));
    }
  }

  lemma PassListing(exact: bool, e: Env, w: World, key: Key, ver: nat)
    requires AllRight(exact, w) && Sane(w) && AllListings(w.kube)
    ensures AllListings(Next(e, w, Pass(key, ver)).kube)
  {
    hide AllRight, Sane, Sound, AllListings, ClusterPass.Finalize, ClusterPass.ExposeKubeconfig, ClusterPass.Validate,
      ClusterPass.Provision, ClusterPass.WatchAddons, ClusterPass.SteadyState, ServerPass.Step, Passes.SaveAndStop, Discreet;
    var seen, got := Seen(w.kube.store, key, ver), ReadClaim(e, w.kube, key, ver);
    var w1, w' := w.(kube := got.k), Next(e, w, Pass(key, ver));
    SaneSecrets(w);
    SameListings(w.kube, w1.kube);
    if seen.Some? { SeenSound(w, key, ver); }
    if seen.Some? && seen.value.Cluster? && (seen.value.meta.deleting || Exposes(seen.value)) {
      if got.read.Found? {
        if seen.value.meta.deleting {
          FinalizeListing(e, w1, key, ver, seen.value);
        } else {
          ExposeListing(e, w1, key, ver, seen.value);
        }
      }
    } else {
      PassDiscreet(exact, e, w, key, ver);
      DiscreetRoles(w, w', key);
      SameListings(w.kube, w'.kube);
    }
  }

  lemma DiscreetRoles(w: World, w': World, key: Key)
    requires Discreet(w, Stop(w', Finished), key)
    ensures w'.kube.roles == w.kube.roles
  {
  }

  lemma ListingStep(exact: bool, e: Env, w: World, ev: Event)
    requires AllRight(exact, w) && Sane(w) && AllListings(w.kube) && GrantEvent(exact, e, w, ev)
    ensures AllListings(Next(e, w, ev).kube)
  {
    hide AllRight, Sane, Reconcile, Tidy, TenantSlug, RoleListing;
    var k' := Next(e, w, ev).kube;
    if ev.Pass? {
      PassListing(exact, e, w, ev.key, ev.ver);
    } else if ev.Change? {
      TenantRoleListsNothing();
      forall ns | ns in k'.roles ensures k'.roles[ns] == RoleListing(Granted(k', ns)) {
        assert RoleAllowed(exact, w, ev.outside.roles, ns);
        if k'.roles[ns] == TENANT_ROLE { ListingGranted(k', ns, []); }
      }
    } else {
      SameListings(w.kube, k');
    }
  }

  predicate Matches(xs: seq<string>, x: string) {
    x in xs || "*" in xs
  }

  /** A rule of Kubernetes RBAC lets its subjects do this; without resource names it speaks of every object. */
  predicate Lets(r: Rule, group: string, resource: string, verb: string, name: string) {
    Matches(r.apiGroups, group) && Matches(r.resources, resource) && Matches(r.verbs, verb) && (r.names == [] || name in r.names)
  }

  /** The users of a tenant can read this secret of its namespace. */
  predicate Readable(k: Kube, ns: string, secret: string) {
    ns in k.roles && exists i :: 0 <= i < |k.roles[ns]| && Lets(k.roles[ns][i], "", "secrets", "get", secret)
  }

  lemma ReadableListed(k: Kube, ns: string, secret: string)
    requires ns in k.roles && AllListings(k)
    ensures Readable(k, ns, secret) <==> Granted(k, ns) == [] || secret in Granted(k, ns)
  {
    var names := Granted(k, ns);
    ListingRule(names);
    var r := RoleListing(names);
    assert !Matches(r[0].resources, "secrets") && !Matches(r[2].resources, "secrets") by {
      assert |"*"| == 1 && |"clusterclaims"| == 13 && |"serverclaims"| == 12 && |"addonprofiles"| == 13 && |"siteconfigs"| == 11;
      assert "clusterclaims" != "*" && "serverclaims" != "*" && "addonprofiles" != "*" && "siteconfigs" != "*";
    }
    assert "secrets" in r[1].resources && "" in r[1].apiGroups && "get" in r[1].verbs;
    assert Lets(r[1], "", "secrets", "get", secret) <==> names == [] || secret in names;
    assert k.roles[ns] == r;
  }

  /** Who can read what, at every moment of every such run: exactly the listed secrets, or, when none is listed,
      every secret of the namespace. So only kubeconfigs of live Ready claims are readable if and only if at least
      one is listed; a fresh Role, and one whose last name was revoked, opens the whole namespace. */
  lemma {:induction false} ReadersExactly(e: Env, r: Run, n: nat, ns: string)
    requires IsRun(e, r) && Start(r.worlds[0]) && r.worlds[0].kube.roles == map[] && n < |r.worlds|
    requires AddressesNonempty(e) && GrantRun(false, e, r) && ns in r.worlds[n].kube.roles
    ensures OnlyEntitledRead(r.worlds[n], ns) <==> Granted(r.worlds[n].kube, ns) != []
    ensures forall x :: Readable(r.worlds[n].kube, ns, x) <==> Granted(r.worlds[n].kube, ns) == [] || x in Granted(r.worlds[n].kube, ns)
  {
    hide Granted, Readable, AllListings;
    AllGrantsRight(false, e, r, n);
    var w := r.worlds[n];
    SaneSecrets(w);
    assert GrantsRight(false, w, ns);
    forall x ensures Readable(w.kube, ns, x) <==> Granted(w.kube, ns) == [] || x in Granted(w.kube, ns) {
      ReadableListed(w.kube, ns, x);
    }
    if Granted(w.kube, ns) == [] {
      assert Readable(w.kube, ns, "");
      NobodysSecret(w, ns);
    }
  }

  ghost predicate OnlyEntitledRead(w: World, ns: string) {
    forall x :: Readable(w.kube, ns, x) ==> SomeEntitled(w.kube.store, ns, x)
  }

  lemma NobodysSecret(w: World, ns: string)
    requires SoundSecrets(w)
    ensures !SomeEntitled(w.kube.store, ns, "")
  {
    forall key: Key ensures !Entitled(w.kube.store, key, "") {
      assert SoundSecret(w, key);
    }
  }
}
