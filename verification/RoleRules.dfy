/** The tenant Role's secrets rule: the names the operator grants and revokes. */
module RoleRules {
  import opened ApiServer

  predicate CoversSecrets(r: Rule) {
    "secrets" in r.resources
  }

  /** The index of the first rule about secrets, or the length when there is none. */
  function SecretsRule(rules: seq<Rule>): (i: nat)
    ensures i <= |rules|
    ensures i < |rules| ==> CoversSecrets(rules[i])
    ensures forall j :: 0 <= j < i ==> !CoversSecrets(rules[j])
  {
    if rules == [] || CoversSecrets(rules[0]) then 0 else 1 + SecretsRule(rules[1..])
  }

  /** Add a secret name to the first secrets rule unless it is there already. */
  function Grant(rules: seq<Rule>, secret: string): seq<Rule> {
    var i := SecretsRule(rules);
    if i == |rules| || secret in rules[i].names then rules
    else rules[i := rules[i].(names := rules[i].names + [secret])]
  }

  function Without(names: seq<string>, s: string): seq<string> {
    if names == [] then []
    else
      var n := |names| - 1;
      Without(names[..n], s) + (if names[n] != s then [names[n]] else [])
  }

  function RevokeIn(r: Rule, secret: string): Rule {
    if CoversSecrets(r) then r.(names := Without(r.names, secret)) else r
  }

  /** Take a secret name out of every secrets rule. */
  function Revoke(rules: seq<Rule>, secret: string): (r: seq<Rule>)
    ensures |r| == |rules|
    ensures forall i :: 0 <= i < |rules| ==> r[i] == RevokeIn(rules[i], secret)
  {
    seq(|rules|, i requires 0 <= i < |rules| => RevokeIn(rules[i], secret))
  }

  /** Which rule is the secrets rule depends on the resources only. */
  lemma SamePlace(r: seq<Rule>, rules: seq<Rule>)
    requires |r| == |rules| && forall j :: 0 <= j < |r| ==> r[j].resources == rules[j].resources
    ensures SecretsRule(r) == SecretsRule(rules)
  {
    assert forall j :: 0 <= j < |r| ==> CoversSecrets(r[j]) == CoversSecrets(rules[j]);
  }

  lemma GrantKeepsPlace(rules: seq<Rule>, secret: string)
    ensures |Grant(rules, secret)| == |rules| && SecretsRule(Grant(rules, secret)) == SecretsRule(rules)
  {
    SamePlace(Grant(rules, secret), rules);
  }

  lemma RevokeKeepsPlace(rules: seq<Rule>, secret: string)
    ensures |Revoke(rules, secret)| == |rules| && SecretsRule(Revoke(rules, secret)) == SecretsRule(rules)
  {
    SamePlace(Revoke(rules, secret), rules);
  }
}
