/** The string helpers the reconcilers use to build names, plus the decimal rendering of an ID. */
module Text {

  /** The tenant slug of a namespace "tenant-<slug>": the text without that prefix. */
  function TenantSlug(ns: string): (slug: string)
    ensures slug == ns || "tenant-" + slug == ns
    ensures slug == "" <==> ns == "tenant-" || ns == ""
    ensures "tenant-" <= ns ==> ns == "tenant-" + slug
  {
    if |ns| >= 7 && ns[..7] == "tenant-" then
      assert ns == ns[..7] + ns[7..];
      ns[7..]
    else ns
  }

  /** The address part of a CIDR text: everything before the first '/'. */
  function StripPrefix(cidr: string): (ip: string)
    ensures ip <= cidr && '/' !in ip
    ensures ip == cidr || cidr[|ip|] == '/'
  {
    if cidr == "" || cidr[0] == '/' then "" else [cidr[0]] + StripPrefix(cidr[1..])
  }

  function Digits(n: nat): (s: string)
    ensures |s| > 0 && forall i :: 0 <= i < |s| ==> '0' <= s[i] <= '9'
  {
    if n < 10 then [('0' as int + n) as char]
    else Digits(n / 10) + [('0' as int + n % 10) as char]
  }

  /** How an integer ID is printed as a map key. */
  function Decimal(n: int): string {
    if n < 0 then "-" + Digits(-n) else Digits(n)
  }

  function DigitsValue(s: string): int {
    if s == "" then 0
    else 10 * DigitsValue(s[..|s| - 1]) + (s[|s| - 1] as int - '0' as int)
  }

  function DecimalValue(s: string): int {
    if s != "" && s[0] == '-' then -DigitsValue(s[1..]) else DigitsValue(s)
  }

  lemma {:induction false} DigitsRoundTrip(n: nat)
    ensures DigitsValue(Digits(n)) == n
  {
    var s := Digits(n);
    if n < 10 {
      assert s[..0] == "";
    } else {
      DigitsRoundTrip(n / 10);
      assert s[..|s| - 1] == Digits(n / 10);
    }
  }

  /** Printing an ID loses nothing, so two IDs never share a key. */
  lemma DecimalRoundTrip(n: int)
    ensures DecimalValue(Decimal(n)) == n
  {
    if n < 0 {
      DigitsRoundTrip(-n);
      assert Decimal(n)[1..] == Digits(-n);
    } else {
      DigitsRoundTrip(n);
    }
  }

  lemma DecimalInjective(m: int, n: int)
    requires Decimal(m) == Decimal(n)
    ensures m == n
  {
    DecimalRoundTrip(m);
    DecimalRoundTrip(n);
  }
}
