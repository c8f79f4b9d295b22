/**
 * The two names `main` derives from its HOST and DOMAIN arguments
 * (src/main.rs:47-52): the zone lookup key and the record name.
 */
module Names {
  import opened Options

  /** `s.ends_with(".")` */
  predicate EndsWithDot(s: string) {
    |s| > 0 && s[|s| - 1] == '.'
  }

  /**
   * The hosted-zone lookup key: the domain made absolute in the sense of
   * section 3.1 of RFC 1034 by a trailing dot, added only when missing.
   */
  function ZoneDomain(domain: string): (key: string)
    ensures EndsWithDot(key)
    ensures |domain| <= |key| <= |domain| + 1 && key[..|domain|] == domain
    ensures key == domain <==> EndsWithDot(domain)
  {
    if EndsWithDot(domain) then domain else domain + "."
  }

  /** Normalising a key that is already absolute changes nothing. */
  lemma ZoneDomainIdempotent(domain: string)
    ensures ZoneDomain(ZoneDomain(domain)) == ZoneDomain(domain)
  {
  }

  /**
   * The key is the shortest dot-terminated string that starts with the
   * domain: no dot is added when one would do without it.
   */
  lemma ZoneDomainShortest(domain: string, s: string)
    requires |domain| <= |s| && s[..|domain|] == domain && EndsWithDot(s)
    ensures |ZoneDomain(domain)| <= |s|
  {
  }

  /** The record name `format!("{}.{}", host, domain)`, over the raw domain. */
  function DnsName(host: string, domain: string): (name: string)
    ensures |name| == |host| + 1 + |domain|
    ensures name[..|host|] == host && name[|host|] == '.' && name[|host| + 1..] == domain
  {
    host + "." + domain
  }

  /**
   * The inverse of `DnsName` for a known domain: the host part of a record
   * name that ends in "." followed by the domain.
   */
  function HostOf(name: string, domain: string): (host: Option<string>)
    ensures host.Some? ==> |host.value| + 1 + |domain| == |name|
  {
    if |name| >= |domain| + 1 && name[|name| - |domain| - 1..] == "." + domain
    then Some(name[..|name| - |domain| - 1])
    else None
  }

  /** Composing a record name and then splitting it gives back the host. */
  lemma HostOfDnsName(host: string, domain: string)
    ensures HostOf(DnsName(host, domain), domain) == Some(host)
  {
  }

  /** Every name `HostOf` accepts is the record name of the host it returns. */
  lemma DnsNameHostOf(name: string, domain: string)
    requires HostOf(name, domain).Some?
    ensures DnsName(HostOf(name, domain).value, domain) == name
  {
  }

  /**
   * The record name is built from the domain as given, not from the
   * lookup key: for a non-empty domain it ends in a dot exactly when the
   * argument did, so
   * a record name and its lookup key can differ in their trailing dot.
   */
  lemma DnsNameKeepsRawDomain(host: string, domain: string)
    ensures domain != [] ==> (EndsWithDot(DnsName(host, domain)) <==> EndsWithDot(domain))
    ensures !EndsWithDot(domain) ==> DnsName(host, domain) != DnsName(host, ZoneDomain(domain))
  {
  }
}
