/**
 * The log-safe domain redactor: decides whether a host name may appear in
 * logs verbatim. Only the loopback name and names under the service's own
 * domain are shown; every other name is replaced by a fixed placeholder.
 */
module DnsUtils {

  /** The trusted suffix, leading dot included. */
  const SignalDomainSuffix: string := ".lavendarsolution.org"

  const Localhost: string := "localhost"

  /** The placeholder logged instead of an untrusted domain. */
  const Redacted: string := "REDACTED"

  /**
   * `str::ends_with`: the last `|suffix|` characters of `s` are `suffix`,
   * which is to say `s` is some prefix followed by `suffix`. Rust compares
   * UTF-8 bytes where this compares characters; the two agree for the
   * suffixes used here, which are ASCII, because no multi-byte UTF-8
   * sequence contains an ASCII byte.
   */
  predicate EndsWith(s: string, suffix: string): (b: bool)
    ensures b <==> exists prefix :: s == prefix + suffix
  {
    if |suffix| <= |s| && s[|s| - |suffix|..] == suffix then
      assert s == s[..|s| - |suffix|] + suffix;
      true
    else
      false
  }

  /**
   * A domain that may be logged as it is: the loopback name, or any name
   * under the service domain (the suffix's leading dot included).
   */
  predicate IsTrusted(domain: string): (t: bool)
    ensures t <==> domain == Localhost || exists host :: domain == host + SignalDomainSuffix
  {
    domain == Localhost || EndsWith(domain, SignalDomainSuffix)
  }

  /**
   * `log_safe_domain`. Total: every input has a result, and the result is
   * either the input itself or the placeholder, and is always safe to log.
   */
  function LogSafeDomain(domain: string): (r: string)
    ensures r == domain || r == Redacted
    ensures IsTrusted(r) || r == Redacted
  {
    if domain == Localhost then domain
    else if EndsWith(domain, SignalDomainSuffix) then domain
    else Redacted
  }

  lemma LocalhostKept()
    ensures LogSafeDomain("localhost") == "localhost"
  {
  }

  /** Any name under the service domain is logged unchanged. */
  lemma SuffixedKept(host: string)
    ensures LogSafeDomain(host + SignalDomainSuffix) == host + SignalDomainSuffix
  {
  }

  /** A name is logged unchanged exactly when it is trusted (or is the placeholder itself). */
  lemma KeptIff(domain: string)
    ensures LogSafeDomain(domain) == domain <==> IsTrusted(domain) || domain == Redacted
  {
  }

  /** Every untrusted name, the empty string included, becomes the placeholder. */
  lemma UntrustedRedacted(domain: string)
    requires !IsTrusted(domain)
    ensures LogSafeDomain(domain) == Redacted
  {
  }

  /** Matching is case-sensitive, and the bare apex lacks the suffix's leading dot. */
  lemma NearMissesRedacted()
    ensures LogSafeDomain("") == Redacted
    ensures LogSafeDomain("LOCALHOST") == Redacted
    ensures LogSafeDomain("lavendarsolution.org") == Redacted
    ensures LogSafeDomain("chat.LAVENDARSOLUTION.ORG") == Redacted
  {
  }

  /** Redacting twice is the same as redacting once. */
  lemma Idempotent(domain: string)
    ensures LogSafeDomain(LogSafeDomain(domain)) == LogSafeDomain(domain)
  {
  }
}
