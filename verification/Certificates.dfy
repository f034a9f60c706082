/** Certificates reduced to names, times and identity, and the contracts assumed of the X.509 library.
    Times and durations are nanoseconds, as in Go's time.Duration. */
module Certificates {
  import opened Strings

  const SECOND := 1_000_000_000
  const HOUR := 3600 * SECOND

  /** A key pair is identified by the random draw that produced it. */
  datatype KeyId = CAKey(draw: nat) | TargetKey(draw: nat, secret: string)

  datatype Certificate = Certificate(
    key: KeyId,
    signedBy: KeyId,
    subject: string,
    issuer: string,
    notBefore: int,
    notAfter: int,
    hostnames: set<string>)
  {
    function Validity(): int { notAfter - notBefore }

    predicate Unexpired(now: int) { now <= notAfter }
  }

  function Second(t: nat): nat { t / SECOND }

  /** A CA is named after the second in which it is made. */
  function SignerName(prefix: string, now: nat): string {
    prefix + "@" + Decimal(Second(now))
  }

  /** Two CAs of one stack share a name only if they were made in the same second. */
  lemma SignerNameInjective(prefix: string, a: nat, b: nat)
    requires SignerName(prefix, a) == SignerName(prefix, b)
    ensures Second(a) == Second(b)
  {
    var k := |prefix| + 1;
    assert SignerName(prefix, a)[k..] == Decimal(Second(a));
    assert SignerName(prefix, b)[k..] == Decimal(Second(b));
    DecimalReadsBack(Second(a));
    DecimalReadsBack(Second(b));
  }

  // ---------- assumed contracts of the certificate library ----------

  /** crypto.MakeSelfSignedCAConfigForDuration. */
  function MakeSelfSignedCA(name: string, validity: int, now: nat, draw: nat): Certificate {
    Certificate(CAKey(draw), CAKey(draw), name, name, now, now + validity, {})
  }

  /** CA.MakeServerCertForDuration with the subject override of the certificate rotation. */
  function MakeServerCert(ca: Certificate, hostnames: set<string>, validity: int, now: nat, key: KeyId): Certificate {
    Certificate(key, ca.key, "system:tempostacks", ca.subject, now, now + validity, hostnames)
  }

  /** crypto.FilterExpiredCerts; a certificate is expired strictly after its notAfter instant. */
  function FilterExpired(certs: seq<Certificate>, now: int): (r: seq<Certificate>)
    ensures forall c :: c in r <==> c in certs && c.Unexpired(now)
  {
    if certs == [] then []
    else
      var front := FilterExpired(certs[..|certs| - 1], now);
      var last := certs[|certs| - 1];
      assert certs == certs[..|certs| - 1] + [last];
      if last.Unexpired(now) then front + [last] else front
  }

  lemma FilterExpiredAppend(a: seq<Certificate>, b: seq<Certificate>, now: int)
    ensures FilterExpired(a + b, now) == FilterExpired(a, now) + FilterExpired(b, now)
  {
    if b == [] {
      assert a + b == a;
    } else {
      assert (a + b)[..|a + b| - 1] == a + b[..|b| - 1];
      FilterExpiredAppend(a, b[..|b| - 1], now);
    }
  }

  lemma FilterExpiredKeeps(certs: seq<Certificate>, now: int)
    requires forall c :: c in certs ==> c.Unexpired(now)
    ensures FilterExpired(certs, now) == certs
  {
    if certs != [] {
      assert certs == certs[..|certs| - 1] + [certs[|certs| - 1]];
      FilterExpiredKeeps(certs[..|certs| - 1], now);
    }
  }
}
