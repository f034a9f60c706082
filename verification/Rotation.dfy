/** When a certificate has to be replaced (internal/certrotation/rotation.go). */
module Rotation {
  import opened Wrappers
  import opened Strings
  import opened Certificates

  /** A time annotation as it is read back: no entry, an entry that does not parse, or an instant. */
  datatype Stamp = Absent | Garbled | At(time: int)

  /** The four rotation annotations; an absent issuer or hostname list reads as the empty string. */
  datatype Annotations = Annotations(notAfter: Stamp, notBefore: Stamp, issuer: string, hostnames: string)

  const NoAnnotations := Annotations(Absent, Absent, "", "")

  datatype Reason =
    | MissingNotAfter
    | BadExpiry
    | AlreadyExpired
    | PastLatestTime(latest: int)
    | PastRefreshTime(refreshAt: int)
    | MissingIssuerName
    | IssuerNotInBundle(issuer: string)
    | HostnamesDiffer(notRequired: set<string>, notExisting: set<string>)

  /** Go's integer division, which truncates toward zero. */
  function TruncDiv(a: int, b: int): int
    requires b > 0
  {
    if a >= 0 then a / b else -((-a) / b)
  }

  /** The instant at which four fifths of the validity have passed. */
  function LatestTime(notBefore: int, notAfter: int): int {
    notAfter + TruncDiv(-(notAfter - notBefore), 5)
  }

  /** needNewCertificate. The missing-notBefore test looks at notAfter again, so an absent notBefore is a bad expiry. */
  function NeedNewCertificate(a: Annotations, now: int, refresh: int, signer: Option<Certificate>): Option<Reason> {
    if a.notAfter.Absent? then Some(MissingNotAfter)
    else if a.notAfter.Garbled? then Some(BadExpiry)
    else if !a.notBefore.At? then Some(BadExpiry)
    else
      var notAfter, notBefore := a.notAfter.time, a.notBefore.time;
      if now > notAfter then Some(AlreadyExpired)
      else if notAfter - notBefore == refresh then None
      else if now > LatestTime(notBefore, notAfter) then Some(PastLatestTime(LatestTime(notBefore, notAfter)))
      else if now > notBefore + refresh && (signer.None? || now > signer.value.notBefore + TruncDiv(refresh, 10))
      then Some(PastRefreshTime(notBefore + refresh))
      else None
  }

  predicate Names(bundle: seq<Certificate>, name: string) {
    exists i :: 0 <= i < |bundle| && bundle[i].subject == name
  }

  /** certificateRotation.NeedNewCertificate. */
  function TargetReason(a: Annotations, signer: Certificate, bundle: seq<Certificate>, required: set<string>,
                        refresh: int, now: int): Option<Reason> {
    var reason := NeedNewCertificate(a, now, refresh, Some(signer));
    if reason.Some? then reason
    else if a.issuer == "" then Some(MissingIssuerName)
    else if !Names(bundle, a.issuer) then Some(IssuerNotInBundle(a.issuer))
    else
      var existing := Elements(Split(a.hostnames, ','));
      if existing != required then Some(HostnamesDiffer(existing - required, required - existing)) else None
  }

  /** The search loop of certificateRotation.NeedNewCertificate. */
  method TargetNeedsNewCertificate(a: Annotations, signer: Certificate, bundle: seq<Certificate>, required: set<string>,
                                   refresh: int, now: int) returns (reason: Option<Reason>)
    ensures reason == TargetReason(a, signer, bundle, required, refresh, now)
  {
    reason := NeedNewCertificate(a, now, refresh, Some(signer));
    if reason.Some? { return; }
    if a.issuer == "" { return Some(MissingIssuerName); }
    var found := false;
    for i := 0 to |bundle|
      invariant !found
      invariant forall j :: 0 <= j < i ==> bundle[j].subject != a.issuer
    {
      if a.issuer == bundle[i].subject {
        found := true;
        break;
      }
    }
    if !found { return Some(IssuerNotInBundle(a.issuer)); }
    var existing := Elements(Split(a.hostnames, ','));
    if existing != required { return Some(HostnamesDiffer(existing - required, required - existing)); }
    return None;
  }

  // ---------- annotations and certificates ----------

  /** signerRotation.SetAnnotations: the hostname entry is left as it is. */
  function SignerAnnotations(a: Annotations, ca: Certificate): Annotations {
    a.(notAfter := At(ca.notAfter), notBefore := At(ca.notBefore), issuer := ca.issuer)
  }

  /** certificateRotation.SetAnnotations. */
  ghost function TargetAnnotations(cert: Certificate): Annotations {
    Annotations(At(cert.notAfter), At(cert.notBefore), cert.issuer, Join(SortedList(cert.hostnames), ','))
  }

  /** The time and issuer annotations tell the truth about the certificate beside them. */
  predicate Describes(a: Annotations, cert: Certificate) {
    a.notAfter == At(cert.notAfter) && a.notBefore == At(cert.notBefore) && a.issuer == cert.issuer
  }

  /** Which hostname lists can be written to the annotation and compared again. */
  ghost predicate Representable(hostnames: set<string>) {
    hostnames != {} && forall h :: h in hostnames ==> ',' !in h
  }

  /** The hostname annotation of a new certificate equals the required set again exactly when the set is
      representable. */
  lemma HostnameRoundTrip(cert: Certificate)
    ensures Elements(Split(TargetAnnotations(cert).hostnames, ',')) == cert.hostnames <==> Representable(cert.hostnames)
  {
    SetSurvivesJoin(cert.hostnames, ',');
  }

  /** A target is left alone exactly if no time rule applies, its issuer has a name that some CA of the bundle has, and
      its annotation lists exactly the names that are required. */
  lemma QuietExactly(a: Annotations, signer: Certificate, bundle: seq<Certificate>, required: set<string>, refresh: int,
                     now: int)
    ensures TargetReason(a, signer, bundle, required, refresh, now) == None
       <==> && NeedNewCertificate(a, now, refresh, Some(signer)) == None
            && a.issuer != "" && (exists ca :: ca in bundle && ca.subject == a.issuer)
            && Elements(Split(a.hostnames, ',')) == required
  {}

  /** A target without a reason carries the required names. */
  lemma QuietMeansNamed(cert: Certificate, signer: Certificate, bundle: seq<Certificate>, required: set<string>,
                        refresh: int, now: int)
    requires Representable(cert.hostnames)
    requires TargetReason(TargetAnnotations(cert), signer, bundle, required, refresh, now) == None
    ensures cert.hostnames == required
  {
    HostnameRoundTrip(cert);
  }

  function Least(a: int, b: int): int { if a <= b then a else b }

  function Greatest(a: int, b: int): int { if a >= b then a else b }

  /** The last instant at which a certificate is left alone: its expiry if it is only refreshed when expired, otherwise
      the earliest of expiry, four fifths of its life and its refresh time, which a young signer puts off. */
  function Deadline(notBefore: int, notAfter: int, refresh: int, signer: Option<Certificate>): int {
    if notAfter - notBefore == refresh then notAfter
    else
      var refreshAt := notBefore + refresh;
      Least(Least(notAfter, LatestTime(notBefore, notAfter)),
            if signer.None? then refreshAt else Greatest(refreshAt, signer.value.notBefore + TruncDiv(refresh, 10)))
  }

  /** Time rules: there is a reason exactly from the instant after one deadline on. */
  lemma RenewalDeadline(notBefore: int, notAfter: int, refresh: int, signer: Option<Certificate>, issuer: string,
                        hostnames: string, now: int)
    ensures NeedNewCertificate(Annotations(At(notAfter), At(notBefore), issuer, hostnames), now, refresh, signer).Some?
       <==> now > Deadline(notBefore, notAfter, refresh, signer)
  {}

  /** The time rules in numbers: expired; or less than a fifth of the validity left, or past the refresh time and, for a
      target, a tenth of it into the life of its signer. A validity equal to the refresh setting leaves the first. */
  lemma TimeRules(notBefore: int, notAfter: int, refresh: int, signer: Option<Certificate>, issuer: string,
                  hostnames: string, now: int)
    requires notBefore <= notAfter && 0 <= refresh
    ensures var a, validity := Annotations(At(notAfter), At(notBefore), issuer, hostnames), notAfter - notBefore;
            (NeedNewCertificate(a, now, refresh, signer) != None) ==
              (now > notAfter
               || (validity != refresh &&
                   (now > notAfter - validity / 5
                    || (now > notBefore + refresh && (signer == None || now > signer.value.notBefore + refresh / 10)))))
  {}

  /** A notBefore that is absent is not told from one that does not parse: an expiry is called bad exactly if the
      notAfter is garbled, or is there and the notBefore is not an instant. */
  lemma BadExpiryMeans(a: Annotations, now: int, refresh: int, signer: Option<Certificate>)
    ensures NeedNewCertificate(a, now, refresh, signer) == Some(BadExpiry)
       <==> a.notAfter.Garbled? || (a.notAfter.At? && (a.notBefore.Absent? || a.notBefore.Garbled?))
  {}

  /** Whatever is due for replacement stays due: nothing but a new certificate ends a reason. */
  lemma ReasonPersists(a: Annotations, signer: Option<Certificate>, refresh: int, now: int, later: int)
    requires now <= later
    requires NeedNewCertificate(a, now, refresh, signer).Some?
    ensures NeedNewCertificate(a, later, refresh, signer).Some?
  {}

  /** A certificate that raises no reason and whose validity differs from the refresh setting still has a fifth of
      its validity ahead. */
  lemma QuietMeansFifthLeft(a: Annotations, signer: Option<Certificate>, refresh: int, now: int)
    requires NeedNewCertificate(a, now, refresh, signer).None?
    requires a.notAfter.time - a.notBefore.time != refresh && a.notBefore.time <= a.notAfter.time
    ensures a.notAfter.time - now >= (a.notAfter.time - a.notBefore.time) / 5
  {}

  /** A certificate issued at this very instant raises no time reason, for settings that are not negative. */
  lemma NewbornIsQuiet(a: Annotations, signer: Option<Certificate>, refresh: int, now: int)
    requires a.notBefore == At(now) && a.notAfter.At? && now <= a.notAfter.time && 0 <= refresh
    ensures NeedNewCertificate(a, now, refresh, signer).None?
  {}
}
