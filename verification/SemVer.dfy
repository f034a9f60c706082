/** Version precedence of Semantic Versioning 2.0.0, section 11, by which upgrade steps are selected. */
module SemVer {
  import opened Strings

  /** An identifier of a pre-release: digits only, or text. */
  datatype Identifier = Numeric(n: nat) | Alphanumeric(text: string)

  /** Build metadata does not take part in precedence. */
  datatype Version = Version(major: nat, minor: nat, patch: nat, preRelease: seq<Identifier>, build: string)

  predicate IdentifierLess(a: Identifier, b: Identifier) {
    match (a, b)
    case (Numeric(m), Numeric(n)) => m < n
    case (Numeric(_), Alphanumeric(_)) => true
    case (Alphanumeric(_), Numeric(_)) => false
    case (Alphanumeric(s), Alphanumeric(t)) => Less(s, t)
  }

  /** Identifiers are compared one by one from the left; if all are equal the longer list is larger. */
  predicate PreLess(a: seq<Identifier>, b: seq<Identifier>) {
    b != [] && (a == [] || IdentifierLess(a[0], b[0]) || (a[0] == b[0] && PreLess(a[1..], b[1..])))
  }

  /** A version with a pre-release is lower than the same version without. */
  predicate PreReleaseLess(a: seq<Identifier>, b: seq<Identifier>) {
    if a == [] then false else b == [] || PreLess(a, b)
  }

  predicate Precedes(a: Version, b: Version) {
    a.major < b.major
    || (a.major == b.major &&
        (a.minor < b.minor
         || (a.minor == b.minor &&
             (a.patch < b.patch || (a.patch == b.patch && PreReleaseLess(a.preRelease, b.preRelease))))))
  }

  /** Versions that differ at most in their build metadata. */
  predicate SamePrecedence(a: Version, b: Version) {
    a.(build := "") == b.(build := "")
  }

  /** a is lower than b, or of the same precedence. */
  predicate AtMost(a: Version, b: Version) { !Precedes(b, a) }

  /** The lists agree up to i, where the first one ends or has the lower identifier. */
  ghost predicate DecidedAt(a: seq<Identifier>, b: seq<Identifier>, i: nat) {
    i <= |a| && i < |b| && a[..i] == b[..i] && (i == |a| || IdentifierLess(a[i], b[i]))
  }

  /** Order of pre-releases: the first difference decides, and a list is higher than each of its beginnings. */
  lemma {:induction false} FirstDifference(a: seq<Identifier>, b: seq<Identifier>)
    ensures PreLess(a, b) <==> exists i: nat :: DecidedAt(a, b, i)
  {
    if a == [] || b == [] {
      if b != [] { assert DecidedAt(a, b, 0); }
    } else {
      FirstDifference(a[1..], b[1..]);
      if IdentifierLess(a[0], b[0]) { assert DecidedAt(a, b, 0); }
      if a[0] == b[0] {
        IdentifierOrder(a[0], a[0], a[0]);
        if i: nat :| DecidedAt(a[1..], b[1..], i) {
          assert a[..i + 1] == [a[0]] + a[1..][..i] && b[..i + 1] == [b[0]] + b[1..][..i];
          assert DecidedAt(a, b, i + 1);
        }
      }
      if i: nat :| DecidedAt(a, b, i) && i > 0 {
        assert a[..i] == [a[0]] + a[1..][..i - 1] && b[..i] == [b[0]] + b[1..][..i - 1];
        assert a[..i][0] == b[..i][0] && a[1..][..i - 1] == a[..i][1..] && b[1..][..i - 1] == b[..i][1..];
        assert DecidedAt(a[1..], b[1..], i - 1);
      }
    }
  }

  lemma IdentifierOrder(a: Identifier, b: Identifier, c: Identifier)
    ensures IdentifierLess(a, b) || a == b || IdentifierLess(b, a)
    ensures !(IdentifierLess(a, b) && IdentifierLess(b, a))
    ensures IdentifierLess(a, b) && IdentifierLess(b, c) ==> IdentifierLess(a, c)
  {
    if a.Alphanumeric? && b.Alphanumeric? {
      LessTotal(a.text, b.text);
      if c.Alphanumeric? && IdentifierLess(a, b) && IdentifierLess(b, c) { LessTransitive(a.text, b.text, c.text); }
    }
  }

  lemma {:induction false} PreTotal(a: seq<Identifier>, b: seq<Identifier>)
    ensures PreLess(a, b) || a == b || PreLess(b, a)
    ensures !(PreLess(a, b) && PreLess(b, a))
  {
    if a != [] && b != [] {
      IdentifierOrder(a[0], b[0], a[0]);
      IdentifierOrder(b[0], a[0], b[0]);
      PreTotal(a[1..], b[1..]);
      if a[0] == b[0] && a[1..] == b[1..] { assert a == [a[0]] + a[1..] && b == [b[0]] + b[1..]; }
    }
  }

  lemma {:induction false} PreTransitive(a: seq<Identifier>, b: seq<Identifier>, c: seq<Identifier>)
    requires PreLess(a, b) && PreLess(b, c)
    ensures PreLess(a, c)
  {
    if a != [] {
      IdentifierOrder(a[0], b[0], c[0]);
      if a[0] == b[0] && b[0] == c[0] && PreLess(a[1..], b[1..]) && PreLess(b[1..], c[1..]) {
        PreTransitive(a[1..], b[1..], c[1..]);
      }
    }
  }

  /** Exactly one of lower, same and higher holds. */
  lemma PrecedenceTotal(a: Version, b: Version)
    ensures Precedes(a, b) || SamePrecedence(a, b) || Precedes(b, a)
    ensures !(Precedes(a, b) && Precedes(b, a))
    ensures SamePrecedence(a, b) ==> !Precedes(a, b) && !Precedes(b, a)
  {
    PreTotal(a.preRelease, b.preRelease);
    PreTotal(a.preRelease, a.preRelease);
    PreTotal(b.preRelease, a.preRelease);
  }

  lemma PrecedenceTransitive(a: Version, b: Version, c: Version)
    requires Precedes(a, b) && Precedes(b, c)
    ensures Precedes(a, c)
  {
    if a.preRelease != [] && b.preRelease != [] && c.preRelease != []
       && PreLess(a.preRelease, b.preRelease) && PreLess(b.preRelease, c.preRelease)
    {
      PreTransitive(a.preRelease, b.preRelease, c.preRelease);
    }
  }

  /** Precedence is a weak order: what is above c is above everything at most as high as c. */
  lemma AtMostPrecedes(a: Version, b: Version, c: Version)
    ensures AtMost(a, b) && Precedes(b, c) ==> Precedes(a, c)
    ensures Precedes(a, b) && AtMost(b, c) ==> Precedes(a, c)
    ensures AtMost(a, b) && AtMost(b, c) ==> AtMost(a, c)
  {
    PrecedenceTotal(a, b);
    PrecedenceTotal(b, c);
    PrecedenceTotal(a, c);
    if Precedes(a, b) && Precedes(b, c) { PrecedenceTransitive(a, b, c); }
    if Precedes(c, a) && Precedes(a, b) { PrecedenceTransitive(c, a, b); }
    if Precedes(b, c) && Precedes(c, a) { PrecedenceTransitive(b, c, a); }
  }

  /** The numbers of a version, the weightiest first. */
  function Numbers(v: Version): seq<nat> { [v.major, v.minor, v.patch] }

  /** The first number in which the versions differ is lower. */
  predicate NumbersLess(a: Version, b: Version) {
    exists i :: 0 <= i < 3 && Numbers(a)[..i] == Numbers(b)[..i] && Numbers(a)[i] < Numbers(b)[i]
  }

  /** Section 11: the first difference of major, minor and patch decides; only for equal numbers the pre-releases do,
      and a version with a pre-release is lower than the same version without. */
  lemma NumbersDecide(a: Version, b: Version)
    ensures Precedes(a, b)
       <==> NumbersLess(a, b)
            || (Numbers(a) == Numbers(b) && a.preRelease != []
                && (b.preRelease == [] || PreLess(a.preRelease, b.preRelease)))
  {
    hide PreLess;
    var x, y := Numbers(a), Numbers(b);
    assert x[..0] == y[..0];
    assert x[..1] == y[..1] <==> a.major == b.major by {
      assert x[..1] == [a.major] && y[..1] == [b.major];
      assert x[..1][0] == a.major && y[..1][0] == b.major;
    }
    assert x[..2] == y[..2] <==> a.major == b.major && a.minor == b.minor by {
      assert x[..2] == [a.major, a.minor] && y[..2] == [b.major, b.minor];
      assert x[..2][0] == a.major && y[..2][0] == b.major && x[..2][1] == a.minor && y[..2][1] == b.minor;
    }
    assert x[0] == a.major && x[1] == a.minor && x[2] == a.patch;
    assert y[0] == b.major && y[1] == b.minor && y[2] == b.patch;
  }

  function Release(major: nat, minor: nat, patch: nat): Version { Version(major, minor, patch, [], "") }

  function Sample(preRelease: seq<Identifier>): Version { Version(1, 0, 0, preRelease, "") }

  /** The chain of examples that the standard gives for pre-releases. */
  lemma StandardExamples()
    ensures
      var alpha, beta, rc := Alphanumeric("alpha"), Alphanumeric("beta"), Alphanumeric("rc");
      && Precedes(Sample([alpha]), Sample([alpha, Numeric(1)]))
      && Precedes(Sample([alpha, Numeric(1)]), Sample([alpha, beta]))
      && Precedes(Sample([alpha, beta]), Sample([beta]))
      && Precedes(Sample([beta]), Sample([beta, Numeric(2)]))
      && Precedes(Sample([beta, Numeric(2)]), Sample([beta, Numeric(11)]))
      && Precedes(Sample([beta, Numeric(11)]), Sample([rc, Numeric(1)]))
      && Precedes(Sample([rc, Numeric(1)]), Sample([]))
  {
    var alpha, beta, rc := Alphanumeric("alpha"), Alphanumeric("beta"), Alphanumeric("rc");
    assert Less("alpha", "beta") && Less("beta", "rc");
    assert PreLess([], [Numeric(1)]) && PreLess([], [Numeric(2)]);
    assert PreLess([Numeric(1)], [beta]) && PreLess([Numeric(2)], [Numeric(11)]);
    assert [alpha][1..] == [] && [alpha, Numeric(1)][1..] == [Numeric(1)] && [alpha, beta][1..] == [beta];
    assert [beta][1..] == [] && [beta, Numeric(2)][1..] == [Numeric(2)] && [beta, Numeric(11)][1..] == [Numeric(11)];
    assert PreLess([alpha], [alpha, Numeric(1)]) && PreLess([beta], [beta, Numeric(2)]);
  }
}
