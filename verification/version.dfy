/** The platform version of a session and the legacy owner-tracking mode it selects. */
module PlatformVersion {

  /** A platform version `major.minor.patch`. */
  datatype Version = Version(major: nat, minor: nat, patch: nat)

  /** Lexicographic "strictly older than" on versions. */
  predicate Before(a: Version, b: Version)
  {
    || a.major < b.major
    || (a.major == b.major && a.minor < b.minor)
    || (a.major == b.major && a.minor == b.minor && a.patch < b.patch)
  }

  /** The first release in which secret owners stopped always tracking the latest revision. */
  const TrackingFix := Version(3, 1, 7)

  /** Owners on releases older than 3.1.7 always track the latest revision. */
  function LegacyTracking(v: Version): (r: bool)
    ensures v.major < 3 ==> r
    ensures v.major > 3 ==> !r
    ensures v.major == 3 ==> (r <==> v.minor < 1 || (v.minor == 1 && v.patch < 7))
  {
    Before(v, TrackingFix)
  }

  /** `Before` is a strict total order, so the cutoff splits versions into two intervals. */
  lemma BeforeIsStrictTotalOrder(a: Version, b: Version, c: Version)
    ensures !Before(a, a)
    ensures Before(a, b) ==> !Before(b, a)
    ensures Before(a, b) && Before(b, c) ==> Before(a, c)
    ensures a == b || Before(a, b) || Before(b, a)
  {
  }

  /** Every version older than a legacy version is legacy; every later one than a
      normal version is normal. */
  lemma LegacyIsDownwardClosed(a: Version, b: Version)
    requires Before(a, b)
    ensures LegacyTracking(b) ==> LegacyTracking(a)
    ensures !LegacyTracking(a) ==> !LegacyTracking(b)
  {
    BeforeIsStrictTotalOrder(a, b, TrackingFix);
  }

  /** The two releases the suite runs against: 3.1.6 is legacy, 3.3.1 is not, and the
      cutoff itself is not. */
  lemma LegacyCutoff()
    ensures LegacyTracking(Version(3, 1, 6))
    ensures !LegacyTracking(Version(3, 1, 7))
    ensures !LegacyTracking(Version(3, 3, 1))
  {
  }
}
