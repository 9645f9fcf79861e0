/**
 * `#compareVersions` (src/Cloudnode.js): classifies a server version against the client's
 * API version by the first two dot-separated parts, compared as strings.
 */
module Versions {
  import opened Strings

  datatype Compatibility = Compatible | Outdated | Incompatible

  /** `#apiVersion`: the API version the client was generated for. */
  const ApiVersion := "5.12.0"

  /** `parts[i] || "0"`: a missing or empty part reads as "0". */
  function PartOrZero(parts: seq<string>, i: nat): (r: string)
    ensures r != ""
    ensures i < |parts| && parts[i] != "" ==> r == parts[i]
  {
    if i < |parts| && parts[i] != "" then parts[i] else "0"
  }

  /** `[parts[0] || "0", parts[1] || "0"]` */
  function MajorMinor(v: string): (r: (string, string)) {
    var parts := Split(v, '.');
    (PartOrZero(parts, 0), PartOrZero(parts, 1))
  }

  function CompareVersions(a: string, b: string): (r: Compatibility)
    ensures r == Incompatible <==> MajorMinor(a).0 != MajorMinor(b).0
    ensures r == Outdated <==> MajorMinor(a).0 == MajorMinor(b).0 && MajorMinor(a).1 != MajorMinor(b).1
    ensures r == Compatible <==> MajorMinor(a) == MajorMinor(b)
  {
    var verA := MajorMinor(a);
    var verB := MajorMinor(b);
    if verA.0 != verB.0 then Incompatible
    else if verA.1 != verB.1 then Outdated
    else Compatible
  }

  /** A version is compatible with itself. */
  lemma CompareReflexive(a: string)
    ensures CompareVersions(a, a) == Compatible
  {
  }

  /** The classification does not depend on the order of the arguments. */
  lemma CompareSymmetric(a: string, b: string)
    ensures CompareVersions(a, b) == CompareVersions(b, a)
  {
  }

  /** "Compatible" is transitive, so it is an equivalence on version strings. */
  lemma CompatibleTransitive(a: string, b: string, c: string)
    requires CompareVersions(a, b) == Compatible && CompareVersions(b, c) == Compatible
    ensures CompareVersions(a, c) == Compatible
  {
  }

  /** `major.minor.rest`: the parts are the major, the minor and whatever follows. */
  lemma {:induction false} MajorMinorOfDotted(major: string, minor: string, rest: string)
    requires '.' !in major && '.' !in minor && major != "" && minor != ""
    ensures MajorMinor(major + "." + minor + "." + rest) == (major, minor)
    ensures MajorMinor(major + "." + minor) == (major, minor)
  {
    SplitCons(major, '.', minor + "." + rest);
    assert major + "." + minor + "." + rest == major + ['.'] + (minor + "." + rest);
    SplitCons(minor, '.', rest);
    assert minor + "." + rest == minor + ['.'] + rest;
    SplitCons(major, '.', minor);
    assert major + "." + minor == major + ['.'] + minor;
    SplitNoSep(minor, '.');
  }

  /** Only the first two parts count: the patch part is ignored. */
  lemma PatchIgnored(major: string, minor: string, patchA: string, patchB: string)
    requires '.' !in major && '.' !in minor && major != "" && minor != ""
    ensures CompareVersions(major + "." + minor + "." + patchA, major + "." + minor + "." + patchB) == Compatible
    ensures CompareVersions(major + "." + minor + "." + patchA, major + "." + minor) == Compatible
  {
    MajorMinorOfDotted(major, minor, patchA);
    MajorMinorOfDotted(major, minor, patchB);
  }

  /** A missing minor part reads as "0": "5" is compatible with "5.0". */
  lemma MissingMinorIsZero(major: string)
    requires '.' !in major && major != ""
    ensures CompareVersions(major, major + ".0") == Compatible
  {
    SplitNoSep(major, '.');
    MajorMinorOfDotted(major, "0", "");
    assert major + ".0" == major + "." + "0";
  }

  /** Parts are compared as strings, so "05" and "5" differ in the major part. */
  lemma LeadingZeroMatters()
    ensures CompareVersions("05.1", "5.1") == Incompatible
  {
    MajorMinorOfDotted("05", "1", "");
    MajorMinorOfDotted("5", "1", "");
    assert "05" + "." + "1" == "05.1" && "5" + "." + "1" == "5.1";
  }

  /** A server at 5.13.2 against the client's API version: same major, newer minor. */
  lemma NewerMinorIsOutdated()
    ensures CompareVersions("5.13.2", ApiVersion) == Outdated
  {
    MajorMinorOfDotted("5", "13", "2");
    MajorMinorOfDotted("5", "12", "0");
    assert "5" + "." + "13" + "." + "2" == "5.13.2";
    assert "5" + "." + "12" + "." + "0" == "5.12.0";
  }
}
