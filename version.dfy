/** The CrashRpt version number. CRASHRPT_VER packs a version into one
    decimal number: thousands for the major part, hundreds for the minor part
    and the last two digits for the build. The test program's banner splits it
    into three parts; the API test packs the product version of the DLL the
    same way and compares the two. */
module Versions {

  datatype Version = Version(major: nat, minor: nat, build: nat)

  /** A version the packing can represent unambiguously. */
  predicate Representable(v: Version)
  {
    v.minor < 10 && v.build < 100
  }

  /** `CRASHRPT_VER / 1000`, `(CRASHRPT_VER % 1000) / 100` and
      `(CRASHRPT_VER % 1000) % 100`. The number is never negative, so the
      truncating C operators agree with Dafny's. */
  function Split(ver: nat): (v: Version)
    ensures Representable(v)
  {
    Version(ver / 1000, (ver % 1000) / 100, (ver % 1000) % 100)
  }

  /** `dwVerMajor * 1000 + dwVerMinor * 100 + dwVerBuild`. */
  function Encode(v: Version): nat
  {
    v.major * 1000 + v.minor * 100 + v.build
  }

  /** Packing the parts of a number gives the number back. */
  lemma EncodeSplit(ver: nat)
    ensures Encode(Split(ver)) == ver
  {
    var r := ver % 1000;
    assert ver == (ver / 1000) * 1000 + r;
    assert r == (r / 100) * 100 + r % 100;
  }

  /** Splitting a packed version gives its parts back when the minor part
      has one digit and the build two. */
  lemma SplitEncode(v: Version)
    requires Representable(v)
    ensures Split(Encode(v)) == v
  {
    var low := v.minor * 100 + v.build;
    assert 0 <= low < 1000;
    assert Encode(v) / 1000 == v.major && Encode(v) % 1000 == low;
    assert low / 100 == v.minor && low % 100 == v.build;
  }

  /** The banner and the packed product version agree exactly when the
      versions are equal: two representable versions pack to the same
      number only if they are the same version. */
  lemma EncodeInjective(v: Version, w: Version)
    requires Representable(v) && Representable(w)
    ensures Encode(v) == Encode(w) <==> v == w
  {
    if Encode(v) == Encode(w) {
      SplitEncode(v);
      SplitEncode(w);
    }
  }

  /** Outside that range the packing is ambiguous: version 1.10.0 and
      version 2.0.0 pack to the same number. */
  lemma EncodeAmbiguous()
    ensures Encode(Version(1, 10, 0)) == Encode(Version(2, 0, 0))
    ensures Version(1, 10, 0) != Version(2, 0, 0)
  {
  }
}
