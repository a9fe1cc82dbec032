/** `cumulus.get_version`: the package version string from `__version_info__`. */
module Version {
  import opened Common

  datatype VersionInfo = VersionInfo(major: int, minor: int, micro: int, releaselevel: string, serial: int)

  /** `__version_info__`. */
  const VERSION_INFO := VersionInfo(1, 0, 5, "final", 1)

  /** The parts `get_version` appends to `vers`, in order. */
  function MajorMinor(v: VersionInfo): string
  {
    IntToString(v.major) + "." + IntToString(v.minor)
  }

  function MicroPart(v: VersionInfo): (r: string)
    ensures r == [] <==> v.micro == 0
  {
    if v.micro != 0 then "." + IntToString(v.micro) else []
  }

  function ReleasePart(v: VersionInfo): (r: string)
    ensures r == [] <==> v.releaselevel == "final"
  {
    if v.releaselevel != "final" then v.releaselevel + IntToString(v.serial) else []
  }

  /** `"".join(vers)`: the parts concatenated. */
  function VersionString(v: VersionInfo): string
  {
    MajorMinor(v) + MicroPart(v) + ReleasePart(v)
  }

  /**
   * The version starts with "major.minor"; ".micro" follows exactly when
   * micro is non-zero, and the release level with its serial comes last
   * exactly when the level is not "final".
   */
  lemma VersionStringParts(v: VersionInfo)
    ensures StartsWith(VersionString(v), MajorMinor(v))
    ensures v.micro != 0 ==> StartsWith(VersionString(v), MajorMinor(v) + "." + IntToString(v.micro))
    ensures v.micro == 0 ==> VersionString(v) == MajorMinor(v) + ReleasePart(v)
    ensures v.releaselevel != "final" ==> EndsWith(VersionString(v), v.releaselevel + IntToString(v.serial))
    ensures v.releaselevel == "final" ==> VersionString(v) == MajorMinor(v) + MicroPart(v)
  {
    var s := VersionString(v);
    assert s[..|MajorMinor(v)|] == MajorMinor(v);
    if v.micro != 0 {
      assert s == (MajorMinor(v) + "." + IntToString(v.micro)) + ReleasePart(v);
      assert s[..|MajorMinor(v) + "." + IntToString(v.micro)|] == MajorMinor(v) + "." + IntToString(v.micro);
    }
    if v.releaselevel != "final" {
      assert s == (MajorMinor(v) + MicroPart(v)) + ReleasePart(v);
    }
  }

  /** The package's own version is "1.0.5". */
  lemma OwnVersion()
    ensures VersionString(VERSION_INFO) == "1.0.5"
  {
    assert IntToString(1) == "1";
    assert IntToString(0) == "0";
    assert IntToString(5) == "5";
  }

  /** `get_version`: appends the parts to `vers` as the code does, then joins them. */
  method GetVersion(v: VersionInfo) returns (r: string)
    ensures r == VersionString(v)
  {
    var vers := [MajorMinor(v)];
    if v.micro != 0 {
      vers := vers + ["." + IntToString(v.micro)];
    }
    if v.releaselevel != "final" {
      vers := vers + [v.releaselevel + IntToString(v.serial)];
    }
    r := Flatten(vers);
    assert vers == [MajorMinor(v)] + (if MicroPart(v) == [] then [] else [MicroPart(v)])
                                   + (if ReleasePart(v) == [] then [] else [ReleasePart(v)]);
    FlattenConcat([MajorMinor(v)], if MicroPart(v) == [] then [] else [MicroPart(v)]);
    FlattenConcat([MajorMinor(v)] + (if MicroPart(v) == [] then [] else [MicroPart(v)]),
                  if ReleasePart(v) == [] then [] else [ReleasePart(v)]);
  }
}
