/** The architectures the release is built for, and the two tables that
    rename a Go architecture to its RPM and Debian spelling. */
module Arch {

  /** The Linux architectures, in the order the builder visits them. */
  const LinuxArches: seq<string> := ["amd64", "arm64", "s390x", "ppc64le"]

  /** The macOS architectures. */
  const MacArches: seq<string> := ["amd64", "arm64"]

  /** The Windows architectures. */
  const WindowsArches: seq<string> := ["amd64"]

  /** Go architecture name to RPM architecture name. */
  const RpmArchMap: map<string, string> :=
    map["amd64" := "x86_64", "ppc64le" := "ppc64le", "s390x" := "s390x", "arm64" := "aarch64"]

  /** Go architecture name to Debian architecture name. */
  const DebArchMap: map<string, string> :=
    map["amd64" := "amd64", "s390x" := "s390x", "arm64" := "arm64", "ppc64le" := "ppc64el"]

  /** Go's map index `m[k]`: the zero value "" when `k` is not a key. */
  function Lookup(m: map<string, string>, k: string): (v: string)
  {
    if k in m then m[k] else ""
  }

  /** `rpmArchMap[a]`. */
  function RpmArch(a: string): (name: string)
  {
    Lookup(RpmArchMap, a)
  }

  /** `debArchMap[a]`. */
  function DebArch(a: string): (name: string)
  {
    Lookup(DebArchMap, a)
  }

  /** Both tables are defined on exactly the Linux architectures, so the
      builder never reads a missing entry. */
  lemma TablesCoverLinux()
    ensures RpmArchMap.Keys == set a | a in LinuxArches
    ensures DebArchMap.Keys == set a | a in LinuxArches
  {
    assert LinuxArches[0] == "amd64" && LinuxArches[1] == "arm64";
    assert LinuxArches[2] == "s390x" && LinuxArches[3] == "ppc64le";
  }

  /** The RPM spellings. */
  lemma RpmNames()
    ensures RpmArch("amd64") == "x86_64"
    ensures RpmArch("arm64") == "aarch64"
    ensures RpmArch("s390x") == "s390x"
    ensures RpmArch("ppc64le") == "ppc64le"
  {
  }

  /** The Debian spellings. */
  lemma DebNames()
    ensures DebArch("amd64") == "amd64"
    ensures DebArch("arm64") == "arm64"
    ensures DebArch("s390x") == "s390x"
    ensures DebArch("ppc64le") == "ppc64el"
  {
  }

  /** Every Linux architecture has a non-empty name in both tables. */
  lemma TablesTotal(a: string)
    requires a in LinuxArches
    ensures RpmArch(a) != "" && DebArch(a) != ""
  {
  }

  /** An architecture outside the tables reads as "". */
  lemma TablesMissing(a: string)
    requires a !in LinuxArches
    ensures RpmArch(a) == "" && DebArch(a) == ""
  {
    TablesCoverLinux();
  }

  /** Neither table sends two architectures to the same name, so the package
      file names of different architectures differ. */
  lemma TablesInjective(a: string, b: string)
    requires a in LinuxArches && b in LinuxArches && a != b
    ensures RpmArch(a) != RpmArch(b)
    ensures DebArch(a) != DebArch(b)
  {
  }
}
