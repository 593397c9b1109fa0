/** The download manifest `generateDownloadsJSON` builds for one release:
    platform, then product, then architecture, then the download records
    (plain binary, RPM, Debian package, Homebrew) with their install
    instructions, checksum URLs and download URLs. */
module Downloads {
  import Arch
  import Packaging

  datatype Option<T> = None | Some(value: T)

  /** `dlInfo`: install instructions, checksum URL and download URL. */
  datatype DlInfo = DlInfo(text: string, checksum: string, download: string)

  /** `downloadJSON`: an optional text and the optional records; an absent
      record is a nil pointer and an absent text the empty string. */
  datatype DownloadJson = DownloadJson(text: string, bin: Option<DlInfo>, rpm: Option<DlInfo>,
                                       deb: Option<DlInfo>, homebrew: Option<DlInfo>)

  /** Product name to architecture to entry. */
  type Platform = map<string, map<string, DownloadJson>>

  /** `downloadsJSON`: one product map per platform. */
  datatype DownloadsJson = DownloadsJson(kubernetes: Platform, docker: Platform, linux: Platform,
                                         macOS: Platform, windows: Platform)

  /** The two applications the manifest knows about. */
  datatype Product = Server | Client

  /** "minio" is the server and "mc" the client; any other name has no
      entries. */
  function ProductOf(app: string): (p: Option<Product>)
    ensures p == Some(Server) <==> app == "minio"
    ensures p == Some(Client) <==> app == "mc"
  {
    if app == "minio" then Some(Server) else if app == "mc" then Some(Client) else None
  }

  /** The application name of each product. */
  function AppName(p: Product): (name: string)
  {
    match p
    case Server => "minio"
    case Client => "mc"
  }

  /** The product key under every platform. */
  function Key(p: Product): (key: string)
  {
    match p
    case Server => "MinIO Server"
    case Client => "MinIO Client"
  }

  /** The directory all of a product's release files are published in. */
  const ServerRelease: string := "https://dl.min.io/server/minio/release/"
  const ClientRelease: string := "https://dl.min.io/client/mc/release/"

  /** The client directory on the older host name, which the client's Windows
      instructions still download from. */
  const LegacyClientRelease: string := "https://dl.minio.io/client/mc/release/"

  /** The command line that starts a downloaded server binary. */
  const ServerRunBinary: string :=
    "MINIO_ROOT_USER=admin MINIO_ROOT_PASSWORD=password ./minio server /mnt/data --console-address \":9001\""

  /** The command line that starts an installed server. */
  const ServerRunInstalled: string :=
    "MINIO_ROOT_USER=admin MINIO_ROOT_PASSWORD=password minio server /mnt/data --console-address \":9001\""

  /** The first command for the client binary, and for the packaged client. */
  const ClientAlias: string := "mc alias set myminio/ http://MINIO-SERVER MYUSER MYPASSWORD"
  const ClientPackageAlias: string := "mcli alias set myminio/ http://MINIO-SERVER MYUSER MYPASSWORD"

  const ServerKubernetesText: string :=
    "kubectl krew install minio\nkubectl minio init\nkubectl minio tenant create tenant1 --servers 4 --volumes 16 --capacity 16Ti"
  const ClientKubernetesText: string :=
    "kubectl run my-mc -i --tty --image minio/mc:latest --command -- bash\n"
    + "[root@my-mc /]# mc alias set myminio/ https://minio.default.svc.cluster.local MY-USER MY-PASSWORD\n"
    + "[root@my-mc /]# mc ls myminio/mybucket"
  const ServerDockerText: string :=
    "podman run -p 9000:9000 -p 9001:9001 minio/minio server /data --console-address \":9001\""
  const ClientDockerText: string :=
    "podman run --name my-mc --hostname my-mc -it --entrypoint /bin/bash --rm minio/mc\n"
    + "[root@my-mc /]# mc alias set myminio/ https://my-minio-service MY-USER MY-PASSWORD\n"
    + "[root@my-mc /]# mc ls myminio/mybucket"

  const ServerBrewText: string := "brew install minio/stable/minio\n" + ServerRunInstalled
  const ClientBrewText: string := "brew install minio/stable/mc\n" + ClientAlias

  /** The PowerShell download command around the URL and the target file. */
  const WebRequest: string := "PS> Invoke-WebRequest -Uri \""
  const OutFile: string := "\" -OutFile \"C:\\"

  /** The Windows steps after the server download. */
  const ServerWindowsSteps: string :=
    "\nPS> setx MINIO_ROOT_USER admin\nPS> setx MINIO_ROOT_PASSWORD password\n"
    + "PS> C:\\minio.exe server F:\\Data --console-address \":9001\""
  /** The Windows step after the client download. */
  const ClientWindowsSteps: string := "\nC:\\mc.exe alias set myminio/ http://MINIO-SERVER MYUSER MYPASSWORD"

  function ReleaseUrl(p: Product): (url: string)
  {
    match p
    case Server => ServerRelease
    case Client => ClientRelease
  }

  /** The RPM package file name: `name-version.arch.rpm`. */
  function RpmFileName(name: string, version: string, arch: string): (file: string)
  {
    name + "-" + version + "." + arch + ".rpm"
  }

  /** The Debian package file name: `name_version_arch.deb`. */
  function DebFileName(name: string, version: string, arch: string): (file: string)
  {
    name + "_" + version + "_" + arch + ".deb"
  }

  /** A record that carries only a text. */
  function TextOnly(text: string): (e: DownloadJson)
  {
    DownloadJson(text, None, None, None, None)
  }

  /** A record whose checksum URL is its download URL followed by
      ".sha256sum", the sidecar `doPackage` writes next to each package. */
  function Record(text: string, download: string): (r: DlInfo)
  {
    DlInfo(text, download + ".sha256sum", download)
  }

  /** The command that follows the download of a bare binary. */
  function RunBinary(p: Product): (text: string)
  {
    match p
    case Server => ServerRunBinary
    case Client => ClientAlias
  }

  /** The command that follows the installation of a package. */
  function RunInstalled(p: Product): (text: string)
  {
    match p
    case Server => ServerRunInstalled
    case Client => ClientPackageAlias
  }

  /** The Kubernetes entry, the same for every architecture. */
  function KubernetesEntry(p: Product): (e: DownloadJson)
  {
    match p
    case Server => TextOnly(ServerKubernetesText)
    case Client => TextOnly(ClientKubernetesText)
  }

  /** The Docker entry, the same for every architecture. */
  function DockerEntry(p: Product): (e: DownloadJson)
  {
    match p
    case Server => TextOnly(ServerDockerText)
    case Client => TextOnly(ClientDockerText)
  }

  /** The Linux entry for architecture `a`: the binary, the RPM and the
      Debian package, each with its checksum URL and install text; the
      packages carry the package name ("mcli" for the client). */
  function LinuxEntry(p: Product, semVerTag: string, a: string): (e: DownloadJson)
  {
    var name := AppName(p);
    var pkg := Packaging.PackageName(name);
    var dir := ReleaseUrl(p) + "linux-" + a + "/";
    var rpm := RpmFileName(pkg, semVerTag, Arch.RpmArch(a));
    var deb := DebFileName(pkg, semVerTag, Arch.DebArch(a));
    DownloadJson("",
      Some(Record("wget " + dir + name + "\nchmod +x " + name + "\n" + RunBinary(p), dir + name)),
      Some(Record("dnf install " + dir + rpm + "\n" + RunInstalled(p), dir + rpm)),
      Some(Record("wget " + dir + deb + "\ndpkg -i " + deb + "\n" + RunInstalled(p), dir + deb)),
      None)
  }

  /** The Homebrew instructions. */
  function BrewText(p: Product): (text: string)
  {
    match p
    case Server => ServerBrewText
    case Client => ClientBrewText
  }

  /** The macOS entry for architecture `a`: a binary record and a Homebrew
      record for the same file. */
  function MacEntry(p: Product, a: string): (e: DownloadJson)
  {
    var name := AppName(p);
    var dir := ReleaseUrl(p) + "darwin-" + a + "/";
    DownloadJson("",
      Some(Record("curl --progress-bar -O " + dir + name + "\nchmod +x " + name + "\n" + RunBinary(p), dir + name)),
      None, None,
      Some(Record(BrewText(p), dir + name)))
  }

  /** The release directory the Windows instructions download from: the
      client's text names the older host while its download URL is on the
      current one; both are kept as they are. */
  function WindowsTextRelease(p: Product): (url: string)
  {
    match p
    case Server => ServerRelease
    case Client => LegacyClientRelease
  }

  /** The steps after the Windows download. */
  function WindowsSteps(p: Product): (text: string)
  {
    match p
    case Server => ServerWindowsSteps
    case Client => ClientWindowsSteps
  }

  /** The Windows entry for architecture `a`: a binary record only. */
  function WindowsEntry(p: Product, a: string): (e: DownloadJson)
  {
    var exe := AppName(p) + ".exe";
    var sub := "windows-" + a + "/" + exe;
    DownloadJson("",
      Some(Record(WebRequest + WindowsTextRelease(p) + sub + OutFile + exe + "\"" + WindowsSteps(p),
                  ReleaseUrl(p) + sub)),
      None, None, None)
  }

  /** The entries of a platform for the architectures `archs`: one entry
      per architecture, as `entry` gives it. */
  function Section(archs: seq<string>, entry: string -> DownloadJson): (s: map<string, DownloadJson>)
    ensures s.Keys == set a | a in archs
    ensures forall a :: a in archs ==> s[a] == entry(a)
  {
    if archs == [] then map[]
    else
      var last := archs[|archs| - 1];
      assert archs == archs[..|archs| - 1] + [last];
      Section(archs[..|archs| - 1], entry)[last := entry(last)]
  }

  /** A section grows by one entry when one more architecture is visited. */
  lemma SectionStep(archs: seq<string>, a: string, entry: string -> DownloadJson)
    ensures Section(archs + [a], entry) == Section(archs, entry)[a := entry(a)]
  {
    assert (archs + [a])[..|archs|] == archs;
  }

  /** The entry makers of each platform, by product and architecture. */
  function KubernetesEntries(): (entries: Product -> string -> DownloadJson)
  {
    p => _ => KubernetesEntry(p)
  }

  function DockerEntries(): (entries: Product -> string -> DownloadJson)
  {
    p => _ => DockerEntry(p)
  }

  function LinuxEntries(semVerTag: string): (entries: Product -> string -> DownloadJson)
  {
    p => a => LinuxEntry(p, semVerTag, a)
  }

  function MacEntries(): (entries: Product -> string -> DownloadJson)
  {
    p => a => MacEntry(p, a)
  }

  function WindowsEntries(): (entries: Product -> string -> DownloadJson)
  {
    p => a => WindowsEntry(p, a)
  }

  /** One platform's map once its loop has visited `archs`: nothing for an
      application without a product, otherwise the product's key and under
      it one entry per visited architecture. */
  function Stage(app: string, archs: seq<string>, entries: Product -> string -> DownloadJson): (m: Platform)
  {
    match ProductOf(app)
    case None => map[]
    case Some(p) => map[Key(p) := Section(archs, entries(p))]
  }

  /** The manifest once the Linux loop has visited `linuxDone`, the macOS
      loop `macDone` and the Windows loop `winDone`. */
  function Filled(semVerTag: string, app: string, linuxDone: seq<string>, macDone: seq<string>,
                  winDone: seq<string>): (d: DownloadsJson)
  {
    DownloadsJson(
      Stage(app, linuxDone, KubernetesEntries()),
      Stage(app, linuxDone, DockerEntries()),
      Stage(app, linuxDone, LinuxEntries(semVerTag)),
      Stage(app, macDone, MacEntries()),
      Stage(app, winDone, WindowsEntries()))
  }

  /** The complete manifest for a release. */
  function Manifest(semVerTag: string, app: string): (d: DownloadsJson)
  {
    Filled(semVerTag, app, Arch.LinuxArches, Arch.MacArches, Arch.WindowsArches)
  }

  /** `m[product][arch] = e` on a nested map whose product map exists. */
  function Put(m: Platform, product: string, arch: string, e: DownloadJson): (updated: Platform)
    requires product in m
  {
    m[product := m[product][arch := e]]
  }

  /** One loop step on one platform: the product's map exists and gains
      the architecture's entry. */
  lemma StageStep(app: string, archs: seq<string>, a: string, entries: Product -> string -> DownloadJson)
    requires ProductOf(app).Some?
    ensures var p := ProductOf(app).value;
            Key(p) in Stage(app, archs, entries) &&
            Put(Stage(app, archs, entries), Key(p), a, entries(p)(a)) == Stage(app, archs + [a], entries)
  {
    SectionStep(archs, a, entries(ProductOf(app).value));
  }

  /** A platform's map before its loop runs: the product key of "minio" or
      "mc" with nothing under it, and nothing for any other application. */
  function NoEntries(app: string): (m: Platform)
  {
    match ProductOf(app)
    case None => map[]
    case Some(p) => map[Key(p) := map[]]
  }

  /** Before its loop has run, a platform has no entries. */
  lemma StageEmpty(app: string, entries: Product -> string -> DownloadJson)
    ensures Stage(app, [], entries) == NoEntries(app)
  {
    match ProductOf(app)
    case None =>
    case Some(p) => assert Section([], entries(p)) == map[];
  }

  /** The five platform maps before the loops: empty, then the product map
      of "minio" or "mc" under each platform. */
  method NewDownloadsJson(appName: string) returns (d: DownloadsJson)
    ensures var none := NoEntries(appName); d == DownloadsJson(none, none, none, none, none)
  {
    d := DownloadsJson(map[], map[], map[], map[], map[]);
    if appName == "minio" {
      var k := Key(Server);
      d := DownloadsJson(d.kubernetes[k := map[]], d.docker[k := map[]], d.linux[k := map[]],
                         d.macOS[k := map[]], d.windows[k := map[]]);
    }
    if appName == "mc" {
      var k := Key(Client);
      d := DownloadsJson(d.kubernetes[k := map[]], d.docker[k := map[]], d.linux[k := map[]],
                         d.macOS[k := map[]], d.windows[k := map[]]);
    }
  }

  /** The Linux loop: for every Linux architecture, the Kubernetes, Docker
      and Linux entries of the application's product. */
  method FillLinux(d0: DownloadsJson, semVerTag: string, appName: string) returns (d: DownloadsJson)
    requires d0.kubernetes == Stage(appName, [], KubernetesEntries())
    requires d0.docker == Stage(appName, [], DockerEntries())
    requires d0.linux == Stage(appName, [], LinuxEntries(semVerTag))
    ensures d == d0.(kubernetes := Stage(appName, Arch.LinuxArches, KubernetesEntries()),
                     docker := Stage(appName, Arch.LinuxArches, DockerEntries()),
                     linux := Stage(appName, Arch.LinuxArches, LinuxEntries(semVerTag)))
  {
    var kubernetes, docker, linux := d0.kubernetes, d0.docker, d0.linux;
    var linuxArches := Arch.LinuxArches;
    for i := 0 to |linuxArches|
      invariant kubernetes == Stage(appName, linuxArches[..i], KubernetesEntries())
      invariant docker == Stage(appName, linuxArches[..i], DockerEntries())
      invariant linux == Stage(appName, linuxArches[..i], LinuxEntries(semVerTag))
    {
      var linuxArch := linuxArches[i];
      assert linuxArches[..i + 1] == linuxArches[..i] + [linuxArch];
      if appName == "minio" {
        StageStep(appName, linuxArches[..i], linuxArch, KubernetesEntries());
        StageStep(appName, linuxArches[..i], linuxArch, DockerEntries());
        StageStep(appName, linuxArches[..i], linuxArch, LinuxEntries(semVerTag));
        var k := Key(Server);
        kubernetes := Put(kubernetes, k, linuxArch, KubernetesEntry(Server));
        docker := Put(docker, k, linuxArch, DockerEntry(Server));
        linux := Put(linux, k, linuxArch, LinuxEntry(Server, semVerTag, linuxArch));
      }
      if appName == "mc" {
        StageStep(appName, linuxArches[..i], linuxArch, KubernetesEntries());
        StageStep(appName, linuxArches[..i], linuxArch, DockerEntries());
        StageStep(appName, linuxArches[..i], linuxArch, LinuxEntries(semVerTag));
        var k := Key(Client);
        kubernetes := Put(kubernetes, k, linuxArch, KubernetesEntry(Client));
        docker := Put(docker, k, linuxArch, DockerEntry(Client));
        linux := Put(linux, k, linuxArch, LinuxEntry(Client, semVerTag, linuxArch));
      }
    }
    assert linuxArches[..|linuxArches|] == linuxArches;
    d := d0.(kubernetes := kubernetes, docker := docker, linux := linux);
  }

  /** The macOS loop: for every macOS architecture, the macOS entry of the
      application's product. */
  method FillMac(d0: DownloadsJson, appName: string) returns (d: DownloadsJson)
    requires d0.macOS == Stage(appName, [], MacEntries())
    ensures d == d0.(macOS := Stage(appName, Arch.MacArches, MacEntries()))
  {
    var macOS := d0.macOS;
    var macArches := Arch.MacArches;
    for i := 0 to |macArches|
      invariant macOS == Stage(appName, macArches[..i], MacEntries())
    {
      var macArch := macArches[i];
      assert macArches[..i + 1] == macArches[..i] + [macArch];
      if appName == "minio" {
        StageStep(appName, macArches[..i], macArch, MacEntries());
        macOS := Put(macOS, Key(Server), macArch, MacEntry(Server, macArch));
      }
      if appName == "mc" {
        StageStep(appName, macArches[..i], macArch, MacEntries());
        macOS := Put(macOS, Key(Client), macArch, MacEntry(Client, macArch));
      }
    }
    assert macArches[..|macArches|] == macArches;
    d := d0.(macOS := macOS);
  }

  /** The Windows loop: for every Windows architecture, the Windows entry
      of the application's product. */
  method FillWindows(d0: DownloadsJson, appName: string) returns (d: DownloadsJson)
    requires d0.windows == Stage(appName, [], WindowsEntries())
    ensures d == d0.(windows := Stage(appName, Arch.WindowsArches, WindowsEntries()))
  {
    var windows := d0.windows;
    var winArches := Arch.WindowsArches;
    for i := 0 to |winArches|
      invariant windows == Stage(appName, winArches[..i], WindowsEntries())
    {
      var winArch := winArches[i];
      assert winArches[..i + 1] == winArches[..i] + [winArch];
      if appName == "minio" {
        StageStep(appName, winArches[..i], winArch, WindowsEntries());
        windows := Put(windows, Key(Server), winArch, WindowsEntry(Server, winArch));
      }
      if appName == "mc" {
        StageStep(appName, winArches[..i], winArch, WindowsEntries());
        windows := Put(windows, Key(Client), winArch, WindowsEntry(Client, winArch));
      }
    }
    assert winArches[..|winArches|] == winArches;
    d := d0.(windows := windows);
  }

  /** `generateDownloadsJSON`: the five platform maps with the product map
      of the application, then the Linux, macOS and Windows loops. */
  method GenerateDownloadsJson(semVerTag: string, appName: string) returns (d: DownloadsJson)
    ensures d == Manifest(semVerTag, appName)
  {
    d := NewDownloadsJson(appName);
    StageEmpty(appName, KubernetesEntries());
    StageEmpty(appName, DockerEntries());
    StageEmpty(appName, LinuxEntries(semVerTag));
    StageEmpty(appName, MacEntries());
    StageEmpty(appName, WindowsEntries());
    d := FillLinux(d, semVerTag, appName);
    d := FillMac(d, appName);
    d := FillWindows(d, appName);
  }

  /** A present record's checksum URL is its download URL followed by
      ".sha256sum". */
  predicate Sidecar(r: Option<DlInfo>)
  {
    r.Some? ==> r.value.checksum == Packaging.ChecksumPath(r.value.download)
  }

  /** Every record of an entry has its checksum sidecar. */
  predicate Sidecars(e: DownloadJson)
  {
    Sidecar(e.bin) && Sidecar(e.rpm) && Sidecar(e.deb) && Sidecar(e.homebrew)
  }

  /** The Kubernetes and Docker entries are instructions only: a non-empty
      text and no download record. */
  lemma ContainerEntries(p: Product)
    ensures var k := KubernetesEntry(p);
            k.text != "" && k.bin.None? && k.rpm.None? && k.deb.None? && k.homebrew.None?
    ensures var k := DockerEntry(p);
            k.text != "" && k.bin.None? && k.rpm.None? && k.deb.None? && k.homebrew.None?
  {
    assert |ServerKubernetesText| > 0 && |ClientKubernetesText| > 0;
    assert |ServerDockerText| > 0 && |ClientDockerText| > 0;
  }

  /** A Linux entry has no text of its own and no Homebrew record; its
      binary, RPM and Debian records download from the architecture's
      directory under the product's release directory, the packages under
      the conventional file names built from the package name, the version,
      and the architecture renamed by the RPM or Debian table. */
  lemma LinuxRecords(p: Product, semVerTag: string, a: string)
    ensures var e := LinuxEntry(p, semVerTag, a);
            var dir := ReleaseUrl(p) + "linux-" + a + "/";
            var pkg := Packaging.PackageName(AppName(p));
            && e.text == "" && e.homebrew.None?
            && e.bin.Some? && e.bin.value.download == dir + AppName(p)
            && e.rpm.Some? && e.rpm.value.download == dir + RpmFileName(pkg, semVerTag, Arch.RpmArch(a))
            && e.deb.Some? && e.deb.value.download == dir + DebFileName(pkg, semVerTag, Arch.DebArch(a))
    ensures Sidecars(LinuxEntry(p, semVerTag, a))
  {
  }

  /** Regrouping a URL as the release directory followed by the path
      below it. */
  lemma BelowRelease(release: string, a: string, file: string)
    ensures release + "linux-" + a + "/" + file == release + ("linux-" + a + "/" + file)
  {
  }

  /** The target path as `<app>-release/` followed by the path below it. */
  lemma BelowTarget(app: string, a: string, file: string)
    requires file != ""
    ensures Packaging.TargetPath(app, a, file) == app + "-release/" + ("linux-" + a + "/" + file)
  {
    Packaging.TargetPathShape(app, a, file);
    assert "-release" + "/" == "-release/";
  }

  /** If nfpm names the packages as the manifest does, each package the
      manifest advertises is the file `doPackage` writes: below the
      product's release directory the download URL has the same relative
      path (`linux-<arch>/<file>`) as the target path has below
      `<app>-release`. `rpmName` and `debName` stand for the names nfpm's
      `ConventionalFileName` gives the two packages. */
  lemma PackagesPublished(p: Product, semVerTag: string, a: string, rpmName: string, debName: string)
    requires rpmName == RpmFileName(Packaging.PackageName(AppName(p)), semVerTag, Arch.RpmArch(a))
    requires debName == DebFileName(Packaging.PackageName(AppName(p)), semVerTag, Arch.DebArch(a))
    ensures var e := LinuxEntry(p, semVerTag, a);
            var rel := "linux-" + a + "/" + rpmName;
            && e.rpm.Some? && e.rpm.value.download == ReleaseUrl(p) + rel
            && Packaging.TargetPath(AppName(p), a, rpmName) == AppName(p) + "-release/" + rel
    ensures var e := LinuxEntry(p, semVerTag, a);
            var rel := "linux-" + a + "/" + debName;
            && e.deb.Some? && e.deb.value.download == ReleaseUrl(p) + rel
            && Packaging.TargetPath(AppName(p), a, debName) == AppName(p) + "-release/" + rel
  {
    BelowRelease(ReleaseUrl(p), a, rpmName);
    BelowRelease(ReleaseUrl(p), a, debName);
    BelowTarget(AppName(p), a, rpmName);
    BelowTarget(AppName(p), a, debName);
  }

  /** On amd64 the RPM carries "x86_64" and the Debian package "amd64",
      and the client's packages are named "mcli". */
  lemma Amd64Packages(semVerTag: string)
    ensures var e := LinuxEntry(Server, semVerTag, "amd64");
            && e.rpm.Some? && e.rpm.value.download == ServerRelease + "linux-" + "amd64" + "/" + RpmFileName("minio", semVerTag, "x86_64")
            && e.deb.Some? && e.deb.value.download == ServerRelease + "linux-" + "amd64" + "/" + DebFileName("minio", semVerTag, "amd64")
    ensures var e := LinuxEntry(Client, semVerTag, "amd64");
            && e.rpm.Some? && e.rpm.value.download == ClientRelease + "linux-" + "amd64" + "/" + RpmFileName("mcli", semVerTag, "x86_64")
            && e.deb.Some? && e.deb.value.download == ClientRelease + "linux-" + "amd64" + "/" + DebFileName("mcli", semVerTag, "amd64")
  {
    LinuxRecords(Server, semVerTag, "amd64");
    LinuxRecords(Client, semVerTag, "amd64");
    Arch.RpmNames();
    Arch.DebNames();
  }

  /** A macOS entry has a binary and a Homebrew record for the same file,
      with the same checksum, and nothing else. */
  lemma MacRecords(p: Product, a: string)
    ensures var e := MacEntry(p, a);
            && e.text == "" && e.rpm.None? && e.deb.None?
            && e.bin.Some? && e.homebrew.Some?
            && e.bin.value.download == ReleaseUrl(p) + "darwin-" + a + "/" + AppName(p)
            && e.homebrew.value.download == e.bin.value.download
            && e.homebrew.value.checksum == e.bin.value.checksum
    ensures Sidecars(MacEntry(p, a))
  {
  }

  /** The file ending of a download. */
  predicate EndsWith(s: string, suffix: string)
  {
    |suffix| <= |s| && s[|s| - |suffix|..] == suffix
  }

  /** A URL ends with the suffix of its last path element. */
  lemma EndsWithNested(release: string, dir: string, name: string, suffix: string)
    ensures EndsWith(release + (dir + (name + suffix)), suffix)
  {
    var s := release + (dir + (name + suffix));
    assert s == release + dir + name + suffix;
    assert s[|release + dir + name|..] == suffix;
  }

  /** A Windows entry has only a binary record, for the ".exe" file in the
      architecture's directory. */
  lemma WindowsRecords(p: Product, a: string)
    ensures var e := WindowsEntry(p, a);
            && e.text == "" && e.rpm.None? && e.deb.None? && e.homebrew.None? && e.bin.Some?
            && e.bin.value.download == ReleaseUrl(p) + ("windows-" + a + "/" + (AppName(p) + ".exe"))
            && EndsWith(e.bin.value.download, ".exe")
    ensures Sidecars(WindowsEntry(p, a))
  {
    EndsWithNested(ReleaseUrl(p), "windows-" + a + "/", AppName(p), ".exe");
  }

  /** The product keys of an application: the server's for "minio", the
      client's for "mc", none for any other name. */
  function ProductKeys(app: string): (keys: set<string>)
  {
    match ProductOf(app)
    case None => {}
    case Some(p) => {Key(p)}
  }

  /** Whatever its loop has visited, a platform holds exactly the
      application's product keys. */
  lemma StageKeys(app: string, archs: seq<string>, entries: Product -> string -> DownloadJson)
    ensures Stage(app, archs, entries).Keys == ProductKeys(app)
  {
  }

  /** The product keys present under each of the five platforms. */
  predicate HasProducts(d: DownloadsJson, keys: set<string>)
  {
    d.kubernetes.Keys == keys && d.docker.Keys == keys && d.linux.Keys == keys
    && d.macOS.Keys == keys && d.windows.Keys == keys
  }

  /** "minio" gets the server key under every platform and "mc" the client
      key; any other application gets an empty manifest, and the two
      products never appear together. */
  lemma ManifestProducts(semVerTag: string, app: string)
    ensures HasProducts(Manifest(semVerTag, app), ProductKeys(app))
    ensures app == "minio" ==> HasProducts(Manifest(semVerTag, app), {"MinIO Server"})
    ensures app == "mc" ==> HasProducts(Manifest(semVerTag, app), {"MinIO Client"})
    ensures app != "minio" && app != "mc" ==> HasProducts(Manifest(semVerTag, app), {})
  {
    StageKeys(app, Arch.LinuxArches, KubernetesEntries());
    StageKeys(app, Arch.LinuxArches, DockerEntries());
    StageKeys(app, Arch.LinuxArches, LinuxEntries(semVerTag));
    StageKeys(app, Arch.MacArches, MacEntries());
    StageKeys(app, Arch.WindowsArches, WindowsEntries());
  }

  /** Under its product, a platform maps exactly the visited architectures,
      each to its entry. */
  lemma StageEntries(app: string, p: Product, archs: seq<string>, entries: Product -> string -> DownloadJson)
    requires ProductOf(app) == Some(p)
    ensures Key(p) in Stage(app, archs, entries)
    ensures Stage(app, archs, entries)[Key(p)].Keys == set a | a in archs
    ensures forall a :: a in archs ==> Stage(app, archs, entries)[Key(p)][a] == entries(p)(a)
  {
  }

  /** For "minio" and "mc", the product's map holds exactly the Linux
      architectures under Kubernetes, Docker and Linux, the macOS ones under
      macOS and the Windows ones under Windows. */
  lemma ManifestArches(semVerTag: string, app: string, p: Product)
    requires ProductOf(app) == Some(p)
    ensures var m := Manifest(semVerTag, app);
            && Key(p) in m.kubernetes && Key(p) in m.docker && Key(p) in m.linux
            && m.kubernetes[Key(p)].Keys == m.docker[Key(p)].Keys == m.linux[Key(p)].Keys
               == set a | a in Arch.LinuxArches
    ensures var m := Manifest(semVerTag, app);
            && Key(p) in m.macOS && m.macOS[Key(p)].Keys == set a | a in Arch.MacArches
            && Key(p) in m.windows && m.windows[Key(p)].Keys == set a | a in Arch.WindowsArches
  {
    StageEntries(app, p, Arch.LinuxArches, KubernetesEntries());
    StageEntries(app, p, Arch.LinuxArches, DockerEntries());
    StageEntries(app, p, Arch.LinuxArches, LinuxEntries(semVerTag));
    StageEntries(app, p, Arch.MacArches, MacEntries());
    StageEntries(app, p, Arch.WindowsArches, WindowsEntries());
  }

  /** The entries the manifest holds for a Linux architecture: the
      product's Kubernetes, Docker and Linux entries. */
  lemma ManifestLinuxEntries(semVerTag: string, app: string, p: Product, a: string)
    requires ProductOf(app) == Some(p) && a in Arch.LinuxArches
    ensures var m := Manifest(semVerTag, app);
            && Key(p) in m.kubernetes && a in m.kubernetes[Key(p)] && m.kubernetes[Key(p)][a] == KubernetesEntry(p)
            && Key(p) in m.docker && a in m.docker[Key(p)] && m.docker[Key(p)][a] == DockerEntry(p)
            && Key(p) in m.linux && a in m.linux[Key(p)] && m.linux[Key(p)][a] == LinuxEntry(p, semVerTag, a)
  {
    StageEntries(app, p, Arch.LinuxArches, KubernetesEntries());
    StageEntries(app, p, Arch.LinuxArches, DockerEntries());
    StageEntries(app, p, Arch.LinuxArches, LinuxEntries(semVerTag));
  }

  /** The entry the manifest holds for a macOS architecture. */
  lemma ManifestMacEntry(semVerTag: string, app: string, p: Product, a: string)
    requires ProductOf(app) == Some(p) && a in Arch.MacArches
    ensures var m := Manifest(semVerTag, app);
            Key(p) in m.macOS && a in m.macOS[Key(p)] && m.macOS[Key(p)][a] == MacEntry(p, a)
  {
    StageEntries(app, p, Arch.MacArches, MacEntries());
  }

  /** The entry the manifest holds for a Windows architecture. */
  lemma ManifestWindowsEntry(semVerTag: string, app: string, p: Product, a: string)
    requires ProductOf(app) == Some(p) && a in Arch.WindowsArches
    ensures var m := Manifest(semVerTag, app);
            Key(p) in m.windows && a in m.windows[Key(p)] && m.windows[Key(p)][a] == WindowsEntry(p, a)
  {
    StageEntries(app, p, Arch.WindowsArches, WindowsEntries());
  }

  /** Every entry of a platform has its checksum sidecars. */
  predicate PlatformSidecars(m: Platform)
  {
    forall k, a :: k in m && a in m[k] ==> Sidecars(m[k][a])
  }

  /** A platform built from entries that all have their sidecars has them
      everywhere. */
  lemma StageSidecars(app: string, archs: seq<string>, entries: Product -> string -> DownloadJson)
    requires forall p, a :: Sidecars(entries(p)(a))
    ensures PlatformSidecars(Stage(app, archs, entries))
  {
  }

  /** Every record of the manifest, on every platform, announces the
      checksum sidecar of its own download. */
  lemma ManifestSidecars(semVerTag: string, app: string)
    ensures var m := Manifest(semVerTag, app);
            && PlatformSidecars(m.kubernetes) && PlatformSidecars(m.docker) && PlatformSidecars(m.linux)
            && PlatformSidecars(m.macOS) && PlatformSidecars(m.windows)
  {
    forall p: Product, a: string
      ensures Sidecars(KubernetesEntries()(p)(a)) && Sidecars(DockerEntries()(p)(a))
      ensures Sidecars(LinuxEntries(semVerTag)(p)(a))
      ensures Sidecars(MacEntries()(p)(a)) && Sidecars(WindowsEntries()(p)(a))
    {
      ContainerEntries(p);
      LinuxRecords(p, semVerTag, a);
      MacRecords(p, a);
      WindowsRecords(p, a);
    }
    StageSidecars(app, Arch.LinuxArches, KubernetesEntries());
    StageSidecars(app, Arch.LinuxArches, DockerEntries());
    StageSidecars(app, Arch.LinuxArches, LinuxEntries(semVerTag));
    StageSidecars(app, Arch.MacArches, MacEntries());
    StageSidecars(app, Arch.WindowsArches, WindowsEntries());
  }
}
