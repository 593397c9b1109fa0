/** The manifest's records spelled out as `generateDownloadsJSON` writes
    them: each URL as one `fmt.Sprintf` format with the architecture, the
    version and the package architecture put in. Each text keeps its first
    command word ("wget ", "dnf install ", ...) as its own literal before
    the URL. The fixed command lines that end the texts are the named
    constants of `Downloads`. */
module AsWritten {
  import opened Downloads
  import Arch

  // Regrouping lemmas: they state nothing about the manifest. Each one
  // reassociates a concatenation and replaces adjacent literal pieces by
  // their join.

  lemma FileUrl(R: string, L: string, G: string, a: string, s: string, n: string, sn: string)
    requires G == R + L && sn == s + n
    ensures R + L + a + s + n == G + a + sn
  {}

  lemma Suffixed(x: string, s: string, t: string, st: string)
    requires st == s + t
    ensures x + s + t == x + st
  {}

  lemma PackageUrl(R: string, L: string, G: string, a: string, s: string, P: string, h: string, sPh: string,
                   v: string, dot: string, r: string, ext: string)
    requires G == R + L && sPh == s + P + h
    ensures (R + L + a + s) + (P + h + v + dot + r + ext) == G + a + sPh + v + dot + r + ext
  {}

  lemma BinaryText(c: string, R: string, L: string, G: string, a: string, s: string, n: string, m: string,
                   e: string, run: string, T: string)
    requires G == R + L && T == s + n + m + n + e
    ensures c + (R + L + a + s) + n + m + n + e + run == c + G + a + T + run
  {}

  lemma RpmText(c: string, R: string, L: string, G: string, a: string, s: string, P: string, h: string,
                v: string, dot: string, r: string, ext: string, nl: string, run: string, sPh: string,
                extnl: string)
    requires G == R + L && sPh == s + P + h && extnl == ext + nl
    ensures c + (R + L + a + s) + (P + h + v + dot + r + ext) + nl + run
         == c + G + a + sPh + v + dot + r + extnl + run
  {}

  lemma DebText(c: string, R: string, L: string, G: string, a: string, s: string, P: string, h: string,
                v: string, u: string, d: string, ext: string, k: string, nl: string, run: string,
                sPh: string, mid: string, extnl: string)
    requires G == R + L && sPh == s + P + h && mid == ext + k + P + h && extnl == ext + nl
    ensures c + (R + L + a + s) + (P + h + v + u + d + ext) + k + (P + h + v + u + d + ext) + nl + run
         == c + G + a + sPh + v + u + d + mid + v + u + d + extnl + run
  {}

  lemma ExeUrl(R: string, L: string, G: string, a: string, s: string, n: string, x: string, snx: string)
    requires G == R + L && snx == s + n + x
    ensures R + (L + a + s + (n + x)) == G + a + snx
  {}

  lemma ExeText(c: string, R: string, L: string, G: string, a: string, s: string, n: string, x: string,
                o: string, q: string, run: string, T: string)
    requires G == R + L && T == s + n + x + o + n + x + q
    ensures c + R + (L + a + s + (n + x)) + o + (n + x) + q + run == c + G + a + T + run
  {}

  // The literal joins the regrouping needs, each with a short right operand.

  lemma ServerDirectories()
    ensures ServerRelease + "linux-" == "https://dl.min.io/server/minio/release/linux-"
    ensures ServerRelease + "darwin-" == "https://dl.min.io/server/minio/release/darwin-"
    ensures ServerRelease + "windows-" == "https://dl.min.io/server/minio/release/windows-"
  {}

  lemma ClientDirectories()
    ensures ClientRelease + "linux-" == "https://dl.min.io/client/mc/release/linux-"
    ensures ClientRelease + "darwin-" == "https://dl.min.io/client/mc/release/darwin-"
    ensures ClientRelease + "windows-" == "https://dl.min.io/client/mc/release/windows-"
    ensures LegacyClientRelease + "windows-" == "https://dl.minio.io/client/mc/release/windows-"
  {}

  lemma ServerPieces()
    ensures "/" + "minio" == "/minio"
    ensures "/minio" + ".sha256sum" == "/minio.sha256sum"
    ensures "/" + "minio" + "\nchmod +x " + "minio" + "\n" == "/minio\nchmod +x minio\n"
    ensures "/" + "minio" + "-" == "/minio-"
    ensures "/" + "minio" + "_" == "/minio_"
    ensures ".deb" + "\ndpkg -i " + "minio" + "_" == ".deb\ndpkg -i minio_"
  {}

  lemma ClientPieces()
    ensures "/" + "mc" == "/mc"
    ensures "/mc" + ".sha256sum" == "/mc.sha256sum"
    ensures "/" + "mc" + "\nchmod +x " + "mc" + "\n" == "/mc\nchmod +x mc\n"
    ensures "/" + "mcli" + "-" == "/mcli-"
    ensures "/" + "mcli" + "_" == "/mcli_"
    ensures ".deb" + "\ndpkg -i " + "mcli" + "_" == ".deb\ndpkg -i mcli_"
  {}

  lemma PackageSuffixes()
    ensures ".rpm" + ".sha256sum" == ".rpm.sha256sum"
    ensures ".deb" + ".sha256sum" == ".deb.sha256sum"
    ensures ".rpm" + "\n" == ".rpm\n"
    ensures ".deb" + "\n" == ".deb\n"
  {}

  lemma ServerExePieces()
    ensures "/" + "minio" + ".exe" == "/minio.exe"
    ensures "/minio.exe" + ".sha256sum" == "/minio.exe.sha256sum"
    ensures "/" + "minio" + ".exe" + OutFile + "minio" + ".exe" + "\"" == "/minio.exe\" -OutFile \"C:\\minio.exe\""
  {}

  lemma ClientExePieces()
    ensures "/" + "mc" + ".exe" == "/mc.exe"
    ensures "/mc.exe" + ".sha256sum" == "/mc.exe.sha256sum"
    ensures "/" + "mc" + ".exe" + OutFile + "mc" + ".exe" + "\"" == "/mc.exe\" -OutFile \"C:\\mc.exe\""
  {}

  // The records themselves.

  /** The server's Kubernetes and Docker entries: a text and nothing else. */
  lemma ServerContainers()
    ensures KubernetesEntry(Server) == DownloadJson(
      "kubectl krew install minio\nkubectl minio init\nkubectl minio tenant create tenant1 --servers 4 --volumes 16 --capacity 16Ti",
      None, None, None, None)
    ensures DockerEntry(Server) == DownloadJson(
      "podman run -p 9000:9000 -p 9001:9001 minio/minio server /data --console-address \":9001\"",
      None, None, None, None)
  {}

  /** The client's Kubernetes and Docker entries, one literal per line of
      the text. */
  lemma ClientContainers()
    ensures KubernetesEntry(Client) == DownloadJson(
      "kubectl run my-mc -i --tty --image minio/mc:latest --command -- bash\n"
      + "[root@my-mc /]# mc alias set myminio/ https://minio.default.svc.cluster.local MY-USER MY-PASSWORD\n"
      + "[root@my-mc /]# mc ls myminio/mybucket",
      None, None, None, None)
    ensures DockerEntry(Client) == DownloadJson(
      "podman run --name my-mc --hostname my-mc -it --entrypoint /bin/bash --rm minio/mc\n"
      + "[root@my-mc /]# mc alias set myminio/ https://my-minio-service MY-USER MY-PASSWORD\n"
      + "[root@my-mc /]# mc ls myminio/mybucket",
      None, None, None, None)
  {}

  /** The server's Linux entry: binary, RPM and Debian records. */
  lemma ServerLinux(semVerTag: string, a: string)
    ensures LinuxEntry(Server, semVerTag, a) == DownloadJson("",
      Some(DlInfo(
        "wget " + "https://dl.min.io/server/minio/release/linux-" + a + "/minio\nchmod +x minio\n" + ServerRunBinary,
        "https://dl.min.io/server/minio/release/linux-" + a + "/minio.sha256sum",
        "https://dl.min.io/server/minio/release/linux-" + a + "/minio")),
      Some(DlInfo(
        "dnf install " + "https://dl.min.io/server/minio/release/linux-" + a + "/minio-" + semVerTag + "."
          + Arch.RpmArch(a) + ".rpm\n" + ServerRunInstalled,
        "https://dl.min.io/server/minio/release/linux-" + a + "/minio-" + semVerTag + "." + Arch.RpmArch(a)
          + ".rpm.sha256sum",
        "https://dl.min.io/server/minio/release/linux-" + a + "/minio-" + semVerTag + "." + Arch.RpmArch(a)
          + ".rpm")),
      Some(DlInfo(
        "wget " + "https://dl.min.io/server/minio/release/linux-" + a + "/minio_" + semVerTag + "_"
          + Arch.DebArch(a) + ".deb\ndpkg -i minio_" + semVerTag + "_" + Arch.DebArch(a) + ".deb\n"
          + ServerRunInstalled,
        "https://dl.min.io/server/minio/release/linux-" + a + "/minio_" + semVerTag + "_" + Arch.DebArch(a)
          + ".deb.sha256sum",
        "https://dl.min.io/server/minio/release/linux-" + a + "/minio_" + semVerTag + "_" + Arch.DebArch(a)
          + ".deb")),
      None)
  {
    var R, G := ServerRelease, "https://dl.min.io/server/minio/release/linux-";
    var v, r, d := semVerTag, Arch.RpmArch(a), Arch.DebArch(a);
    ServerDirectories();
    ServerPieces();
    PackageSuffixes();
    FileUrl(R, "linux-", G, a, "/", "minio", "/minio");
    Suffixed(G + a, "/minio", ".sha256sum", "/minio.sha256sum");
    BinaryText("wget ", R, "linux-", G, a, "/", "minio", "\nchmod +x ", "\n", ServerRunBinary,
      "/minio\nchmod +x minio\n");
    PackageUrl(R, "linux-", G, a, "/", "minio", "-", "/minio-", v, ".", r, ".rpm");
    Suffixed(G + a + "/minio-" + v + "." + r, ".rpm", ".sha256sum", ".rpm.sha256sum");
    RpmText("dnf install ", R, "linux-", G, a, "/", "minio", "-", v, ".", r, ".rpm", "\n", ServerRunInstalled,
      "/minio-", ".rpm\n");
    PackageUrl(R, "linux-", G, a, "/", "minio", "_", "/minio_", v, "_", d, ".deb");
    Suffixed(G + a + "/minio_" + v + "_" + d, ".deb", ".sha256sum", ".deb.sha256sum");
    DebText("wget ", R, "linux-", G, a, "/", "minio", "_", v, "_", d, ".deb", "\ndpkg -i ", "\n",
      ServerRunInstalled, "/minio_", ".deb\ndpkg -i minio_", ".deb\n");
  }

  /** The client's Linux entry: the binary is "mc", the packages "mcli". */
  lemma ClientLinux(semVerTag: string, a: string)
    ensures LinuxEntry(Client, semVerTag, a) == DownloadJson("",
      Some(DlInfo(
        "wget " + "https://dl.min.io/client/mc/release/linux-" + a + "/mc\nchmod +x mc\n" + ClientAlias,
        "https://dl.min.io/client/mc/release/linux-" + a + "/mc.sha256sum",
        "https://dl.min.io/client/mc/release/linux-" + a + "/mc")),
      Some(DlInfo(
        "dnf install " + "https://dl.min.io/client/mc/release/linux-" + a + "/mcli-" + semVerTag + "."
          + Arch.RpmArch(a) + ".rpm\n" + ClientPackageAlias,
        "https://dl.min.io/client/mc/release/linux-" + a + "/mcli-" + semVerTag + "." + Arch.RpmArch(a)
          + ".rpm.sha256sum",
        "https://dl.min.io/client/mc/release/linux-" + a + "/mcli-" + semVerTag + "." + Arch.RpmArch(a)
          + ".rpm")),
      Some(DlInfo(
        "wget " + "https://dl.min.io/client/mc/release/linux-" + a + "/mcli_" + semVerTag + "_"
          + Arch.DebArch(a) + ".deb\ndpkg -i mcli_" + semVerTag + "_" + Arch.DebArch(a) + ".deb\n"
          + ClientPackageAlias,
        "https://dl.min.io/client/mc/release/linux-" + a + "/mcli_" + semVerTag + "_" + Arch.DebArch(a)
          + ".deb.sha256sum",
        "https://dl.min.io/client/mc/release/linux-" + a + "/mcli_" + semVerTag + "_" + Arch.DebArch(a)
          + ".deb")),
      None)
  {
    var R, G := ClientRelease, "https://dl.min.io/client/mc/release/linux-";
    var v, r, d := semVerTag, Arch.RpmArch(a), Arch.DebArch(a);
    ClientDirectories();
    ClientPieces();
    PackageSuffixes();
    FileUrl(R, "linux-", G, a, "/", "mc", "/mc");
    Suffixed(G + a, "/mc", ".sha256sum", "/mc.sha256sum");
    BinaryText("wget ", R, "linux-", G, a, "/", "mc", "\nchmod +x ", "\n", ClientAlias, "/mc\nchmod +x mc\n");
    PackageUrl(R, "linux-", G, a, "/", "mcli", "-", "/mcli-", v, ".", r, ".rpm");
    Suffixed(G + a + "/mcli-" + v + "." + r, ".rpm", ".sha256sum", ".rpm.sha256sum");
    RpmText("dnf install ", R, "linux-", G, a, "/", "mcli", "-", v, ".", r, ".rpm", "\n", ClientPackageAlias,
      "/mcli-", ".rpm\n");
    PackageUrl(R, "linux-", G, a, "/", "mcli", "_", "/mcli_", v, "_", d, ".deb");
    Suffixed(G + a + "/mcli_" + v + "_" + d, ".deb", ".sha256sum", ".deb.sha256sum");
    DebText("wget ", R, "linux-", G, a, "/", "mcli", "_", v, "_", d, ".deb", "\ndpkg -i ", "\n",
      ClientPackageAlias, "/mcli_", ".deb\ndpkg -i mcli_", ".deb\n");
  }

  /** The server's macOS entry: a binary and a Homebrew record. */
  lemma ServerMac(a: string)
    ensures MacEntry(Server, a) == DownloadJson("",
      Some(DlInfo(
        "curl --progress-bar -O " + "https://dl.min.io/server/minio/release/darwin-" + a + "/minio\nchmod +x minio\n"
          + ServerRunBinary,
        "https://dl.min.io/server/minio/release/darwin-" + a + "/minio.sha256sum",
        "https://dl.min.io/server/minio/release/darwin-" + a + "/minio")),
      None, None,
      Some(DlInfo(
        "brew install minio/stable/minio\n" + ServerRunInstalled,
        "https://dl.min.io/server/minio/release/darwin-" + a + "/minio.sha256sum",
        "https://dl.min.io/server/minio/release/darwin-" + a + "/minio")))
  {
    var R, G := ServerRelease, "https://dl.min.io/server/minio/release/darwin-";
    ServerDirectories();
    ServerPieces();
    FileUrl(R, "darwin-", G, a, "/", "minio", "/minio");
    Suffixed(G + a, "/minio", ".sha256sum", "/minio.sha256sum");
    BinaryText("curl --progress-bar -O ", R, "darwin-", G, a, "/", "minio", "\nchmod +x ", "\n", ServerRunBinary,
      "/minio\nchmod +x minio\n");
  }

  /** The client's macOS entry: a binary and a Homebrew record. */
  lemma ClientMac(a: string)
    ensures MacEntry(Client, a) == DownloadJson("",
      Some(DlInfo(
        "curl --progress-bar -O " + "https://dl.min.io/client/mc/release/darwin-" + a + "/mc\nchmod +x mc\n"
          + ClientAlias,
        "https://dl.min.io/client/mc/release/darwin-" + a + "/mc.sha256sum",
        "https://dl.min.io/client/mc/release/darwin-" + a + "/mc")),
      None, None,
      Some(DlInfo(
        "brew install minio/stable/mc\n" + ClientAlias,
        "https://dl.min.io/client/mc/release/darwin-" + a + "/mc.sha256sum",
        "https://dl.min.io/client/mc/release/darwin-" + a + "/mc")))
  {
    var R, G := ClientRelease, "https://dl.min.io/client/mc/release/darwin-";
    ClientDirectories();
    ClientPieces();
    FileUrl(R, "darwin-", G, a, "/", "mc", "/mc");
    Suffixed(G + a, "/mc", ".sha256sum", "/mc.sha256sum");
    BinaryText("curl --progress-bar -O ", R, "darwin-", G, a, "/", "mc", "\nchmod +x ", "\n", ClientAlias,
      "/mc\nchmod +x mc\n");
  }

  /** The server's Windows entry: one binary record. */
  lemma ServerWindows(a: string)
    ensures WindowsEntry(Server, a) == DownloadJson("",
      Some(DlInfo(
        "PS> Invoke-WebRequest -Uri \"" + "https://dl.min.io/server/minio/release/windows-" + a
          + "/minio.exe\" -OutFile \"C:\\minio.exe\"" + ServerWindowsSteps,
        "https://dl.min.io/server/minio/release/windows-" + a + "/minio.exe.sha256sum",
        "https://dl.min.io/server/minio/release/windows-" + a + "/minio.exe")),
      None, None, None)
  {
    var R, G := ServerRelease, "https://dl.min.io/server/minio/release/windows-";
    var T := "/minio.exe\" -OutFile \"C:\\minio.exe\"";
    ServerDirectories();
    ServerExePieces();
    ExeUrl(R, "windows-", G, a, "/", "minio", ".exe", "/minio.exe");
    Suffixed(G + a, "/minio.exe", ".sha256sum", "/minio.exe.sha256sum");
    ExeText(WebRequest, R, "windows-", G, a, "/", "minio", ".exe", OutFile, "\"", ServerWindowsSteps, T);
  }

  /** The client's Windows entry: one binary record, whose text downloads
      from the older host. */
  lemma ClientWindows(a: string)
    ensures WindowsEntry(Client, a) == DownloadJson("",
      Some(DlInfo(
        "PS> Invoke-WebRequest -Uri \"" + "https://dl.minio.io/client/mc/release/windows-" + a
          + "/mc.exe\" -OutFile \"C:\\mc.exe\"" + ClientWindowsSteps,
        "https://dl.min.io/client/mc/release/windows-" + a + "/mc.exe.sha256sum",
        "https://dl.min.io/client/mc/release/windows-" + a + "/mc.exe")),
      None, None, None)
  {
    var R, G := ClientRelease, "https://dl.min.io/client/mc/release/windows-";
    var L, T := "https://dl.minio.io/client/mc/release/windows-", "/mc.exe\" -OutFile \"C:\\mc.exe\"";
    ClientDirectories();
    ClientExePieces();
    ExeUrl(R, "windows-", G, a, "/", "mc", ".exe", "/mc.exe");
    Suffixed(G + a, "/mc.exe", ".sha256sum", "/mc.exe.sha256sum");
    ExeText(WebRequest, LegacyClientRelease, "windows-", L, a, "/", "mc", ".exe", OutFile, "\"",
      ClientWindowsSteps, T);
  }
}
