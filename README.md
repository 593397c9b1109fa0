# pkger: release versions, architecture tables and the download manifest

`pkger` builds the Linux packages (RPM and Debian) of MinIO's server
(`minio`) and client (`mc`) for one release. It also writes the download
manifest that lists, per platform and architecture, where a user fetches
each file and its checksum.

This project models the pure core of `main.go`:

- **`Release`**: `semVerRelease` turns a release tag into a package
  version. It keeps every match of the one-digit pattern `[0-9]`, joins the
  matches with nothing between them, and appends ".0.0".
- **`Arch`**: the Linux, macOS and Windows architecture lists, and the two
  constant tables that give each Go architecture its RPM and Debian name.
- **`Packaging`**: small pure pieces of `doPackage`:
  - the package name, where "mc" is shipped as "mcli";
  - the target path `<app>-release/linux-<arch>/<file>`;
  - the checksum sidecar `<target>.sha256sum`.
- **`Downloads`**: `generateDownloadsJSON`, as imperative Dafny that follows
  the Go code.
  - `NewDownloadsJson` allocates the five platform maps and inserts the
    product map of "minio" or "mc".
  - `FillLinux`, `FillMac` and `FillWindows` are the three loops over the
    architecture lists. Each inserts one entry per architecture into the
    application's product map.
  - `GenerateDownloadsJson` runs them in order. Its postcondition ties the
    result to `Manifest`, a pure description of the finished manifest.
  - The lemmas about `Manifest` state which product keys exist, which
    architectures they hold and which records are present, and how each
    URL is put together. They also state that every checksum URL is its
    download URL followed by ".sha256sum". If nfpm names the packages as
    the manifest does, every package URL points at the file `doPackage`
    writes.
- **`AsWritten`**: every entry of both products, spelled out as
  `main.go` writes it, and proved equal to the entry the model builds.
- **`Strings`**: Go's `strings.Join`, and `strings.Split` for a
  one-character separator, with the round trip between them. `Split` is
  used only in the statements of properties: reading a version back into
  its fields and a target path back into its elements.

Strings are `seq<char>`.

`Downloads` builds each `fmt.Sprintf` URL from named parts: the release
directory, the architecture directory, and the package file name. `Record`
makes a record's checksum URL by appending the sidecar suffix to its
download URL. This lets the URL properties be stated once for both
products. The lemmas of `AsWritten` check the built strings against the ones
`main.go` writes. Each URL and checksum URL there is written as one
`fmt.Sprintf` format, with the architecture, version and package
architecture put in. So for the macOS Homebrew record, the checksum URL and
the shared download are spelled out separately and not taken from the
binary record.

The tests in `main_test.go` and the code disagree on hotfix tags and on
malformed tags:

- The test at `main_test.go:39-52` expects "20250312000000.0.0.hotfix.1" for
  "RELEASE.2025-03-12T00-00-00Z.hotfix.1". The code keeps the hotfix digits
  and returns "202503120000001.0.0".
- The test at `main_test.go:54-62` expects a panic for malformed tags. The
  code never panics.

The model follows the code, and `Release.HotfixSuffixVersion` and
`Release.NoDigitsVersion` state what it does.

The client's Windows instructions download from the older host
`dl.minio.io`, while its download URL is on `dl.min.io`. Both are kept as
written, and no lemma claims they agree.

## Model

| member | source | states |
|---|---|---|
| Strings.JoinThree | main.go:412 | joining three parts puts the separator between each neighbouring pair |
| Strings.Split | main.go:313 | a split always has at least one piece and no piece contains the separator; it reads the version of main.go:313 back into its fields in `Release.SemVerFields` |
| Strings.SplitJoin | main.go:412 | splitting a join on a separator that occurs in no part gives back the parts, which gives back the three elements of the target path in `Packaging.TargetPathSplit` |
| Release.DigitMatches | main.go:46 | `FindAllString` of `[0-9]`: at most one match per character, each a single digit |
| Release.JoinDigitMatches | main.go:313 | joining the single-digit matches with "" gives exactly the digits of the tag, in order |
| Release.SemVerRelease | main.go:312-314 | the version is the digit subsequence of the tag followed by ".0.0", for every tag |
| Release.DigitsAreDigits | main.go:46 | the filter keeps only digits and never lengthens the string |
| Release.SemVerShape | main.go:313 | the version is at least four characters long, ends in ".0.0", and every character before that is a digit |
| Release.SemVerFields | main.go:313 | the version has three dot-separated fields: the tag's digits, "0" and "0" |
| Release.DigitsAppend | main.go:313 | the digit filter distributes over concatenation, so order is kept |
| Release.DigitsFixedPoint | main.go:46 | the filter returns a string unchanged exactly when every character is a digit |
| Release.DigitsCount | main.go:313 | every digit occurs in the result as often as in the tag, and no other character occurs |
| Release.DigitsEmpty | main.go:313 | the filter is empty exactly when the tag has no digit |
| Release.TimestampTagDigits | main.go:313 | the digits of `PREFIX.YYYY-MM-DDTHH-MM-SSZ` are those of its fields in order; the separators add nothing |
| Release.TimestampTagVersion | main.go:312-314 | a digit-free prefix with all-digit fields gives the concatenated timestamp followed by ".0.0" |
| Release.ReleaseTagExample | main_test.go:34-36 | "RELEASE.2025-03-12T00-00-00Z" gives "20250312000000.0.0" |
| Release.EdgeTagExample | main_test.go:44-46 | "EDGE.2025-10-10T05-28-23Z" gives "20251010052823.0.0" |
| Release.HotfixSuffixVersion | main.go:312-314 | a ".hotfix.N" suffix is not kept; its digits are appended before ".0.0" |
| Release.NoDigitsVersion | main.go:312-314 | a tag with no digit gives ".0.0" rather than failing |
| Arch.TablesCoverLinux | main.go:108-120 | both tables are defined on exactly the four Linux architectures |
| Arch.RpmNames | main.go:108-113 | amd64→x86_64, arm64→aarch64, s390x→s390x, ppc64le→ppc64le |
| Arch.DebNames | main.go:115-120 | amd64→amd64, arm64→arm64, s390x→s390x, ppc64le→ppc64el |
| Arch.TablesTotal | main.go:147-152 | every architecture the Linux loop visits has a non-empty name in both tables |
| Arch.TablesMissing | main.go:108-120 | an architecture outside the tables gets "" from both |
| Arch.TablesInjective | main.go:108-120 | neither table gives two Linux architectures the same name |
| Packaging.PackageName | main.go:365-370 | the package name is "mcli" exactly for "mc" and "mcli"; every other name is kept |
| Packaging.PackageNameInjective | main.go:365-370 | two different applications share a package name only if they are "mc" and "mcli" |
| Packaging.NonEmpty | main.go:412 | `filepath.Join` drops the empty elements: what remains is at most as long as the list, holds only elements of it, and none of them is empty |
| Packaging.NonEmptyAppend | main.go:412 | dropping the empty elements of two joined lists gives the non-empty elements of the first followed by those of the second |
| Packaging.TargetPathShape | main.go:412 | the target path is `<app>-release/linux-<arch>/<file>` |
| Packaging.SidecarBeside | main.go:412-429 | the sidecar `<target>.sha256sum` is the target path of the file `<pkg>.sha256sum` in the package's own directory |
| Packaging.TargetPathSplit | main.go:412 | splitting the target path at "/" gives the release directory, the architecture directory and the file |
| Downloads.ProductOf | main.go:131-145 | "minio" is the server, "mc" the client, and every other name has no product |
| Downloads.Section | main.go:147-285 | a platform's product map has exactly the visited architectures as keys, each with its entry |
| Downloads.StageEmpty | main.go:123-145 | a platform whose loop has visited nothing holds exactly `NoEntries`: an empty product map under the application's product key, or nothing for an application other than "minio" and "mc" |
| Downloads.NewDownloadsJson | main.go:123-145 | after the two product inserts, each of the five maps is `NoEntries(appName)` |
| Downloads.FillLinux | main.go:147-219 | the Linux loop sets Kubernetes, Docker and Linux to their finished state; macOS and Windows are untouched |
| Downloads.FillMac | main.go:221-259 | the macOS loop sets macOS to its finished state; all other platforms are untouched |
| Downloads.FillWindows | main.go:260-285 | the Windows loop sets Windows to its finished state; all other platforms are untouched |
| Downloads.GenerateDownloadsJson | main.go:122-287 | the manifest built by the loops is `Manifest(semVerTag, appName)` |
| Downloads.ContainerEntries | main.go:153-195 | Kubernetes and Docker entries carry only a non-empty text and no download record |
| Downloads.LinuxRecords | main.go:162-217 | a Linux entry has no text and no Homebrew record; its binary, RPM and Debian URLs are the architecture directory plus the binary, `pkg-ver.rpmarch.rpm` and `pkg_ver_debarch.deb`; every checksum URL is its download URL followed by ".sha256sum" |
| Downloads.PackagesPublished | main.go:411-412 | given file names equal to the manifest's RPM and Debian names, the advertised package URL below the release directory and the target path below `<app>-release` have the same relative path `linux-<arch>/<file>` |
| Downloads.Amd64Packages | main_test.go:181-201 | on amd64 the server's RPM is `minio-<ver>.x86_64.rpm` and its Debian package `minio_<ver>_amd64.deb`; the client's packages are named "mcli" |
| Downloads.MacRecords | main.go:221-259 | a macOS entry has a binary and a Homebrew record with the same download and checksum, and nothing else; the checksum follows the sidecar rule |
| Downloads.WindowsRecords | main.go:260-285 | a Windows entry has only a binary record; its URL ends in ".exe" and its checksum follows the sidecar rule |
| Downloads.StageKeys | main.go:131-145 | no loop step adds or removes a product key |
| Downloads.ManifestProducts | main.go:122-287 | for "minio" every platform holds exactly the key "MinIO Server", for "mc" exactly "MinIO Client", for any other name no key; the two products never appear together |
| Downloads.StageEntries | main.go:147-285 | under its product, a platform maps exactly the visited architectures, each to its entry |
| Downloads.ManifestArches | main.go:147-285 | Kubernetes, Docker and Linux hold the four Linux architectures; macOS holds amd64 and arm64; Windows holds amd64 |
| Downloads.ManifestLinuxEntries | main.go:147-219 | for a Linux architecture, the manifest holds the product's Kubernetes, Docker and Linux entries |
| Downloads.ManifestMacEntry | main.go:221-259 | for a macOS architecture, the manifest holds the product's macOS entry |
| Downloads.ManifestWindowsEntry | main.go:260-285 | for the Windows architecture, the manifest holds the product's Windows entry |
| Downloads.StageSidecars | main.go:147-285 | a platform built from entries whose records all follow the sidecar rule follows it everywhere |
| Downloads.ManifestSidecars | main.go:147-285 | every record of the manifest, on every platform, has its download URL followed by ".sha256sum" as its checksum URL |
| AsWritten.ServerContainers | main.go:154-161 | the server's Kubernetes and Docker entries are exactly main.go's two texts, with no records |
| AsWritten.ClientContainers | main.go:186-195 | the client's Kubernetes and Docker entries are exactly main.go's two texts, with no records |
| AsWritten.ServerLinux | main.go:162-184 | the server's Linux entry for any architecture and version is main.go's: binary, RPM and Debian records with each download URL, checksum URL and text as the formats write them |
| AsWritten.ClientLinux | main.go:196-218 | the client's Linux entry is main.go's, with the binary "mc" and the packages "mcli" |
| AsWritten.ServerMac | main.go:226-241 | the server's macOS entry is main.go's: a binary record and a Homebrew record, each with its own spelled-out download and checksum URL |
| AsWritten.ClientMac | main.go:243-258 | the client's macOS entry is main.go's binary and Homebrew records |
| AsWritten.ServerWindows | main.go:264-274 | the server's Windows entry is main.go's single binary record for `minio.exe` |
| AsWritten.ClientWindows | main.go:276-284 | the client's Windows entry is main.go's single binary record, whose text downloads from `dl.minio.io` |

## Left out

- The I/O and library calls of `doPackage` (main.go:343-443) are not modelled:
  - creating and removing files;
  - the nfpm calls `nfpm.Parse`, `config.Get`, `nfpm.Validate` and `pkg.Package`;
  - SHA-256 hashing and the contents of the sidecar file;
  - writing the JSON file.

  `ConventionalFileName` belongs to nfpm, so the package file name is a
  parameter of `Packaging.TargetPath`. `Downloads.RpmFileName` and
  `Downloads.DebFileName` give the names the manifest advertises.
- `rewriteSystemdUnit` (main.go:316-340) is left out: it only reads and
  writes temporary files.
- Rendering the `text/template` configuration (main.go:63-82) is left out,
  including the rule that the systemd entry is emitted only for the binary
  "minio". It is template content, not logic.
- The package description chosen in main.go:373-381 is left out: it is
  template text.
- `main`, the kingpin flag parsing, and JSON marshalling with jsoniter
  (main.go:48-61, 289-297, 437-442) are left out. The manifest is modelled as
  values and not as its JSON encoding.
- The unused constant `dlURLPrefix` (main.go:84) is left out.
- Packaging.JoinPath: only drops empty elements and puts "/" between the
  rest. `filepath.Join` also cleans the path ("..", "//", "./"), which this
  model does not do. The elements main.go:412 passes need no cleaning for an
  application name without "/", ".." or "." elements (such as "minio" and
  "mc"). The application name comes from a free flag (main.go:49-52), and a
  name such as "./x" would be cleaned.
- Downloads.PackagesPublished: nfpm's `ConventionalFileName` (main.go:411) is
  not part of this model. The lemma takes the two file names as parameters
  and assumes they equal the names the manifest advertises. It does not
  prove that nfpm produces those names.
- Downloads.LinuxRecords, Downloads.MacRecords, Downloads.WindowsRecords:
  these state the URLs, but not the install instructions. The texts are
  pinned only by the `AsWritten` lemmas.
- AsWritten: the fixed command lines that end the texts are the named
  constants of `Downloads` (such as `ServerRunBinary`), not spelled out
  again. Each text's first command word is its own literal before the URL.
- Downloads.FillLinux, Downloads.FillMac, Downloads.FillWindows: each loop
  updates a local copy of its platform maps and stores them at the end. Go
  writes through the nested maps of `d` directly. The resulting values are
  the same; map aliasing is not modelled.
