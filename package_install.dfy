/**
 * `Install-ChocolateyPackage`, the part its `End` implements: the package's
 * temporary directory (created when absent), the path a download would be
 * saved to, the URL fallbacks to the local paths, and, with
 * `-UseOriginalLocation`, the choice between the 32-bit and the 64-bit
 * location.
 */
module PackageInstall {
  import opened Wrappers
  import opened Text
  import opened Paths
  import opened Host
  import ArchitectureWidth
  import WindowsInstaller

  /**
   * `TEMP\<package>`, then `\<version>` when a version is set, with the
   * doubled Chocolatey folder collapsed.
   */
  function TempDir(temp: NString, packageName: NString, version: NString): string {
    var dir := Combine(OrEmpty(temp), OrEmpty(packageName));
    var versioned := if IsNullOrEmpty(version) then dir else Combine(dir, version.value);
    WindowsInstaller.Collapse(versioned)
  }

  /**
   * With no doubled Chocolatey folder in the combined path, the temporary
   * directory is the package's folder under `TEMP`, and the version's folder
   * under that when there is a version; the collapse never lengthens it.
   */
  lemma TempDirMeaning(temp: NString, packageName: NString, version: NString)
    ensures var dir := Combine(OrEmpty(temp), OrEmpty(packageName));
      var versioned := if IsNullOrEmpty(version) then dir else Combine(dir, version.value);
      |TempDir(temp, packageName, version)| <= |versioned|
      && (!Contains(versioned, WindowsInstaller.DoubledFolder()) ==> TempDir(temp, packageName, version) == versioned)
      && (Contains(versioned, WindowsInstaller.DoubledFolder()) ==> TempDir(temp, packageName, version) != versioned)
  {
    var dir := Combine(OrEmpty(temp), OrEmpty(packageName));
    var versioned := if IsNullOrEmpty(version) then dir else Combine(dir, version.value);
    WindowsInstaller.CollapseChangesOnlyDoubled(versioned);
    ReplaceAllShortens(versioned, WindowsInstaller.DoubledFolder(), "\\chocolatey\\");
  }

  /** The installer's file name: `<PackageName>Install.<FileType>`. */
  function InstallerName(packageName: string, fileType: string): string {
    packageName + "Install." + fileType
  }

  /** `<tempDir>\<PackageName>Install.<FileType>`. */
  function DownloadPath(tempDir: string, packageName: string, fileType: string): string {
    Combine(tempDir, InstallerName(packageName, fileType))
  }

  /**
   * The download path names the installer file and lies directly in the
   * temporary directory (when that is a path without a trailing separator).
   */
  lemma DownloadPathMeaning(tempDir: string, packageName: string, fileType: string)
    requires HasNoSeparator(packageName) && HasNoSeparator(fileType)
    ensures var p := DownloadPath(tempDir, packageName, fileType);
      GetFileName(p) == InstallerName(packageName, fileType)
      && (tempDir != "" && !IsDirectorySeparator(tempDir[|tempDir| - 1]) ==> GetParentDirectory(p) == tempDir)
  {
    var name := InstallerName(packageName, fileType);
    assert HasNoSeparator("Install.");
    HasNoSeparatorConcat(packageName, "Install.");
    HasNoSeparatorConcat(packageName + "Install.", fileType);
    FileNameOfCombine(tempDir, name);
    if tempDir != "" && !IsDirectorySeparator(tempDir[|tempDir| - 1]) {
      ParentOfCombine(tempDir, name);
    }
  }

  /** An empty URL falls back to the local path. */
  function UrlOrPath(url: string, path: string): (r: string)
    ensures r == "" <==> url == "" && path == ""
    ensures url != "" ==> r == url
  {
    if url == "" then path else url
  }

  /**
   * `-UseOriginalLocation`: the 32-bit location, except in a 64-bit process
   * where `ChocolateyForceX86` does not convert to true and there is a 64-bit
   * location.
   */
  function OriginalLocation(url: string, url64: string, is64Bit: bool, forceX86: NString): string {
    if ArchitectureWidth.Matches(is64Bit, 64) && !Truthy(forceX86) && url64 != "" then url64 else url
  }

  /**
   * The original location is one of the two URLs; it is the 64-bit one exactly
   * when the process is 64-bit, x86 is not forced and that URL is set, or when
   * the two coincide.
   */
  lemma OriginalLocationMeaning(url: string, url64: string, is64Bit: bool, forceX86: NString)
    ensures var r := OriginalLocation(url, url64, is64Bit, forceX86);
      (r == url || r == url64)
      && (r == url64 <==> (is64Bit && !Truthy(forceX86) && url64 != "") || url64 == url)
      && (!is64Bit || Truthy(forceX86) ==> r == url)
  {
    ArchitectureWidth.MatchesExactlyOneWidth(is64Bit);
  }

  /**
   * `End`: ensures the temporary directory exists and returns the path of the
   * installer file it settles on: the original location with
   * `-UseOriginalLocation`, the download path otherwise.
   */
  method End(host: Host, packageName: string, fileType: string, url: string, url64: string,
             path: string, path64: string, useOriginalLocation: bool) returns (filePath: string)
    modifies host`dirs
    ensures var tempDir := TempDir(old(host.Var("TEMP")), old(host.Var("ChocolateyPackageName")),
                                   old(host.Var("ChocolateyPackageVersion")));
      host.dirs == (if old(host.ItemExists(tempDir)) then old(host.dirs) else old(host.dirs) + {tempDir})
      && host.ItemExists(tempDir)
      && filePath == (if useOriginalLocation
                      then OriginalLocation(UrlOrPath(url, path), UrlOrPath(url64, path64), host.is64Bit,
                                            host.Var("ChocolateyForceX86"))
                      else DownloadPath(tempDir, packageName, fileType))
  {
    var tempDir := TempDir(host.Var("TEMP"), host.Var("ChocolateyPackageName"), host.Var("ChocolateyPackageVersion"));
    if !host.ItemExists(tempDir) {
      host.CreateDirectory(tempDir);
    }
    var downloadFilePath := DownloadPath(tempDir, packageName, fileType);
    var u := UrlOrPath(url, path);
    var u64 := UrlOrPath(url64, path64);
    filePath := downloadFilePath;
    if useOriginalLocation {
      filePath := u;
      if ArchitectureWidth.Matches(host.is64Bit, 64) {
        var forceX86 := host.Var("ChocolateyForceX86");
        if !Truthy(forceX86) && u64 != "" {
          filePath := u64;
        }
      }
    }
  }
}
