/**
 * `SevenZipHelper`: extracts an archive with the 7-Zip that ships with
 * Chocolatey. It picks the archive for the process's bitness, builds the
 * 7-Zip command line, collects the names of the extracted files from 7-Zip's
 * output, writes them to an extraction log, and turns a failing exit code
 * into a terminating error.
 */
module SevenZip {
  import opened Wrappers
  import opened Text
  import opened Paths
  import opened Host


  /** The exit codes 7-Zip documents, each with its own explanation. */
  const DocumentedCodes: set<int> := {1, 2, 7, 8, 255}

  function UnknownError(exitCode: int): string {
    "7-Zip signalled " + "an unknown error "
    + ("(code " + IntToString(exitCode) + ")")
  }

  /** `GetExitCodeReason`: the explanation of a 7-Zip exit code. */
  function GetExitCodeReason(exitCode: int): string {
    if exitCode == 1 then "Some files could " + "not be extracted."
    else if exitCode == 2 then "7-Zip encountered " + "a fatal error while " + "extracting the files."
    else if exitCode == 7 then "7-Zip command " + "line error."
    else if exitCode == 8 then "7-Zip out of memory."
    else if exitCode == 255 then "Extraction " + "cancelled by the user."
    else UnknownError(exitCode)
  }

  /** An undocumented exit code is reported by its number. */
  lemma UnknownCodeIsNamed(exitCode: int)
    requires exitCode !in DocumentedCodes
    ensures EndsWith(GetExitCodeReason(exitCode), "(code " + IntToString(exitCode) + ")")
  {
    EndsWithConcat("7-Zip signalled " + "an unknown error ", "(code " + IntToString(exitCode) + ")");
  }

  /** Two undocumented codes share an explanation only when they are the same code. */
  lemma UnknownErrorInjective(a: int, b: int)
    requires UnknownError(a) == UnknownError(b)
    ensures a == b
  {
    CancelLeft("7-Zip signalled " + "an unknown error ",
               "(code " + IntToString(a) + ")", "(code " + IntToString(b) + ")");
    CancelRight("(code " + IntToString(a), "(code " + IntToString(b), ")");
    CancelLeft("(code ", IntToString(a), IntToString(b));
    IntToStringInjective(a, b);
  }

  /** The documented explanations are all different. */
  lemma DocumentedReasonsDiffer(a: int, b: int)
    requires a in DocumentedCodes && b in DocumentedCodes && a != b
    ensures GetExitCodeReason(a) != GetExitCodeReason(b)
  {
  }

  /** No documented explanation reads like the one for an unknown code. */
  lemma DocumentedReasonsAreKnown(a: int, u: int)
    requires a in DocumentedCodes && u !in DocumentedCodes
    ensures GetExitCodeReason(a) != GetExitCodeReason(u)
  {
    assert UnknownError(u)[6] == 's';
  }

  /** The explanation identifies the exit code: different codes are explained differently. */
  lemma ReasonIdentifiesCode(a: int, b: int)
    requires a != b
    ensures GetExitCodeReason(a) != GetExitCodeReason(b)
  {
    if a in DocumentedCodes && b in DocumentedCodes {
      DocumentedReasonsDiffer(a, b);
    } else if a in DocumentedCodes {
      DocumentedReasonsAreKnown(a, b);
    } else if b in DocumentedCodes {
      DocumentedReasonsAreKnown(b, a);
    } else if UnknownError(a) == UnknownError(b) {
      UnknownErrorInjective(a, b);
    }
  }

  /** The terminating error for a non-zero exit code: the explanation, then where to report it. */
  function ExtractionFailed(exitCode: int): Error {
    Error(RuntimeError, GetExitCodeReason(exitCode) + " "
      + ("This is most likely " + "an issue with the " + "'$env:chocolateyPackageName' "
         + "package and not " + "with Chocolatey " + "itself. Please follow " + "up with the package "
         + "maintainer(s) directly."))
  }

  /** The error names its exit code: different codes fail with different messages. */
  lemma ExtractionFailedIdentifiesCode(a: int, b: int)
    requires a != b
    ensures ExtractionFailed(a) != ExtractionFailed(b)
  {
    ReasonIdentifiesCode(a, b);
    var ra, rb := GetExitCodeReason(a), GetExitCodeReason(b);
    var addendum := ExtractionFailed(a).message[|ra| + 1..];
    CancelRight(ra + " ", rb + " ", addendum);
    CancelRight(ra, rb, " ");
  }

  /** The archive `Run7zip` extracts, and the word the "Extracting" line uses for its bitness. */
  datatype Archive = Archive(zipFilePath: NString, bitnessMessage: string)

  function PathsMissing(): Error {
    Error(ArgumentError, "Parameters are " + "incorrect; either " + "-Path or -Path64 " + "must be specified.")
  }

  function ArchiveNotSupported(packageName: NString): Error {
    Error(RuntimeError, "32-bit archive is " + "not supported for " + OrEmpty(packageName))
  }

  /**
   * The archive choice as `Run7zip` writes it. On a 32-bit process, or when
   * x86 is forced, it refuses when the 32-bit archive IS given, and otherwise
   * goes on with the 32-bit path it has just found empty or absent.
   */
  function SelectArchiveAsWritten(path: NString, path64: NString, use32Bit: bool, packageName: NString)
    : Result<Archive, Error>
  {
    if use32Bit then
      if Truthy(path) then Failure(ArchiveNotSupported(packageName))
      else Success(Archive(path, if Truthy(path64) then "32-bit " else ""))
    else if Truthy(path64) then Success(Archive(path64, "64 bit "))
    else Success(Archive(path, ""))
  }

  /**
   * The archive choice as intended (and as `WindowsInstallerHelper` does it):
   * on 32-bit it is the absence of a 32-bit archive that is refused; on 64-bit
   * a non-empty 64-bit archive is preferred.
   */
  function SelectArchive(path: NString, path64: NString, use32Bit: bool, packageName: NString)
    : (r: Result<Archive, Error>)
    ensures r.Failure? <==> use32Bit && !Truthy(path)
    ensures r.Failure? ==> r.error == ArchiveNotSupported(packageName)
    ensures r.Success? && use32Bit ==> Truthy(r.value.zipFilePath) && r.value.zipFilePath == path
    ensures r.Success? && !use32Bit && Truthy(path64) ==> r.value.zipFilePath == path64
  {
    if use32Bit then
      if !Truthy(path) then Failure(ArchiveNotSupported(packageName))
      else Success(Archive(path, if Truthy(path64) then "32-bit " else ""))
    else if Truthy(path64) then Success(Archive(path64, "64 bit "))
    else Success(Archive(path, ""))
  }

  /** The two choices agree on 64-bit; on 32-bit exactly one of them refuses. */
  lemma SelectArchiveCorrectsTest(path: NString, path64: NString, use32Bit: bool, packageName: NString)
    ensures !use32Bit ==> SelectArchive(path, path64, use32Bit, packageName)
                          == SelectArchiveAsWritten(path, path64, use32Bit, packageName)
    ensures use32Bit ==> (SelectArchive(path, path64, use32Bit, packageName).Failure?
                          <==> SelectArchiveAsWritten(path, path64, use32Bit, packageName).Success?)
  {
  }

  /** As written, a 32-bit process given only a 32-bit archive refuses to extract it. */
  lemma AsWrittenRefusesGivenArchive()
    ensures SelectArchiveAsWritten(Some("a.zip"), None, true, Some("pkg")).Failure?
    ensures SelectArchive(Some("a.zip"), None, true, Some("pkg")) == Success(Archive(Some("a.zip"), ""))
  {
  }

  /** As written, a 32-bit process given only a 64-bit archive goes on with no archive at all. */
  lemma AsWrittenExtractsMissingArchive()
    ensures SelectArchiveAsWritten(None, Some("b.zip"), true, Some("pkg")) == Success(Archive(None, "32-bit "))
    ensures SelectArchive(None, Some("b.zip"), true, Some("pkg")).Failure?
  {
  }

  /** Where the extraction log goes: `<package folder>\<archive file name>.txt`, or nowhere without a package name. */
  function LogPath(packageName: NString, libPath: NString, zipFilePath: NString): string {
    if Truthy(packageName) then Combine(OrEmpty(libPath), GetFileName(OrEmpty(zipFilePath)) + ".txt") else ""
  }

  /** There is a log path exactly when there is a package name, and it is named after the archive. */
  lemma LogPathNamedAfterArchive(packageName: NString, libPath: NString, zipFilePath: NString)
    ensures LogPath(packageName, libPath, zipFilePath) != "" <==> Truthy(packageName)
    ensures Truthy(packageName) ==>
      GetFileName(LogPath(packageName, libPath, zipFilePath)) == GetFileName(OrEmpty(zipFilePath)) + ".txt"
  {
    if Truthy(packageName) {
      var name := GetFileName(OrEmpty(zipFilePath)) + ".txt";
      assert HasNoSeparator(".txt");
      HasNoSeparatorConcat(GetFileName(OrEmpty(zipFilePath)), ".txt");
      FileNameOfCombine(OrEmpty(libPath), name);
    }
  }

  /** `CombinePaths(installLocation, "tools", "7z.exe")`. */
  function BundledExe(installLocation: string): string {
    Combine(Combine(installLocation, "tools"), "7z.exe")
  }

  /** The 7-Zip to run: the bundled one, else `tools\7zip.exe` under `ChocolateyInstall`. */
  function ExePath(bundled: string, bundledExists: bool, chocolateyInstall: NString): string {
    if bundledExists then bundled else Combine(OrEmpty(chocolateyInstall), "tools\\7zip.exe")
  }

  /**
   * On a 64-bit process, the system folder in a path is replaced by
   * `%SystemRoot%\SysNative`, so that 32-bit 7-Zip is not redirected to SysWOW64.
   * The source calls `PSHelper.Replace` with `Regex.Escape` of the folder as the
   * pattern; `PSHelper` is not part of this model, and the call is taken as a
   * literal, case-sensitive replacement of every occurrence.
   */
  function Redirect(p: string, is64Bit: bool, systemFolder: string, systemRoot: NString): string {
    if is64Bit && systemFolder != "" then ReplaceAll(p, systemFolder, Combine(OrEmpty(systemRoot), "SysNative"))
    else p
  }

  /** A path outside the system folder, or any path on 32-bit, is left as it is. */
  lemma RedirectKeepsOtherPaths(p: string, is64Bit: bool, systemFolder: string, systemRoot: NString)
    requires !is64Bit || !Contains(p, systemFolder)
    ensures Redirect(p, is64Bit, systemFolder, systemRoot) == p
  {
    if is64Bit && systemFolder != "" {
      ReplaceAllAbsent(p, systemFolder, Combine(OrEmpty(systemRoot), "SysNative"));
    }
  }

  function OptionsHead(disableLogging: bool): string {
    "x -aoa -bd " + (if disableLogging then "-bb0" else "-bb1")
  }

  /** The 7-Zip arguments: extract with full paths, overwrite, no progress, to `destination`. */
  function Options(destination: string, zipFilePath: string, specificFolder: NString, disableLogging: bool): string {
    OptionsHead(disableLogging) + " -o\"" + destination + "\" -y \"" + zipFilePath + "\""
    + (if Truthy(specificFolder) then " \"" + specificFolder.value + "\"" else "")
  }

  /**
   * The log level is `-bb0` exactly when logging is disabled, and a non-empty
   * specific folder is the last, quoted, argument.
   */
  lemma OptionsShape(destination: string, zipFilePath: string, specificFolder: NString, disableLogging: bool)
    ensures StartsWith(Options(destination, zipFilePath, specificFolder, disableLogging), "x -aoa -bd -bb0")
            <==> disableLogging
    ensures Truthy(specificFolder) ==>
      EndsWith(Options(destination, zipFilePath, specificFolder, disableLogging), " \"" + specificFolder.value + "\"")
    ensures !Truthy(specificFolder) ==>
      EndsWith(Options(destination, zipFilePath, specificFolder, disableLogging), "\"" + zipFilePath + "\"")
  {
    var o := Options(destination, zipFilePath, specificFolder, disableLogging);
    var body := OptionsHead(disableLogging) + " -o\"" + destination + "\" -y \"" + zipFilePath + "\"";
    OptionsLogLevel(destination, zipFilePath, specificFolder, disableLogging);
    if Truthy(specificFolder) {
      EndsWithConcat(body, " \"" + specificFolder.value + "\"");
    } else {
      var front := OptionsHead(disableLogging) + " -o\"" + destination + "\" -y ";
      assert body == front + ("\"" + zipFilePath + "\"");
      EndsWithConcat(front, "\"" + zipFilePath + "\"");
    }
  }

  lemma OptionsLogLevel(destination: string, zipFilePath: string, specificFolder: NString, disableLogging: bool)
    ensures StartsWith(Options(destination, zipFilePath, specificFolder, disableLogging), "x -aoa -bd -bb0")
            <==> disableLogging
  {
    var head := OptionsHead(disableLogging);
    var o := Options(destination, zipFilePath, specificFolder, disableLogging);
    var rest := " -o\"" + destination + "\" -y \"" + zipFilePath + "\""
      + (if Truthy(specificFolder) then " \"" + specificFolder.value + "\"" else "");
    assert o[..|head|] == head;
    assert head[14] == (if disableLogging then '0' else '1');
  }

  /** The line `ProcessOutputHandler` appends to the file list for one output line. */
  function ListedFile(destination: string, data: NString): string {
    if data.Some? && StartsWith(data.value, "- ") then destination + "\\" + data.value[2..] + NewLine else ""
  }

  /** The file list built from a run's output lines, in order. */
  function FileList(destination: string, lines: seq<NString>): string {
    if lines == [] then "" else FileList(destination, lines[..|lines| - 1]) + ListedFile(destination, lines[|lines| - 1])
  }

  /** The messages queued for the host from a run's output lines: every non-null line, not as an error. */
  function QueuedLines(lines: seq<NString>): (q: seq<(string, bool)>)
    ensures |q| <= |lines|
    ensures forall k :: 0 <= k < |q| ==> !q[k].1 && Some(q[k].0) in lines
  {
    if lines == [] then []
    else
      var last := lines[|lines| - 1];
      QueuedLines(lines[..|lines| - 1]) + (if last.Some? then [(last.value, false)] else [])
  }

  /** Handling one more output line extends the queue and the file list by that line's share. */
  lemma OutputStep(destination: string, lines: seq<NString>, i: nat)
    requires i < |lines|
    ensures QueuedLines(lines[..i + 1])
            == QueuedLines(lines[..i]) + (if lines[i].Some? then [(lines[i].value, false)] else [])
    ensures FileList(destination, lines[..i + 1]) == FileList(destination, lines[..i]) + ListedFile(destination, lines[i])
  {
    assert lines[..i + 1][..i] == lines[..i];
  }

  /** Lines without the "- " marker add nothing to the file list. */
  lemma {:induction false} UnmarkedLinesListNothing(destination: string, lines: seq<NString>)
    requires forall k :: 0 <= k < |lines| ==> lines[k].None? || !StartsWith(lines[k].value, "- ")
    ensures FileList(destination, lines) == ""
  {
    if lines != [] {
      UnmarkedLinesListNothing(destination, lines[..|lines| - 1]);
    }
  }

  /** Every "- " line of the output is listed as a file under the destination. */
  lemma {:induction false} FileListNamesEachExtracted(destination: string, lines: seq<NString>, i: nat)
    requires i < |lines| && lines[i].Some? && StartsWith(lines[i].value, "- ")
    ensures Contains(FileList(destination, lines), destination + "\\" + lines[i].value[2..])
  {
    var front := lines[..|lines| - 1];
    var entry := destination + "\\" + lines[i].value[2..];
    if i == |lines| - 1 {
      ContainsPrefix(entry, NewLine);
      ContainsPrepend(FileList(destination, front), entry + NewLine, entry);
    } else {
      assert front[i] == lines[i];
      FileListNamesEachExtracted(destination, front, i);
      ContainsExtend(FileList(destination, front), entry, ListedFile(destination, lines[|lines| - 1]));
    }
  }

  /** The warning for packages that ask for an install directory, which zip packages cannot honour. */
  function InstallDirectoryWarnings(packageName: NString, installDirectoryPackage: NString): (r: seq<LogEntry>)
    ensures |r| <= 1 && forall w <- r :: w.Warning?
  {
    if Truthy(packageName) && packageName == installDirectoryPackage then
      [Warning("Install Directory " + "override not " + "available for zip " + "packages at this "
               + "time.\n If this " + "package also runs " + "a native installer " + "using Chocolatey\n "
               + "functions, the " + "directory will be " + "honored.")]
    else []
  }

  function ExtractingLine(archive: Archive, destination: string): LogEntry {
    HostLine("Extracting " + archive.bitnessMessage + OrEmpty(archive.zipFilePath) + " to " + destination + "...")
  }

  /** Everything `Run7zip` settles before it starts 7-Zip. */
  datatype Plan = Plan(
    archive: Archive,
    logPath: string,
    /** The package folder, when it has to be created. */
    libDirectory: Option<string>,
    warnings: seq<LogEntry>,
    extracting: LogEntry,
    /** The destination as given, which is created. */
    destination: string,
    exePath: string,
    /** The destination as 7-Zip is told it, after the 64-bit redirection. */
    target: string,
    launch: Launch)
  {
    function Messages(): seq<LogEntry> {
      warnings + [extracting]
    }

    function NewDirectories(): set<string> {
      (if libDirectory.Some? then {libDirectory.value} else {}) + {destination}
    }
  }

  /**
   * The decisions of `Run7zip` up to the launch: the paths must not both be
   * null; the package name falls back to `ChocolateyPackageName`; the archive
   * is chosen for the bitness; the package folder (when there is a package
   * name) and the destination are created; paths under the system folder are
   * redirected on 64-bit; 7-Zip runs hidden in the current location, or in
   * TEMP when there is none.
   */
  function MakePlan(host: Host, path: NString, path64: NString, packageName: NString, destination: string,
                    specificFolder: NString, disableLogging: bool): (r: Result<Plan, Error>)
    reads host`env, host`files, host`dirs
    ensures path.None? && path64.None? ==> r == Failure(PathsMissing())
    ensures r.Success? ==>
      (r.value.launch.fileName == r.value.exePath && r.value.destination == destination
       && r.value.launch.windowStyle == Hidden && r.value.launch.noNewWindow && !r.value.launch.elevated
       && |r.value.warnings| <= 1 && (forall w <- r.value.warnings :: w.Warning?) && r.value.extracting.HostLine?)
  {
    if path.None? && path64.None? then Failure(PathsMissing())
    else
      var name := PackageName(host, packageName);
      var selected := SelectArchive(path, path64, !host.is64Bit || host.ForcesX86(), name);
      if selected.Failure? then Failure(selected.error)
      else
        var archive := selected.value;
        var libPath := host.Var("ChocolateyPackageFolder");
        var libDirectory := if Truthy(name) && OrEmpty(libPath) !in host.dirs then Some(OrEmpty(libPath)) else None;
        var bundled := BundledExe(host.installLocation);
        var bundledExists := bundled in host.files || bundled in host.dirs || Some(bundled) == libDirectory
                             || bundled == destination;
        var exePath := ExePath(bundled, bundledExists, host.Var("ChocolateyInstall"));
        var systemRoot := host.Var("SystemRoot");
        var zipFilePath := Redirect(OrEmpty(archive.zipFilePath), host.is64Bit, host.systemFolder, systemRoot);
        var target := Redirect(destination, host.is64Bit, host.systemFolder, systemRoot);
        var workingDirectory := if host.currentDirectory.None? then host.Var("TEMP") else host.currentDirectory;
        var options := Options(target, zipFilePath, specificFolder, disableLogging);
        Success(Plan(
          archive,
          LogPath(name, libPath, archive.zipFilePath),
          libDirectory,
          InstallDirectoryWarnings(host.Var("ChocolateyPackageName"), host.Var("ChocolateyInstallDirectoryPackage")),
          ExtractingLine(archive, destination),
          destination,
          exePath,
          target,
          Launch(exePath, workingDirectory, Some(options), false, Hidden, true)))
  }

  /** The files once the extraction log is written, when there is a log path and logging is on. */
  function WithLog(files: map<string, string>, logPath: string, disableLogging: bool, fileList: string)
    : map<string, string>
  {
    if logPath == "" || disableLogging then files else files[logPath := fileList]
  }

  /** The package name `Run7zip` goes by: the given one, else `ChocolateyPackageName`. */
  function PackageName(host: Host, packageName: NString): NString
    reads host`env
  {
    if IsNullOrEmpty(packageName) then host.Var("ChocolateyPackageName") else packageName
  }

  /**
   * A run keeps an extraction log exactly when it has a package name, and the
   * log is named after the archive.
   */
  lemma PlanLogPath(host: Host, path: NString, path64: NString, packageName: NString,
                    destination: string, specificFolder: NString, disableLogging: bool)
    requires MakePlan(host, path, path64, packageName, destination, specificFolder, disableLogging).Success?
    ensures var plan := MakePlan(host, path, path64, packageName, destination, specificFolder, disableLogging).value;
      (plan.logPath != "" <==> Truthy(PackageName(host, packageName)))
      && (plan.logPath != "" ==> GetFileName(plan.logPath) == GetFileName(OrEmpty(plan.archive.zipFilePath)) + ".txt")
  {
    var plan := MakePlan(host, path, path64, packageName, destination, specificFolder, disableLogging).value;
    LogPathNamedAfterArchive(PackageName(host, packageName), host.Var("ChocolateyPackageFolder"), plan.archive.zipFilePath);
  }

  /** Creates the package folder and the destination, and writes the warnings and the "Extracting" line. */
  method Announce(host: Host, plan: Plan)
    requires |plan.warnings| <= 1 && (forall w <- plan.warnings :: w.Warning?) && plan.extracting.HostLine?
    modifies host`log, host`dirs
    ensures host.dirs == old(host.dirs) + plan.NewDirectories()
    ensures host.log == old(host.log) + plan.Messages()
  {
    if plan.libDirectory.Some? {
      host.CreateDirectory(plan.libDirectory.value);
    }
    if plan.warnings != [] {
      var warning := plan.warnings[0];
      assert warning in plan.warnings;
      assert plan.warnings == [Warning(warning.text)];
      host.Warn(warning.text);
    }
    assert host.log == old(host.log) + plan.warnings;
    host.WriteHost(plan.extracting.text);
    host.CreateDirectory(plan.destination);
  }

  /** Writes the file list to the extraction log, when there is a log path and logging is on. */
  method WriteExtractionLog(host: Host, logPath: string, disableLogging: bool, fileList: string)
    modifies host`files
    ensures host.files == WithLog(old(host.files), logPath, disableLogging, fileList)
  {
    if !(logPath == "" || disableLogging) {
      host.WriteFile(logPath, fileList);
    }
  }

  /** Fails on a non-zero exit code; on 0 records where the files went and returns 0. */
  method Conclude(host: Host, exitCode: int, target: string) returns (r: Result<int, Error>)
    modifies host`env
    ensures r == (if exitCode != 0 then Failure(ExtractionFailed(exitCode)) else Success(0))
    ensures host.env == (if exitCode != 0 then old(host.env)
                         else Assign(old(host.env), "ChocolateyPackageInstallLocation", Some(target)))
  {
    if exitCode != 0 {
      return Failure(ExtractionFailed(exitCode));
    }
    host.SetVar("ChocolateyPackageInstallLocation", Some(target));
    r := Success(exitCode);
  }

  class SevenZipHelper {
    /** `_zipFileList`: the extracted files, one line each. */
    var zipFileList: string
    /** `_destinationFolder`: where the current run extracts to. */
    var destinationFolder: string
    /** `ProcessMessages`: output lines waiting to be written to the host, each with whether it is an error. */
    var processMessages: seq<(string, bool)>

    constructor ()
      ensures zipFileList == "" && destinationFolder == "" && processMessages == []
    {
      zipFileList := "";
      destinationFolder := "";
      processMessages := [];
    }

    /** `ProcessOutputHandler`: queues a non-null line and lists the file a "- " line names. */
    method ProcessOutputHandler(data: NString)
      modifies this`zipFileList, this`processMessages
      ensures processMessages == old(processMessages) + (if data.Some? then [(data.value, false)] else [])
      ensures zipFileList == old(zipFileList) + ListedFile(destinationFolder, data)
    {
      if data.Some? {
        var line := data.value;
        processMessages := processMessages + [(line, false)];
        if |line| >= 2 && line[..2] == "- " {
          zipFileList := zipFileList + (destinationFolder + "\\" + line[2..] + NewLine);
        }
      }
    }

    /** The output of one run, handed to `ProcessOutputHandler` line by line. */
    method HandleOutput(lines: seq<NString>)
      modifies this`zipFileList, this`processMessages
      ensures processMessages == old(processMessages) + QueuedLines(lines)
      ensures zipFileList == old(zipFileList) + FileList(destinationFolder, lines)
    {
      ghost var queued0 := processMessages;
      ghost var list0 := zipFileList;
      for i := 0 to |lines|
        invariant processMessages == queued0 + QueuedLines(lines[..i])
        invariant zipFileList == list0 + FileList(destinationFolder, lines[..i])
      {
        OutputStep(destinationFolder, lines, i);
        AppendRegroup(queued0, QueuedLines(lines[..i]), if lines[i].Some? then [(lines[i].value, false)] else []);
        AppendRegroup(list0, FileList(destinationFolder, lines[..i]), ListedFile(destinationFolder, lines[i]));
        ProcessOutputHandler(lines[i]);
      }
      assert lines[..|lines|] == lines;
    }

    /**
     * The part of `Run7zip` after the decisions: creates the folders, writes the
     * warnings and the "Extracting" line, runs 7-Zip on its output handler,
     * sets the package exit code, writes the extraction log, and fails on a
     * non-zero code; on 0 it records where the files went as
     * `ChocolateyPackageInstallLocation` and returns 0.
     */
    method Extract(host: Host, plan: Plan, disableLogging: bool) returns (r: Result<int, Error>)
      requires |plan.warnings| <= 1 && (forall w <- plan.warnings :: w.Warning?) && plan.extracting.HostLine?
      modifies this, host`log, host`dirs, host`launches, host`files, host`exitCode, host`env
      ensures var code := host.exitCodeOf(plan.launch);
        var output := host.outputOf(plan.launch);
        zipFileList == old(zipFileList) + FileList(plan.target, output)
        && destinationFolder == plan.target
        && processMessages == old(processMessages) + QueuedLines(output)
        && host.dirs == old(host.dirs) + plan.NewDirectories()
        && host.log == old(host.log) + plan.Messages()
        && host.launches == old(host.launches) + [plan.launch]
        && host.exitCode == code
        && host.files == WithLog(old(host.files) + host.producedBy(plan.launch), plan.logPath, disableLogging, zipFileList)
        && r == (if code != 0 then Failure(ExtractionFailed(code)) else Success(0))
        && host.env == (if code != 0 then old(host.env)
                        else Assign(old(host.env), "ChocolateyPackageInstallLocation", Some(plan.target)))
    {
      Announce(host, plan);
      destinationFolder := plan.target;
      var exitCode := host.StartProcess(plan.launch);
      HandleOutput(host.outputOf(plan.launch));
      host.SetExitCode(exitCode);
      WriteExtractionLog(host, plan.logPath, disableLogging, zipFileList);
      r := Conclude(host, exitCode, plan.target);
    }

    /**
     * `Run7zip`: refuses when neither path is given or the archive does not
     * suit the bitness, changing nothing; otherwise extracts as `MakePlan` decides.
     */
    method Run7zip(host: Host, path: NString, path64: NString, packageName: NString, destination: string,
                   specificFolder: NString, disableLogging: bool) returns (r: Result<int, Error>)
      modifies this, host`log, host`dirs, host`launches, host`files, host`exitCode, host`env
      ensures var p := old(MakePlan(host, path, path64, packageName, destination, specificFolder, disableLogging));
        p.Failure? ==> (r == Failure(p.error)
          && host.log == old(host.log) && host.dirs == old(host.dirs) && host.launches == old(host.launches)
          && host.files == old(host.files) && host.exitCode == old(host.exitCode) && host.env == old(host.env))
      ensures var p := old(MakePlan(host, path, path64, packageName, destination, specificFolder, disableLogging));
        p.Success? ==>
          var plan := p.value;
          var code := host.exitCodeOf(plan.launch);
          var output := host.outputOf(plan.launch);
          zipFileList == old(zipFileList) + FileList(plan.target, output)
          && destinationFolder == plan.target
          && processMessages == old(processMessages) + QueuedLines(output)
          && host.dirs == old(host.dirs) + plan.NewDirectories()
          && host.log == old(host.log) + plan.Messages()
          && host.launches == old(host.launches) + [plan.launch]
          && host.exitCode == code
          && host.files == WithLog(old(host.files) + host.producedBy(plan.launch), plan.logPath, disableLogging, zipFileList)
          && r == (if code != 0 then Failure(ExtractionFailed(code)) else Success(0))
          && host.env == (if code != 0 then old(host.env)
                          else Assign(old(host.env), "ChocolateyPackageInstallLocation", Some(plan.target)))
    {
      var p := MakePlan(host, path, path64, packageName, destination, specificFolder, disableLogging);
      if p.Failure? {
        return Failure(p.error);
      }
      r := Extract(host, p.value, disableLogging);
    }
  }
}
