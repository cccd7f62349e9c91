/**
 * `WindowsInstallerHelper.Install`: runs a native installer (MSI, MSP, MSU or
 * an executable) for a package. It picks the file for the process's bitness,
 * settles the installer type, composes the arguments from the package's
 * silent arguments and the user's install arguments, and hands the command to
 * the process helper, whose exit code it records.
 */
module WindowsInstaller {
  import opened Wrappers
  import opened Text
  import opened Paths
  import opened Host
  import ArchitectureWidth
  import P = StartChocolateyProcess

  // ---------------------------------------------------------------------------
  // Bitness

  function NullReferenceError(): Error {
    Error(NullReference, "Object reference " + "not set to an " + "instance of an object.")
  }

  /**
   * The 32-bit test as written: on a 64-bit process `ChocolateyForceX86` is
   * lower-cased before it is compared, which throws when the variable is unset.
   */
  function UsesX86AsWritten(is64Bit: bool, forceX86: NString): Result<bool, Error> {
    if ArchitectureWidth.Matches(is64Bit, 32) then Success(true)
    else if forceX86.None? then Failure(NullReferenceError())
    else Success(ToLower(forceX86.value) == "true")
  }

  /**
   * The 32-bit test as intended: a 32-bit process, or x86 forced by a
   * `ChocolateyForceX86` equal to "true" in any letter case; unset forces nothing.
   */
  function UsesX86(is64Bit: bool, forceX86: NString): (r: bool)
    ensures r <==> !is64Bit || IsEqual(forceX86, Some("true"))
  {
    IsEqualLowerText(OrEmpty(forceX86), "true");
    ArchitectureWidth.Matches(is64Bit, 32) || (forceX86.Some? && ToLower(forceX86.value) == "true")
  }

  /** The two tests agree whenever the written one does not throw, and it throws exactly on 64-bit with the variable unset. */
  lemma UsesX86CorrectsNullTest(is64Bit: bool, forceX86: NString)
    ensures UsesX86AsWritten(is64Bit, forceX86).Failure? <==> is64Bit && forceX86.None?
    ensures UsesX86AsWritten(is64Bit, forceX86).Success? ==>
      UsesX86AsWritten(is64Bit, forceX86).value == UsesX86(is64Bit, forceX86)
  {
  }

  /** As written, an ordinary 64-bit install (x86 not forced, so the variable unset) ends in an exception. */
  lemma AsWrittenThrowsWhenNotForced()
    ensures UsesX86AsWritten(true, None) == Failure(NullReferenceError())
    ensures !UsesX86(true, None)
  {
  }

  // ---------------------------------------------------------------------------
  // The installer file

  /** The file to install and how the "Installing" line describes its bitness. */
  datatype Selection = Selection(filePath: string, bitnessMessage: string)

  function NotSupported32(packageName: NString): Error {
    Error(RuntimeError, "32-bit installation " + "is not supported for " + OrEmpty(packageName))
  }

  function FileMissing(): Error {
    Error(RuntimeError, "Package parameters " + "incorrect, either File " + "or File64 must be " + "specified.")
  }

  /**
   * The file for the bitness: on 32-bit the 32-bit file, which must be given;
   * on 64-bit the 64-bit file when given, else the 32-bit one; whichever it is
   * must not be empty.
   */
  function SelectFile(file: NString, file64: NString, use32Bit: bool, packageName: NString)
    : (r: Result<Selection, Error>)
    ensures r.Failure? <==> (if use32Bit then !Truthy(file) else !Truthy(file64) && !Truthy(file))
    ensures r.Failure? ==> r.error == (if use32Bit then NotSupported32(packageName) else FileMissing())
    ensures r.Success? ==> r.value.filePath != ""
    ensures r.Success? && use32Bit ==> Some(r.value.filePath) == file
    ensures r.Success? && !use32Bit ==> Some(r.value.filePath) == (if Truthy(file64) then file64 else file)
    ensures r.Success? ==> (r.value.bitnessMessage == "" <==> !Truthy(file64))
  {
    var chosen :=
      if use32Bit then
        if !Truthy(file) then Failure(NotSupported32(packageName))
        else Success(Selection(OrEmpty(file), if Truthy(file64) then "32-bit " else ""))
      else if Truthy(file64) then Success(Selection(OrEmpty(file64), "64-bit "))
      else Success(Selection(OrEmpty(file), ""));
    if chosen.Success? && IsNullOrEmpty(if use32Bit || !Truthy(file64) then file else file64)
    then Failure(FileMissing())
    else chosen
  }

  // ---------------------------------------------------------------------------
  // The installer type

  /** `IsKnownInstallerType`: msi, msu, exe or msp, in any letter case. */
  predicate IsKnownInstallerType(fileType: string) {
    var t := ToLower(fileType);
    t == "msi" || t == "msu" || t == "exe" || t == "msp"
  }

  /** The type as given, or, when none is given, the file's extension with its dots removed. */
  function InferredType(fileType: NString, filePath: string): string {
    if IsNullOrEmpty(fileType) then ReplaceAll(GetExtension(filePath), ".", "") else fileType.value
  }

  /** An inferred type is the file's extension without its leading dot. */
  lemma InferredTypeIsExtension(filePath: string)
    ensures '.' !in InferredType(None, filePath)
    ensures GetExtension(filePath) != "" ==> InferredType(None, filePath) == GetExtension(filePath)[1..]
  {
    var ext := GetExtension(filePath);
    assert InferredType(None, filePath) == ReplaceAll(ext, ".", "");
    ReplaceCharEliminates(ext, '.', "");
    if ext != "" {
      DropLeadingDot(ext);
    }
  }

  lemma DropLeadingDot(ext: string)
    requires ext != [] && ext[0] == '.' && '.' !in ext[1..]
    ensures ReplaceAll(ext, ".", "") == ext[1..]
  {
    var rest := ext[1..];
    ContainsChar(rest, '.');
    ReplaceAllAbsent(rest, ".", "");
    assert ext[..1] == ".";
  }

  function UnrecognisedType(fileType: string): string {
    "FileType '" + fileType + "' is unrecognised, " + "using 'exe' instead."
  }

  /** The installer type settled, with the warning written when it had to fall back to exe. */
  datatype TypeChoice = TypeChoice(fileType: string, warning: Option<string>)

  /**
   * The type is the inferred one when it is known; any other type becomes exe,
   * with a warning naming it. Either way the type is a known one.
   */
  function ResolveFileType(fileType: NString, filePath: string): (r: TypeChoice)
    ensures IsKnownInstallerType(r.fileType)
    ensures IsKnownInstallerType(InferredType(fileType, filePath)) ==>
      r == TypeChoice(InferredType(fileType, filePath), None)
    ensures !IsKnownInstallerType(InferredType(fileType, filePath)) ==>
      r == TypeChoice("exe", Some(UnrecognisedType(InferredType(fileType, filePath))))
  {
    var t := InferredType(fileType, filePath);
    if IsKnownInstallerType(t) then TypeChoice(t, None)
    else
      ToLowerOfLower("exe");
      TypeChoice("exe", Some(UnrecognisedType(t)))
  }

  /** How each installer type is run. */
  datatype InstallerKind = Msi | Msp | Msu | Exe

  /** The `IsEqual` chain that picks how the installer runs; no branch for an unknown type. */
  function Dispatch(fileType: string): Option<InstallerKind> {
    var t := ToLower(fileType);
    if t == "msi" then Some(Msi)
    else if t == "msp" then Some(Msp)
    else if t == "msu" then Some(Msu)
    else if t == "exe" then Some(Exe)
    else None
  }

  /**
   * Each branch is taken exactly when the type `IsEqual`s its name, and the
   * known types are exactly the ones some branch takes.
   */
  lemma DispatchMeaning(fileType: string)
    ensures Dispatch(fileType) == Some(Msi) <==> IsEqual(Some(fileType), Some("msi"))
    ensures Dispatch(fileType) == Some(Msp) <==> IsEqual(Some(fileType), Some("msp")) && !IsEqual(Some(fileType), Some("msi"))
    ensures Dispatch(fileType) == Some(Msu) <==> IsEqual(Some(fileType), Some("msu"))
    ensures Dispatch(fileType) == Some(Exe) <==> IsEqual(Some(fileType), Some("exe"))
    ensures Dispatch(fileType).Some? <==> IsKnownInstallerType(fileType)
  {
    IsEqualLowerText(fileType, "msi");
    IsEqualLowerText(fileType, "msp");
    IsEqualLowerText(fileType, "msu");
    IsEqualLowerText(fileType, "exe");
  }

  // ---------------------------------------------------------------------------
  // The arguments

  /** The folder of older downloads, `\chocolatey\chocolatey\`. */
  function DoubledFolder(): string {
    "\\chocolatey\\" + "chocolatey\\"
  }

  /** `\chocolatey\chocolatey\` collapsed to `\chocolatey\`, wherever it occurs. */
  function Collapse(s: string): string {
    ReplaceAll(s, DoubledFolder(), "\\chocolatey\\")
  }

  /** A text changes under the collapse exactly when it holds the doubled folder. */
  lemma CollapseChangesOnlyDoubled(s: string)
    ensures Collapse(s) == s <==> !Contains(s, DoubledFolder())
  {
    if Contains(s, DoubledFolder()) {
      ReplaceAllShortens(s, DoubledFolder(), "\\chocolatey\\");
    } else {
      ReplaceAllAbsent(s, DoubledFolder(), "\\chocolatey\\");
    }
  }

  /** The install arguments mention an install directory (`INSTALLDIR|TARGETDIR|dir=|/D=`, case-sensitive). */
  predicate MentionsInstallDirectory(arguments: string) {
    Contains(arguments, "INSTALLDIR") || Contains(arguments, "TARGETDIR")
    || Contains(arguments, "dir=") || Contains(arguments, "/D=")
  }

  /** The advertisement written when the user's install arguments set an install directory. */
  function InstallDirectoryWarning(additional: NString): Option<string> {
    if additional.Some? && MentionsInstallDirectory(additional.value) then
      Some("\nPro / Business supports a single, ubiquitous install directory option.\n Stop the hassle of determining how to pass install directory overrides\n to install arguments for each package / installer type.\n Check out Pro / Business - https://chocolatey.org/compare\n")
    else None
  }

  /**
   * The arguments handed to the installer: only the user's when they override
   * the package's, otherwise the package's silent arguments, a space, and the
   * user's.
   */
  function InstallArguments(silentArgs: string, additional: string, overriding: bool): (r: string)
    ensures EndsWith(r, additional)
    ensures overriding ==> r == additional
    ensures !overriding ==> StartsWith(r, silentArgs + " ") && |r| == |silentArgs| + 1 + |additional|
  {
    if overriding then additional
    else
      EndsWithConcat(silentArgs + " ", additional);
      assert (silentArgs + " " + additional)[..|silentArgs| + 1] == silentArgs + " ";
      silentArgs + " " + additional
  }

  function OverrideLine(additional: string, silentArgs: string): string {
    "Overriding package " + "arguments with '" + additional + "' (replacing '" + silentArgs + "')"
  }

  lemma ContainsWithSuffix(s: string, part: string, suffix: string)
    ensures Contains(s, part) ==> Contains(s + suffix, part)
  {
    if Contains(s, part) {
      ContainsExtend(s, part, suffix);
    }
  }

  /**
   * The `.ignore` file written next to an installer under the Chocolatey
   * install folder: the name followed by ".ignore", when `ChocolateyInstall`
   * is set and occurs in that name (case-sensitive).
   */
  function IgnoreFile(filePath: string, chocolateyInstall: NString): (r: Option<string>)
    ensures r.Some? ==> r.value == filePath + ".ignore" && Truthy(chocolateyInstall)
                        && Contains(r.value, chocolateyInstall.value)
    ensures Truthy(chocolateyInstall) && Contains(filePath, chocolateyInstall.value) ==> r.Some?
  {
    ContainsWithSuffix(filePath, OrEmpty(chocolateyInstall), ".ignore");
    var ignoreFile := filePath + ".ignore";
    if Truthy(chocolateyInstall) && Contains(ignoreFile, chocolateyInstall.value) then Some(ignoreFile) else None
  }

  // ---------------------------------------------------------------------------
  // The command

  function Quoted(s: string): string {
    "\"" + s + "\""
  }

  function WusaPath(systemRoot: NString): string {
    Combine(OrEmpty(systemRoot), "System32\\wusa.exe")
  }

  /** `InstallMsi`, `InstallMsp`, `InstallMsu`: the quoted installer before the arguments. */
  function InstallerArguments(kind: InstallerKind, filePath: string, arguments: string): string {
    match kind
    case Msi => "/i " + Quoted(filePath) + " " + arguments
    case Msp => "/update " + Quoted(filePath) + " " + arguments
    case Msu => Quoted(filePath) + " " + arguments
    case Exe => arguments
  }

  /**
   * What the process helper is asked to run: msiexec for MSI and MSP packages,
   * wusa for MSU packages, each with the quoted installer and then the
   * arguments; an executable runs itself with the arguments. All run elevated
   * in the installer's folder.
   */
  function InstallerRequest(kind: InstallerKind, filePath: string, workingDirectory: string, arguments: string,
                            validExitCodes: Option<seq<int>>, systemRoot: NString): (req: P.StartRequest)
    ensures req.workingDirectory == Some(workingDirectory) && req.validExitCodes == validExitCodes
    ensures req.elevated && !req.minimized && !req.noSleep && req.arguments.Some?
    ensures EndsWith(req.arguments.value, arguments)
    ensures kind != Exe ==> Contains(req.arguments.value, Quoted(filePath))
    ensures req.processName == (match kind
                                case Msi => P.MsiexecPath(systemRoot)
                                case Msp => P.MsiexecPath(systemRoot)
                                case Msu => WusaPath(systemRoot)
                                case Exe => filePath)
  {
    var text := InstallerArguments(kind, filePath, arguments);
    match kind
    case Msi =>
      ContainsSuffix("/i ", Quoted(filePath));
      ContainsExtend("/i " + Quoted(filePath), Quoted(filePath), " ");
      ContainsExtend("/i " + Quoted(filePath) + " ", Quoted(filePath), arguments);
      EndsWithConcat("/i " + Quoted(filePath) + " ", arguments);
      P.SimpleRequest(P.MsiexecPath(systemRoot), Some(text), Some(workingDirectory), validExitCodes)
    case Msp =>
      ContainsSuffix("/update ", Quoted(filePath));
      ContainsExtend("/update " + Quoted(filePath), Quoted(filePath), " ");
      ContainsExtend("/update " + Quoted(filePath) + " ", Quoted(filePath), arguments);
      EndsWithConcat("/update " + Quoted(filePath) + " ", arguments);
      P.SimpleRequest(P.MsiexecPath(systemRoot), Some(text), Some(workingDirectory), validExitCodes)
    case Msu =>
      ContainsPrefix(Quoted(filePath), " ");
      ContainsExtend(Quoted(filePath) + " ", Quoted(filePath), arguments);
      EndsWithConcat(Quoted(filePath) + " ", arguments);
      P.SimpleRequest(WusaPath(systemRoot), Some(text), Some(workingDirectory), validExitCodes)
    case Exe =>
      EndsWithConcat("", arguments);
      P.SimpleRequest(filePath, Some(text), Some(workingDirectory), validExitCodes)
  }

  // ---------------------------------------------------------------------------
  // The run

  function InstallingLine(bitnessMessage: string, packageName: string): string {
    "Installing " + bitnessMessage + packageName + "..."
  }

  function InstalledLine(packageName: string): string {
    packageName + " has been installed"
  }

  function WarningsOf(text: Option<string>): seq<LogEntry> {
    if text.Some? then [Warning(text.value)] else []
  }

  /** The files once the `.ignore` file, when there is one, is written empty. */
  function WithIgnoreFile(files: map<string, string>, ignoreFile: Option<string>): map<string, string> {
    if ignoreFile.Some? then files[ignoreFile.value := ""] else files
  }

  /** Everything `Install` settles before it writes anything. */
  datatype Plan = Plan(
    /** The package name as the messages show it. */
    packageName: string,
    selection: Selection,
    fileType: string,
    typeWarning: Option<string>,
    directoryWarning: Option<string>,
    overriding: bool,
    silentArgs: string,
    additionalArgs: string,
    /** The installer, collapsed when the collapsed path exists. */
    filePath: string,
    ignoreFile: Option<string>,
    arguments: string,
    request: P.StartRequest)
  {
    /** The lines written before the installer runs, in order. */
    function Messages(): seq<LogEntry> {
      [HostLine(InstallingLine(selection.bitnessMessage, packageName))]
      + WarningsOf(typeWarning) + WarningsOf(directoryWarning)
      + (if overriding then [HostLine(OverrideLine(additionalArgs, silentArgs))] else [])
    }

    /** The line that ends a successful install. */
    function Installed(): LogEntry {
      HostLine(InstalledLine(packageName))
    }
  }

  /** Whether x86 is used, by the intended test. */
  function HostUsesX86(host: Host): bool
    reads host`env
  {
    UsesX86(host.is64Bit, host.Var("ChocolateyForceX86"))
  }

  /**
   * The decisions of `Install` up to the run: the file for the bitness (or
   * the error that ends the install), the installer type, the arguments with
   * the doubled folder collapsed, the user's arguments alone when overriding,
   * the `.ignore` file, and the request, run from the installer's folder.
   */
  function MakePlan(host: Host, packageName: NString, file: NString, file64: NString, fileType: NString,
                    silentArguments: seq<string>, useOnlySilentArguments: bool, validExitCodes: Option<seq<int>>)
    : (r: Result<Plan, Error>)
    reads host`env, host`files, host`dirs
    ensures var selected := SelectFile(file, file64, HostUsesX86(host), packageName);
      (r.Failure? <==> selected.Failure?) && (r.Failure? ==> r.error == selected.error)
    ensures r.Success? ==>
      var plan := r.value;
      IsKnownInstallerType(plan.fileType)
      && (plan.overriding <==> useOnlySilentArguments || Truthy(host.Var("ChocolateyInstallOverride")))
      && (plan.filePath == plan.selection.filePath || plan.filePath == Collapse(plan.selection.filePath))
      && plan.request.workingDirectory == Some(GetParentDirectory(plan.filePath))
      && plan.request.validExitCodes == validExitCodes
      && plan.request.arguments.Some? && EndsWith(plan.request.arguments.value, plan.arguments)
  {
    var selected := SelectFile(file, file64, HostUsesX86(host), packageName);
    if selected.Failure? then Failure(selected.error)
    else
      var selection := selected.value;
      var choice := ResolveFileType(fileType, selection.filePath);
      var additional := host.Var("ChocolateyInstallArguments");
      var overriding := useOnlySilentArguments || Truthy(host.Var("ChocolateyInstallOverride"));
      var silentArgs := Collapse(Join(" ", silentArguments));
      var additionalArgs := Collapse(OrEmpty(additional));
      var updated := Collapse(selection.filePath);
      var filePath := if host.ItemExists(updated) then updated else selection.filePath;
      var workingDirectory := GetParentDirectory(filePath);
      var arguments := InstallArguments(silentArgs, additionalArgs, overriding);
      DispatchMeaning(choice.fileType);
      var kind := Dispatch(choice.fileType).value;
      Success(Plan(
        OrEmpty(packageName),
        selection,
        choice.fileType,
        choice.warning,
        InstallDirectoryWarning(additional),
        overriding,
        silentArgs,
        additionalArgs,
        filePath,
        IgnoreFile(filePath, host.Var("ChocolateyInstall")),
        arguments,
        InstallerRequest(kind, filePath, workingDirectory, arguments, validExitCodes, host.Var("SystemRoot"))))
  }

  /**
   * The part of `Install` before the run: the "Installing" line, the type
   * warning, `ChocolateyInstallerType`, the install-directory warning, the
   * `.ignore` file and the override line.
   */
  method Prepare(host: Host, plan: Plan)
    modifies host`log, host`env, host`files
    ensures host.log == old(host.log) + plan.Messages()
    ensures host.env == Assign(old(host.env), "ChocolateyInstallerType", Some(plan.fileType))
    ensures host.files == WithIgnoreFile(old(host.files), plan.ignoreFile)
  {
    host.WriteHost(InstallingLine(plan.selection.bitnessMessage, plan.packageName));
    WarnWith(host, plan.typeWarning);
    host.SetVar("ChocolateyInstallerType", Some(plan.fileType));
    WarnWith(host, plan.directoryWarning);
    if plan.ignoreFile.Some? {
      host.WriteFile(plan.ignoreFile.value, "");
    }
    WriteHostIf(host, plan.overriding, OverrideLine(plan.additionalArgs, plan.silentArgs));
  }

  /** Writes the warning, when there is one. */
  method WarnWith(host: Host, text: Option<string>)
    modifies host`log
    ensures host.log == old(host.log) + WarningsOf(text)
  {
    if text.Some? {
      host.Warn(text.value);
    }
  }

  /** Writes the line to the host when `condition` holds. */
  method WriteHostIf(host: Host, condition: bool, text: string)
    modifies host`log
    ensures host.log == old(host.log) + (if condition then [HostLine(text)] else [])
  {
    if condition {
      host.WriteHost(text);
    }
  }

  /**
   * `RunInstaller`: runs the request through the process helper and, when it
   * succeeds, records the code it returns, always a success code, as
   * `ChocolateyExitCode`.
   */
  method RunInstaller(host: Host, req: P.StartRequest, encode: string -> string) returns (r: Result<int, Error>)
    modifies host`log, host`exitCode, host`launches, host`files, host`env
    ensures |old(host.launches)| <= |host.launches| <= |old(host.launches)| + 1
    ensures host.launches[..|old(host.launches)|] == old(host.launches)
    ensures |host.launches| > |old(host.launches)| ==>
      host.launches[|old(host.launches)|].arguments == P.PreparedCommand(host, req, encode).arguments
    ensures r.Success? ==> |host.launches| > |old(host.launches)|
    ensures |old(host.log)| <= |host.log| && host.log[..|old(host.log)|] == old(host.log)
    ensures old(host.files).Keys <= host.files.Keys
    ensures r.Success? ==>
      r.value in P.SuccessExitCodes
      && host.env == Assign(old(host.env), "ChocolateyExitCode", Some(IntToString(r.value)))
    ensures r.Failure? ==> host.env == old(host.env)
    ensures host.exitCode == (if |host.launches| == |old(host.launches)| then 4
                              else if r.Failure? then host.exitCodeOf(host.launches[|old(host.launches)|])
                              else old(host.exitCode))
  {
    ghost var command := P.PreparedCommand(host, req, encode);
    ghost var launch := P.PlannedLaunch(host, req, encode);
    ghost var refused := host.ItemExists(P.TextMarker(command.fileName));
    r := P.Start(host, req, encode);
    if !refused {
      assert host.launches[|old(host.launches)|] == launch;
    }
    if r.Success? {
      P.ClassifyMeaning(host.exitCodeOf(launch), P.ValidCodes(req.validExitCodes));
      host.SetVar("ChocolateyExitCode", Some(IntToString(r.value)));
    }
  }

  lemma KnownTypeIsNotEmpty(fileType: string)
    requires IsKnownInstallerType(fileType)
    ensures fileType != ""
  {
    assert |ToLower(fileType)| == |fileType|;
  }

  /** A success code stored as text reads back as itself. */
  lemma SuccessCodeReadsBack(code: int)
    requires code in P.SuccessExitCodes
    ensures ParseInt32(Some(IntToString(code))) == Some(code)
  {
    ParseInt32OfIntToString(code);
  }

  /**
   * What running a plan leaves behind, from the log and launches before it to
   * the state after it: the plan's lines start the new log, the installer
   * type is recorded, the `.ignore` file exists, the installer was launched at
   * most once and with the planned arguments; a successful run was launched,
   * recorded its exit code, a success code, as `ChocolateyExitCode`, and ends
   * the log reporting the package installed. No other variable changes, and
   * the package exit code is 4 when the run was refused, the process's code
   * when a launched run failed, and unchanged when it succeeded.
   */
  ghost predicate Performed(plan: Plan, command: P.Command, r: Result<(), Error>, exitCodeOf: Launch -> int,
                            log0: seq<LogEntry>, env0: map<string, string>, exitCode0: int, launches0: seq<Launch>,
                            log: seq<LogEntry>, env: map<string, string>, files: map<string, string>, exitCode: int,
                            launches: seq<Launch>)
  {
    var n := |log0| + |plan.Messages()|;
    var launched := |launches| > |launches0|;
    n <= |log| && log[..n] == log0 + plan.Messages()
    && EnvPerformed(plan.fileType, r.Success?, env0, env)
    && exitCode == (if !launched then 4 else if r.Failure? then exitCodeOf(launches[|launches0|]) else exitCode0)
    && (plan.ignoreFile.Some? ==> plan.ignoreFile.value in files)
    && |launches0| <= |launches| <= |launches0| + 1
    && launches[..|launches0|] == launches0
    && (launched ==> launches[|launches0|].arguments == command.arguments)
    && (r.Success? ==> launched && log[|log| - 1] == plan.Installed())
  }

  /**
   * The variables after running a plan: the installer type is recorded, a
   * success records a success code as `ChocolateyExitCode`, a failure leaves
   * that variable as it was, and no other variable changes.
   */
  ghost predicate EnvPerformed(fileType: string, succeeded: bool, env0: map<string, string>, env: map<string, string>)
  {
    Lookup(env, "ChocolateyInstallerType") == Some(fileType)
    && (forall name :: name != "ChocolateyInstallerType" && name != "ChocolateyExitCode" ==>
                       Lookup(env, name) == Lookup(env0, name))
    && (!succeeded ==> Lookup(env, "ChocolateyExitCode") == Lookup(env0, "ChocolateyExitCode"))
    && (succeeded ==> var code := ParseInt32(Lookup(env, "ChocolateyExitCode"));
                      code.Some? && code.value in P.SuccessExitCodes)
  }

  /** Recording the installer type, then the exit code of a successful run, performs the plan's variables. */
  lemma RecordedVariablesPerformed(fileType: string, run: Result<int, Error>, env0: map<string, string>,
                                   env: map<string, string>)
    requires fileType != ""
    requires run.Success? ==> run.value in P.SuccessExitCodes
    requires var typed := Assign(env0, "ChocolateyInstallerType", Some(fileType));
      env == if run.Success? then Assign(typed, "ChocolateyExitCode", Some(IntToString(run.value))) else typed
    ensures EnvPerformed(fileType, run.Success?, env0, env)
  {
    if run.Success? {
      SuccessCodeReadsBack(run.value);
    }
  }

  /** The part of `Install` once the plan is made. */
  method Perform(host: Host, plan: Plan, encode: string -> string) returns (r: Result<(), Error>)
    requires IsKnownInstallerType(plan.fileType)
    modifies host`log, host`env, host`files, host`exitCode, host`launches
    ensures Performed(plan, P.PreparedCommand(host, plan.request, encode), r, host.exitCodeOf, old(host.log),
                      old(host.env), old(host.exitCode), old(host.launches), host.log, host.env, host.files,
                      host.exitCode, host.launches)
  {
    KnownTypeIsNotEmpty(plan.fileType);
    Prepare(host, plan);
    var run := RunInstaller(host, plan.request, encode);
    RecordedVariablesPerformed(plan.fileType, run, old(host.env), host.env);
    if run.Failure? {
      return Failure(run.error);
    }
    host.WriteHost(plan.Installed().text);
    r := Success(());
  }

  /**
   * `Install`: refuses, changing nothing, when there is no file for the
   * bitness; otherwise writes the plan's lines, records the installer type,
   * writes the `.ignore` file, runs the installer at most once with the
   * planned arguments, and, when the run succeeds, records its exit code (a
   * success code) and reports the package installed.
   */
  method Install(host: Host, packageName: NString, file: NString, file64: NString, fileType: NString,
                 silentArguments: seq<string>, useOnlySilentArguments: bool, validExitCodes: Option<seq<int>>,
                 encode: string -> string)
    returns (r: Result<(), Error>)
    modifies host`log, host`env, host`files, host`exitCode, host`launches
    ensures var p := old(MakePlan(host, packageName, file, file64, fileType, silentArguments,
                                  useOnlySilentArguments, validExitCodes));
      p.Failure? ==> (r == Failure(p.error)
        && host.log == old(host.log) && host.env == old(host.env) && host.files == old(host.files)
        && host.exitCode == old(host.exitCode) && host.launches == old(host.launches))
    ensures var p := old(MakePlan(host, packageName, file, file64, fileType, silentArguments,
                                  useOnlySilentArguments, validExitCodes));
      p.Success? ==> Performed(p.value, P.PreparedCommand(host, p.value.request, encode), r, host.exitCodeOf,
                               old(host.log), old(host.env), old(host.exitCode), old(host.launches), host.log,
                               host.env, host.files, host.exitCode, host.launches)
  {
    var p := MakePlan(host, packageName, file, file64, fileType, silentArguments, useOnlySilentArguments, validExitCodes);
    if p.Failure? {
      return Failure(p.error);
    }
    r := Perform(host, p.value, encode);
  }
}
