/**
 * `StartChocolateyProcessHelper`: runs a program (or a PowerShell block) for a
 * package, then judges its exit code against the codes the package declared
 * valid and the codes Chocolatey treats as success.
 */
module StartChocolateyProcess {
  import opened Wrappers
  import opened Text
  import opened Paths
  import opened Host

  /** Exit codes Chocolatey treats as success and returns unchanged. */
  const SuccessExitCodes: set<int> := {0, 1605, 1614, 1641, 3010}

  /** The program the helper runs when none is named. */
  const DefaultProcessName := "powershell"

  /** The exit codes that have an explanation. */
  const ReasonCodes: set<int> :=
    {2, 3, 4, 5, 6, 7, 8, 1602, 1603, 1618, 1619, 1620, 1622, 1623, 1625, 1632, 1633, 1638, 1639, 1640, 1645}

  /** The exit codes whose explanation blames the package. */
  const AddendumCodes: set<int> := {4, 1619, 1620, 1622, 1638, 1639}


  /** The sentence that points the user at the package maintainers. */
  function Addendum(packageName: NString): string {
    " This is most likely " + "an issue with the " + "'" + OrEmpty(packageName)
    + "' package and not " + "with Chocolatey " + "itself. Please follow " + "up with the package " + "maintainer(s) directly."
  }

  /** The exit codes that have an explanation, in the order the `switch` lists them. */
  const ReasonCodeOrder: seq<int> :=
    [2, 3, 4, 5, 6, 7, 8, 1602, 1603, 1618, 1619, 1620, 1622, 1623, 1625, 1632, 1633, 1638, 1639, 1640, 1645]

  /** The explanation at position `i` of `ReasonCodeOrder`, before the addendum; "" past its end. */
  function ReasonAt(i: nat): string {
    if i == 0 then "Setup was cancelled."
    else if i == 1 then "A fatal error occurred when preparing or moving to next install phase. Check to be sure you have enough memory to perform an installation and try again."
    else if i == 2 then "A fatal error occurred during installation process."
    else if i == 3 then "User (you) cancelled the installation.'"
    else if i == 4 then "Setup process was forcefully terminated by the debugger."
    else if i == 5 then "While preparing to install, it was determined setup cannot proceed with the installation. Please be sure the software can be installed on your system."
    else if i == 6 then "While preparing to install, it was determined setup cannot proceed with the installation until you restart the system. Please reboot and try again.'"
    else if i == 7 then "User (you) cancelled the installation."
    else if i == 8 then "Generic MSI Error. This is a local environment error, not an issue with a package or the MSI itself - it could mean a pending reboot is necessary prior to install or something else (like the same version is already installed). Please see MSI log if available. If not, try again adding '--install-arguments=\"'/l*v c:\\$($env:chocolateyPackageName)_msi_install.log'\"'. Then search the MSI Log for \"Return Value 3\" and look above that for the error."
    else if i == 9 then "Another installation currently in progress. Try again later."
    else if i == 10 then MsiUnusable("found")
    else if i == 11 then MsiUnusable("opened")
    else if i == 12 then "Something is wrong with the install log location specified. Please fix this in the package silent arguments (or in install arguments you specified). The directory specified as part of the log file path must exist for an MSI to be able to log to that directory."
    else if i == 13 then "This MSI has a language that is not supported by your system. Contact package maintainer(s) if there is an install available in your language and you would like it added to the packaging."
    else if i == 14 then "Installation of this MSI is forbidden by system policy. Please contact your system administrators."
    else if i == 15 then "Installation of this MSI is not supported on this platform. Contact package maintainer(s) if you feel this is in error or if you need an architecture that is not available with the current packaging."
    else if i == 16 then "Installation of this MSI is not supported on this platform. Contact package maintainer(s) if you feel this is in error or if you need an architecture that is not available with the current packaging."
    else if i == 17 then "This MSI requires uninstall prior to installing a different version. Please ask the package maintainer(s) to add a check in the chocolateyInstall.ps1 script and uninstall if the software is installed."
    else if i == 18 then "The command line arguments passed to the MSI are incorrect. If you passed in additional arguments, please adjust. Otherwise followup with the package maintainer(s) to get this fixed."
    else if i == 19 then "Cannot install MSI when running from remote desktop (terminal services). This should automatically be handled in licensed editions. For open source editions, you may need to run change.exe prior to running Chocolatey or not use terminal services."
    else if i == 20 then "Cannot install MSI when running from remote desktop (terminal services). This should automatically be handled in licensed editions. For open source editions, you may need to run change.exe prior to running Chocolatey or not use terminal services."
    else ""
  }
  /** The explanations of 1619 ("found") and 1620 ("opened"), which differ in one word. */
  function MsiUnusable(verb: string): string {
    "MSI could not be " + verb + " - it is " + "possibly corrupt or not an MSI"
    + (" at all. If it " + "was downloaded and " + "the MSI is less " + "than 30K, try opening "
       + "it in an editor " + "like Notepad++ as " + "it is likely HTML.")
  }

  /** The explanation at position `i`, with the addendum when its code blames the package. */
  function Explanation(i: nat, packageName: NString): string
    requires i < |ReasonCodeOrder|
  {
    ReasonAt(i) + (if ReasonCodeOrder[i] in AddendumCodes then Addendum(packageName) else "")
  }

  /** The explanation of the first position at or after `i` that lists `exitCode`; "" when there is none. */
  function Lookup(exitCode: int, packageName: NString, i: nat): string
    decreases |ReasonCodeOrder| - i
  {
    if i >= |ReasonCodeOrder| then ""
    else if ReasonCodeOrder[i] == exitCode then Explanation(i, packageName)
    else Lookup(exitCode, packageName, i + 1)
  }

  /**
   * `GetExitCodeReason`: the NSIS, InnoSetup and MSI explanation of an exit code,
   * with the pointer to the package maintainers for the codes that blame the
   * package; `packageName` is the `ChocolateyPackageName` variable.
   */
  function GetExitCodeReason(exitCode: int, packageName: NString): string {
    Lookup(exitCode, packageName, 0)
  }

  /** Scanning from `i` gives what scanning from the first position at or after `i` that lists the code gives. */
  lemma {:induction false} LookupFinds(exitCode: int, packageName: NString, i: nat, j: nat)
    requires i <= j < |ReasonCodeOrder| && ReasonCodeOrder[j] == exitCode
    requires forall k :: i <= k < j ==> ReasonCodeOrder[k] != exitCode
    ensures Lookup(exitCode, packageName, i) == Lookup(exitCode, packageName, j)
    decreases j - i
  {
    if i < j {
      LookupFinds(exitCode, packageName, i + 1, j);
      LookupSkips(exitCode, packageName, i);
    }
  }

  /** A position that does not list the code passes the scan on. */
  lemma LookupSkips(exitCode: int, packageName: NString, i: nat)
    requires i < |ReasonCodeOrder| && ReasonCodeOrder[i] != exitCode
    ensures Lookup(exitCode, packageName, i) == Lookup(exitCode, packageName, i + 1)
  {
  }

  /** Scanning past every position that lists the code finds nothing. */
  lemma {:induction false} LookupMisses(exitCode: int, packageName: NString, i: nat)
    requires forall k :: i <= k < |ReasonCodeOrder| ==> ReasonCodeOrder[k] != exitCode
    ensures Lookup(exitCode, packageName, i) == ""
    decreases |ReasonCodeOrder| - i
  {
    if i < |ReasonCodeOrder| {
      LookupMisses(exitCode, packageName, i + 1);
    }
  }

  /** 0, 1, 3010 and every other code the `switch` does not list have no explanation. */
  lemma UnexplainedCodes(exitCode: int, packageName: NString)
    requires exitCode !in ReasonCodes
    ensures GetExitCodeReason(exitCode, packageName) == ""
  {
    LookupMisses(exitCode, packageName, 0);
  }

  /** The position of an explained code in the table. */
  function PositionOf(exitCode: int): (j: nat)
    requires exitCode in ReasonCodes
    ensures j < |ReasonCodeOrder| && ReasonCodeOrder[j] == exitCode
    ensures forall k :: 0 <= k < j ==> ReasonCodeOrder[k] != exitCode
  {
    if exitCode == 2 then 0 else if exitCode == 3 then 1 else if exitCode == 4 then 2
    else if exitCode == 5 then 3 else if exitCode == 6 then 4 else if exitCode == 7 then 5
    else if exitCode == 8 then 6 else if exitCode == 1602 then 7 else if exitCode == 1603 then 8
    else if exitCode == 1618 then 9 else if exitCode == 1619 then 10 else if exitCode == 1620 then 11
    else if exitCode == 1622 then 12 else if exitCode == 1623 then 13 else if exitCode == 1625 then 14
    else if exitCode == 1632 then 15 else if exitCode == 1633 then 16 else if exitCode == 1638 then 17
    else if exitCode == 1639 then 18 else if exitCode == 1640 then 19 else 20
  }

  /** An explained code gets the text at its position, followed by the addendum exactly when it blames the package. */
  lemma ExplainedCodes(exitCode: int, packageName: NString)
    requires exitCode in ReasonCodes
    ensures GetExitCodeReason(exitCode, packageName)
         == ReasonAt(PositionOf(exitCode)) + (if exitCode in AddendumCodes then Addendum(packageName) else "")
  {
    LookupFinds(exitCode, packageName, 0, PositionOf(exitCode));
  }

  /** The explanations that blame the package end with the pointer to its maintainers. */
  lemma AddendumReasons(exitCode: int, packageName: NString)
    requires exitCode in AddendumCodes
    ensures EndsWith(GetExitCodeReason(exitCode, packageName), Addendum(packageName))
  {
    ExplainedCodes(exitCode, packageName);
    EndsWithConcat(ReasonAt(PositionOf(exitCode)), Addendum(packageName));
  }

  /** Both texts say the MSI is possibly corrupt or not an MSI at all. */
  lemma MsiUnusableSaysCorrupt(verb: string)
    ensures Contains(MsiUnusable(verb), "possibly corrupt or not an MSI")
  {
    ContainsPart("MSI could not be " + verb + " - it is ", "possibly corrupt or not an MSI",
      " at all. If it " + "was downloaded and " + "the MSI is less " + "than 30K, try opening "
      + "it in an editor " + "like Notepad++ as " + "it is likely HTML.");
  }

  /** The explanation at the position of 1619 or 1620 says the MSI is possibly corrupt. */
  lemma CorruptMsiExplanation(verb: string, packageName: NString)
    ensures Contains(MsiUnusable(verb) + Addendum(packageName), "possibly corrupt or not an MSI")
  {
    MsiUnusableSaysCorrupt(verb);
    ContainsExtend(MsiUnusable(verb), "possibly corrupt or not an MSI", Addendum(packageName));
  }

  /** The explanation of 1619. */
  lemma MsiNotFoundReason(packageName: NString)
    ensures GetExitCodeReason(1619, packageName) == MsiUnusable("found") + Addendum(packageName)
  {
    LookupFinds(1619, packageName, 0, 10);
    assert Lookup(1619, packageName, 10) == Explanation(10, packageName);
  }

  /** The explanation of 1620. */
  lemma MsiNotOpenedReason(packageName: NString)
    ensures GetExitCodeReason(1620, packageName) == MsiUnusable("opened") + Addendum(packageName)
  {
    LookupFinds(1620, packageName, 0, 11);
    assert Lookup(1620, packageName, 11) == Explanation(11, packageName);
  }

  /** The explanations of 1619 and 1620 say the file is possibly corrupt or not an MSI. */
  lemma CorruptMsiReasons(exitCode: int, packageName: NString)
    requires exitCode == 1619 || exitCode == 1620
    ensures Contains(GetExitCodeReason(exitCode, packageName), "possibly corrupt or not an MSI")
  {
    if exitCode == 1619 {
      MsiNotFoundReason(packageName);
      CorruptMsiExplanation("found", packageName);
    } else {
      MsiNotOpenedReason(packageName);
      CorruptMsiExplanation("opened", packageName);
    }
  }

  /** The end of the failure message: the explanation, or a pointer to the log. */
  function ReasonText(reason: string): (r: string)
    ensures IsBlank(reason) ==> r == "See log for possible " + "error messages."
    ensures !IsBlank(reason) ==> EndsWith(r, reason)
  {
    if IsBlank(reason) then "See log for possible " + "error messages."
    else "Exit code indicates " + "the following: " + reason
  }

  /** A missing list of valid exit codes means only 0 is valid. */
  function ValidCodes(validExitCodes: Option<seq<int>>): seq<int> {
    validExitCodes.GetOr([0])
  }

  /** How an exit code is judged. */
  datatype Verdict =
    /** Not a valid code: the package fails. */
    | Rejected
    /** A valid code; `returned` is what `Start` returns, and `unusual` when a warning says it was changed to 0. */
    | Accepted(returned: int, unusual: bool)

  function Classify(exitCode: int, valid: seq<int>): Verdict {
    if exitCode !in valid then Rejected
    else if exitCode !in SuccessExitCodes then Accepted(0, true)
    else Accepted(exitCode, false)
  }

  /**
   * Acceptance: a code is rejected exactly when the package did not declare it
   * valid; an accepted code is returned as itself when it is a success code and
   * as 0, with a warning, otherwise, so whatever `Start` returns is a success code.
   */
  lemma ClassifyMeaning(exitCode: int, valid: seq<int>)
    ensures Classify(exitCode, valid).Rejected? <==> exitCode !in valid
    ensures Classify(exitCode, valid).Accepted? ==> Classify(exitCode, valid).returned in SuccessExitCodes
    ensures Classify(exitCode, valid).Accepted? ==>
      (Classify(exitCode, valid).returned == exitCode <==> exitCode in SuccessExitCodes)
    ensures Classify(exitCode, valid).Accepted? ==>
      (Classify(exitCode, valid).unusual <==> exitCode !in SuccessExitCodes)
  {
  }

  /** Without a list of valid codes, only 0 passes; a reboot-required 3010 passes only when declared, and stays 3010. */
  lemma DefaultValidCodes(exitCode: int)
    ensures Classify(exitCode, ValidCodes(None)).Accepted? <==> exitCode == 0
    ensures Classify(3010, [0, 3010]) == Accepted(3010, false)
  {
  }

  predicate IsQuote(c: char) {
    c == '"' || c == '\''
  }

  /**
   * `NormalizeProcessName`: a blank name is kept; otherwise NUL characters are
   * removed and, unless that leaves it blank, white space and then quotes are
   * trimmed from both ends.
   */
  function NormalizeProcessName(name: string): string {
    if IsBlank(name) then name
    else
      var n := ReplaceAll(name, "\0", "");
      if IsBlank(n) then n else TrimWhere(Trim(n), IsQuote)
  }

  lemma TrimWhereKeepsOnlyOwnChars(s: string, drop: char -> bool, x: char)
    requires x in TrimWhere(s, drop)
    ensures x in s
  {
    var t := TrimStartWhere(s, drop);
    var r := TrimEndWhere(t, drop);
    var i :| 0 <= i < |r| && r[i] == x;
    assert r[i] == t[i];
    assert t[i] == s[|s| - |t| + i];
  }

  /**
   * A normalised name has no NUL character and, unless removing the NULs left it
   * blank, neither begins nor ends with a quote.
   */
  lemma NormalizedNameIsClean(name: string)
    requires !IsBlank(name)
    ensures '\0' !in NormalizeProcessName(name)
    ensures var r := NormalizeProcessName(name);
      !IsBlank(ReplaceAll(name, "\0", "")) && r != [] ==> !IsQuote(r[0]) && !IsQuote(r[|r| - 1])
  {
    var n := ReplaceAll(name, "\0", "");
    ReplaceCharEliminates(name, '\0', "");
    assert "\0" == ['\0'];
    if !IsBlank(n) && '\0' in TrimWhere(Trim(n), IsQuote) {
      TrimWhereKeepsOnlyOwnChars(Trim(n), IsQuote, '\0');
      TrimWhereKeepsOnlyOwnChars(n, IsWhiteSpace, '\0');
    }
  }

  /** Arguments that are not blank lose their NUL characters; blank or missing ones are kept. */
  function CleanArguments(arguments: NString): (r: NString)
    ensures !IsNullOrWhiteSpace(arguments) ==> r.Some? && '\0' !in r.value
    ensures IsNullOrWhiteSpace(arguments) ==> r == arguments
  {
    if IsNullOrWhiteSpace(arguments) then arguments
    else
      ReplaceCharEliminates(arguments.value, '\0', "");
      assert "\0" == ['\0'];
      Some(ReplaceAll(arguments.value, "\0", ""))
  }

  /** What a caller asks `Start` to do. */
  datatype StartRequest = StartRequest(
    processName: string,
    workingDirectory: NString,
    arguments: NString,
    elevated: bool,
    minimized: bool,
    noSleep: bool,
    validExitCodes: Option<seq<int>>)

  /** The overload `Start(arguments, workingDirectory, validExitCodes)`: elevated, not minimized, with sleeps. */
  function SimpleRequest(processName: string, arguments: NString, workingDirectory: NString,
                         validExitCodes: Option<seq<int>>): StartRequest {
    StartRequest(processName, workingDirectory, arguments, true, false, false, validExitCodes)
  }

  /** The working directory: the one requested, else the current location, else `TEMP`. */
  function WorkingDirectory(requested: NString, current: NString, temp: NString): NString {
    if !IsNullOrWhiteSpace(requested) then requested
    else if !IsNullOrEmpty(current) then current
    else temp
  }

  function ImportHelpers(installLocation: string): string {
    "Import-Module -Name '" + Combine(Combine(installLocation, "helpers"), "chocolateyInstaller.psm1")
    + "' -Verbose:$false " + "| Out-Null"
  }

  /**
   * `PowerShellScriptWrapper`, read as a format template: `{0}` is `noSleep`,
   * `{1}` the helper import and `{2}` the block; the helpers are imported, the
   * block runs, and failures are rethrown after a pause unless `noSleep`.
   */
  function WrapperParts(): (parts: seq<TemplatePart>)
    ensures SpellableParts(parts)
  {
    SpellableConcat(WrapperHead(), WrapperTry());
    SpellableConcat(WrapperHead() + WrapperTry(), WrapperCatch());
    WrapperHead() + WrapperTry() + WrapperCatch()
  }

  /** Up to the block: the `noSleep` assignment, the helper import, and the start of `try`. */
  function WrapperHead(): (parts: seq<TemplatePart>)
    ensures SpellableParts(parts)
  {
    [Plain(NoSleepText()), Placeholder(0), Plain("\n"), Placeholder(1), Plain(TryText()), OpenBrace,
     Plain(ProgressText()), Placeholder(2)]
  }

  /** The pause after the block and the end of `try`. */
  function WrapperTry(): (parts: seq<TemplatePart>)
    ensures SpellableParts(parts)
  {
    [Plain("\n" + IfAwakeText()), OpenBrace, Plain(SleepText("6")), CloseBrace, Plain("\n"), CloseBrace]
  }

  /** The `catch` block: a longer pause, then the failure rethrown. */
  function WrapperCatch(): (parts: seq<TemplatePart>)
    ensures SpellableParts(parts)
  {
    [Plain(CatchText()), OpenBrace, Plain(IfAwakeText()), OpenBrace, Plain(SleepText("8")), CloseBrace,
     Plain(ThrowText()), CloseBrace]
  }

  function NoSleepText(): (s: string) ensures NoBraces(s) { "\n$noSleep = $" }
  function TryText(): (s: string) ensures NoBraces(s) { "\ntry " }
  function CatchText(): (s: string) ensures NoBraces(s) { "\ncatch " }
  function ThrowText(): (s: string) ensures NoBraces(s) { "\n\n    throw $_\n" }
  function IfAwakeText(): (s: string) ensures NoBraces(s) { "\n    if (-not " + "$noSleep) " }

  function ProgressText(): (s: string)
    ensures NoBraces(s)
  {
    "\n    $progress" + "Preference = " + "\"SilentlyContinue\"" + "\n    "
  }

  /** `Start-Sleep` for the given number of seconds, on a line of its own. */
  function SleepText(seconds: string): (s: string)
    requires NoBraces(seconds)
    ensures NoBraces(s)
  {
    "\n        Start-" + "Sleep " + seconds + "\n    "
  }

  /** The format arguments: `noSleep` as `bool.ToString()` gives it, the import line, and the block (null as ""). */
  function WrapperArguments(noSleep: bool, importHelpers: string, arguments: NString): seq<string> {
    [if noSleep then "True" else "False", importHelpers, OrEmpty(arguments)]
  }

  /** The script that wraps a PowerShell block. */
  function WrapperStatements(noSleep: bool, importHelpers: string, arguments: NString): string {
    Filled(WrapperParts(), WrapperArguments(noSleep, importHelpers, arguments))
  }

  /**
   * The template as written spells its literal braces single, so formatting it
   * throws `FormatException` at the brace after `try`, whatever the arguments.
   */
  lemma AsWrittenWrapperFails(noSleep: bool, importHelpers: string, arguments: NString)
    ensures Format(TemplateText(WrapperParts(), "{", "}"),
                   WrapperArguments(noSleep, importHelpers, arguments)) == None
  {
    FormatUnescapedTemplate(WrapperParts(), WrapperArguments(noSleep, importHelpers, arguments), 5);
  }

  /** With the braces doubled, the template formats to the wrapped script for any arguments. */
  lemma CorrectedWrapperFormats(noSleep: bool, importHelpers: string, arguments: NString)
    ensures Format(TemplateText(WrapperParts(), "{{", "}}"),
                   WrapperArguments(noSleep, importHelpers, arguments))
            == Some(WrapperStatements(noSleep, importHelpers, arguments))
  {
    FormatEscapedTemplate(WrapperParts(), WrapperArguments(noSleep, importHelpers, arguments));
  }

  /** The program to run and its arguments, before the text-file guard and the msiexec rewrite. */
  datatype Command = Command(fileName: string, arguments: NString)

  /**
   * The name is normalised and NULs removed from the arguments; a PowerShell block
   * becomes the PowerShell executable with the wrapped block as an encoded command.
   * `encode` stands for Base64 over the UTF-16LE bytes of the script.
   */
  function PrepareCommand(req: StartRequest, powerShellLocation: string, installLocation: string,
                          encode: string -> string): Command {
    var name := NormalizeProcessName(req.processName);
    var arguments := CleanArguments(req.arguments);
    if ToLower(name) == DefaultProcessName then
      var script := WrapperStatements(req.noSleep, ImportHelpers(installLocation), arguments);
      Command(powerShellLocation, Some(PowerShellArguments(encode(script))))
    else Command(name, arguments)
  }

  function PowerShellArguments(encodedScript: string): string {
    "-NoLogo -NonInteractive " + "-NoProfile -ExecutionPolicy " + "Bypass -InputFormat "
    + "Text -OutputFormat " + "Text -EncodedCommand " + encodedScript
  }

  /** What `string.Format` throws on a malformed template. */
  function FormatFailure(): Error {
    Error(FormatError, "Input string was " + "not in a correct " + "format.")
  }

  /**
   * `PrepareCommand` with the wrapper spelled as `template` and put through
   * `string.Format`, which fails before anything is launched.
   */
  function PrepareCommandFrom(template: string, req: StartRequest, powerShellLocation: string,
                              installLocation: string, encode: string -> string): Result<Command, Error> {
    var name := NormalizeProcessName(req.processName);
    var arguments := CleanArguments(req.arguments);
    if ToLower(name) == DefaultProcessName then
      match Format(template, WrapperArguments(req.noSleep, ImportHelpers(installLocation), arguments))
      case None => Failure(FormatFailure())
      case Some(script) => Success(Command(powerShellLocation, Some(PowerShellArguments(encode(script)))))
    else Success(Command(name, arguments))
  }

  /**
   * As written, the wrapper's single braces make every PowerShell block fail with
   * `FormatException`, and only other programs get a command.
   */
  lemma AsWrittenPowerShellStartFails(req: StartRequest, powerShellLocation: string, installLocation: string,
                                      encode: string -> string)
    ensures var r := PrepareCommandFrom(TemplateText(WrapperParts(), "{", "}"), req, powerShellLocation,
                                        installLocation, encode);
            (r.Failure? <==> ToLower(NormalizeProcessName(req.processName)) == DefaultProcessName)
            && (r.Failure? ==> r.error == FormatFailure())
            && (r.Success? ==> r.value == PrepareCommand(req, powerShellLocation, installLocation, encode))
  {
    AsWrittenWrapperFails(req.noSleep, ImportHelpers(installLocation), CleanArguments(req.arguments));
  }

  /** With the braces doubled, formatting the wrapper yields the command `PrepareCommand` describes. */
  lemma CorrectedStartPrepares(req: StartRequest, powerShellLocation: string, installLocation: string,
                               encode: string -> string)
    ensures PrepareCommandFrom(TemplateText(WrapperParts(), "{{", "}}"), req, powerShellLocation,
                               installLocation, encode)
            == Success(PrepareCommand(req, powerShellLocation, installLocation, encode))
  {
    CorrectedWrapperFormats(req.noSleep, ImportHelpers(installLocation), CleanArguments(req.arguments));
  }

  /** The marker a download leaves next to a file that turned out to be text or HTML. */
  function TextMarker(fileName: string): string {
    fileName + ".istext"
  }

  function TextFileError(fileName: string): Error {
    Error(InvalidOperation, "The file was a text " + "file but is attempting " + "to be run as an " + "executable - '" + fileName + "'")
  }

  /** `msiexec` or `msiexec.exe`, in any case. */
  predicate IsMsiexec(name: string) {
    ToLower(name) == "msiexec" || ToLower(name) == "msiexec.exe"
  }

  /**
   * The name tests are `PSHelper.IsEqual` against lower-case literals: comparing
   * the lower-cased name with the literal is the same test.
   */
  lemma MsiexecTestIsEqual(name: string)
    ensures IsMsiexec(name) <==> IsEqual(Some(name), Some("msiexec")) || IsEqual(Some(name), Some("msiexec.exe"))
  {
    IsEqualLowerText(name, "msiexec");
    IsEqualLowerText(name, "msiexec.exe");
  }

  lemma DefaultNameTestIsEqual(name: string)
    ensures ToLower(name) == DefaultProcessName <==> IsEqual(Some(name), Some(DefaultProcessName))
  {
    IsEqualLowerText(name, DefaultProcessName);
  }

  function MsiexecPath(systemRoot: NString): string {
    Combine(OrEmpty(systemRoot), "System32\\msiexec.exe")
  }

  function PreparedCommand(host: Host, req: StartRequest, encode: string -> string): Command
  {
    PrepareCommand(req, host.powerShellLocation, host.installLocation, encode)
  }

  /** The process `Start` launches once the text-file guard has passed. */
  function PlannedLaunch(host: Host, req: StartRequest, encode: string -> string): (l: Launch)
    reads host`env
    ensures IsMsiexec(PreparedCommand(host, req, encode).fileName) ==> l.fileName == MsiexecPath(host.Var("SystemRoot"))
    ensures !IsMsiexec(PreparedCommand(host, req, encode).fileName) ==> l.fileName == PreparedCommand(host, req, encode).fileName
    ensures l.arguments == PreparedCommand(host, req, encode).arguments
    ensures !l.noNewWindow && l.elevated == req.elevated
    ensures l.windowStyle == (if req.minimized then Minimized else Normal)
  {
    var c := PreparedCommand(host, req, encode);
    Launch(if IsMsiexec(c.fileName) then MsiexecPath(host.Var("SystemRoot")) else c.fileName,
           WorkingDirectory(req.workingDirectory, host.currentDirectory, host.Var("TEMP")),
           c.arguments, req.elevated, if req.minimized then Minimized else Normal, false)
  }

  function MissingProgramWarning(fileName: string): string {
    "May not be able " + "to find '" + fileName + "'. Please use full " + "path for executables."
  }

  function UnusualCodeWarning(exitCode: int): string {
    "Exit code '" + IntToString(exitCode)
    + "' was considered " + "valid by script, " + "but not as a normal " + "Chocolatey success " + "code. Returning " + "'0'."
  }

  /** The warning for a program that cannot be found (never for msiexec, which is rewritten). */
  function MissingProgramWarnings(host: Host, c: Command): seq<LogEntry>
    reads host`files, host`dirs
  {
    if !IsMsiexec(c.fileName) && !host.ItemExists(c.fileName)
    then [Warning(MissingProgramWarning(c.fileName))]
    else []
  }

  /** The warnings written once the process has exited. */
  function OutcomeWarnings(exitCode: int, valid: seq<int>, packageName: NString): seq<LogEntry> {
    var reason := GetExitCodeReason(exitCode, packageName);
    (if !IsBlank(reason) then [Warning(reason)] else [])
    + (if Classify(exitCode, valid) == Accepted(0, true)
       then [Warning(UnusualCodeWarning(exitCode))]
       else [])
  }

  function ExitCodeWas(exitCode: int): string {
    "Exit code was " + IntToString(exitCode) + "."
  }

  /** The failure for a code that is not valid; `reason` is the code's explanation. */
  function NotSuccessful(fileName: string, arguments: NString, exitCode: int, reason: string): Error {
    Error(RuntimeError, "Running [\"" + fileName + "\" " + OrEmpty(arguments) + "] not successful. "
      + ExitCodeWas(exitCode) + " " + ReasonText(reason))
  }

  /** The failure names the exit code and carries its explanation. */
  lemma NotSuccessfulMessage(fileName: string, arguments: NString, exitCode: int, reason: string)
    ensures Contains(NotSuccessful(fileName, arguments, exitCode, reason).message, ExitCodeWas(exitCode))
    ensures EndsWith(NotSuccessful(fileName, arguments, exitCode, reason).message, ReasonText(reason))
  {
    var head := "Running [\"" + fileName + "\" " + OrEmpty(arguments) + "] not successful. ";
    ContainsSuffix(head, ExitCodeWas(exitCode));
    ContainsExtend(head + ExitCodeWas(exitCode), ExitCodeWas(exitCode), " ");
    ContainsExtend(head + ExitCodeWas(exitCode) + " ", ExitCodeWas(exitCode), ReasonText(reason));
    EndsWithConcat(head + ExitCodeWas(exitCode) + " ", ReasonText(reason));
  }

  /**
   * The end of `Start`: warns with the exit code's explanation, then fails with the
   * package exit code set to a code that is not valid, or returns the accepted code.
   */
  method JudgeExitCode(host: Host, exitCode: int, valid: seq<int>, fileName: string, arguments: NString)
    returns (r: Result<int, Error>)
    modifies host`log, host`exitCode
    ensures var packageName := host.Var("ChocolateyPackageName");
      host.log == old(host.log) + OutcomeWarnings(exitCode, valid, packageName)
      && r == (if exitCode !in valid then Failure(NotSuccessful(fileName, arguments, exitCode, GetExitCodeReason(exitCode, packageName)))
               else Success(Classify(exitCode, valid).returned))
      && host.exitCode == (if exitCode !in valid then exitCode else old(host.exitCode))
  {
    var packageName := host.Var("ChocolateyPackageName");
    var reason := GetExitCodeReason(exitCode, packageName);
    if !IsBlank(reason) {
      host.Warn(reason);
    }
    if exitCode !in valid {
      host.SetExitCode(exitCode);
      return Failure(NotSuccessful(fileName, arguments, exitCode, reason));
    }
    var code := exitCode;
    if exitCode !in SuccessExitCodes {
      var warning := UnusualCodeWarning(exitCode);
      host.Warn(warning);
      code := 0;
    }
    return Success(code);
  }

  /**
   * Launches a prepared command: warns when the program cannot be found, starts
   * the process, then judges its exit code.
   */
  method Run(host: Host, c: Command, l: Launch, valid: seq<int>) returns (r: Result<int, Error>)
    modifies host`log, host`exitCode, host`launches, host`files
    ensures host.launches == old(host.launches) + [l]
    ensures host.files == old(host.files) + host.producedBy(l)
    ensures var code := host.exitCodeOf(l);
      var packageName := host.Var("ChocolateyPackageName");
      host.log == old(host.log) + old(MissingProgramWarnings(host, c)) + OutcomeWarnings(code, valid, packageName)
      && r == (if code !in valid then Failure(NotSuccessful(l.fileName, l.arguments, code, GetExitCodeReason(code, packageName)))
               else Success(Classify(code, valid).returned))
      && host.exitCode == (if code !in valid then code else old(host.exitCode))
  {
    ghost var warnings := MissingProgramWarnings(host, c);
    if !IsMsiexec(c.fileName) && !host.ItemExists(c.fileName) {
      var warning := MissingProgramWarning(c.fileName);
      host.Warn(warning);
    }
    assert host.log == old(host.log) + warnings;
    var exitCode := host.StartProcess(l);
    r := JudgeExitCode(host, exitCode, valid, l.fileName, l.arguments);
  }

  /**
   * `Start`: prepares the command, refuses a program a download marked as text
   * (package exit code 4), launches the process, then warns with the exit code's
   * explanation and either fails (package exit code set to the code) or returns
   * the accepted code. `encode` is the PowerShell block encoding.
   */
  method Start(host: Host, req: StartRequest, encode: string -> string) returns (r: Result<int, Error>)
    modifies host`log, host`exitCode, host`launches, host`files
    ensures var c := PreparedCommand(host, req, encode);
      old(host.ItemExists(TextMarker(c.fileName))) ==>
        r == Failure(TextFileError(c.fileName)) && host.exitCode == 4
        && host.log == old(host.log) && host.launches == old(host.launches) && host.files == old(host.files)
    ensures var c := PreparedCommand(host, req, encode);
      var l := old(PlannedLaunch(host, req, encode));
      var code := host.exitCodeOf(l);
      var valid := ValidCodes(req.validExitCodes);
      var packageName := host.Var("ChocolateyPackageName");
      !old(host.ItemExists(TextMarker(c.fileName))) ==>
        host.launches == old(host.launches) + [l]
        && host.files == old(host.files) + host.producedBy(l)
        && host.log == old(host.log) + old(MissingProgramWarnings(host, c)) + OutcomeWarnings(code, valid, packageName)
        && r == (if code !in valid then Failure(NotSuccessful(l.fileName, l.arguments, code, GetExitCodeReason(code, packageName)))
                 else Success(Classify(code, valid).returned))
        && host.exitCode == (if code !in valid then code else old(host.exitCode))
  {
    var command := PreparedCommand(host, req, encode);
    if host.ItemExists(TextMarker(command.fileName)) {
      host.SetExitCode(4);
      return Failure(TextFileError(command.fileName));
    }
    var launch := PlannedLaunch(host, req, encode);
    var valid := ValidCodes(req.validExitCodes);
    r := Run(host, command, launch, valid);
  }
}
