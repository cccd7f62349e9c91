# Chocolatey PowerShell cmdlets and helpers, modelled in Dafny

This project models the core of `Chocolatey.PowerShell`, the C# module that
implements the PowerShell commands Chocolatey packages run from their install
scripts, and proves properties of that model.

Modelled parts:

- **Process helper** (`StartChocolateyProcessHelper`): starts a program or an
  elevated PowerShell block for a package. It then judges the exit code against
  the package's valid codes and the codes Chocolatey treats as success, and
  records the package exit code.
- **Windows installer helper** (`WindowsInstallerHelper`): picks the 32- or
  64-bit installer and settles its type (MSI, MSP, MSU or executable). It
  composes the silent and user arguments and runs the installer.
- **7-Zip helper** (`SevenZipHelper`): picks the archive, builds the 7-Zip
  command line, collects the extracted file names into the extraction log and
  turns failing exit codes into errors.
- **Download helpers**:
  - `WebHelper.GetChocolateyWebFile`: URL and checksum overrides, the 32/64-bit
    choice, the HTTPS upgrade, cache reuse, the fetch and the validation.
  - The helpers beside it: request time-outs, custom headers and the
    text-content check.
  - `RemoteDownloader.GetRemoteFileName`: the file name a download is saved
    under.
  - `ProxySettings.GetProxy`: the proxy a download uses.
- **Cmdlets**:
  - `New-Shim`, `Get-ToolsLocation`, `Get-ChocolateyConfigValue`
  - `Install-ChocolateyEnvironmentVariable`, `Install-ChocolateyFileAssociation`
  - the `End` block of `Install-ChocolateyPackage`
  - the `ChocolateyCmdlet` base class: call and completion debug lines,
    deprecation warnings, error identifiers and the order of its blocks
- **Small helpers**: `ArchitectureWidth`, `ToSecureStringSafe` and the
  `BoolStringSwitchTransform` switch transformation.

How the modules are built:

- The world the cmdlets act on is one `Host` class. It holds the process, User
  and Machine environment stores, the file system, the package exit code, the
  lines written to the host and the processes launched.
- Operations that change it are methods with `modifies` clauses. Each is
  proved against value-level specification functions.
- Decisions that only compute are functions, and lemmas state what they
  promise.
- What a launched process does is an oracle fixed when the host is created:
  its exit code, its output and the files it produces.
- The same holds for HTTP replies, FTP and file copies, and checksum
  validation.

The modules follow the source files:

- `wrappers`, `text` and `paths`: `Option`/`Result`, the .NET string and
  path members the code relies on.
- `host`: the world described above.
- One module per core file: `architecture_width`, `process_helper`,
  `installer`, `seven_zip`, `web_helper`, `remote_downloader`,
  `proxy_settings`, `chocolatey_cmdlet`, `config_value`, `new_shim`,
  `tools_location`, `environment_variable`, `file_association`,
  `package_install`, `string_extensions` and `switch_transform`.

## Model

| member | source | states |
|---|---|---|
| ArchitectureWidth.Get | src/Chocolatey.PowerShell/Helpers/ArchitectureWidth.cs:9-12 | the width is 64 exactly in a 64-bit process and 32 exactly otherwise |
| ArchitectureWidth.MatchesExactlyOneWidth | src/Chocolatey.PowerShell/Helpers/ArchitectureWidth.cs:14-17 | `Matches(64)` holds iff the process is 64-bit, `Matches(32)` iff it is not, and never both |
| ArchitectureWidth.MatchesOnlyKnownWidths | src/Chocolatey.PowerShell/Helpers/ArchitectureWidth.cs:14-17 | no width other than 32 and 64 ever matches |
| StringExtensions.SecureCopy | src/Chocolatey.PowerShell/Extensions/StringExtensions.cs:15-27 | the secure string is empty or exactly as long as the input |
| StringExtensions.ToSecureStringSafe | src/Chocolatey.PowerShell/Extensions/StringExtensions.cs:15-27 | a null or blank input gives an empty secure string; otherwise the loop appends every character, in order, so the result is the input |
| StringExtensions.BlankGivesEmpty | src/Chocolatey.PowerShell/Extensions/StringExtensions.cs:19 | white space of any kind and length gives an empty secure string |
| StringExtensions.NonBlankIsKeptWhole | src/Chocolatey.PowerShell/Extensions/StringExtensions.cs:19-24 | a text with one non-blank character is copied whole, white space included |
| SwitchTransform.Transform | src/Chocolatey.PowerShell/Shared/JankySwitchTransformAttribute.cs:8-20 | a switch is kept, a Boolean becomes a switch present iff it is true, any other value a switch present iff its string form is non-null and non-empty |
| SwitchTransform.TransformIdempotent | src/Chocolatey.PowerShell/Shared/JankySwitchTransformAttribute.cs:12-13 | transforming the result again changes nothing |
| SwitchTransform.AnyNonEmptyStringIsPresent | src/Chocolatey.PowerShell/Shared/JankySwitchTransformAttribute.cs:16-18 | any non-empty string, "false" and "0" included, gives a present switch |
| ChocolateyCmdlet.Fragment | src/Chocolatey.PowerShell/Shared/ChocolateyCmdlet.cs:141-147 | a `-SensitiveStatements` or `-Password` parameter, in any case, is written as `-Key '[REDACTED]'` |
| ChocolateyCmdlet.BuildCallMessage | src/Chocolatey.PowerShell/Shared/ChocolateyCmdlet.cs:128-148 | the `StringBuilder` loop builds exactly `CallMessage`: "Running", the invocation name, then one fragment per parameter that is not ignored, in binding order |
| ChocolateyCmdlet.MessageIgnoresSecrets | src/Chocolatey.PowerShell/Shared/ChocolateyCmdlet.cs:141-145 | two parameter lists that differ only in sensitive values give the same message: no secret reaches the log |
| ChocolateyCmdlet.WithoutIgnored | src/Chocolatey.PowerShell/Shared/ChocolateyCmdlet.cs:134-139 | the filtered list holds no `-IgnoredArguments` entry |
| ChocolateyCmdlet.IgnoredArgumentsNeverShow | src/Chocolatey.PowerShell/Shared/ChocolateyCmdlet.cs:134-139 | dropping the ignored arguments first leaves the message unchanged |
| ChocolateyCmdlet.ParameterAppearsInMessage | src/Chocolatey.PowerShell/Shared/ChocolateyCmdlet.cs:132-148 | every parameter that is not ignored appears in the message with its own key |
| ChocolateyCmdlet.FindReplacement | src/Chocolatey.PowerShell/Shared/ChocolateyCmdlet.cs:163-171 | no replacement iff no entry's name equals the invocation name ignoring case (the table's comparer, line 35); a replacement found belongs to such an entry |
| ChocolateyCmdlet.DeprecationWarning | src/Chocolatey.PowerShell/Shared/ChocolateyCmdlet.cs:163-172 | a warning iff the name is deprecated; it says the command will be removed when the replacement is empty, and names the replacement otherwise |
| ChocolateyCmdlet.NoDeprecationsShipped | src/Chocolatey.PowerShell/Shared/ChocolateyCmdlet.cs:35-41 | with the shipped, empty table no command warns |
| ChocolateyCmdlet.ErrorId | src/Chocolatey.PowerShell/Shared/ChocolateyCmdlet.cs:77-83 | the identifier ends in "Error" and is five characters longer than the type name |
| ChocolateyCmdlet.ErrorIdInjective | src/Chocolatey.PowerShell/Shared/ChocolateyCmdlet.cs:77-83 | different cmdlet types get different error identifiers |
| ChocolateyCmdlet.BeginProcessing | src/Chocolatey.PowerShell/Shared/ChocolateyCmdlet.cs:174-179 | the log gains the deprecation warning, then the call message (when logging), then the begin block's own output |
| ChocolateyCmdlet.EndProcessing | src/Chocolatey.PowerShell/Shared/ChocolateyCmdlet.cs:204-208 | the log gains the end block's output, then "Finishing" with the invocation name when logging |
| ChocolateyCmdlet.QuietWhenNotLogging | src/Chocolatey.PowerShell/Shared/ChocolateyCmdlet.cs:119-126 | with logging off and the shipped table (empty, lines 35-41), beginning writes nothing of its own |
| ConfigValue.FirstMatch | src/Chocolatey.PowerShell/Commands/GetChocolateyConfigValueCommand.cs:66-82 | null iff no entry has a matching key (ignoring case) and a value; otherwise the value of the first entry that does |
| ConfigValue.ReadConfig | src/Chocolatey.PowerShell/Commands/GetChocolateyConfigValueCommand.cs:35-52 | the loop returns the first block any reader yields and one warning per reader that threw before it |
| ConfigValue.GetConfigValue | src/Chocolatey.PowerShell/Commands/GetChocolateyConfigValueCommand.cs:28-83 | a null key gives null without reading; no block is the "Config file is missing or empty." error; unparsable text is an XML error; otherwise the first matching entry's value |
| ConfigValue.KeyWithoutValueIsSkipped | src/Chocolatey.PowerShell/Commands/GetChocolateyConfigValueCommand.cs:74-79 | an entry with the key but no value does not stop the search |
| ConfigValue.KeyMatchIgnoresCase | src/Chocolatey.PowerShell/Commands/GetChocolateyConfigValueCommand.cs:69 | an entry whose key differs only in letter case answers |
| ProxySettings.ExplicitProxy | src/Chocolatey.PowerShell/Shared/ProxySettings.cs:16-35 | fails exactly when `Uri` rejects the address, with that error, or else when `Regex` rejects an entry of a non-blank bypass list, with the first such entry's `ArgumentException`; otherwise the proxy is at the address read as a URI; it bypasses local addresses iff the setting equals "true" ignoring case; it has credentials iff the password is not blank; it has a bypass list iff the list setting is not blank, split at commas with empty entries dropped |
| ProxySettings.GetProxy | src/Chocolatey.PowerShell/Shared/ProxySettings.cs:23-63 | a set `chocolateyProxyLocation` always gives the explicit proxy or its address or bypass-list error; otherwise a proxy iff the system proxy does not bypass the address, at its authority read as a URI, bypassing local addresses, failing exactly when that authority does not parse; a host line exactly when a proxy is chosen |
| ProxySettings.ProxyUriTextMeaning | src/Chocolatey.PowerShell/Shared/ProxySettings.cs:25 | an address without "://" is read as `http://` followed by it; one with it is read as it is |
| ProxySettings.EmptyExplicitProxyFails | src/Chocolatey.PowerShell/Shared/ProxySettings.cs:23-25 | an explicit proxy set to the empty string fails with the empty-host URI error, whatever the system proxy |
| ProxySettings.BypassListEntries | src/Chocolatey.PowerShell/Shared/ProxySettings.cs:32-35 | the bypass entries are non-empty, contain no comma, and joined together give the setting with its commas removed |
| ProxySettings.CredentialsCarryPassword | src/Chocolatey.PowerShell/Shared/ProxySettings.cs:26-30 | the password reaches the credentials character for character |
| ProxySettings.FirstRejected | src/Chocolatey.PowerShell/Shared/ProxySettings.cs:34 | the position of the first bypass entry `Regex` rejects: every entry before it is accepted, and it is the number of entries only when all are |
| ProxySettings.RejectedBypassEntryFails | src/Chocolatey.PowerShell/Shared/ProxySettings.cs:32-35 | with a parsing address, a bypass entry `Regex` rejects fails the explicit proxy with the `ArgumentException` of the first rejected entry |
| ProxySettings.FirstRejectedIsFirst | src/Chocolatey.PowerShell/Shared/ProxySettings.cs:34 | an entry rejected after only accepted ones is the one `FirstRejected` reports |
| StartChocolateyProcess.LookupFinds | src/Chocolatey.PowerShell/Helpers/StartChocolateyProcessHelper.cs:166-220 | scanning the reason table from any position before a code's first entry finds that entry |
| StartChocolateyProcess.LookupMisses | src/Chocolatey.PowerShell/Helpers/StartChocolateyProcessHelper.cs:220-222 | scanning past every entry of a code finds no explanation |
| StartChocolateyProcess.UnexplainedCodes | src/Chocolatey.PowerShell/Helpers/StartChocolateyProcessHelper.cs:166-222 | 0, 1, 3010 and every code the switch does not list have an empty explanation |
| StartChocolateyProcess.PositionOf | src/Chocolatey.PowerShell/Helpers/StartChocolateyProcessHelper.cs:166-220 | every listed code has a first position in the table |
| StartChocolateyProcess.ExplainedCodes | src/Chocolatey.PowerShell/Helpers/StartChocolateyProcessHelper.cs:164-220 | a listed code gets its own text, followed by the maintainer addendum exactly for 4, 1619, 1620, 1622, 1638 and 1639 |
| StartChocolateyProcess.AddendumReasons | src/Chocolatey.PowerShell/Helpers/StartChocolateyProcessHelper.cs:164-216 | the explanations that blame the package end with the addendum naming the package |
| StartChocolateyProcess.MsiUnusableSaysCorrupt | src/Chocolatey.PowerShell/Helpers/StartChocolateyProcessHelper.cs:195-200 | both MSI texts say the file is possibly corrupt or not an MSI |
| StartChocolateyProcess.CorruptMsiExplanation | src/Chocolatey.PowerShell/Helpers/StartChocolateyProcessHelper.cs:195-200 | that stays true with the addendum appended |
| StartChocolateyProcess.MsiNotFoundReason | src/Chocolatey.PowerShell/Helpers/StartChocolateyProcessHelper.cs:195-197 | the explanation of 1619 is the "could not be found" text plus the addendum |
| StartChocolateyProcess.MsiNotOpenedReason | src/Chocolatey.PowerShell/Helpers/StartChocolateyProcessHelper.cs:198-200 | the explanation of 1620 is the "could not be opened" text plus the addendum |
| StartChocolateyProcess.CorruptMsiReasons | src/Chocolatey.PowerShell/Helpers/StartChocolateyProcessHelper.cs:195-200 | the explanations of 1619 and 1620 say the MSI is possibly corrupt |
| StartChocolateyProcess.ReasonText | src/Chocolatey.PowerShell/Helpers/StartChocolateyProcessHelper.cs:117-126 | a blank explanation becomes the pointer to the log; otherwise the text ends with the explanation |
| StartChocolateyProcess.ClassifyMeaning | src/Chocolatey.PowerShell/Helpers/StartChocolateyProcessHelper.cs:128-140 | a code is rejected iff it is not declared valid; an accepted code is returned as itself iff it is a success code (0, 1605, 1614, 1641, 3010), else as 0 with a warning, so every returned code is a success code |
| StartChocolateyProcess.DefaultValidCodes | src/Chocolatey.PowerShell/Helpers/StartChocolateyProcessHelper.cs:128-140 | with no list (the default `{ 0 }` of lines 45-48) only 0 is accepted; a declared 3010 is returned as 3010 without a warning |
| StartChocolateyProcess.TrimWhereKeepsOnlyOwnChars | src/Chocolatey.PowerShell/Helpers/StartChocolateyProcessHelper.cs:233 | trimming never introduces a character |
| StartChocolateyProcess.NormalizedNameIsClean | src/Chocolatey.PowerShell/Helpers/StartChocolateyProcessHelper.cs:225-238 | a normalised name has no NUL and, unless removing the NULs left it blank, neither starts nor ends with a quote |
| StartChocolateyProcess.CleanArguments | src/Chocolatey.PowerShell/Helpers/StartChocolateyProcessHelper.cs:65-68 | arguments that are not blank lose every NUL; blank or null ones are kept as they are |
| StartChocolateyProcess.MsiexecTestIsEqual | src/Chocolatey.PowerShell/Helpers/StartChocolateyProcessHelper.cs:105 | the msiexec test is the case-insensitive comparison with "msiexec" or "msiexec.exe" |
| StartChocolateyProcess.DefaultNameTestIsEqual | src/Chocolatey.PowerShell/Helpers/StartChocolateyProcessHelper.cs:70 | the PowerShell test is the case-insensitive comparison with "powershell" |
| StartChocolateyProcess.PlannedLaunch | src/Chocolatey.PowerShell/Helpers/StartChocolateyProcessHelper.cs:105-116 | msiexec is rewritten to System32 under `SystemRoot`, any other program kept; the prepared arguments, the elevation asked for, a minimized window iff asked, never a window-less launch |
| StartChocolateyProcess.NotSuccessfulMessage | src/Chocolatey.PowerShell/Helpers/StartChocolateyProcessHelper.cs:132 | the failure names the exit code and ends with the explanation or the pointer to the log |
| StartChocolateyProcess.JudgeExitCode | src/Chocolatey.PowerShell/Helpers/StartChocolateyProcessHelper.cs:117-140 | warns with a non-blank explanation; a code that is not valid sets the package exit code and fails; a valid one returns the classified code, warning when it was changed to 0 |
| StartChocolateyProcess.Run | src/Chocolatey.PowerShell/Helpers/StartChocolateyProcessHelper.cs:109-116 | a warning for a program that cannot be found (never for msiexec), exactly one launch, the files it produces, then the exit-code judgement |
| StartChocolateyProcess.Start | src/Chocolatey.PowerShell/Helpers/StartChocolateyProcessHelper.cs:43-141 | a program marked as text fails with package exit code 4 and launches nothing; otherwise the planned launch happens once and the result and package exit code follow the judgement of its exit code |
| StartChocolateyProcess.WrapperParts | src/Chocolatey.PowerShell/Helpers/StartChocolateyProcessHelper.cs:143-160 | the wrapper template's literal text holds no brace of its own and its placeholders are the single digits 0-2, so its only braces are the structural ones of `try`, `if` and `catch` |
| Text.FormatEscapedTemplate | src/Chocolatey.PowerShell/Helpers/StartChocolateyProcessHelper.cs:79 | `string.Format` of a template whose structural braces are doubled succeeds and fills each placeholder with its argument |
| Text.FormatUnescapedTemplate | src/Chocolatey.PowerShell/Helpers/StartChocolateyProcessHelper.cs:79 | `string.Format` of a template with a single `{` followed by text that is not a digit fails |
| StartChocolateyProcess.AsWrittenWrapperFails | src/Chocolatey.PowerShell/Helpers/StartChocolateyProcessHelper.cs:79 | formatting the wrapper as written fails for every argument |
| StartChocolateyProcess.CorrectedWrapperFormats | src/Chocolatey.PowerShell/Helpers/StartChocolateyProcessHelper.cs:79 | with its braces doubled, the wrapper formats to the wrapped script for every argument |
| StartChocolateyProcess.AsWrittenPowerShellStartFails | src/Chocolatey.PowerShell/Helpers/StartChocolateyProcessHelper.cs:70-79 | as written, preparing the command fails with `FormatException` exactly when the process name is PowerShell; any other program gets the command `PrepareCommand` describes |
| StartChocolateyProcess.CorrectedStartPrepares | src/Chocolatey.PowerShell/Helpers/StartChocolateyProcessHelper.cs:70-84 | with the braces doubled, preparing any command gives what `PrepareCommand` describes |
| WindowsInstaller.UsesX86 | src/Chocolatey.PowerShell/Helpers/WindowsInstallerHelper.cs:30 | x86 is used exactly on a 32-bit process or when `ChocolateyForceX86` equals "true" ignoring case; an unset variable forces nothing |
| WindowsInstaller.UsesX86CorrectsNullTest | src/Chocolatey.PowerShell/Helpers/WindowsInstallerHelper.cs:30 | the test as written throws exactly on a 64-bit process with `ChocolateyForceX86` unset, and otherwise agrees with the intended test |
| WindowsInstaller.AsWrittenThrowsWhenNotForced | src/Chocolatey.PowerShell/Helpers/WindowsInstallerHelper.cs:30 | an ordinary 64-bit install with x86 not forced ends in a null-reference error as written, while the intended test picks 64-bit |
| WindowsInstaller.SelectFile | src/Chocolatey.PowerShell/Helpers/WindowsInstallerHelper.cs:29-53 | fails exactly when the file for the bitness is missing (the 32-bit error names the package); otherwise the 32-bit file on x86, else the 64-bit file when given, else the 32-bit one, never empty; a bitness is named exactly when a 64-bit file was given |
| WindowsInstaller.InferredTypeIsExtension | src/Chocolatey.PowerShell/Helpers/WindowsInstallerHelper.cs:57-61 | with no type given, the type is the file's extension without its dot and holds no dot |
| WindowsInstaller.DropLeadingDot | src/Chocolatey.PowerShell/Helpers/WindowsInstallerHelper.cs:60 | removing the dots from an extension leaves the text after its leading dot |
| WindowsInstaller.ResolveFileType | src/Chocolatey.PowerShell/Helpers/WindowsInstallerHelper.cs:57-67 | the result is always a known type: the inferred type when known, else exe with a warning naming the unrecognised type |
| WindowsInstaller.DispatchMeaning | src/Chocolatey.PowerShell/Helpers/WindowsInstallerHelper.cs:164-179 | each branch is taken exactly when the type equals its name ignoring case, and some branch is taken exactly for the known types (lines 254-266) |
| WindowsInstaller.CollapseChangesOnlyDoubled | src/Chocolatey.PowerShell/Helpers/WindowsInstallerHelper.cs:92-101 | collapsing `\chocolatey\chocolatey\` changes a text exactly when the text holds it |
| WindowsInstaller.InstallArguments | src/Chocolatey.PowerShell/Helpers/WindowsInstallerHelper.cs:153-162 | the arguments always end with the user's; when overriding they are only the user's, otherwise the silent arguments, one space, then the user's |
| WindowsInstaller.IgnoreFile | src/Chocolatey.PowerShell/Helpers/WindowsInstallerHelper.cs:103-107 | an `.ignore` file is named exactly when `ChocolateyInstall` is set and occurs in the installer's name; it is that name plus ".ignore" |
| WindowsInstaller.InstallerRequest | src/Chocolatey.PowerShell/Helpers/WindowsInstallerHelper.cs:184-244 | msiexec for MSI and MSP, wusa for MSU, the installer itself for exe; the quoted installer appears in the arguments for the first three, which end with the given arguments; elevated, in the given folder, with the given exit codes |
| WindowsInstaller.MakePlan | src/Chocolatey.PowerShell/Helpers/WindowsInstallerHelper.cs:25-162 | fails exactly when the file selection fails, with its error; otherwise a known type, overriding iff only-silent or `ChocolateyInstallOverride` is truthy, the installer as given or collapsed, run from its parent folder with the given exit codes and arguments ending with the planned ones |
| WindowsInstaller.Prepare | src/Chocolatey.PowerShell/Helpers/WindowsInstallerHelper.cs:55-156 | writes the "Installing" line, the type and install-directory warnings and the override line in order, records `ChocolateyInstallerType`, writes the `.ignore` file empty |
| WindowsInstaller.WarnWith | src/Chocolatey.PowerShell/Helpers/WindowsInstallerHelper.cs:65 | a warning is appended exactly when there is one |
| WindowsInstaller.WriteHostIf | src/Chocolatey.PowerShell/Helpers/WindowsInstallerHelper.cs:154-157 | the line is appended exactly when the condition holds |
| WindowsInstaller.RunInstaller | src/Chocolatey.PowerShell/Helpers/WindowsInstallerHelper.cs:184-195 | at most one launch with the prepared arguments, earlier launches and log kept; a success was launched and records its code, a success code, as `ChocolateyExitCode`; a failure leaves the environment alone |
| WindowsInstaller.KnownTypeIsNotEmpty | src/Chocolatey.PowerShell/Helpers/WindowsInstallerHelper.cs:254-266 | a known installer type is never empty |
| WindowsInstaller.SuccessCodeReadsBack | src/Chocolatey.PowerShell/Helpers/WindowsInstallerHelper.cs:194 | an exit code stored as text parses back to itself |
| WindowsInstaller.Perform | src/Chocolatey.PowerShell/Helpers/WindowsInstallerHelper.cs:55-181 | the plan's lines start the new log, the installer type is recorded, the `.ignore` file exists, one launch at most with the planned arguments; success was launched, records a success code and ends with "has been installed"; no other variable changes, a failure leaves `ChocolateyExitCode` as it was, and the exit code is 4 for a refused text file, the process's code for a failed launch, and unchanged on success |
| WindowsInstaller.RecordedVariablesPerformed | src/Chocolatey.PowerShell/Helpers/WindowsInstallerHelper.cs:69-194 | recording the installer type and then, after a successful run, its success code as text leaves `ChocolateyInstallerType` set to the type, `ChocolateyExitCode` reading back as a success code (unchanged on failure), and every other variable as it was |
| WindowsInstaller.Install | src/Chocolatey.PowerShell/Helpers/WindowsInstallerHelper.cs:14-182 | with no file for the bitness it fails with that error and changes nothing; otherwise it performs the plan as stated for `Perform` |
| SevenZip.UnknownCodeIsNamed | src/Chocolatey.PowerShell/Helpers/SevenZipHelper.cs:159-160 | an undocumented exit code is explained by its own number |
| SevenZip.UnknownErrorInjective | src/Chocolatey.PowerShell/Helpers/SevenZipHelper.cs:160 | two undocumented codes share an explanation only when they are equal |
| SevenZip.DocumentedReasonsDiffer | src/Chocolatey.PowerShell/Helpers/SevenZipHelper.cs:147-158 | the five documented codes (1, 2, 7, 8, 255) have pairwise different explanations |
| SevenZip.DocumentedReasonsAreKnown | src/Chocolatey.PowerShell/Helpers/SevenZipHelper.cs:145-161 | no documented explanation equals the one of an undocumented code |
| SevenZip.ReasonIdentifiesCode | src/Chocolatey.PowerShell/Helpers/SevenZipHelper.cs:145-161 | different exit codes are explained differently |
| SevenZip.ExtractionFailedIdentifiesCode | src/Chocolatey.PowerShell/Helpers/SevenZipHelper.cs:133-138 | the terminating errors of different exit codes differ, so the error identifies the code |
| SevenZip.SelectArchive | src/Chocolatey.PowerShell/Helpers/SevenZipHelper.cs:37-54 | fails exactly on x86 without a 32-bit archive, naming the package; on x86 the archive is the 32-bit one, on 64-bit the 64-bit one when given |
| SevenZip.SelectArchiveCorrectsTest | src/Chocolatey.PowerShell/Helpers/SevenZipHelper.cs:40 | the choice as written and the intended one agree on 64-bit; on x86 exactly one of them refuses |
| SevenZip.AsWrittenRefusesGivenArchive | src/Chocolatey.PowerShell/Helpers/SevenZipHelper.cs:40-43 | as written, an x86 run given only a 32-bit archive refuses, while the intended choice extracts it |
| SevenZip.AsWrittenExtractsMissingArchive | src/Chocolatey.PowerShell/Helpers/SevenZipHelper.cs:40-48 | as written, an x86 run given only a 64-bit archive goes on with no archive, while the intended choice refuses |
| SevenZip.LogPathNamedAfterArchive | src/Chocolatey.PowerShell/Helpers/SevenZipHelper.cs:56-65 | there is an extraction log path exactly when there is a package name, and it is the archive's file name plus ".txt" in the package folder |
| SevenZip.RedirectKeepsOtherPaths | src/Chocolatey.PowerShell/Helpers/SevenZipHelper.cs:95-101 | a path outside the system folder, or any path on a 32-bit process, is not changed by the SysNative redirection |
| SevenZip.OptionsShape | src/Chocolatey.PowerShell/Helpers/SevenZipHelper.cs:110-116 | the 7-Zip arguments start with the extract, overwrite and no-progress switches, name the destination and the quoted archive, and end with the quoted specific folder exactly when one is given |
| SevenZip.OptionsLogLevel | src/Chocolatey.PowerShell/Helpers/SevenZipHelper.cs:110 | the arguments ask for log level 0 exactly when logging is disabled |
| SevenZip.QueuedLines | src/Chocolatey.PowerShell/Helpers/SevenZipHelper.cs:164-170 | the queued messages are non-error entries, each one an output line, no more of them than lines |
| SevenZip.OutputStep | src/Chocolatey.PowerShell/Helpers/SevenZipHelper.cs:164-177 | one more output line extends the queue and the file list by that line's share alone |
| SevenZip.UnmarkedLinesListNothing | src/Chocolatey.PowerShell/Helpers/SevenZipHelper.cs:172 | output without "- " lines lists no file |
| SevenZip.FileListNamesEachExtracted | src/Chocolatey.PowerShell/Helpers/SevenZipHelper.cs:172-175 | every "- " line is listed as its file under the destination |
| SevenZip.InstallDirectoryWarnings | src/Chocolatey.PowerShell/Helpers/SevenZipHelper.cs:67-73 | at most one entry, and it is a warning |
| SevenZip.MakePlan | src/Chocolatey.PowerShell/Helpers/SevenZipHelper.cs:23-122 | both paths null fail with the parameters error; otherwise the launch runs the chosen 7-Zip hidden, without a new window and not elevated, after at most one warning and the "Extracting" line |
| SevenZip.PlanLogPath | src/Chocolatey.PowerShell/Helpers/SevenZipHelper.cs:56-65 | a plan keeps an extraction log exactly when the package name, given or from the environment, is set, named after the archive |
| SevenZip.Announce | src/Chocolatey.PowerShell/Helpers/SevenZipHelper.cs:56-77 | creates exactly the package folder when missing and the destination, and appends exactly the warnings and the "Extracting" line |
| SevenZip.WriteExtractionLog | src/Chocolatey.PowerShell/Helpers/SevenZipHelper.cs:126-129 | the file list is written to the log path exactly when there is one and logging is on; nothing else changes |
| SevenZip.Conclude | src/Chocolatey.PowerShell/Helpers/SevenZipHelper.cs:133-142 | a non-zero code fails with its explanation and leaves the environment; 0 records `ChocolateyPackageInstallLocation` and returns 0 |
| SevenZip.SevenZipHelper.constructor | src/Chocolatey.PowerShell/Helpers/SevenZipHelper.cs:13-21 | starts with an empty file list, no destination and no queued messages |
| SevenZip.SevenZipHelper.ProcessOutputHandler | src/Chocolatey.PowerShell/Helpers/SevenZipHelper.cs:164-177 | a non-null line is queued as a non-error and a "- " line appends its file under the destination to the list |
| SevenZip.SevenZipHelper.HandleOutput | src/Chocolatey.PowerShell/Helpers/SevenZipHelper.cs:164-177 | after a run's output the queue and the file list grow by exactly the lines' shares, in order |
| SevenZip.SevenZipHelper.Extract | src/Chocolatey.PowerShell/Helpers/SevenZipHelper.cs:56-142 | creates the folders, writes the messages, launches once, queues the output and lists its files, sets the package exit code, writes the log, and fails on a non-zero code or records the install location |
| SevenZip.SevenZipHelper.Run7zip | src/Chocolatey.PowerShell/Helpers/SevenZipHelper.cs:23-143 | refuses, changing nothing, when `MakePlan` refuses; otherwise the full effect of `Extract` on the planned run |
| NewShim.ShimFileNamesDistinct | src/Chocolatey.PowerShell/Commands/NewShimCommand.cs:96-98 | the bash, batch and `.exe` shim names are pairwise different |
| NewShim.SuffixedNamesDistinct | src/Chocolatey.PowerShell/Commands/NewShimCommand.cs:97-98 | a name, the name plus ".bat" and the name plus ".exe" are pairwise different |
| NewShim.RelativePath | src/Chocolatey.PowerShell/Commands/NewShimCommand.cs:110 | fails exactly when the install folder is empty, with the empty-pattern argument error of `String.Replace` |
| NewShim.RelativePathOutside | src/Chocolatey.PowerShell/Commands/NewShimCommand.cs:110 | a path outside the install folder in any letter case and without doubled backslashes comes out only lower-cased |
| NewShim.RelativePathCollapses | src/Chocolatey.PowerShell/Commands/NewShimCommand.cs:110 | the backslash collapse never lengthens the path, and strictly shortens it when it holds a doubled backslash |
| NewShim.ShimGenArgumentsMeaning | src/Chocolatey.PowerShell/Commands/NewShimCommand.cs:112-127 | the `shimgen` arguments start with the output, target and icon options; the command, `-gui` and `-debug` follow exactly when asked for, in that order, and nothing else is added |
| NewShim.BashShimPathMeaning | src/Chocolatey.PowerShell/Commands/NewShimCommand.cs:180-181 | the bash target has no backslash, and a target under the install folder starts from the script's own directory |
| NewShim.BatchContentMeaning | src/Chocolatey.PowerShell/Commands/NewShimCommand.cs:186-228 | the batch shim passes its arguments to the target; with `useStart` it starts it without waiting, otherwise it runs it through `cmd /c` and passes on its exit code |
| NewShim.BashContentAsWrittenIsOneLine | src/Chocolatey.PowerShell/Commands/NewShimCommand.cs:221-229 | as written the bash shim holds no line break, its `#!` line running on into the escaped text, so the command is never reached |
| NewShim.BashContentMeaning | src/Chocolatey.PowerShell/Commands/NewShimCommand.cs:221-229 | the corrected bash shim's first line is `#!/bin/sh` alone and a line of its own runs the target with the script's arguments |
| NewShim.ScriptShimFilesMeaning | src/Chocolatey.PowerShell/Commands/NewShimCommand.cs:172-213 | the batch shim calls the `%DIR%`-relative target, the bash shim a target without backslashes, and every other file is kept |
| NewShim.CreateScriptShims | src/Chocolatey.PowerShell/Commands/NewShimCommand.cs:172-213 | reports both script shims (and the GUI set-up with `useStart`) and writes exactly those two files |
| NewShim.RemoveIfPresent | src/Chocolatey.PowerShell/Commands/NewShimCommand.cs:100-108 | the file is gone afterwards and nothing else changes |
| NewShim.AfterShimGenMeaning | src/Chocolatey.PowerShell/Commands/NewShimCommand.cs:143-169 | at most one launch, of `shimgen` itself; the log only grows; a warning comes first exactly when both script shims were written, otherwise the `.exe` shim exists and is reported |
| NewShim.RemoveScriptShims | src/Chocolatey.PowerShell/Commands/NewShimCommand.cs:100-108 | exactly the old batch and bash shims are removed |
| NewShim.Generate | src/Chocolatey.PowerShell/Commands/NewShimCommand.cs:143-169 | runs `shimgen` when it exists, then reports the `.exe` shim or warns and writes the script shims, as `AfterShimGen` states |
| NewShim.End | src/Chocolatey.PowerShell/Commands/NewShimCommand.cs:91-170 | the old script shims are removed; an empty install folder then fails and nothing else changes; otherwise `shimgen` is located under the install folder or `ChocolateyInstall` and the `shimgen` step follows with the composed arguments |
| PackageInstall.TempDirMeaning | src/Chocolatey.PowerShell/Commands/InstallChocolateyPackageCommand.cs:75-86 | the temporary directory is the package's folder under `TEMP`, with the version's folder under it when a version is set; the collapse of the doubled Chocolatey folder changes it exactly when that folder occurs, and never lengthens it |
| PackageInstall.DownloadPathMeaning | src/Chocolatey.PowerShell/Commands/InstallChocolateyPackageCommand.cs:92 | the download path's file name is `<PackageName>Install.<FileType>` and it lies directly in the temporary directory |
| PackageInstall.UrlOrPath | src/Chocolatey.PowerShell/Commands/InstallChocolateyPackageCommand.cs:94-95 | a set URL is kept, an empty one falls back to the path; the result is empty only when both are |
| PackageInstall.OriginalLocationMeaning | src/Chocolatey.PowerShell/Commands/InstallChocolateyPackageCommand.cs:98-116 | the original location is one of the two URLs; it is the 64-bit one exactly on a 64-bit process with x86 not forced and a 64-bit URL set (or when they coincide); a 32-bit or forced run always gets the 32-bit URL |
| PackageInstall.End | src/Chocolatey.PowerShell/Commands/InstallChocolateyPackageCommand.cs:72-121 | the temporary directory exists afterwards, created only when it was absent; the file path is the original location with `-UseOriginalLocation`, the download path otherwise |
| FileAssociation.NormalizeExtensionMeaning | src/Chocolatey.PowerShell/Commands/InstallChocolateyFileAssociationCommand.cs:68-72 | the extension starts with '.', has no surrounding white space, ends with the trimmed text given, and normalising it again changes nothing |
| FileAssociation.FileTypeNameMeaning | src/Chocolatey.PowerShell/Commands/InstallChocolateyFileAssociationCommand.cs:74 | the file type is the executable's file name with each space replaced by '_', so it holds no space and no separator |
| FileAssociation.ElevatedScriptMeaning | src/Chocolatey.PowerShell/Commands/InstallChocolateyFileAssociationCommand.cs:75-80 | the elevated block runs both the `assoc` and the `ftype` command for the extension and file type |
| FileAssociation.Associate | src/Chocolatey.PowerShell/Commands/InstallChocolateyFileAssociationCommand.cs:60-85 | fails exactly when the executable does not exist, naming it; otherwise a request for the default PowerShell, elevated, minimized, without sleeps or working directory, whose block runs `assoc` and `ftype`, and a message naming extension and executable |
| FileAssociation.Apply | src/Chocolatey.PowerShell/Commands/InstallChocolateyFileAssociationCommand.cs:82-85 | at most one launch, with the prepared arguments; the log only grows; a success was launched and ends the log with the association message |
| FileAssociation.End | src/Chocolatey.PowerShell/Commands/InstallChocolateyFileAssociationCommand.cs:60-86 | a missing executable fails changing nothing; otherwise the association is applied as `Apply` states |
| ToolsLocation.CombineKeepsDrive | src/Chocolatey.PowerShell/Commands/GetToolsLocationCommand.cs:67-70 | a non-empty part combined under a path with a drive letter stays on that drive |
| ToolsLocation.ResolveMeaning | src/Chocolatey.PowerShell/Commands/GetToolsLocationCommand.cs:49-70 | the reported location is never empty; a preferred location with a drive letter is kept, any other is put under the system drive; with a system drive that has a letter, the result has one |
| ToolsLocation.ResolveIdempotent | src/Chocolatey.PowerShell/Commands/GetToolsLocationCommand.cs:49-72 | resolving again from the reported location gives it back and does not use the bin root, so a second run writes nothing back |
| ToolsLocation.End | src/Chocolatey.PowerShell/Commands/GetToolsLocationCommand.cs:47-93 | the process environment is untouched; the bin root is cleared from the User store when used; a location differing from the configured one is written to the User store, or the Machine store when that throws in an elevated process; a failing User write otherwise ends the cmdlet with its message |
| EnvironmentVariable.ElevatedCommandMeaning | src/Chocolatey.PowerShell/Commands/InstallChocolateyEnvironmentVariableCommand.cs:108 | the elevated command is this cmdlet naming the variable first, holds the quoted value, and ends with the scope |
| EnvironmentVariable.ElevatedRequest | src/Chocolatey.PowerShell/Commands/InstallChocolateyEnvironmentVariableCommand.cs:107-109 | the elevated child is the default PowerShell, elevated, minimized, without sleeps or working directory, running the command for the Machine scope |
| EnvironmentVariable.RunElevated | src/Chocolatey.PowerShell/Commands/InstallChocolateyEnvironmentVariableCommand.cs:107-109 | at most one launch, with the prepared elevated command; a success was launched |
| EnvironmentVariable.StoreWrittenMeaning | src/Chocolatey.PowerShell/Commands/InstallChocolateyEnvironmentVariableCommand.cs:99-131 | a direct write lands in the requested store, except a User write that throws, which lands in the Machine store exactly when elevated; an unelevated process never writes the Machine store directly |
| EnvironmentVariable.End | src/Chocolatey.PowerShell/Commands/InstallChocolateyEnvironmentVariableCommand.cs:97-134 | a direct write changes exactly the store it lands in and launches nothing; a throwing User write outside elevation fails with its message and changes nothing; an unelevated Machine request leaves the stores to one elevated child; success leaves the process variable equal to the value, failure leaves it alone |
| RemoteDownloader.DispositionNameUnquoted | src/Chocolatey.PowerShell/Shared/RemoteDownloader.cs:144 | the `Content-Disposition` candidate never holds a '"' |
| RemoteDownloader.LowerCharNotEquals | src/Chocolatey.PowerShell/Shared/RemoteDownloader.cs:140 | lower-casing never turns another character into '=' |
| RemoteDownloader.LastKeyAt | src/Chocolatey.PowerShell/Shared/RemoteDownloader.cs:140 | `filename=` found ignoring case at a position with no '=' after it is the last occurrence |
| RemoteDownloader.DispositionNameOfUnquoted | src/Chocolatey.PowerShell/Shared/RemoteDownloader.cs:137-146 | a header ending in `filename=` and an unquoted name without '=' yields exactly that name |
| RemoteDownloader.FirstUsableMeaning | src/Chocolatey.PowerShell/Shared/RemoteDownloader.cs:147-193 | the chosen name is a usable candidate with no usable candidate before it, or the default when no candidate is usable |
| RemoteDownloader.CleanUnusable | src/Chocolatey.PowerShell/Shared/RemoteDownloader.cs:147-174 | a candidate that is blank or has a bad character leaves a blank name once filtered |
| RemoteDownloader.CascadeOfFour | src/Chocolatey.PowerShell/Shared/RemoteDownloader.cs:136-193 | the step-by-step reassignment over four guarded candidates ends on the first usable offer, else the default |
| RemoteDownloader.FromResponseIsFirstUsable | src/Chocolatey.PowerShell/Shared/RemoteDownloader.cs:133-197 | the name taken from a response is the first usable one of Content-Disposition, the Location file name, the response-URL file name (no '?') and the request-URL file name (no '?', an extension), else the default |
| RemoteDownloader.RemoteFileNameMeaning | src/Chocolatey.PowerShell/Shared/RemoteDownloader.cs:24-222 | a URI whose `WebRequest.Create` request is not an `HttpWebRequest` (an `ftp:` URI gives an `FtpWebRequest`) fails the cast with `InvalidCastException`, and nothing else fails; a blank URL, a failed request or no response give the default; a `file:` URI gives its local file name; a response gives the first usable candidate, so a usable Content-Disposition name always wins and any other result is usable |
| WebHelper.NormalizeSlashesKeepsClean | src/Chocolatey.PowerShell/Helpers/WebHelper.cs:51-59 | a blank URL, or one with neither "//" nor ":/", is left unchanged by the slash clean-up |
| WebHelper.NormalizeSlashesCollapses | src/Chocolatey.PowerShell/Helpers/WebHelper.cs:51-59 | a doubled slash after the host is collapsed while the scheme's "://" survives |
| WebHelper.EffectiveMeaning | src/Chocolatey.PowerShell/Helpers/WebHelper.cs:38-84 | each override that is set (not blank; a type that parses) wins whatever the caller passed, field by field; one that is not set leaves the caller's value (URLs after the slash clean-up) |
| WebHelper.SelectMeaning | src/Chocolatey.PowerShell/Helpers/WebHelper.cs:86-137 | the 64-bit URL is used exactly on a 64-bit process without forced x86 and with a 64-bit URL, with its checksum and a type given for it only when the URLs differ; otherwise the 32-bit URL, checksum and type; an error exactly when the URL used is blank, always naming the 32-bit architecture |
| WebHelper.ForceX86IgnoresBitness | src/Chocolatey.PowerShell/Helpers/WebHelper.cs:118-129 | with x86 forced, the process's bitness changes neither the outcome nor the URL, checksum and type used |
| WebHelper.CollectHeadersMeaning | src/Chocolatey.PowerShell/Helpers/WebHelper.cs:415-429 | a response header is kept exactly when some entry with that name has a value that is not blank, and a kept value is never blank |
| WebHelper.GetWebHeaders | src/Chocolatey.PowerShell/Helpers/WebHelper.cs:321-456 | an empty URL or no response gives no headers; the result is an error exactly when the URL is not empty and the request throws |
| WebHelper.RequestHeaders | src/Chocolatey.PowerShell/Helpers/WebHelper.cs:404-412 | the result is that of `GetWebHeaders`, and a request the server does not answer adds the "No response from server" warning |
| WebHelper.UpgradeHttpsMeaning | src/Chocolatey.PowerShell/Helpers/WebHelper.cs:139-156 | the URL is kept or becomes its HTTPS form; a probe that throws or returns no headers keeps it; an `http://` URL whose probe answers becomes an `https://` URL |
| WebHelper.TimeoutsMeaning | src/Chocolatey.PowerShell/Helpers/WebHelper.cs:506-531 | both time-outs are positive 32-bit values; a setting that does not parse to a positive number gives 30000 and 300000 ms; a positive number is used as it is |
| WebHelper.SetRequestFieldsHeaders | src/Chocolatey.PowerShell/Helpers/WebHelper.cs:661-693 | every entry without a property of its own (accept, referer, cookie, useragent, ignoring case) is added as a header in order with its key as given, and no other is; entries without property keys leave the properties alone |
| WebHelper.SetRequestFieldsLastAccept | src/Chocolatey.PowerShell/Helpers/WebHelper.cs:669-673 | the last `accept` entry in any letter case sets the Accept property |
| WebHelper.IsPlainTextOrHtmlMeaning | src/Chocolatey.PowerShell/Helpers/WebHelper.cs:729-732 | a content type holding `text/html` or `text/plain` among parameters is recognised; one shorter than nine characters never is |
| WebHelper.LengthMatchesUnique | src/Chocolatey.PowerShell/Helpers/WebHelper.cs:220-226 | at most one file length matches a response's `Content-Length` |
| WebHelper.NeedsDownloadMeaning | src/Chocolatey.PowerShell/Helpers/WebHelper.cs:199-230 | the download is skipped exactly when the file exists, it is not forced, and either the package checksum is set and the cached file passes it, or there is none and the cached length matches `Content-Length` |
| WebHelper.ValidateAsWrittenIgnoresRemoteChecksum | src/Chocolatey.PowerShell/Helpers/WebHelper.cs:302-307 | as written, two responses differing only in their `X-Checksum-Sha1` value are validated alike |
| WebHelper.ValidateMeaning | src/Chocolatey.PowerShell/Helpers/WebHelper.cs:276-318 | a missing file fails first; success returns the path and holds exactly when the file exists, the `Content-Length` matches and the server's SHA-1 passes when headers are checked (no package checksum), and the package checksum passes when set or the URL is remote |
| WebHelper.FilesAfterResponseMeaning | src/Chocolatey.PowerShell/Helpers/WebHelper.cs:562-642 | after a response the body is saved when the status is OK and the file is untouched otherwise; the `.istext` marker exists exactly for a text or HTML content type and then holds the warning; no other file changes |
| WebHelper.GetWebFile | src/Chocolatey.PowerShell/Helpers/WebHelper.cs:467-659 | an empty URL does nothing; an exception is the "remote file" error with exit code 404, exactly then; no response is a warning; a response changes the files as `FilesAfterResponse` states and, when OK, ensures the file's directory; the log gains exactly the warnings and completion lines |
| WebHelper.SaveResponse | src/Chocolatey.PowerShell/Helpers/WebHelper.cs:562-642 | the marker step and, when OK, the body saved in an ensured directory, with exactly the corresponding host lines |
| WebHelper.MarkResponse | src/Chocolatey.PowerShell/Helpers/WebHelper.cs:562-590 | the old marker is removed, and a text or HTML content type is warned about and written to the marker |
| WebHelper.SaveBody | src/Chocolatey.PowerShell/Helpers/WebHelper.cs:592-641 | the file's directory exists, the file holds the body, and the completion is reported |
| WebHelper.StaleTailFailsLengthCheck | src/Chocolatey.PowerShell/Helpers/WebHelper.cs:600 | as written, a body saved over a longer file keeps the file's tail, so the file fails the `Content-Length` check the body passes |
| WebHelper.StaleTailExample | src/Chocolatey.PowerShell/Helpers/WebHelper.cs:600 | as written, "abc" saved over "0123456789" leaves "abc3456789" |
| WebHelper.SavedBodyPassesLengthCheck | src/Chocolatey.PowerShell/Helpers/WebHelper.cs:600 | saved with `FileMode.Create`, the file is the body and passes every `Content-Length` check the body passes |
| WebHelper.Transfer | src/Chocolatey.PowerShell/Helpers/WebHelper.cs:186-271 | http(s) URLs read the headers and download exactly when the cache cannot be reused, an error exactly when that download throws; ftp URLs save what `Get-FtpFile` fetched; other URLs copy from the local path of a `file:` URL or the URL itself, a missing source being an error; only the download path and its marker change; the URL is remote exactly when it is not copied; an OK http(s) response adds the file's directory and a throwing download sets exit code 404, while ftp and copies change neither; the log gains the http lines, or the "Ftp-ing" or "Copying" line |
| WebHelper.SwitchToHttps | src/Chocolatey.PowerShell/Helpers/WebHelper.cs:139-156 | the URL becomes its upgraded form; the log gains the probe's no-response warning, then the SSL/TLS switch warning exactly when it switches |
| WebHelper.FetchHttp | src/Chocolatey.PowerShell/Helpers/WebHelper.cs:186-252 | the headers are the response's or none; the download happens exactly when the cache check asks for it, with the file outcome of `GetWebFile`; the error is the "remote file" error exactly when that download throws, and the exit code is then 404 and otherwise unchanged; an OK response adds the file's directory; the log gains the header lines, the cache line, then "Downloading … from" and the download's own lines when it downloads |
| WebHelper.CheckHttp | src/Chocolatey.PowerShell/Helpers/WebHelper.cs:188-228 | the headers are the response's or none; the file is to be fetched exactly when `Fetches` holds for the files as they are, i.e. unless a cached file passes the package checksum or, without one, matches `Content-Length`; the log gains the header request's lines (its "no response" warning or the "Attempt to get headers" failure line), then the cache line; nothing else changes |
| WebHelper.FetchFile | src/Chocolatey.PowerShell/Helpers/WebHelper.cs:230-241 | the log gains "Downloading <package> <bitness>" with `Environment.NewLine` and "  from '<url>'", then the lines of `GetWebFile`; the error, files, directories and exit code are those of `GetWebFile` for the reply: the "remote file" error with exit code 404 exactly when the request throws, and an OK response adds the file's directory |
| WebHelper.ReadHeaders | src/Chocolatey.PowerShell/Helpers/WebHelper.cs:188-197 | the headers are those of the response, or none when the request throws; the log gains the no-response warning, or "Attempt to get headers … failed." with the message when it throws |
| WebHelper.CheckCache | src/Chocolatey.PowerShell/Helpers/WebHelper.cs:199-228 | the decision is `NeedsDownload` for the file at the path, its package-checksum result and its length; "File appears to be downloaded already…" is written exactly when a file is there, not forced, with a package checksum |
| WebHelper.GetChocolateyWebFile | src/Chocolatey.PowerShell/Helpers/WebHelper.cs:25-319 | a URL that cannot be resolved fails before anything changes; otherwise the result and the log are those of the download of the resolved request, which keeps what `Downloaded` states, with the download's directory created and exit code 404 exactly when the http(s) download throws; only the download path and its marker ever change |
| WebHelper.DownloadResolved | src/Chocolatey.PowerShell/Helpers/WebHelper.cs:139-318 | the result is the transfer's error or the validation of the file the transfer leaves, the files are those the transfer leaves, and the log gains the HTTPS-switch lines then the transfer's; on success the result is the path and the file exists, passing the package checksum whenever it is set or the URL is remote; a skipped http(s) download changes no file; the download's directory exists afterwards, and the exit code becomes 404 exactly when the http(s) download throws |
| WebHelper.DownloadResultMeaning | src/Chocolatey.PowerShell/Helpers/WebHelper.cs:139-318 | the download's result keeps what `Downloaded` states over the files the transfer leaves; a transfer error is the result; success is exactly the path |
| Host.ForcesX86IsEqual | src/Chocolatey.PowerShell/Helpers/SevenZipHelper.cs:37 | forcing x86 is the null-aware comparison of `ChocolateyForceX86` with "true", ignoring case |

## Left out

- Concurrency:
  - `ProcessHandler`'s asynchronous capture of output and error, its `Exited` event and `CancelWait`.
  - `CancellableSleepHelper` and `ChocolateyCmdlet.StopProcessing`.
  - A launched process is one oracle call: its exit code, its output lines handed over in order, and the files it produces.
- Process I/O: the exit codes, output and produced files of launched programs are oracles of `Host` (`exitCodeOf`, `outputOf`, `producedBy`). They are not derived from the program.
- The PowerShell wrapper of a script block (Base64 over UTF-16LE, and where `powershell.exe` is found) is a parameter `encode` of the process helper.
- Debug output (`WriteDebug`) is not recorded. The exception is the `ChocolateyCmdlet` call and completion lines, which are modelled as values. Only warnings, host lines, errors and environment, file and exit-code changes are part of the state.
- Environment variable names are compared case-sensitively. Windows compares them ignoring case.
- `Path.GetFullPath` is the identity.
- `ToLower` folds only ASCII letters; culture-specific case folding is not modelled.
- `Environment.NewLine` is "\r\n" (`Text.NewLine`), as on Windows; it is used by `SevenZip` and by the `WebHelper` host lines and errors that append it. A line break written inside a string literal is "\n", and so are the line breaks of the verbatim wrapper template (src/Chocolatey.PowerShell/Helpers/StartChocolateyProcessHelper.cs:143-160), taken as the file's own line ends.
- WebHelper.SaveBody: saves the body as `FileMode.Create` would; as written a longer stale file keeps its tail (see Findings, `WebHelper.StaleTailFailsLengthCheck`).
- WebHelper.FilesAfterResponseMeaning: states the file after a truncating save, as `WebHelper.SaveBody` models it.
- WebHelper.SaveResponse: saves an OK body through the truncating write of `WebHelper.SaveBody`; as written (src/Chocolatey.PowerShell/Helpers/WebHelper.cs:600) a longer stale file keeps its tail (see Findings).
- WebHelper.GetWebFile: its file outcome is `files[fileName := body]`, through the truncating write of `WebHelper.SaveBody`, for the same reason.
- WebHelper.FetchFile: likewise, through `WebHelper.GetWebFile`.
- WebHelper.FetchHttp: likewise, for a fetched OK response.
- WebHelper.Transfer: likewise, for an http(s) download; `WebHelper.TransferredFiles` uses the same save.
- StartChocolateyProcess.PlannedLaunch: plans the launch with the wrapper's braces doubled; as written a PowerShell block fails before any launch (see Findings).
- StartChocolateyProcess.Start: runs PowerShell blocks with the corrected wrapper, for the same reason.
- FileAssociation.Apply: its PowerShell block is wrapped by the corrected wrapper, for the same reason.
- FileAssociation.End: likewise.
- EnvironmentVariable.RunElevated: its PowerShell block is wrapped by the corrected wrapper, for the same reason.
- EnvironmentVariable.End: likewise.
- WindowsInstaller.UsesX86: models the intended test, where an unset `ChocolateyForceX86` forces nothing. As written (src/Chocolatey.PowerShell/Helpers/WindowsInstallerHelper.cs:30) a 64-bit process with the variable unset throws a null reference (see Findings, `WindowsInstaller.AsWrittenThrowsWhenNotForced`).
- WindowsInstaller.HostUsesX86: uses the corrected `UsesX86`, for the same reason.
- WindowsInstaller.MakePlan: chooses the file with the corrected `UsesX86`; as written a 64-bit install with `ChocolateyForceX86` unset throws before any plan is made.
- WindowsInstaller.Perform: runs a plan made with the corrected `UsesX86`, for the same reason.
- WindowsInstaller.Install: plans with the corrected `UsesX86`; as written it throws a null reference on a 64-bit process with `ChocolateyForceX86` unset.
- SevenZip.SelectArchive: models the intended guard, refusing only when no 32-bit archive is given. As written (src/Chocolatey.PowerShell/Helpers/SevenZipHelper.cs:40) a forced or 32-bit extraction refuses a given 32-bit archive and goes on without one (see Findings).
- SevenZip.MakePlan: plans with the corrected `SelectArchive`, for the same reason.
- SevenZip.SevenZipHelper.Run7zip: runs the plan of the corrected `SelectArchive`, for the same reason.
- NewShim.ScriptShimFiles: writes the intended multi-line bash shim (`BashContent`). As written (src/Chocolatey.PowerShell/Commands/NewShimCommand.cs:221-229) the bash shim is one line with a backtick before each `$` (see Findings, `NewShim.BashContentAsWrittenIsOneLine`).
- NewShim.ScriptShimFilesMeaning: states the files of the corrected bash shim, for the same reason.
- NewShim.CreateScriptShims: writes the corrected bash shim, for the same reason.
- NewShim.AfterShimGen: falls back to the corrected script shims, for the same reason.
- NewShim.AfterShimGenMeaning: likewise.
- NewShim.Generate: likewise.
- NewShim.End: likewise.
- WebHelper.Validate: checks the file against the `X-Checksum-Sha1` header's value. As written (src/Chocolatey.PowerShell/Helpers/WebHelper.cs:302-307) the blank package checksum is checked instead, so the header's value never matters (see Findings, `WebHelper.ValidateAsWrittenIgnoresRemoteChecksum`).
- WebHelper.ValidateMeaning: states the corrected `Validate`, for the same reason.
- WebHelper.DownloadResult: validates with the corrected `Validate`, for the same reason, and takes its files from `TransferredFiles`, which saves through the truncating write of `WebHelper.SaveBody` (see Findings, src/Chocolatey.PowerShell/Helpers/WebHelper.cs:600).
- WebHelper.DownloadResultMeaning: validates with the corrected `Validate` and states the files after the truncating save of `WebHelper.SaveBody`, for the same reasons.
- WebHelper.DownloadResolved: likewise; as written a re-download over a longer stale file keeps its tail.
- WebHelper.GetChocolateyWebFile: likewise; as written a re-download over a longer stale file keeps its tail.
- `string.Format` (`Text.Format`) is modelled for the templates the model formats: `{{`, `}}` and single-digit placeholders. Alignment, format strings and multi-digit indices are not modelled.
- Failures of `Set-Content` and of taking a parent directory are not modelled. This covers the installer's catch around the working directory (src/Chocolatey.PowerShell/Helpers/WindowsInstallerHelper.cs:118-127) and a failed write of an `.ignore` file (108-115).
- The installer's log-directory regex loop (src/Chocolatey.PowerShell/Helpers/WindowsInstallerHelper.cs:129-151) is not modelled: regex substitution over the argument text.
- WindowsInstaller.RunInstaller: its contract does not restate the process helper's text-file guard or the exact launch. `StartChocolateyProcessHelper.Start`'s own contract states both.
- `UpdateSession`, which re-reads the environment after a change, is not modelled (src/Chocolatey.PowerShell/Helpers/SevenZipHelper.cs:83, src/Chocolatey.PowerShell/Commands/NewShimCommand.cs:132).
- `Remove-Item` removes only files.
- `\w` in `Get-ToolsLocation`'s drive check is ASCII only.
- The non-original-location branch of `Install-ChocolateyPackage` (src/Chocolatey.PowerShell/Commands/InstallChocolateyPackageCommand.cs:117-120) is an unfinished TODO with no behaviour.
- RemoteDownloader:
  - `Uri` parsing, and the `NotSupportedException` of `WebRequest.Create` for a scheme no request type is registered for.
  - Request setup: credentials, proxy, time-outs and user agent.
  - The warning for a missing response (src/Chocolatey.PowerShell/Shared/RemoteDownloader.cs:129).
  - `DownloadFile` (224-391): a stream read/write loop with floating-point progress.
- WebHelper.GetChocolateyWebFile:
  - The original-file-name branch (src/Chocolatey.PowerShell/Helpers/WebHelper.cs:158-174) is not modelled, because `GetWebFileName` is not part of this model.
  - Failures of creating the download directory (176-184) are not modelled. `Path.GetDirectoryName` is taken as the parent-directory split.
  - A directory at the download path is treated as an absent file.
  - The 2-second sleep is not modelled.
  - `Get-FtpFile`, run through `InvokeScript`, is an oracle.
  - The copy of a local or UNC file is an oracle; a failed copy is a file-not-found error naming the source.
  - `Enum.TryParse` of the checksum type is a parameter `parseType`.
- WebHelper.GetWebFile and GetWebHeaders:
  - `HttpWebRequest` and its responses are oracle replies.
  - The chunked stream copy, the progress percentages and the floating-point size text are left out; the size text is taken from the reply.
  - The `file:` URI branch of `GetWebFile` (src/Chocolatey.PowerShell/Helpers/WebHelper.cs:476-485) is not modelled.
  - Credentials, proxy and cookie set-up are not modelled.
  - The request-header debug text is not modelled.
  - Exceptions from `Uri` parsing, casts and restricted headers are not modelled.
  - Duplicate keys and key order of the header `Hashtable` are not modelled.
  - The "no response" warning names the URL it was given.
- WebHelper.GetWebHeaders: its "remote file" error names the URL as given. The source prints the parsed `Uri` (src/Chocolatey.PowerShell/Helpers/WebHelper.cs:445), whose text `Uri.ToString` may normalise, for example by lower-casing the scheme and host.
- WebHelper.GetWebFile: likewise for its "remote file" error (src/Chocolatey.PowerShell/Helpers/WebHelper.cs:474, 653).
- `CheckVirusEngineResults`, `OnSuccessfulWebRequest` and `GetDownloadStream` are empty hooks, and `GetDownloadUrl` is the identity (src/Chocolatey.PowerShell/Helpers/WebHelper.cs:695-727).
- `ChecksumValidator`, `PSHelper`, `EnvironmentHelper`, `ProcessInformation` and `CombinePaths` are not part of this model. Each is described where it is used, as a parameter, an oracle or a stated assumption.
- `ProxySettings`: the system proxy's auto-detection and credential prompt are not modelled. `new Uri` is an oracle `parseUri`, except that a text ending in "://" is known to have no host. `new Regex`, which the `WebProxy.BypassList` setter applies to each entry, is an oracle `parseRegex`. `WebProxy.Address` is the text handed to `Uri`, without its normalisation.
- Registry, COM and OS-query cmdlets, and the thin wiring cmdlets that only forward to a modelled helper, are not modelled.

## Findings

| source | as written | input that shows it | evidently intended | confidence | as-written member | corrected member |
|---|---|---|---|---|---|---|
| src/Chocolatey.PowerShell/Helpers/SevenZipHelper.cs:40 | a forced or 32-bit extraction refuses when the 32-bit archive path is given, because the guard tests the path rather than its absence | 32-bit process, `path` = "a.zip", `path64` = null: refused; `path` = null, `path64` = "b.zip": goes on with no archive | refuse only when no 32-bit archive is given | not executed | SevenZip.AsWrittenRefusesGivenArchive, SevenZip.AsWrittenExtractsMissingArchive | SevenZip.SelectArchiveCorrectsTest |
| src/Chocolatey.PowerShell/Helpers/WindowsInstallerHelper.cs:30 | `ChocolateyForceX86` is lower-cased without a null check, so a 64-bit install with the variable unset throws a null reference | 64-bit process, `ChocolateyForceX86` unset | an unset variable means "not forced" | not executed | WindowsInstaller.AsWrittenThrowsWhenNotForced | WindowsInstaller.UsesX86CorrectsNullTest |
| src/Chocolatey.PowerShell/Commands/NewShimCommand.cs:221-229 | the bash shim templates use PowerShell backtick escapes inside C# verbatim strings, so they contain no line break and a literal backtick before each `$` | any shim written by the script fallback | a multi-line bash script with `$` expanded by bash | not executed | NewShim.BashContentAsWrittenIsOneLine | NewShim.BashContentMeaning |
| src/Chocolatey.PowerShell/Helpers/WebHelper.cs:302-307 | the remote `X-Checksum-Sha1` header is read, but the blank package checksum is what gets validated | non-empty headers, blank package checksum, `X-Checksum-Sha1` present: the outcome is the same for every header value | validate the file against the header's SHA-1 value | not executed | WebHelper.ValidateAsWrittenIgnoresRemoteChecksum | WebHelper.ValidateMeaning |
| src/Chocolatey.PowerShell/Helpers/StartChocolateyProcessHelper.cs:79 | the wrapper template (143-160) spells the braces of `try`, `if` and `catch` single, so `string.Format` throws `FormatException` before anything is launched | any start whose process name is "powershell", e.g. an elevated environment-variable change or a file association | braces doubled (`{{`, `}}`) so that only `{0}`-`{2}` are placeholders | not executed | StartChocolateyProcess.AsWrittenWrapperFails, StartChocolateyProcess.AsWrittenPowerShellStartFails | StartChocolateyProcess.CorrectedWrapperFormats, StartChocolateyProcess.CorrectedStartPrepares |
| src/Chocolatey.PowerShell/Helpers/WebHelper.cs:600 | the download is written through `FileMode.OpenOrCreate`, which does not truncate, so a body shorter than a stale file at the path keeps the stale tail | existing file "0123456789", body "abc" with `Content-Length` 3: the file becomes "abc3456789" and the length check fails | `FileMode.Create`, so the file is the body | not executed | WebHelper.StaleTailFailsLengthCheck, WebHelper.StaleTailExample | WebHelper.SavedBodyPassesLengthCheck |
