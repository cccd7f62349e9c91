/**
 * `New-Shim` (`NewShimCommand`): creates a shim for an executable in
 * Chocolatey's `bin` folder. Old batch and bash shims are removed, `shimgen`
 * is run to build the `.exe` shim, and when no `.exe` shim appears the
 * batch and bash script shims are written instead.
 */
module NewShim {
  import opened Wrappers
  import opened Text
  import opened Paths
  import opened Host

  /** The three shim files: the bash script (no extension), `.bat` and `.exe`. */
  datatype ShimFiles = ShimFiles(bash: string, batch: string, exe: string)

  function ShimFileNames(installLocation: string, name: string): ShimFiles {
    var bash := Combine(Combine(installLocation, "bin"), name);
    ShimFiles(bash, bash + ".bat", bash + ".exe")
  }

  /** The three names differ, so removing or writing one never touches another. */
  lemma ShimFileNamesDistinct(installLocation: string, name: string)
    ensures var f := ShimFileNames(installLocation, name);
      f.bash != f.batch && f.bash != f.exe && f.batch != f.exe
  {
    SuffixedNamesDistinct(ShimFileNames(installLocation, name).bash);
  }

  lemma SuffixedNamesDistinct(bash: string)
    ensures bash != bash + ".bat" && bash != bash + ".exe" && bash + ".bat" != bash + ".exe"
  {
    var bat := bash + ".bat";
    var exe := bash + ".exe";
    assert bat[|bash| + 1] == 'b';
    assert exe[|bash| + 1] == 'e';
  }

  /** `String.Replace` with an empty text to find throws. */
  function EmptyPattern(): Error {
    Error(ArgumentError, "String cannot be " + "of zero length.")
  }

  /**
   * The shim's target relative to the install folder: the lower-cased path
   * with the lower-cased install folder replaced by `..\` and doubled
   * backslashes collapsed. An empty install folder makes the replacement
   * throw.
   */
  function RelativePath(path: string, installLocation: string): (r: Result<string, Error>)
    ensures r.Failure? <==> installLocation == ""
    ensures r.Failure? ==> r.error == EmptyPattern()
  {
    if installLocation == "" then Failure(EmptyPattern())
    else
      var lower := ReplaceAll(ToLower(path), ToLower(installLocation), "..\\");
      Success(ReplaceAll(lower, "\\\\", "\\"))
  }

  /**
   * A path outside the install folder (in any letter case) and without
   * doubled backslashes is only lower-cased.
   */
  lemma RelativePathOutside(path: string, installLocation: string)
    requires installLocation != ""
    requires !Contains(ToLower(path), ToLower(installLocation)) && !Contains(ToLower(path), "\\\\")
    ensures RelativePath(path, installLocation) == Success(ToLower(path))
  {
    ReplaceAllAbsent(ToLower(path), ToLower(installLocation), "..\\");
    ReplaceAllAbsent(ToLower(path), "\\\\", "\\");
  }

  /** The relative path never grows by the backslash collapse. */
  lemma RelativePathCollapses(path: string, installLocation: string)
    requires installLocation != ""
    ensures var lower := ReplaceAll(ToLower(path), ToLower(installLocation), "..\\");
      |RelativePath(path, installLocation).value| <= |lower|
      && (Contains(lower, "\\\\") ==> |RelativePath(path, installLocation).value| < |lower|)
  {
    var lower := ReplaceAll(ToLower(path), ToLower(installLocation), "..\\");
    ReplaceAllShortens(lower, "\\\\", "\\");
  }

  function ShimGenHead(exe: string, relative: string, path: string): string {
    "-o \"" + exe + "\" -p \"" + relative + "\" -i \"" + path + "\""
  }

  function CommandOption(command: string): string {
    if command == "" then "" else " -c " + command
  }

  /** `shimgen`'s arguments: output, target and icon, then the command, GUI and debug flags in that order. */
  function ShimGenArguments(exe: string, relative: string, path: string, command: string,
                            useStart: bool, debug: bool): string {
    ShimGenHead(exe, relative, path) + CommandOption(command)
    + (if useStart then " -gui" else "") + (if debug then " -debug" else "")
  }

  /**
   * The arguments start with the output, target and icon options; the
   * command, `-gui` and `-debug` follow exactly when asked for, and nothing
   * else is added.
   */
  lemma ShimGenArgumentsMeaning(exe: string, relative: string, path: string, command: string,
                                useStart: bool, debug: bool)
    ensures var a := ShimGenArguments(exe, relative, path, command, useStart, debug);
      var head := ShimGenHead(exe, relative, path);
      StartsWith(a, head)
      && |a| == |head| + (if command == "" then 0 else 4 + |command|) + (if useStart then 5 else 0)
                + (if debug then 7 else 0)
      && (command != "" ==> Contains(a, " -c " + command))
      && (useStart && !debug ==> EndsWith(a, " -gui"))
      && (debug ==> EndsWith(a, " -debug"))
  {
    var head := ShimGenHead(exe, relative, path);
    var c := CommandOption(command);
    var g := if useStart then " -gui" else "";
    var d := if debug then " -debug" else "";
    var a := ShimGenArguments(exe, relative, path, command, useStart, debug);
    assert a == head + (c + g + d);
    assert a[..|head|] == head;
    if command != "" {
      ContainsPart(head, c, g + d);
      assert a == head + c + (g + d);
    }
    EndsWithConcat(head + c + g, d);
    if !debug {
      EndsWithConcat(head + c, g);
      assert a == head + c + g;
    }
  }

  /** The batch shim's target: `%DIR%` followed by the relative path. */
  function ScriptShimPath(relative: string): string {
    "%DIR%" + relative
  }

  /** The bash shim's target: `%DIR%..\` becomes `$DIR/../`, then every backslash a slash. */
  function BashShimPath(scriptPath: string): string {
    ReplaceAll(ReplaceAll(scriptPath, "%DIR%..\\", "$DIR/../"), "\\", "/")
  }

  /**
   * The bash target has no backslash left, and a target under the install
   * folder (`..\` first) starts from the script's own directory.
   */
  lemma BashShimPathMeaning(relative: string)
    ensures '\\' !in BashShimPath(ScriptShimPath(relative))
    ensures StartsWith(relative, "..\\") ==> StartsWith(BashShimPath(ScriptShimPath(relative)), "$DIR/../")
  {
    var s := ScriptShimPath(relative);
    var once := ReplaceAll(s, "%DIR%..\\", "$DIR/../");
    ReplaceCharEliminates(once, '\\', "/");
    if StartsWith(relative, "..\\") {
      assert s[..8] == "%DIR%..\\";
      assert once == "$DIR/../" + ReplaceAll(s[8..], "%DIR%..\\", "$DIR/../");
      ReplaceCharPointwise(once, '\\', '/');
      var b := BashShimPath(s);
      assert forall i :: 0 <= i < 8 ==> b[i] == once[i];
      assert b[..8] == "$DIR/../";
    }
  }

  function BatchHeader(): string {
    "\n@echo off\nSET " + "DIR=%~dp0%\n"
  }

  /** The quoted target followed by all of the shim's arguments. */
  function TargetCall(scriptPath: string): string {
    "\"" + scriptPath + "\" %*"
  }

  function BatchExit(): string {
    "\nexit " + "/b %ERRORLEVEL%\n"
  }

  /** The batch shim; with `useStart` the program is started without waiting. */
  function BatchContent(useStart: bool, scriptPath: string): string {
    if useStart then BatchHeader() + ("start \"\" " + TargetCall(scriptPath)) + "\n"
    else BatchHeader() + ("cmd /c \"" + TargetCall(scriptPath)) + ("\"" + BatchExit())
  }

  /**
   * The batch shim passes its arguments to the target, started without
   * waiting with `useStart`, and otherwise run through `cmd /c` with its exit
   * code passed on.
   */
  lemma BatchContentMeaning(useStart: bool, scriptPath: string)
    ensures var c := BatchContent(useStart, scriptPath);
      (useStart ==> Contains(c, "start \"\" " + TargetCall(scriptPath)))
      && (!useStart ==> Contains(c, "cmd /c \"" + TargetCall(scriptPath)) && EndsWith(c, BatchExit()))
  {
    var call := TargetCall(scriptPath);
    if useStart {
      ContainsPart(BatchHeader(), "start \"\" " + call, "\n");
    } else {
      ContainsPart(BatchHeader(), "cmd /c \"" + call, "\"" + BatchExit());
      var h := BatchHeader() + ("cmd /c \"" + call);
      EndsWithConcat(h + "\"", BatchExit());
      assert h + ("\"" + BatchExit()) == h + "\"" + BatchExit();
    }
  }

  /**
   * The bash shim as the source writes it: the PowerShell escapes `` `n `` and
   * `` `$ `` inside a C# string are kept literally.
   */
  function BashContentAsWritten(useStart: bool, bashPath: string): string {
    if useStart then "#!/bin/sh`nDIR=" + "`${0%/*}`n\"" + bashPath + "\" \"`$@\" &`n"
    else "#!/bin/sh`nDIR=" + "`${0%/*}`n\"" + bashPath + "\" \"`$@\"`nexit " + "`$?`n"
  }

  /**
   * As written, the bash shim has no line break at all: the whole script is
   * its `#!` line, so the shell never reaches the command.
   */
  lemma BashContentAsWrittenIsOneLine(useStart: bool, bashPath: string)
    requires '\n' !in bashPath
    ensures '\n' !in BashContentAsWritten(useStart, bashPath)
    ensures StartsWith(BashContentAsWritten(useStart, bashPath), "#!/bin/sh`n")
  {
    var c := BashContentAsWritten(useStart, bashPath);
    assert c[..11] == "#!/bin/sh`n";
  }

  /** The bash shim with real line breaks and a plain `$`. */
  function BashContent(useStart: bool, bashPath: string): string {
    if useStart then "#!/bin/sh\nDIR=" + "${0%/*}\n\"" + bashPath + "\" \"$@\" &\n"
    else "#!/bin/sh\nDIR=" + "${0%/*}\n\"" + bashPath + "\" \"$@\"\nexit " + "$?\n"
  }

  /**
   * The bash shim's first line is the interpreter line alone, and a line of
   * its own runs the target with the script's arguments.
   */
  lemma BashContentMeaning(useStart: bool, bashPath: string)
    ensures var c := BashContent(useStart, bashPath);
      c[..10] == "#!/bin/sh\n" && Contains(c, "\n\"" + bashPath + "\" \"$@\"")
  {
    var c := BashContent(useStart, bashPath);
    var h := "#!/bin/sh\nDIR=" + "${0%/*}";
    var line := "\n\"" + bashPath + "\" \"$@\"";
    var t := if useStart then " &\n" else "\nexit " + "$?\n";
    assert c == h + line + t;
    ContainsPart(h, line, t);
  }

  function AddingLine(fileName: string, scriptPath: string): string {
    "Adding " + fileName + " and pointing " + "to '" + scriptPath + "'."
  }

  function NonCommandLineLine(name: string): string {
    "Setting up " + name + " as a non-command " + "line application."
  }

  /** What `CreateScriptShims` reports: both shims, and the GUI set-up with `useStart`. */
  function ScriptShimLog(name: string, relative: string, batchFileName: string, bashFileName: string,
                         useStart: bool): seq<LogEntry> {
    var path := ScriptShimPath(relative);
    [HostLine(AddingLine(batchFileName, path)), HostLine(AddingLine(bashFileName, path))]
    + (if useStart then [HostLine(NonCommandLineLine(name))] else [])
  }

  /** The files after `CreateScriptShims`: the batch and bash shims for the target. */
  function ScriptShimFiles(files: map<string, string>, relative: string, batchFileName: string,
                           bashFileName: string, useStart: bool): map<string, string> {
    var path := ScriptShimPath(relative);
    files[batchFileName := BatchContent(useStart, path)][bashFileName := BashContent(useStart, BashShimPath(path))]
  }

  /**
   * With distinct names, the script shims hold the batch shim calling the
   * `%DIR%`-relative target and the bash shim calling a target without
   * backslashes; every other file is kept.
   */
  lemma ScriptShimFilesMeaning(files: map<string, string>, relative: string, batchFileName: string,
                               bashFileName: string, useStart: bool)
    requires batchFileName != bashFileName
    ensures var w := ScriptShimFiles(files, relative, batchFileName, bashFileName, useStart);
      w.Keys == files.Keys + {batchFileName, bashFileName}
      && w[batchFileName] == BatchContent(useStart, ScriptShimPath(relative))
      && Contains(w[bashFileName], "\n\"" + BashShimPath(ScriptShimPath(relative)) + "\" \"$@\"")
      && '\\' !in BashShimPath(ScriptShimPath(relative))
      && (forall n :: n in files && n != batchFileName && n != bashFileName ==> w[n] == files[n])
  {
    BashContentMeaning(useStart, BashShimPath(ScriptShimPath(relative)));
    BashShimPathMeaning(relative);
  }

  /** `CreateScriptShims`: reports both script shims and writes them. */
  method CreateScriptShims(host: Host, name: string, relative: string, batchFileName: string,
                           bashFileName: string, useStart: bool)
    modifies host`log, host`files
    ensures host.log == old(host.log) + ScriptShimLog(name, relative, batchFileName, bashFileName, useStart)
    ensures host.files == ScriptShimFiles(old(host.files), relative, batchFileName, bashFileName, useStart)
  {
    var path := ScriptShimPath(relative);
    var pathBash := BashShimPath(path);
    host.WriteHost(AddingLine(batchFileName, path));
    host.WriteHost(AddingLine(bashFileName, path));
    if useStart {
      host.WriteHost(NonCommandLineLine(name));
    }
    host.WriteFile(batchFileName, BatchContent(useStart, path));
    host.WriteFile(bashFileName, BashContent(useStart, pathBash));
  }

  /** Removes the file when an item is there. */
  method RemoveIfPresent(host: Host, fileName: string)
    modifies host`files
    ensures host.files == old(host.files) - {fileName}
  {
    if host.ItemExists(fileName) {
      host.RemoveFile(fileName);
    }
  }

  function ShimGenName(): string {
    "tools\\shimgen.exe"
  }

  /** Where `shimgen` is looked for: under the install folder, else under `ChocolateyInstall`. */
  function ShimGenPath(installLocation: string, chocolateyInstall: NString, bundledExists: bool): string {
    if bundledExists then Combine(installLocation, ShimGenName())
    else Combine(OrEmpty(chocolateyInstall), ShimGenName())
  }

  /** The launch of `shimgen`: hidden, not elevated, with the arguments built above. */
  function ShimGenLaunch(shimGen: string, arguments: string): Launch {
    Launch(shimGen, None, Some(arguments), false, Hidden, false)
  }

  function WarningText(): string {
    "An error occurred " + "generating shim, " + "using old method."
  }

  function AddedLine(exe: string, relative: string): string {
    "Added " + exe + " shim pointed " + "to '" + relative + "'."
  }

  /** The files, host log and launches a step leaves. */
  datatype World = World(files: map<string, string>, log: seq<LogEntry>, launches: seq<Launch>)

  /**
   * What the `shimgen` step leaves, from the world before it: `shimgen` is
   * launched when it exists; then an existing `.exe` shim is reported, or
   * else a warning is written and the script shims are created.
   */
  function AfterShimGen(w: World, dirs: set<string>, producedBy: Launch -> map<string, string>,
                        name: string, f: ShimFiles, relative: string, arguments: string,
                        shimGen: string, useStart: bool): World
  {
    var launch := ShimGenLaunch(shimGen, arguments);
    var ran := shimGen in w.files || shimGen in dirs;
    var generated := w.files + (if ran then producedBy(launch) else map[]);
    var launches := w.launches + (if ran then [launch] else []);
    if f.exe in generated || f.exe in dirs then
      World(generated, w.log + [HostLine(AddedLine(f.exe, relative))], launches)
    else
      World(ScriptShimFiles(generated, relative, f.batch, f.bash, useStart),
            w.log + [Warning(WarningText())] + ScriptShimLog(name, relative, f.batch, f.bash, useStart),
            launches)
  }

  /**
   * The `shimgen` step launches at most `shimgen` itself and only appends to
   * the log. It starts the new log with a warning exactly when it wrote both
   * script shims; otherwise the `.exe` shim exists and is reported.
   */
  lemma AfterShimGenMeaning(w: World, dirs: set<string>, producedBy: Launch -> map<string, string>,
                            name: string, f: ShimFiles, relative: string, arguments: string,
                            shimGen: string, useStart: bool)
    ensures var a := AfterShimGen(w, dirs, producedBy, name, f, relative, arguments, shimGen, useStart);
      |w.launches| <= |a.launches| <= |w.launches| + 1
      && a.launches[..|w.launches|] == w.launches
      && (|a.launches| > |w.launches| ==> a.launches[|w.launches|] == ShimGenLaunch(shimGen, arguments))
      && |a.log| > |w.log| && a.log[..|w.log|] == w.log
      && (a.log[|w.log|].Warning? ==> f.batch in a.files && f.bash in a.files)
      && (!a.log[|w.log|].Warning? ==>
            (f.exe in a.files || f.exe in dirs) && a.log == w.log + [HostLine(AddedLine(f.exe, relative))])
  {
  }

  /** Removes the old batch and bash shims. */
  method RemoveScriptShims(host: Host, f: ShimFiles)
    modifies host`files
    ensures host.files == old(host.files) - {f.batch} - {f.bash}
  {
    RemoveIfPresent(host, f.batch);
    RemoveIfPresent(host, f.bash);
  }

  /** Runs `shimgen` when it exists, then checks for the `.exe` shim. */
  method Generate(host: Host, name: string, f: ShimFiles, relative: string, arguments: string,
                  shimGen: string, useStart: bool)
    modifies host`launches, host`files, host`log
    ensures World(host.files, host.log, host.launches)
         == AfterShimGen(World(old(host.files), old(host.log), old(host.launches)), host.dirs, host.producedBy,
                         name, f, relative, arguments, shimGen, useStart)
  {
    if host.ItemExists(shimGen) {
      var _ := host.StartProcess(ShimGenLaunch(shimGen, arguments));
    }
    if host.ItemExists(f.exe) {
      host.WriteHost(AddedLine(f.exe, relative));
    } else {
      host.Warn(WarningText());
      CreateScriptShims(host, name, relative, f.batch, f.bash, useStart);
    }
  }

  /**
   * `End` for the shim `name` pointing at `path`: the old script shims are
   * removed, `shimgen` is run when found, and when the `.exe` shim does not
   * exist afterwards a warning is written and the script shims are created.
   * An empty install folder makes the relative path throw once the old shims
   * are gone.
   */
  method End(host: Host, name: string, path: string, useStart: bool, command: string, debug: bool)
    returns (r: Result<(), Error>)
    modifies host`files, host`log, host`launches
    ensures var f := ShimFileNames(host.installLocation, name);
      host.installLocation == "" ==>
        r == Failure(EmptyPattern()) && host.files == old(host.files) - {f.batch} - {f.bash}
        && host.log == old(host.log) && host.launches == old(host.launches)
    ensures host.installLocation != "" ==>
      var f := ShimFileNames(host.installLocation, name);
      var removed := old(host.files) - {f.batch} - {f.bash};
      var rel := RelativePath(path, host.installLocation).value;
      var bundled := Combine(host.installLocation, ShimGenName());
      var shimGen := ShimGenPath(host.installLocation, host.Var("ChocolateyInstall"), bundled in removed || bundled in host.dirs);
      r == Success(())
      && World(host.files, host.log, host.launches)
         == AfterShimGen(World(removed, old(host.log), old(host.launches)), host.dirs, host.producedBy,
                         name, f, rel, ShimGenArguments(f.exe, rel, path, command, useStart, debug), shimGen, useStart)
  {
    var f := ShimFileNames(host.installLocation, name);
    RemoveScriptShims(host, f);
    var relative := RelativePath(path, host.installLocation);
    if relative.Failure? {
      return Failure(relative.error);
    }
    var rel := relative.value;
    var args := ShimGenArguments(f.exe, rel, path, command, useStart, debug);
    var shimGen := ShimGenPath(host.installLocation, host.Var("ChocolateyInstall"),
                               host.ItemExists(Combine(host.installLocation, ShimGenName())));
    Generate(host, name, f, rel, args, shimGen, useStart);
    r := Success(());
  }
}
