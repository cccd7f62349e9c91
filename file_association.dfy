/**
 * `Install-ChocolateyFileAssociation`: associates a file extension with an
 * executable by running `assoc` and `ftype` in an elevated PowerShell. The
 * extension is trimmed and given a leading '.', and the file type is the
 * executable's file name with spaces replaced by '_'. `Associate` settles the
 * request for the elevated process and the line written afterwards; `End`
 * runs it through the process helper.
 */
module FileAssociation {
  import opened Wrappers
  import opened Text
  import opened Paths
  import opened Host
  import P = StartChocolateyProcess

  /** The extension as the association uses it: trimmed, with a leading '.'. */
  function NormalizeExtension(extension: string): string {
    var e := Trim(extension);
    if StartsWith(e, ".") then e else "." + e
  }

  /**
   * The normalised extension starts with '.', has no surrounding white space,
   * ends with the trimmed text the caller gave, and normalising it again
   * changes nothing.
   */
  lemma NormalizeExtensionMeaning(extension: string)
    ensures var r := NormalizeExtension(extension);
      StartsWith(r, ".")
      && EndsWith(r, Trim(extension))
      && Trim(r) == r
      && NormalizeExtension(r) == r
  {
    var e := Trim(extension);
    var r := NormalizeExtension(extension);
    TrimWhereEnds(extension, IsWhiteSpace);
    if !StartsWith(e, ".") {
      EndsWithConcat(".", e);
      assert r[0] == '.';
      if e != [] {
        assert r[|r| - 1] == e[|e| - 1];
      }
    }
    assert r[..1] == ".";
    TrimWhereIdentity(r, IsWhiteSpace);
  }

  /** The file type: the executable's file name, spaces replaced by '_'. */
  function FileTypeName(executable: string): string {
    ReplaceAll(GetFileName(executable), " ", "_")
  }

  /**
   * The file type is the executable's file name character for character,
   * except that every space became '_': it has no spaces and no separators.
   */
  lemma FileTypeNameMeaning(executable: string)
    ensures var name := GetFileName(executable);
      var f := FileTypeName(executable);
      |f| == |name|
      && (forall i :: 0 <= i < |name| ==> f[i] == (if name[i] == ' ' then '_' else name[i]))
      && ' ' !in f
      && HasNoSeparator(f)
  {
    var name := GetFileName(executable);
    ReplaceCharPointwise(name, ' ', '_');
    var f := FileTypeName(executable);
    assert forall i :: 0 <= i < |f| ==> f[i] != ' ' && !IsSeparator(f[i]) by {
      forall i | 0 <= i < |f|
        ensures f[i] != ' ' && !IsSeparator(f[i])
      {
        assert !IsSeparator(name[i]);
      }
    }
  }

  /** `cmd /c "assoc <ext>=<type>"`. */
  function AssocCommand(extension: string, fileType: string): string {
    "assoc " + extension + "=" + fileType
  }

  /** `ftype <type>="<exe>" "%1" "%*"`. */
  function FtypeCommand(fileType: string, executable: string): string {
    "ftype " + fileType + "=\"" + executable + "\" \"%1\" \"%*\""
  }

  function DriveLine(): string {
    "New-PSDrive -Name" + " HKCR -PSProvider " + "Registry -Root " + "HKEY_CLASSES_ROOT"
  }

  function PropertyLine(fileType: string): string {
    "Set-ItemProperty " + "-Path \"HKCR:\\" + fileType + "\" -Name \"(Default)\"" + " -Value \"" + fileType
    + " file\" -ErrorAction " + "Stop"
  }

  /** The PowerShell block run elevated: one command per line, starting and ending with a line break. */
  function ElevatedScript(extension: string, fileType: string, executable: string): string {
    "\ncmd /c \"" + AssocCommand(extension, fileType) + "\"\n"
    + ("cmd /c '" + FtypeCommand(fileType, executable) + "'\n")
    + (DriveLine() + "\n" + PropertyLine(fileType) + "\n")
  }

  /** The elevated block runs both `assoc` and `ftype` for the extension and file type. */
  lemma ElevatedScriptMeaning(extension: string, fileType: string, executable: string)
    ensures var s := ElevatedScript(extension, fileType, executable);
      Contains(s, AssocCommand(extension, fileType)) && Contains(s, FtypeCommand(fileType, executable))
  {
    var a := "\ncmd /c \"" + AssocCommand(extension, fileType) + "\"\n";
    var f := "cmd /c '" + FtypeCommand(fileType, executable) + "'\n";
    var rest := DriveLine() + "\n" + PropertyLine(fileType) + "\n";
    ContainsPart("\ncmd /c \"", AssocCommand(extension, fileType), "\"\n");
    ContainsExtend(a, AssocCommand(extension, fileType), f + rest);
    ContainsPart("cmd /c '", FtypeCommand(fileType, executable), "'\n");
    ContainsExtend(f, FtypeCommand(fileType, executable), rest);
    ContainsPrepend(a, f + rest, FtypeCommand(fileType, executable));
    assert ElevatedScript(extension, fileType, executable) == a + (f + rest);
  }

  /** What the cmdlet hands to the process helper and then writes to the host. */
  datatype Association = Association(
    extension: string,
    fileType: string,
    request: P.StartRequest,
    message: string)

  function NotFound(executable: string): Error {
    Error(RuntimeError, "'" + executable + "' does not exist, " + "can't create file " + "association")
  }

  /**
   * The decisions of `End`: a missing executable is a terminating error
   * before anything else; otherwise the elevated block is run without a
   * working directory, elevated, minimized and without sleeps, and the
   * association is reported.
   */
  function Associate(extension: string, executable: string, executableExists: bool): (r: Result<Association, Error>)
    ensures !executableExists <==> r.Failure?
    ensures r.Failure? ==> r.error == NotFound(executable)
    ensures r.Success? ==>
      var a := r.value;
      a.extension == NormalizeExtension(extension)
      && a.fileType == FileTypeName(executable)
      && a.request.processName == P.DefaultProcessName && a.request.workingDirectory == None
      && a.request.elevated && a.request.minimized && a.request.noSleep && a.request.validExitCodes == None
      && a.request.arguments.Some?
      && Contains(a.request.arguments.value, AssocCommand(a.extension, a.fileType))
      && Contains(a.request.arguments.value, FtypeCommand(a.fileType, executable))
      && StartsWith(a.message, "'" + a.extension + "'") && EndsWith(a.message, "'" + executable + "'")
  {
    if !executableExists then Failure(NotFound(executable))
    else
      var ext := NormalizeExtension(extension);
      var fileType := FileTypeName(executable);
      var script := ElevatedScript(ext, fileType, executable);
      var head := "'" + ext + "'";
      var tail := "'" + executable + "'";
      var message := head + " has been associated with " + tail;
      ElevatedScriptMeaning(ext, fileType, executable);
      EndsWithConcat(head + " has been associated with ", tail);
      assert message[..|head|] == head;
      Success(Association(ext, fileType, P.StartRequest(P.DefaultProcessName, None, Some(script), true, true, true, None),
                          message))
  }

  /**
   * What applying an association leaves, from the log and launches before it
   * to those after it: the helper launched at most once, with the prepared
   * arguments, the log only grew, and a success was launched and ends the log
   * reporting the association.
   */
  predicate Applied(a: Association, arguments: Option<string>, r: Result<(), Error>,
                    log0: seq<LogEntry>, launches0: seq<Launch>, log: seq<LogEntry>, launches: seq<Launch>)
  {
    |launches0| <= |launches| <= |launches0| + 1
    && launches[..|launches0|] == launches0
    && (|launches| > |launches0| ==> launches[|launches0|].arguments == arguments)
    && |log0| <= |log| && log[..|log0|] == log0
    && (r.Success? ==> |launches| > |launches0| && |log| > 0 && log[|log| - 1] == HostLine(a.message))
  }

  /** Runs the association's request once through the process helper and, when it succeeds, reports it. */
  method Apply(host: Host, a: Association, encode: string -> string) returns (r: Result<(), Error>)
    modifies host`log, host`exitCode, host`launches, host`files
    ensures Applied(a, P.PreparedCommand(host, a.request, encode).arguments, r,
                    old(host.log), old(host.launches), host.log, host.launches)
  {
    ghost var launch := P.PlannedLaunch(host, a.request, encode);
    var run := P.Start(host, a.request, encode);
    if run.Failure? {
      return Failure(run.error);
    }
    host.WriteHost(a.message);
    r := Success(());
  }

  /**
   * `End`: refuses, changing nothing, when the executable does not exist;
   * otherwise applies the association `Associate` settles.
   */
  method End(host: Host, extension: string, executable: string, encode: string -> string)
    returns (r: Result<(), Error>, a: Result<Association, Error>)
    modifies host`log, host`exitCode, host`launches, host`files
    ensures a == old(Associate(extension, executable, host.ItemExists(executable)))
    ensures a.Failure? ==>
      r == Failure(a.error)
      && host.log == old(host.log) && host.launches == old(host.launches)
      && host.files == old(host.files) && host.exitCode == old(host.exitCode)
    ensures a.Success? ==>
      Applied(a.value, P.PreparedCommand(host, a.value.request, encode).arguments, r,
              old(host.log), old(host.launches), host.log, host.launches)
  {
    a := Associate(extension, executable, host.ItemExists(executable));
    if a.Failure? {
      return Failure(a.error), a;
    }
    r := Apply(host, a.value, encode);
  }
}
