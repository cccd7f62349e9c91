/**
 * `Get-ToolsLocation`: where software that is not installed by a native
 * installer goes. The configured `ChocolateyToolsLocation`, else the older
 * `ChocolateyBinRoot` (which is then cleared from the User store), else
 * `tools` on the system drive; a location without a drive letter is put on
 * the system drive, and a location that differs from the configured one is
 * written back to the User store (the Machine store when that fails in an
 * elevated process).
 */
module ToolsLocation {
  import opened Wrappers
  import opened Text
  import opened Paths
  import opened Host

  /** `\w` over ASCII: a letter, a digit or '_'. */
  predicate IsWordChar(c: char) {
    'a' <= c <= 'z' || 'A' <= c <= 'Z' || '0' <= c <= '9' || c == '_'
  }

  /** The pattern `^\w:`: the path starts with a drive letter and a colon. */
  predicate HasDriveLetter(s: string) {
    |s| >= 2 && IsWordChar(s[0]) && s[1] == ':'
  }

  /** The location chosen before the drive check. */
  function Preferred(toolsLocation: NString, binRoot: NString, systemDrive: NString): string {
    if !IsNullOrEmpty(toolsLocation) then toolsLocation.value
    else if !IsNullOrEmpty(binRoot) then binRoot.value
    else Combine(OrEmpty(systemDrive), "tools")
  }

  /** Whether the old `ChocolateyBinRoot` supplies the location. */
  predicate UsesBinRoot(toolsLocation: NString, binRoot: NString) {
    IsNullOrEmpty(toolsLocation) && !IsNullOrEmpty(binRoot)
  }

  /** The location `Get-ToolsLocation` reports, from the process variables it reads. */
  function Resolve(toolsLocation: NString, binRoot: NString, systemDrive: NString): string {
    var p := Preferred(toolsLocation, binRoot, systemDrive);
    if HasDriveLetter(p) then p else Combine(OrEmpty(systemDrive), p)
  }

  /** A path on a drive stays on that drive when a non-empty part is combined under it. */
  lemma CombineKeepsDrive(drive: string, part: string)
    requires HasDriveLetter(drive) && part != ""
    ensures HasDriveLetter(Combine(drive, part))
    ensures Combine(drive, part)[0] == drive[0]
  {
    var t := TrimEndWhere(drive, IsDirectorySeparator);
    var c := t + "\\" + TrimStartWhere(part, IsDirectorySeparator);
    assert !IsDirectorySeparator(drive[1]);
    assert |t| >= 2;
    assert drive[..|t|] == t;
    assert c[0] == drive[0] && c[1] == drive[1];
    assert Combine(drive, part) == c;
  }

  /**
   * The reported location is never empty; it keeps a preferred location that
   * already has a drive letter and otherwise puts it under the system drive;
   * and when the system drive itself has a drive letter, so does the result.
   */
  lemma ResolveMeaning(toolsLocation: NString, binRoot: NString, systemDrive: NString)
    ensures var r := Resolve(toolsLocation, binRoot, systemDrive);
      var p := Preferred(toolsLocation, binRoot, systemDrive);
      r != ""
      && (HasDriveLetter(p) ==> r == p)
      && (!HasDriveLetter(p) ==> EndsWith(r, TrimStartWhere(p, IsDirectorySeparator)))
      && (HasDriveLetter(OrEmpty(systemDrive)) ==> HasDriveLetter(r))
  {
    var p := Preferred(toolsLocation, binRoot, systemDrive);
    var sd := OrEmpty(systemDrive);
    assert p != "" by {
      if IsNullOrEmpty(toolsLocation) && IsNullOrEmpty(binRoot) {
        assert EndsWith(Combine(sd, "tools"), TrimStartWhere("tools", IsDirectorySeparator));
      }
    }
    if HasDriveLetter(sd) {
      if IsNullOrEmpty(toolsLocation) && IsNullOrEmpty(binRoot) {
        CombineKeepsDrive(sd, "tools");
      }
      if !HasDriveLetter(p) {
        CombineKeepsDrive(sd, p);
      }
    }
  }

  /**
   * With a system drive that has a drive letter, resolving again from the
   * reported location gives the same location: a second run finds nothing
   * to write back.
   */
  lemma ResolveIdempotent(toolsLocation: NString, binRoot: NString, binRoot2: NString, systemDrive: NString)
    requires HasDriveLetter(OrEmpty(systemDrive))
    ensures var r := Resolve(toolsLocation, binRoot, systemDrive);
      Resolve(Some(r), binRoot2, systemDrive) == r && !UsesBinRoot(Some(r), binRoot2)
  {
    ResolveMeaning(toolsLocation, binRoot, systemDrive);
  }

  /** The error a failed write turns into; the message is the exception's. */
  function WriteFailed(message: string): Error {
    Error(RuntimeError, message)
  }

  /**
   * `End`: resolves the location from the process environment, clears the old
   * bin root from the User store when it was used, writes the location back
   * when it differs from the configured one, and returns it. A write to the
   * User store that throws (`failureMessage` is the exception's message) ends
   * the cmdlet, except that the write-back falls back to the Machine store in
   * an elevated process.
   */
  method End(host: Host, failureMessage: string) returns (r: Result<string, Error>)
    modifies host`env, host`userEnv, host`machineEnv
    ensures host.env == old(host.env)
    ensures var t := old(host.Var("ChocolateyToolsLocation"));
      var b := old(host.Var("ChocolateyBinRoot"));
      var loc := Resolve(t, b, old(host.Var("SYSTEMDRIVE")));
      var cleared := if UsesBinRoot(t, b) then Assign(old(host.userEnv), "ChocolateyBinRoot", Some("")) else old(host.userEnv);
      var writeBack := t != Some(loc);
      if UsesBinRoot(t, b) && host.userStoreFails then
        r == Failure(WriteFailed(failureMessage)) && host.userEnv == old(host.userEnv) && host.machineEnv == old(host.machineEnv)
      else if !writeBack then
        r == Success(loc) && host.userEnv == cleared && host.machineEnv == old(host.machineEnv)
      else if !host.userStoreFails then
        r == Success(loc) && host.userEnv == Assign(cleared, "ChocolateyToolsLocation", Some(loc))
        && host.machineEnv == old(host.machineEnv)
      else if host.isElevated then
        r == Success(loc) && host.userEnv == cleared
        && host.machineEnv == Assign(old(host.machineEnv), "ChocolateyToolsLocation", Some(loc))
      else
        r == Failure(WriteFailed(failureMessage)) && host.userEnv == cleared && host.machineEnv == old(host.machineEnv)
  {
    var envToolsLocation := host.Var("ChocolateyToolsLocation");
    var binRoot := host.Var("ChocolateyBinRoot");
    var systemDrive := host.Var("SYSTEMDRIVE");
    var toolsLocation := Preferred(envToolsLocation, binRoot, systemDrive);
    if UsesBinRoot(envToolsLocation, binRoot) {
      var ok := host.SetScopedVar(UserScope, "ChocolateyBinRoot", Some(""));
      if !ok {
        return Failure(WriteFailed(failureMessage));
      }
    }
    if !HasDriveLetter(toolsLocation) {
      toolsLocation := Combine(OrEmpty(systemDrive), toolsLocation);
    }
    if envToolsLocation != Some(toolsLocation) {
      var ok := host.SetScopedVar(UserScope, "ChocolateyToolsLocation", Some(toolsLocation));
      if !ok {
        if host.isElevated {
          ok := host.SetScopedVar(MachineScope, "ChocolateyToolsLocation", Some(toolsLocation));
        } else {
          return Failure(WriteFailed(failureMessage));
        }
      }
    }
    r := Success(toolsLocation);
  }
}
