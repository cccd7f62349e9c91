/**
 * `Install-ChocolateyEnvironmentVariable`: sets a variable in the User
 * (default) or Machine store, and in the current process. A Machine variable
 * from a process that is not elevated is set by an elevated child PowerShell
 * that runs the same command; a User write that throws falls back to the
 * Machine store in an elevated process and is otherwise a terminating error.
 */
module EnvironmentVariable {
  import opened Wrappers
  import opened Text
  import opened Host
  import P = StartChocolateyProcess

  /** `EnvironmentVariableTarget.ToString()`. */
  function ScopeName(scope: Scope): string {
    match scope
    case ProcessScope => "Process"
    case UserScope => "User"
    case MachineScope => "Machine"
  }

  /** The cmdlet's own name, which the elevated child runs. */
  function CommandName(): string {
    "Install-ChocolateyEnvironmentVariable"
  }

  function NameArgument(name: string): string {
    "-Name '" + name + "'"
  }

  function ValueArgument(value: NString): string {
    "-Value '" + OrEmpty(value) + "'"
  }

  function TypeArgument(scope: Scope): string {
    "-Type '" + ScopeName(scope) + "'"
  }

  /** The command the elevated child runs, a null value rendered as "". */
  function ElevatedCommand(name: string, value: NString, scope: Scope): string {
    CommandName() + " " + NameArgument(name) + " " + ValueArgument(value) + " " + TypeArgument(scope)
  }

  /** The command is the cmdlet itself naming the variable, then its value, and ends with the scope. */
  lemma ElevatedCommandMeaning(name: string, value: NString, scope: Scope)
    ensures var c := ElevatedCommand(name, value, scope);
      StartsWith(c, CommandName() + " " + NameArgument(name))
      && Contains(c, ValueArgument(value))
      && EndsWith(c, TypeArgument(scope))
  {
    var head := CommandName() + " " + NameArgument(name);
    var v := ValueArgument(value);
    var t := TypeArgument(scope);
    var c := ElevatedCommand(name, value, scope);
    assert c[..|head|] == head;
    assert c == (head + " ") + v + (" " + t);
    ContainsPart(head + " ", v, " " + t);
    EndsWithConcat(head + " " + v + " ", t);
  }

  /** The request for the elevated child: a PowerShell block, elevated, minimized and without sleeps. */
  function ElevatedRequest(name: string, value: NString): (req: P.StartRequest)
    ensures req.processName == P.DefaultProcessName && req.workingDirectory == None
    ensures req.elevated && req.minimized && req.noSleep && req.validExitCodes == None
    ensures req.arguments == Some(ElevatedCommand(name, value, MachineScope))
  {
    P.StartRequest(P.DefaultProcessName, None, Some(ElevatedCommand(name, value, MachineScope)), true, true, true, None)
  }

  /** Runs the elevated child; the stores are left to it. */
  method RunElevated(host: Host, name: string, value: NString, encode: string -> string) returns (r: Result<int, Error>)
    modifies host`log, host`exitCode, host`launches, host`files
    ensures |old(host.launches)| <= |host.launches| <= |old(host.launches)| + 1
    ensures r.Success? ==> |host.launches| == |old(host.launches)| + 1
    ensures |host.launches| > |old(host.launches)| ==>
      host.launches[|old(host.launches)|].arguments == P.PreparedCommand(host, ElevatedRequest(name, value), encode).arguments
  {
    r := P.Start(host, ElevatedRequest(name, value), encode);
  }

  /** The store a direct write lands in, after the fallback from a User store that throws. */
  function StoreWritten(scope: Scope, isElevated: bool, userStoreFails: bool): Option<Scope> {
    if scope == MachineScope then (if isElevated then Some(MachineScope) else None)
    else if scope == UserScope && userStoreFails then (if isElevated then Some(MachineScope) else None)
    else Some(scope)
  }

  /**
   * Every direct write lands in the requested store, except a User write
   * that throws, which lands in the Machine store exactly when the process is
   * elevated; a process that is not elevated never writes the Machine store
   * directly.
   */
  lemma StoreWrittenMeaning(scope: Scope, isElevated: bool, userStoreFails: bool)
    ensures var w := StoreWritten(scope, isElevated, userStoreFails);
      (w == Some(MachineScope) ==> isElevated)
      && (w.Some? && w.value != scope ==> scope == UserScope && userStoreFails)
      && (w.None? <==> !isElevated && (scope == MachineScope || (scope == UserScope && userStoreFails)))
  {
  }

  function WriteFailed(message: string): Error {
    Error(RuntimeError, message)
  }

  /**
   * `End`, for the variable `name` set to `value` in `scope`. `failureMessage`
   * is the message of the exception a User write throws. Every path that does
   * not end in an error leaves the process variable equal to `value`.
   */
  method End(host: Host, name: string, value: NString, scope: Scope, failureMessage: string,
             encode: string -> string) returns (r: Result<(), Error>)
    modifies host`env, host`userEnv, host`machineEnv, host`log, host`exitCode, host`launches, host`files
    ensures var w := StoreWritten(scope, host.isElevated, host.userStoreFails);
      w.Some? ==>
        r == Success(())
        && host.userEnv == (if w == Some(UserScope) then Assign(old(host.userEnv), name, value) else old(host.userEnv))
        && host.machineEnv == (if w == Some(MachineScope) then Assign(old(host.machineEnv), name, value) else old(host.machineEnv))
        && host.launches == old(host.launches)
    ensures scope != MachineScope && StoreWritten(scope, host.isElevated, host.userStoreFails).None? ==>
      r == Failure(WriteFailed(failureMessage)) && host.env == old(host.env)
      && host.userEnv == old(host.userEnv) && host.machineEnv == old(host.machineEnv)
    ensures scope == MachineScope && !host.isElevated ==>
      host.userEnv == old(host.userEnv) && host.machineEnv == old(host.machineEnv)
      && |old(host.launches)| <= |host.launches| <= |old(host.launches)| + 1
      && (r.Success? ==> |host.launches| == |old(host.launches)| + 1)
      && (|host.launches| > |old(host.launches)| ==>
            host.launches[|old(host.launches)|].arguments == P.PreparedCommand(host, ElevatedRequest(name, value), encode).arguments)
    ensures r.Success? ==> host.env == Assign(old(host.env), name, value)
    ensures r.Failure? ==> host.env == old(host.env)
  {
    if scope == MachineScope {
      if host.isElevated {
        var ok := host.SetScopedVar(MachineScope, name, value);
      } else {
        var run := RunElevated(host, name, value, encode);
        if run.Failure? {
          return Failure(run.error);
        }
      }
    } else {
      var ok := host.SetScopedVar(scope, name, value);
      if !ok {
        if host.isElevated {
          ok := host.SetScopedVar(MachineScope, name, value);
        } else {
          return Failure(WriteFailed(failureMessage));
        }
      }
    }
    host.SetVar(name, value);
    r := Success(());
  }
}
