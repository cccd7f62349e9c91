/**
 * The world a Chocolatey cmdlet acts on: the process, User and Machine
 * environment stores, the file system, the package exit code, the host's
 * output streams and the processes it launches. Facts the cmdlets only
 * observe (bitness, elevation, what a launched process does) are fixed
 * when the host is created.
 */
module Host {
  import opened Wrappers
  import opened Text

  datatype ErrorKind = RuntimeError | ArgumentError | FileNotFound | InvalidOperation | NullReference | XmlError | FormatError
                  | InvalidCast

  /** A terminating error or a thrown exception, with its message. */
  datatype Error = Error(kind: ErrorKind, message: string)

  /** What a cmdlet writes to the host: warnings, debug lines and `Write-Host` lines. */
  datatype LogEntry = Warning(text: string) | Debug(text: string) | HostLine(text: string)

  datatype WindowStyle = Normal | Minimized | Hidden

  /** `EnvironmentVariableTarget`. */
  datatype Scope = ProcessScope | UserScope | MachineScope

  /** One request to start a process, as the process handler receives it. */
  datatype Launch = Launch(
    fileName: string,
    workingDirectory: NString,
    arguments: NString,
    elevated: bool,
    windowStyle: WindowStyle,
    noNewWindow: bool)

  /** A variable's value in an environment store; `null` when it is not set. */
  function Lookup(store: map<string, string>, name: string): NString {
    if name in store then Some(store[name]) else None
  }

  /** `Environment.SetEnvironmentVariable`: a null or empty value deletes the variable. */
  function Assign(store: map<string, string>, name: string, value: NString): (r: map<string, string>)
    ensures Lookup(r, name) == (if IsNullOrEmpty(value) then None else value)
    ensures forall n :: n != name ==> Lookup(r, n) == Lookup(store, n)
  {
    if IsNullOrEmpty(value) then store - {name} else store[name := value.value]
  }

  class Host {
    /** `Environment.Is64BitProcess`. */
    const is64Bit: bool
    /** `ProcessInformation.IsElevated()`. */
    const isElevated: bool
    /** Whether a write to the User store throws (for instance a locked-down registry). */
    const userStoreFails: bool
    /** The PowerShell current location; `null` or "" when it cannot be used. */
    const currentDirectory: NString
    /** `PSHelper.GetInstallLocation`. */
    const installLocation: string
    /** `PSHelper.GetPowerShellLocation`. */
    const powerShellLocation: string
    /** `Environment.GetFolderPath(SpecialFolder.System)`. */
    const systemFolder: string
    /** The exit code a launched process ends with. */
    const exitCodeOf: Launch -> int
    /** The lines a launched process writes to its output (a `null` line ends the stream). */
    const outputOf: Launch -> seq<NString>
    /** The files a launched process leaves behind, with their contents. */
    const producedBy: Launch -> map<string, string>

    /** The process environment. */
    var env: map<string, string>
    var userEnv: map<string, string>
    var machineEnv: map<string, string>
    /** Existing files and their contents. */
    var files: map<string, string>
    var dirs: set<string>
    /** The package exit code (`PSHelper.SetExitCode`). */
    var exitCode: int
    var log: seq<LogEntry>
    var launches: seq<Launch>

    constructor (is64Bit: bool, isElevated: bool, userStoreFails: bool, currentDirectory: NString,
                 installLocation: string, powerShellLocation: string, systemFolder: string,
                 exitCodeOf: Launch -> int, outputOf: Launch -> seq<NString>,
                 producedBy: Launch -> map<string, string>, env: map<string, string>)
      ensures this.is64Bit == is64Bit && this.isElevated == isElevated
      ensures this.userStoreFails == userStoreFails && this.currentDirectory == currentDirectory
      ensures this.installLocation == installLocation && this.powerShellLocation == powerShellLocation
      ensures this.systemFolder == systemFolder
      ensures this.exitCodeOf == exitCodeOf && this.outputOf == outputOf && this.producedBy == producedBy
      ensures this.env == env && userEnv == map[] && machineEnv == map[]
      ensures files == map[] && dirs == {} && exitCode == 0 && log == [] && launches == []
    {
      this.is64Bit := is64Bit;
      this.isElevated := isElevated;
      this.userStoreFails := userStoreFails;
      this.currentDirectory := currentDirectory;
      this.installLocation := installLocation;
      this.powerShellLocation := powerShellLocation;
      this.systemFolder := systemFolder;
      this.exitCodeOf := exitCodeOf;
      this.outputOf := outputOf;
      this.producedBy := producedBy;
      this.env := env;
      userEnv := map[];
      machineEnv := map[];
      files := map[];
      dirs := {};
      exitCode := 0;
      log := [];
      launches := [];
    }

    /** `EnvironmentHelper.GetVariable(name)`, process scope. */
    function Var(name: string): NString
      reads this`env
    {
      Lookup(env, name)
    }

    /**
     * `PSHelper.IsEqual` of `ChocolateyForceX86` and "true": x86 is forced,
     * whatever the letter case (see `ForcesX86IsEqual`).
     */
    predicate ForcesX86()
      reads this`env
    {
      var v := Var("ChocolateyForceX86");
      v.Some? && ToLower(v.value) == "true"
    }

    /** `PSHelper.ItemExists`: a file or a directory at `path`. */
    predicate ItemExists(path: string)
      reads this`files, this`dirs
    {
      path in files || path in dirs
    }

    method Warn(text: string)
      modifies this`log
      ensures log == old(log) + [Warning(text)]
    {
      log := log + [Warning(text)];
    }

    method WriteDebug(text: string)
      modifies this`log
      ensures log == old(log) + [Debug(text)]
    {
      log := log + [Debug(text)];
    }

    method WriteHost(text: string)
      modifies this`log
      ensures log == old(log) + [HostLine(text)]
    {
      log := log + [HostLine(text)];
    }

    method SetExitCode(code: int)
      modifies this`exitCode
      ensures exitCode == code
    {
      exitCode := code;
    }

    /** `EnvironmentHelper.SetVariable(name, value)`, process scope. */
    method SetVar(name: string, value: NString)
      modifies this`env
      ensures env == Assign(old(env), name, value)
    {
      env := Assign(env, name, value);
    }

    /**
     * `EnvironmentHelper.SetVariable(cmdlet, name, scope, value)`: `false` when the
     * write throws, which is a User write when the User store is locked, or a Machine
     * write from a process that is not elevated. Writing the User or Machine store
     * leaves the process environment as it was.
     */
    method SetScopedVar(scope: Scope, name: string, value: NString) returns (ok: bool)
      modifies this`env, this`userEnv, this`machineEnv
      ensures ok <==> !((scope == UserScope && userStoreFails) || (scope == MachineScope && !isElevated))
      ensures userEnv == (if ok && scope == UserScope then Assign(old(userEnv), name, value) else old(userEnv))
      ensures machineEnv == (if ok && scope == MachineScope then Assign(old(machineEnv), name, value) else old(machineEnv))
      ensures env == (if ok && scope == ProcessScope then Assign(old(env), name, value) else old(env))
    {
      ok := !((scope == UserScope && userStoreFails) || (scope == MachineScope && !isElevated));
      if ok {
        match scope {
          case UserScope => userEnv := Assign(userEnv, name, value);
          case MachineScope => machineEnv := Assign(machineEnv, name, value);
          case ProcessScope => env := Assign(env, name, value);
        }
      }
    }

    /** `PSHelper.EnsureDirectoryExists` / `New-Item -ItemType Directory`. */
    method CreateDirectory(path: string)
      modifies this`dirs
      ensures dirs == old(dirs) + {path}
    {
      dirs := dirs + {path};
    }

    /** `Set-Content` / `File.WriteAllText`: the file exists afterwards, holding `content`. */
    method WriteFile(path: string, content: string)
      modifies this`files
      ensures files == old(files)[path := content]
    {
      files := files[path := content];
    }

    /** `Remove-Item`: no file at `path` afterwards. */
    method RemoveFile(path: string)
      modifies this`files
      ensures files == old(files) - {path}
    {
      files := files - {path};
    }

    /**
     * Starts a process and waits for it: the launch is recorded, the files the
     * process writes appear, and its exit code is returned.
     */
    method StartProcess(l: Launch) returns (code: int)
      modifies this`launches, this`files
      ensures launches == old(launches) + [l]
      ensures files == old(files) + producedBy(l)
      ensures code == exitCodeOf(l)
    {
      launches := launches + [l];
      files := files + producedBy(l);
      code := exitCodeOf(l);
    }
  }

  /** `ForcesX86` is the null-aware, case-insensitive comparison with "true". */
  lemma ForcesX86IsEqual(host: Host)
    ensures host.ForcesX86() <==> IsEqual(host.Var("ChocolateyForceX86"), Some("true"))
  {
    var v := host.Var("ChocolateyForceX86");
    if v.Some? {
      IsEqualLowerText(v.value, "true");
    }
  }
}
