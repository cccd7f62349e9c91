/**
 * `ChocolateyCmdlet`, the base class of every Chocolatey cmdlet: the debug lines
 * that record a call and its completion (with sensitive values redacted), the
 * warning for deprecated command names, the canonical error identifier, and the
 * order in which the begin and end blocks run.
 */
module ChocolateyCmdlet {
  import opened Wrappers
  import opened Text
  import opened Host

  /** A bound parameter's value: a list, or any other object seen through its string conversion. */
  datatype ParameterValue = ListValue(items: seq<string>) | ScalarValue(asString: NString)

  /** One entry of `MyInvocation.BoundParameters`, in binding order. */
  datatype BoundParameter = BoundParameter(key: string, value: ParameterValue)

  /** What a cmdlet was called as and with. */
  datatype Invocation = Invocation(invocationName: string, boundParameters: seq<BoundParameter>, logging: bool)

  /** `-IgnoredArguments`, in any case, is left out of the call message. */
  predicate IsIgnored(key: string) {
    ToLower(key) == "ignoredarguments"
  }

  /** Parameters whose values are never written: `-SensitiveStatements` and `-Password`, in any case. */
  predicate IsSensitive(key: string) {
    ToLower(key) == "sensitivestatements" || ToLower(key) == "password"
  }

  function RenderValue(p: BoundParameter): string {
    if IsSensitive(p.key) then "[REDACTED]"
    else match p.value
      case ListValue(items) => Join(" ", items)
      case ScalarValue(s) => OrEmpty(s)
  }

  /** The text one parameter adds to the call message. */
  function Fragment(p: BoundParameter): (r: string)
    ensures IsSensitive(p.key) ==> r == " -" + p.key + " '[REDACTED]'"
  {
    " -" + p.key + " '" + RenderValue(p) + "'"
  }

  /** What one parameter contributes: nothing when it is ignored, its fragment otherwise. */
  function Contribution(p: BoundParameter): string {
    if IsIgnored(p.key) then "" else Fragment(p)
  }

  /** The fragments of all parameters that are not ignored, in order. */
  function Fragments(ps: seq<BoundParameter>): string {
    ConcatMap(ps, Contribution)
  }

  /** The call message: "Running", the invocation name, then each parameter as ` -Key 'value'`. */
  function CallMessage(inv: Invocation): string {
    "Running " + inv.invocationName + Fragments(inv.boundParameters)
  }

  /** The loop of `WriteCmdletCallDebugMessage` that builds the message in a `StringBuilder`. */
  method BuildCallMessage(inv: Invocation) returns (message: string)
    ensures message == CallMessage(inv)
  {
    var head := "Running " + inv.invocationName;
    message := head;
    var ps := inv.boundParameters;
    var i := 0;
    while i < |ps|
      invariant 0 <= i <= |ps|
      invariant message == head + Fragments(ps[..i])
    {
      ConcatMapSnoc(ps[..i], Contribution, ps[i]);
      assert ps[..i + 1] == ps[..i] + [ps[i]];
      AppendRegroup(head, Fragments(ps[..i]), Contribution(ps[i]));
      if !IsIgnored(ps[i].key) {
        message := message + Fragment(ps[i]);
      } else {
        assert Contribution(ps[i]) == "";
      }
      i := i + 1;
    }
    assert ps[..|ps|] == ps;
  }

  /** Two parameter lists that differ at most in their sensitive values. */
  predicate SameButSecrets(a: seq<BoundParameter>, b: seq<BoundParameter>) {
    |a| == |b| && forall i :: 0 <= i < |a| ==> a[i].key == b[i].key && (IsSensitive(a[i].key) || a[i].value == b[i].value)
  }

  /**
   * Redaction: the call message does not depend on the values of sensitive
   * parameters, so no password or sensitive statement can reach the log.
   */
  lemma {:induction false} MessageIgnoresSecrets(a: seq<BoundParameter>, b: seq<BoundParameter>)
    requires SameButSecrets(a, b)
    ensures Fragments(a) == Fragments(b)
  {
    if a != [] {
      assert SameButSecrets(a[1..], b[1..]);
      MessageIgnoresSecrets(a[1..], b[1..]);
      assert Contribution(a[0]) == Contribution(b[0]);
    }
  }

  function WithoutIgnored(ps: seq<BoundParameter>): (r: seq<BoundParameter>)
    ensures forall i :: 0 <= i < |r| ==> !IsIgnored(r[i].key)
  {
    if ps == [] then []
    else if IsIgnored(ps[0].key) then WithoutIgnored(ps[1..])
    else [ps[0]] + WithoutIgnored(ps[1..])
  }

  /** Leaving out the ignored arguments before building the message changes nothing. */
  lemma {:induction false} IgnoredArgumentsNeverShow(ps: seq<BoundParameter>)
    ensures Fragments(WithoutIgnored(ps)) == Fragments(ps)
  {
    if ps != [] {
      IgnoredArgumentsNeverShow(ps[1..]);
      if !IsIgnored(ps[0].key) {
        assert ([ps[0]] + WithoutIgnored(ps[1..]))[1..] == WithoutIgnored(ps[1..]);
      }
    }
  }

  /** Each parameter that is not ignored appears in the message with its own key. */
  lemma ParameterAppearsInMessage(inv: Invocation, i: nat)
    requires i < |inv.boundParameters| && !IsIgnored(inv.boundParameters[i].key)
    ensures Contains(CallMessage(inv), Fragment(inv.boundParameters[i]))
  {
    var ps := inv.boundParameters;
    ConcatMapSplit(ps, Contribution, i);
    var head, before, f, after := "Running " + inv.invocationName, Fragments(ps[..i]), Fragment(ps[i]), Fragments(ps[i + 1..]);
    assert Contribution(ps[i]) == f;
    ContainsPart(before, f, after);
    ContainsPrepend(head, before + f + after, f);
  }

  /** The completion message. */
  function CompletionMessage(inv: Invocation): string {
    "Finishing '" + inv.invocationName + "'"
  }

  /**
   * The deprecated command names and their replacements (compared ignoring case);
   * an empty replacement means the command is going away. The shipped table is empty.
   */
  const DeprecatedCommandNames: seq<(string, string)> := []

  /** The replacement listed for `name`, if the name is deprecated. */
  function FindReplacement(table: seq<(string, string)>, name: string): (r: Option<string>)
    ensures r.None? <==> forall i :: 0 <= i < |table| ==> !EqualsIgnoreCase(table[i].0, name)
    ensures r.Some? ==> exists i :: 0 <= i < |table| && EqualsIgnoreCase(table[i].0, name) && table[i].1 == r.value
  {
    if table == [] then None
    else if EqualsIgnoreCase(table[0].0, name) then Some(table[0].1)
    else
      var r := FindReplacement(table[1..], name);
      assert r.Some? ==> exists i :: 0 <= i < |table| && EqualsIgnoreCase(table[i].0, name) && table[i].1 == r.value by {
        if r.Some? {
          var i :| 0 <= i < |table[1..]| && EqualsIgnoreCase(table[1..][i].0, name) && table[1..][i].1 == r.value;
          assert table[i + 1] == table[1..][i];
        }
      }
      r
  }

  const WillBeRemoved := "is deprecated and will be removed in a future version"
  const UseSuffix := " to ensure compatibility with future versions of Chocolatey."

  /** `WriteWarningForDeprecatedCommands`: the warning for a deprecated name, if any. */
  function DeprecationWarning(table: seq<(string, string)>, name: string): (r: Option<string>)
    ensures r.Some? <==> FindReplacement(table, name).Some?
    ensures r.Some? && FindReplacement(table, name).value == "" ==>
      Contains(r.value, WillBeRemoved)
    ensures r.Some? && FindReplacement(table, name).value != "" ==>
      Contains(r.value, "Use '" + FindReplacement(table, name).value + "'")
  {
    match FindReplacement(table, name)
    case None => None
    case Some(replacement) =>
      if replacement == "" then
        var w := "The command '" + name + "' " + WillBeRemoved;
        ContainsPart("The command '" + name + "' ", WillBeRemoved, "");
        assert w == "The command '" + name + "' " + WillBeRemoved + "";
        Some(w)
      else
        var use := "Use '" + replacement + "'";
        var w := "The '" + name + "' alias " + WillBeRemoved + ". " + use + UseSuffix;
        ContainsPart("The '" + name + "' alias " + WillBeRemoved + ". ", use, UseSuffix);
        Some(w)
  }

  /** With the shipped table no command name warns. */
  lemma NoDeprecationsShipped(name: string)
    ensures DeprecationWarning(DeprecatedCommandNames, name).None?
  {
  }

  /** `ErrorId`: the cmdlet type's name followed by "Error". */
  function ErrorId(typeName: string): (r: string)
    ensures EndsWith(r, "Error") && |r| == |typeName| + 5
  {
    typeName + "Error"
  }

  /** Different cmdlet types have different error identifiers. */
  lemma ErrorIdInjective(a: string, b: string)
    requires ErrorId(a) == ErrorId(b)
    ensures a == b
  {
    assert a == ErrorId(a)[..|a|];
    assert b == ErrorId(b)[..|b|];
  }

  /** The host entries `BeginProcessing` writes before the cmdlet's own begin block. */
  function BeginEntries(table: seq<(string, string)>, inv: Invocation): seq<LogEntry> {
    (match DeprecationWarning(table, inv.invocationName)
     case Some(w) => [Warning(w)]
     case None => [])
    + (if inv.logging then [Debug(CallMessage(inv))] else [])
  }

  /**
   * `BeginProcessing`: the deprecation warning (looked up in `table`, which is
   * `DeprecatedCommandNames` in the shipped cmdlets), then the call message, then
   * the cmdlet's own begin block, whose output is `begin`.
   */
  method BeginProcessing(host: Host, table: seq<(string, string)>, inv: Invocation, begin: seq<LogEntry>)
    modifies host`log
    ensures host.log == old(host.log) + BeginEntries(table, inv) + begin
  {
    var warning := DeprecationWarning(table, inv.invocationName);
    if warning.Some? {
      host.Warn(warning.value);
    }
    if inv.logging {
      var message := BuildCallMessage(inv);
      host.WriteDebug(message);
    }
    host.log := host.log + begin;
  }

  /** `EndProcessing`: the cmdlet's own end block (output `end`), then the completion message. */
  method EndProcessing(host: Host, inv: Invocation, end: seq<LogEntry>)
    modifies host`log
    ensures host.log == old(host.log) + end + (if inv.logging then [Debug(CompletionMessage(inv))] else [])
  {
    host.log := host.log + end;
    if inv.logging {
      host.WriteDebug(CompletionMessage(inv));
    }
  }

  /** With logging off, beginning writes nothing of its own. */
  lemma QuietWhenNotLogging(inv: Invocation)
    requires !inv.logging
    ensures BeginEntries(DeprecatedCommandNames, inv) == []
  {
    NoDeprecationsShipped(inv.invocationName);
  }
}
