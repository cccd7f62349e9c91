/**
 * `ProxySettings.GetProxy`: the web proxy a download uses. An explicit proxy
 * configured through the `chocolateyProxy*` environment variables always wins;
 * otherwise the system proxy is used unless it bypasses the target address.
 * Either address is read as a URI, and one that does not parse fails the call;
 * so does an explicit bypass entry that is not a regular expression.
 */
module ProxySettings {
  import opened Wrappers
  import opened Text
  import opened Host
  import StringExtensions

  const ProxyLocation := "chocolateyProxyLocation"
  const ProxyUser := "chocolateyProxyUser"
  const ProxyPassword := "chocolateyProxyPassword"
  const ProxyBypassList := "chocolateyProxyBypassList"
  const ProxyBypassOnLocal := "chocolateyProxyBypassOnLocal"

  datatype Credentials =
    | DefaultCredentials
    /** Typed in at the host's credential prompt. */
    | PromptedCredentials
    | NetworkCredential(user: NString, password: seq<char>)

  /** `WebProxy`; `credentials` and `bypassList` are `None` when left unset. */
  datatype WebProxy = WebProxy(
    address: string,
    bypassOnLocal: bool,
    credentials: Option<Credentials>,
    bypassList: Option<seq<string>>)

  /** What `WebClient` reports about the system proxy for the target address. */
  datatype SystemProxy = NoSystemProxy | SystemProxy(authority: string, bypassed: bool)

  /** The chosen proxy (`None` is `null`) and the line written to the host. */
  datatype ProxyChoice = ProxyChoice(proxy: Option<WebProxy>, hostLine: Option<string>)

  /** What `new Uri` says of a text with a host: `None` when it parses, else the `UriFormatException` message. */
  type UriCheck = string -> Option<string>

  /** The text `WebProxy` hands to `Uri`: an address without a scheme separator is taken as `http`. */
  function ProxyUriText(address: string): string {
    if Contains(address, "://") then address else "http://" + address
  }

  /** An address without `://` is read as an `http` URI; one with it is read as it is. */
  lemma ProxyUriTextMeaning(address: string)
    ensures var t := ProxyUriText(address);
      Contains(t, "://")
      && (Contains(address, "://") ==> t == address)
      && (!Contains(address, "://") ==> StartsWith(t, "http://") && t[7..] == address)
  {
    if !Contains(address, "://") {
      ContainsPart("http", "://", address);
      assert "http" + "://" + address == "http://" + address;
    }
  }

  const EmptyHostMessage := "Invalid URI: The " + "hostname could not " + "be parsed."

  /**
   * How building a `WebProxy` on an address fails: a URI text that ends with
   * its scheme separator has no host, and any other text fails as `parseUri`
   * says.
   */
  function ProxyUriError(address: string, parseUri: UriCheck): Option<Error> {
    var text := ProxyUriText(address);
    if EndsWith(text, "://") then Some(Error(FormatError, EmptyHostMessage))
    else if parseUri(text).Some? then Some(Error(FormatError, parseUri(text).value))
    else None
  }

  /** What `new Regex` says of a bypass entry: `None` when it parses, else the `ArgumentException` message. */
  type RegexCheck = string -> Option<string>

  /** The position of the first entry `parseRegex` rejects, or `|entries|` when it accepts them all. */
  function FirstRejected(entries: seq<string>, parseRegex: RegexCheck): (k: nat)
    ensures k <= |entries|
    ensures forall j :: 0 <= j < k ==> parseRegex(entries[j]).None?
    ensures k < |entries| ==> parseRegex(entries[k]).Some?
  {
    if entries == [] then 0
    else if parseRegex(entries[0]).Some? then 0
    else 1 + FirstRejected(entries[1..], parseRegex)
  }

  /**
   * How assigning `WebProxy.BypassList` fails: the setter builds a `Regex` from
   * each entry in turn and rethrows the first `ArgumentException`. A blank
   * setting is never assigned.
   */
  function BypassError(env: map<string, string>, parseRegex: RegexCheck): Option<Error> {
    var bypass := Lookup(env, ProxyBypassList);
    if IsNullOrWhiteSpace(bypass) then None
    else
      var entries := SplitRemoveEmpty(bypass.value, ',');
      var k := FirstRejected(entries, parseRegex);
      if k < |entries| then Some(Error(ArgumentError, parseRegex(entries[k]).value)) else None
  }

  /**
   * The proxy built from the explicit settings, or the error its address raises,
   * or else the error its bypass list raises (the constructor runs first).
   */
  function ExplicitProxy(env: map<string, string>, location: string, parseUri: UriCheck,
                         parseRegex: RegexCheck): (r: Result<WebProxy, Error>)
    ensures r.Failure? <==> ProxyUriError(location, parseUri).Some? || BypassError(env, parseRegex).Some?
    ensures r.Failure? && ProxyUriError(location, parseUri).Some? ==> r.error == ProxyUriError(location, parseUri).value
    ensures r.Failure? && ProxyUriError(location, parseUri).None? ==> r.error == BypassError(env, parseRegex).value
    ensures r.Success? ==> r.value.address == ProxyUriText(location)
    ensures r.Success? ==> (r.value.bypassOnLocal <==> IsEqual(Some("true"), Lookup(env, ProxyBypassOnLocal)))
    ensures r.Success? ==> (r.value.credentials.Some? <==> !IsNullOrWhiteSpace(Lookup(env, ProxyPassword)))
    ensures r.Success? && r.value.credentials.Some? ==>
      r.value.credentials.value == NetworkCredential(Lookup(env, ProxyUser), Lookup(env, ProxyPassword).value)
    ensures r.Success? ==> (r.value.bypassList.Some? <==> !IsNullOrWhiteSpace(Lookup(env, ProxyBypassList)))
    ensures r.Success? && r.value.bypassList.Some? ==>
      r.value.bypassList.value == SplitRemoveEmpty(Lookup(env, ProxyBypassList).value, ',')
  {
    var password := Lookup(env, ProxyPassword);
    var bypass := Lookup(env, ProxyBypassList);
    var error := ProxyUriError(location, parseUri);
    if error.Some? then Failure(error.value)
    else if BypassError(env, parseRegex).Some? then Failure(BypassError(env, parseRegex).value)
    else
      Success(WebProxy(
        ProxyUriText(location),
        IsEqual(Some("true"), Lookup(env, ProxyBypassOnLocal)),
        if !IsNullOrWhiteSpace(password)
        then Some(NetworkCredential(Lookup(env, ProxyUser), StringExtensions.SecureCopy(password)))
        else None,
        if !IsNullOrWhiteSpace(bypass) then Some(SplitRemoveEmpty(bypass.value, ',')) else None))
  }

  /**
   * `GetProxy`; building a proxy on an address `Uri` rejects, or an explicit
   * bypass entry `Regex` rejects, fails the call.
   */
  function GetProxy(env: map<string, string>, system: SystemProxy, haveDefaultCredentials: bool,
                    parseUri: UriCheck, parseRegex: RegexCheck): (r: Result<ProxyChoice, Error>)
    ensures ProxyLocation in env ==>
      var explicit := ExplicitProxy(env, env[ProxyLocation], parseUri, parseRegex);
      (r.Failure? <==> explicit.Failure?)
      && (r.Failure? ==> r.error == explicit.error)
      && (r.Success? ==> r.value.proxy == Some(explicit.value))
    ensures ProxyLocation !in env ==>
      var used := system.SystemProxy? && !system.bypassed;
      (r.Failure? <==> used && ProxyUriError(system.authority, parseUri).Some?)
      && (r.Success? ==> (r.value.proxy.Some? <==> used))
    ensures ProxyLocation !in env && r.Success? && r.value.proxy.Some? ==>
      var proxy := r.value.proxy.value;
      proxy.address == ProxyUriText(system.authority) && proxy.bypassOnLocal && proxy.bypassList.None?
    ensures r.Success? ==> (r.value.hostLine.Some? <==> r.value.proxy.Some?)
  {
    var location := Lookup(env, ProxyLocation);
    if location.Some? then
      match ExplicitProxy(env, location.value, parseUri, parseRegex)
      case Failure(e) => Failure(e)
      case Success(proxy) =>
        Success(ProxyChoice(Some(proxy), Some("Using explicit proxy server '" + location.value + "'.")))
    else if system.SystemProxy? && !system.bypassed then
      var credentials := if haveDefaultCredentials then DefaultCredentials else PromptedCredentials;
      match ProxyUriError(system.authority, parseUri)
      case Some(e) => Failure(e)
      case None =>
        Success(ProxyChoice(Some(WebProxy(ProxyUriText(system.authority), true, Some(credentials), None)),
                            Some("Using system proxy server '" + system.authority + "'.")))
    else Success(ProxyChoice(None, None))
  }

  /**
   * An explicit proxy set to the empty string is read as `http://`, which has
   * no host, so the call fails whatever the system proxy is.
   */
  lemma EmptyExplicitProxyFails(env: map<string, string>, system: SystemProxy, haveDefaultCredentials: bool,
                                parseUri: UriCheck, parseRegex: RegexCheck)
    requires Lookup(env, ProxyLocation) == Some("")
    ensures GetProxy(env, system, haveDefaultCredentials, parseUri, parseRegex) == Failure(Error(FormatError, EmptyHostMessage))
  {
    assert !Contains("", "://");
    assert ProxyUriText("") == "http://";
    assert EndsWith("http://", "://");
  }

  /**
   * The explicit bypass list holds only non-empty entries without commas, and put
   * back together they are the configured list with its commas removed.
   */
  lemma BypassListEntries(env: map<string, string>, location: string, parseUri: UriCheck, parseRegex: RegexCheck)
    requires !IsNullOrWhiteSpace(Lookup(env, ProxyBypassList)) && ProxyUriError(location, parseUri).None?
    requires BypassError(env, parseRegex).None?
    ensures var list := ExplicitProxy(env, location, parseUri, parseRegex).value.bypassList.value;
      (forall i :: 0 <= i < |list| ==> list[i] != "" && ',' !in list[i])
      && Concat(list) == ReplaceAll(env[ProxyBypassList], [','], "")
  {
    SplitRemoveEmptyConcat(env[ProxyBypassList], ',');
  }

  /** The proxy password reaches the credentials character for character. */
  lemma CredentialsCarryPassword(env: map<string, string>, location: string, parseUri: UriCheck,
                                 parseRegex: RegexCheck)
    requires !IsNullOrWhiteSpace(Lookup(env, ProxyPassword)) && ProxyUriError(location, parseUri).None?
    requires BypassError(env, parseRegex).None?
    ensures ExplicitProxy(env, location, parseUri, parseRegex).value.credentials.value.password == env[ProxyPassword]
  {
  }

  /**
   * A bypass entry `Regex` rejects fails an explicit proxy whose address parses,
   * and the error is that of the first such entry: "*.local" is rejected, so a
   * bypass list of "intranet,*.local" fails with its message.
   */
  lemma {:induction false} RejectedBypassEntryFails(env: map<string, string>, location: string, parseUri: UriCheck,
                                                   parseRegex: RegexCheck, i: nat)
    requires ProxyUriError(location, parseUri).None? && !IsNullOrWhiteSpace(Lookup(env, ProxyBypassList))
    requires var entries := SplitRemoveEmpty(env[ProxyBypassList], ',');
      i < |entries| && parseRegex(entries[i]).Some? && forall j :: 0 <= j < i ==> parseRegex(entries[j]).None?
    ensures ExplicitProxy(env, location, parseUri, parseRegex)
      == Failure(Error(ArgumentError, parseRegex(SplitRemoveEmpty(env[ProxyBypassList], ',')[i]).value))
  {
    FirstRejectedIsFirst(SplitRemoveEmpty(env[ProxyBypassList], ','), parseRegex, i);
  }

  /** The first rejected position is the one before which every entry is accepted. */
  lemma {:induction false} FirstRejectedIsFirst(entries: seq<string>, parseRegex: RegexCheck, i: nat)
    requires i < |entries| && parseRegex(entries[i]).Some?
    requires forall j :: 0 <= j < i ==> parseRegex(entries[j]).None?
    ensures FirstRejected(entries, parseRegex) == i
  {
    if i > 0 {
      assert parseRegex(entries[0]).None?;
      assert forall j :: 0 <= j < i - 1 ==> entries[1..][j] == entries[j + 1];
      FirstRejectedIsFirst(entries[1..], parseRegex, i - 1);
    }
  }
}
