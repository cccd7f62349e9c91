/**
 * `WebHelper.GetChocolateyWebFile` and its helpers: which URL, checksum and
 * checksum type a package download uses (environment overrides, slash
 * clean-up, the 32/64-bit choice, forced x86, the HTTPS upgrade), whether a
 * cached file is reused, how the file is fetched, and how the result is
 * validated; with the request time-outs, the routing of custom request
 * headers and the text content-type check of `GetWebFile`.
 */
module WebHelper {
  import opened Wrappers
  import opened Text
  import opened Paths
  import opened Host

  /** `ChecksumType`, which is not part of this model, taken as the four algorithms Chocolatey accepts. */
  datatype ChecksumType = Md5 | Sha1 | Sha256 | Sha512

  // ---------------------------------------------------------------------------
  // Resolution of the URL, checksum and checksum type
  // ---------------------------------------------------------------------------

  /** The environment settings the resolution reads; a type override is the result of `Enum.TryParse`. */
  datatype Overrides = Overrides(
    url: NString,
    url64: NString,
    checksum32: NString,
    checksumType32: Option<ChecksumType>,
    checksum64: NString,
    checksumType64: Option<ChecksumType>,
    forceX86: bool)

  /** The settings from the process environment; `parseType` is `Enum.TryParse<ChecksumType>`. */
  function ReadOverrides(env: map<string, string>, parseType: string -> Option<ChecksumType>): Overrides {
    var type32 := Lookup(env, "ChocolateyChecksumType32");
    var type64 := Lookup(env, "ChocolateyChecksumType64");
    var force := Lookup(env, "ChocolateyForceX86");
    Overrides(
      Lookup(env, "ChocolateyUrlOverride"),
      Lookup(env, "ChocolateyUrl64BitOverride"),
      Lookup(env, "ChocolateyChecksum32"),
      if type32.Some? then parseType(type32.value) else None,
      Lookup(env, "ChocolateyChecksum64"),
      if type64.Some? then parseType(type64.value) else None,
      force.Some? && ToLower(force.value) == "true")
  }

  /** What the caller passes: both URLs, both checksums and both checksum types. */
  datatype Request = Request(
    url: NString,
    url64: NString,
    checksum: NString,
    checksumType: Option<ChecksumType>,
    checksum64: NString,
    checksumType64: Option<ChecksumType>)

  /** A setting that is not blank replaces the caller's value. */
  function Override(value: NString, setting: NString): NString {
    if IsNullOrWhiteSpace(setting) then value else setting
  }

  /** `Replace("//", "/").Replace(":/", "://")` on a URL that is not blank. */
  function NormalizeSlashes(url: NString): NString {
    if IsNullOrWhiteSpace(url) then url
    else Some(ReplaceAll(ReplaceAll(url.value, "//", "/"), ":/", "://"))
  }

  /** A blank URL, and one with neither "//" nor ":/", is left as it is. */
  lemma NormalizeSlashesKeepsClean(url: NString)
    requires url.Some? ==> !Contains(url.value, "//") && !Contains(url.value, ":/")
    ensures NormalizeSlashes(url) == url
  {
    if !IsNullOrWhiteSpace(url) {
      ReplaceAllAbsent(url.value, "//", "/");
      ReplaceAllAbsent(url.value, ":/", "://");
    }
  }

  /**
   * A doubled slash after the host is collapsed while the scheme's "://"
   * survives: `scheme://host//path` becomes `scheme://host/path` (for
   * instance "http://h//a" becomes "http://h/a").
   */
  lemma NormalizeSlashesCollapses(scheme: string, host: string, path: string)
    requires '/' !in scheme && ':' !in scheme && '/' !in host && ':' !in host && '/' !in path && ':' !in path
    ensures NormalizeSlashes(Some(scheme + "://" + host + "//" + path)) == Some(scheme + "://" + host + "/" + path)
  {
    var d, sl, c, cs := "//", "/", ":/", "://";
    var url := scheme + "://" + host + "//" + path;
    assert url[|scheme|] == ':';
    assert url == (scheme + ":") + (d + (host + (d + path)));
    ReplaceAllSkip(scheme + ":", d + (host + (d + path)), d, sl);
    ReplaceAllHead(host + (d + path), d, sl);
    ReplaceAllSkip(host, d + path, d, sl);
    ReplaceAllHead(path, d, sl);
    ReplaceAllSkip(path, "", d, sl);
    assert path + "" == path;
    var once := scheme + (c + (host + (sl + path)));
    assert ReplaceAll(url, d, sl) == once;
    ReplaceAllSkip(scheme, c + (host + (sl + path)), c, cs);
    ReplaceAllHead(host + (sl + path), c, cs);
    ReplaceAllSkip(host, sl + path, c, cs);
    ReplaceAllSkip(sl, path, c, cs);
    ReplaceAllSkip(path, "", c, cs);
    var twice := scheme + (cs + (host + (sl + path)));
    assert ReplaceAll(once, c, cs) == twice;
    assert !IsWhiteSpace(url[|scheme|]);
    assert !IsNullOrWhiteSpace(Some(url));
    Regroup(scheme, cs, host, sl, path);
  }

  lemma Regroup(a: string, b: string, c: string, d: string, e: string)
    ensures a + b + c + d + e == a + (b + (c + (d + e)))
  {
  }

  /** The caller's request after the environment overrides and the slash clean-up. */
  function Effective(req: Request, ov: Overrides): Request {
    Request(
      NormalizeSlashes(Override(req.url, ov.url)),
      NormalizeSlashes(Override(req.url64, ov.url64)),
      Override(req.checksum, ov.checksum32),
      if ov.checksumType32.Some? then ov.checksumType32 else req.checksumType,
      Override(req.checksum64, ov.checksum64),
      if ov.checksumType64.Some? then ov.checksumType64 else req.checksumType64)
  }

  /**
   * An environment override that is set wins over whatever the caller
   * passed, field by field; one that is not set leaves the caller's value.
   */
  lemma EffectiveMeaning(req: Request, req2: Request, ov: Overrides)
    ensures var e, e2 := Effective(req, ov), Effective(req2, ov);
      (!IsNullOrWhiteSpace(ov.url) ==> e.url == e2.url)
      && (IsNullOrWhiteSpace(ov.url) ==> e.url == NormalizeSlashes(req.url))
      && (!IsNullOrWhiteSpace(ov.url64) ==> e.url64 == e2.url64)
      && (IsNullOrWhiteSpace(ov.url64) ==> e.url64 == NormalizeSlashes(req.url64))
      && (!IsNullOrWhiteSpace(ov.checksum32) ==> e.checksum == e2.checksum)
      && (IsNullOrWhiteSpace(ov.checksum32) ==> e.checksum == req.checksum)
      && (ov.checksumType32.Some? ==> e.checksumType == e2.checksumType)
      && (ov.checksumType32.None? ==> e.checksumType == req.checksumType)
      && (!IsNullOrWhiteSpace(ov.checksum64) ==> e.checksum64 == e2.checksum64)
      && (IsNullOrWhiteSpace(ov.checksum64) ==> e.checksum64 == req.checksum64)
      && (ov.checksumType64.Some? ==> e.checksumType64 == e2.checksumType64)
      && (ov.checksumType64.None? ==> e.checksumType64 == req.checksumType64)
  {
  }

  /** What the download uses: the URL, its checksum and type, and the bitness named in messages. */
  datatype Resolved = Resolved(url: string, checksum: NString, checksumType: Option<ChecksumType>, bitPackage: string)

  function ArchitectureError(architecture: string): Error {
    Error(RuntimeError, "This package " + "does not support " + architecture + " architecture.")
  }

  /**
   * The 32/64-bit choice on the effective request, step by step as the
   * source reassigns its locals.
   */
  function Select(e: Request, is64Bit: bool, forceX86: bool): Result<Resolved, Error> {
    var distinct := !IsEqual(e.url, e.url64);
    var bit0 := if distinct && !IsNullOrWhiteSpace(e.url64) then "32 bit" else "";
    var use64 := is64Bit && !IsNullOrWhiteSpace(e.url64);
    var bit1 := if use64 then "64 bit" else bit0;
    var url1 := if use64 then e.url64 else e.url;
    var checksum1 := if use64 && distinct then e.checksum64 else e.checksum;
    var type1 := if use64 && distinct && e.checksumType64.Some? then e.checksumType64 else e.checksumType;
    var bit := if forceX86 && distinct then "32 bit" else bit1;
    var url := if forceX86 then e.url else url1;
    var checksum := if forceX86 then e.checksum else checksum1;
    var checksumType := if forceX86 then e.checksumType else type1;
    if IsNullOrWhiteSpace(url) then Failure(ArchitectureError(if bit == "" then "32 bit" else bit))
    else Success(Resolved(url.value, checksum, checksumType, bit))
  }

  /**
   * The 64-bit URL is used exactly when the process is 64-bit, x86 is not
   * forced and there is a 64-bit URL; its checksum (and a type given for it)
   * only when the two URLs differ. Otherwise the 32-bit URL, checksum and
   * type are used. There is an error exactly when the URL used is blank, and
   * it always names the 32-bit architecture.
   */
  lemma SelectMeaning(e: Request, is64Bit: bool, forceX86: bool)
    ensures var r := Select(e, is64Bit, forceX86);
      var use64 := !forceX86 && is64Bit && !IsNullOrWhiteSpace(e.url64);
      var distinct := !IsEqual(e.url, e.url64);
      (r.Failure? <==> !use64 && IsNullOrWhiteSpace(e.url))
      && (r.Failure? ==> r.error == ArchitectureError("32 bit"))
      && (r.Success? && use64 ==>
            Some(r.value.url) == e.url64 && r.value.bitPackage == "64 bit"
            && r.value.checksum == (if distinct then e.checksum64 else e.checksum)
            && r.value.checksumType == (if distinct && e.checksumType64.Some? then e.checksumType64 else e.checksumType))
      && (r.Success? && !use64 ==>
            Some(r.value.url) == e.url && r.value.checksum == e.checksum && r.value.checksumType == e.checksumType)
  {
  }

  /** With x86 forced, the bitness of the process changes neither the outcome nor what is downloaded. */
  lemma ForceX86IgnoresBitness(e: Request)
    ensures var a, b := Select(e, true, true), Select(e, false, true);
      a.Success? == b.Success?
      && (a.Success? ==> a.value.url == b.value.url && a.value.checksum == b.value.checksum
                         && a.value.checksumType == b.value.checksumType)
  {
    SelectMeaning(e, true, true);
    SelectMeaning(e, false, true);
  }

  // ---------------------------------------------------------------------------
  // Response headers, the HTTPS upgrade and time-outs
  // ---------------------------------------------------------------------------

  /** How a header request ended: an exception, no response, or the response's headers. */
  datatype HeaderReply = HeadersThrew(message: string) | NoHeaderResponse | HeaderValues(pairs: seq<(string, NString)>)

  /** The response headers kept: those whose value is not blank. */
  function CollectHeaders(pairs: seq<(string, NString)>): map<string, string> {
    if pairs == [] then map[]
    else
      var rest := CollectHeaders(pairs[..|pairs| - 1]);
      var (name, value) := pairs[|pairs| - 1];
      if IsNullOrWhiteSpace(value) then rest else rest[name := value.value]
  }

  /** A header is kept exactly when some entry with that name has a value that is not blank. */
  lemma {:induction false} CollectHeadersMeaning(pairs: seq<(string, NString)>, name: string)
    ensures name in CollectHeaders(pairs)
        <==> exists i :: 0 <= i < |pairs| && pairs[i].0 == name && !IsNullOrWhiteSpace(pairs[i].1)
    ensures name in CollectHeaders(pairs) ==> !IsBlank(CollectHeaders(pairs)[name])
  {
    if pairs != [] {
      var init := pairs[..|pairs| - 1];
      CollectHeadersMeaning(init, name);
      if exists i :: 0 <= i < |init| && init[i].0 == name && !IsNullOrWhiteSpace(init[i].1) {
        var i :| 0 <= i < |init| && init[i].0 == name && !IsNullOrWhiteSpace(init[i].1);
        assert pairs[i] == init[i];
      }
      if exists i :: 0 <= i < |pairs| && pairs[i].0 == name && !IsNullOrWhiteSpace(pairs[i].1) {
        var i :| 0 <= i < |pairs| && pairs[i].0 == name && !IsNullOrWhiteSpace(pairs[i].1);
        if i < |init| {
          assert init[i] == pairs[i];
        }
      }
    }
  }

  /** The "remote file" error of a request that throws, with the line break its source writes before the message. */
  function ForbiddenError(url: string, lineBreak: string, message: string): Error {
    Error(RuntimeError, "The remote file " + "either doesn't " + "exist, is " + "unauthorized, or " + "is forbidden " + "for url '"
                        + url + "'. " + lineBreak + "  " + message)
  }

  /** The error of a header request that throws; the message follows `Environment.NewLine`. */
  function Forbidden(url: string, message: string): Error {
    ForbiddenError(url, NewLine, message)
  }

  /** The error of a download that throws; the message follows a literal line feed. */
  function DownloadForbidden(url: string, message: string): Error {
    ForbiddenError(url, "\n", message)
  }

  /** `GetWebHeaders`: an empty URL or no response gives no headers; an exception is an error. */
  function GetWebHeaders(url: NString, reply: HeaderReply): (r: Result<map<string, string>, Error>)
    ensures IsNullOrEmpty(url) || reply.NoHeaderResponse? ==> r == Success(map[])
    ensures r.Failure? <==> !IsNullOrEmpty(url) && reply.HeadersThrew?
  {
    if IsNullOrEmpty(url) then Success(map[])
    else match reply
      case HeadersThrew(message) => Failure(Forbidden(url.value, message))
      case NoHeaderResponse => Success(map[])
      case HeaderValues(pairs) => Success(CollectHeaders(pairs))
  }

  function NoResponseWarning(url: string): LogEntry {
    Warning("No response from " + "server at '" + url + "'.")
  }

  /** What `GetWebHeaders` writes to the host: a warning when a request is made and the server sends no response. */
  function HeadersLog(url: NString, reply: HeaderReply): seq<LogEntry> {
    if !IsNullOrEmpty(url) && reply.NoHeaderResponse? then [NoResponseWarning(url.value)] else []
  }

  /** `GetWebHeaders` on the host: the headers or the error, warning when there is no response. */
  method RequestHeaders(host: Host, url: NString, reply: HeaderReply) returns (r: Result<map<string, string>, Error>)
    modifies host`log
    ensures r == GetWebHeaders(url, reply)
    ensures host.log == old(host.log) + HeadersLog(url, reply)
  {
    r := GetWebHeaders(url, reply);
    if !IsNullOrEmpty(url) && reply.NoHeaderResponse? {
      host.Warn("No response from " + "server at '" + url.value + "'.");
    }
  }

  /** Whether the URL starts with `http://`, ignoring case. */
  predicate IsHttpUrl(url: string) {
    StartsWith(ToLower(url), "http://")
  }

  function HttpsUrl(url: string): string {
    ReplaceAll(url, "http://", "https://")
  }

  /** An `http://` URL is switched to `https://` when the probe of the HTTPS URL returns headers. */
  function UpgradeHttps(url: string, probe: Result<map<string, string>, Error>): string {
    if IsHttpUrl(url) && probe.Success? && |probe.value| != 0 then HttpsUrl(url) else url
  }

  /**
   * The upgrade keeps the URL or swaps in the HTTPS one; it changes nothing
   * when the probe throws or returns no headers, and a lower-case `http://`
   * URL whose probe answers becomes an `https://` URL.
   */
  lemma UpgradeHttpsMeaning(url: string, probe: Result<map<string, string>, Error>)
    ensures var r := UpgradeHttps(url, probe);
      (r == url || r == HttpsUrl(url))
      && (probe.Failure? || |probe.value| == 0 ==> r == url)
      && (StartsWith(url, "http://") && probe.Success? && |probe.value| != 0 ==> StartsWith(r, "https://"))
  {
    if StartsWith(url, "http://") {
      assert ToLower(url)[..7] == ToLower(url[..7]);
      ToLowerOfLower("http://");
      assert url[..|"http://"|] == "http://";
    }
  }

  /**
   * `ChocolateyRequestTimeout`: 30000 ms unless the setting is not blank and
   * parses to a positive number (`int.TryParse` leaves 0 when it fails).
   */
  function RequestTimeout(setting: NString): int {
    var parsed := ParseInt32(setting);
    if IsNullOrWhiteSpace(setting) || parsed.None? || parsed.value <= 0 then 30000 else parsed.value
  }

  /**
   * `ChocolateyResponseTimeout`: the read/write time-out, 300000 ms (also the
   * request's own default) unless the setting parses to a positive number.
   */
  function ReadWriteTimeout(setting: NString): int {
    var parsed := ParseInt32(setting);
    if IsNullOrWhiteSpace(setting) || parsed.None? || parsed.value <= 0 then 300000 else parsed.value
  }

  /**
   * Both time-outs are positive 32-bit values; a setting that does not parse
   * to a positive number gives the default, and a positive number given
   * without surrounding text is used as it is.
   */
  lemma TimeoutsMeaning(setting: NString, n: int)
    ensures 0 < RequestTimeout(setting) <= Int32Max && 0 < ReadWriteTimeout(setting) <= Int32Max
    ensures (ParseInt32(setting).None? || ParseInt32(setting).value <= 0) ==>
      RequestTimeout(setting) == 30000 && ReadWriteTimeout(setting) == 300000
    ensures 0 < n <= Int32Max ==>
      RequestTimeout(Some(IntToString(n))) == n && ReadWriteTimeout(Some(IntToString(n))) == n
  {
    if 0 < n <= Int32Max {
      var s := IntToString(n);
      ParseInt32OfIntToString(n);
      LeadingDigit(n);
      assert !IsWhiteSpace(s[0]);
    }
  }

  // ---------------------------------------------------------------------------
  // Custom request headers and the content-type check of `GetWebFile`
  // ---------------------------------------------------------------------------

  /** The request as `SetRequestFields` leaves it: the properties it sets and the headers it adds. */
  datatype RequestFields = RequestFields(
    accept: NString,
    referer: NString,
    cookies: seq<string>,
    userAgent: NString,
    headers: seq<(string, string)>)

  /** Keys with a property of their own, compared after `ToLower`. */
  predicate IsPropertyKey(key: string) {
    var k := ToLower(key);
    k == "accept" || k == "referer" || k == "cookie" || k == "useragent"
  }

  /** `SetRequestFields` for one entry. */
  function SetField(fields: RequestFields, key: string, value: string): RequestFields {
    var k := ToLower(key);
    if k == "accept" then fields.(accept := Some(value))
    else if k == "referer" then fields.(referer := Some(value))
    else if k == "cookie" then fields.(cookies := fields.cookies + [value])
    else if k == "useragent" then fields.(userAgent := Some(value))
    else fields.(headers := fields.headers + [(key, value)])
  }

  /** `SetRequestFields` over the entries in the order the table yields them. */
  function SetRequestFields(fields: RequestFields, entries: seq<(string, string)>): RequestFields
    decreases |entries|
  {
    if entries == [] then fields
    else SetRequestFields(SetField(fields, entries[0].0, entries[0].1), entries[1..])
  }

  /** The entries whose key has no property of its own, in order. */
  function PlainHeaders(entries: seq<(string, string)>): seq<(string, string)> {
    if entries == [] then []
    else (if IsPropertyKey(entries[0].0) then [] else [entries[0]]) + PlainHeaders(entries[1..])
  }

  /**
   * Every entry without a property of its own is added as a request header,
   * in order and with its key as given; entries with one never are, and an
   * entry with no property key leaves the properties alone.
   */
  lemma {:induction false} SetRequestFieldsHeaders(fields: RequestFields, entries: seq<(string, string)>)
    ensures SetRequestFields(fields, entries).headers == fields.headers + PlainHeaders(entries)
    ensures (forall i :: 0 <= i < |entries| ==> !IsPropertyKey(entries[i].0)) ==>
      var r := SetRequestFields(fields, entries);
      r.accept == fields.accept && r.referer == fields.referer && r.cookies == fields.cookies
      && r.userAgent == fields.userAgent
    decreases |entries|
  {
    if entries != [] {
      var next := SetField(fields, entries[0].0, entries[0].1);
      SetRequestFieldsHeaders(next, entries[1..]);
      assert forall i :: 1 <= i < |entries| ==> entries[1..][i - 1] == entries[i];
    }
  }

  /** The last `accept` entry, in any letter case, sets the Accept property. */
  lemma {:induction false} SetRequestFieldsLastAccept(fields: RequestFields, entries: seq<(string, string)>, value: string)
    requires entries != [] && ToLower(entries[|entries| - 1].0) == "accept" && entries[|entries| - 1].1 == value
    ensures SetRequestFields(fields, entries).accept == Some(value)
    decreases |entries|
  {
    if |entries| > 1 {
      SetRequestFieldsLastAccept(SetField(fields, entries[0].0, entries[0].1), entries[1..], value);
    }
  }

  /** `IsPlainTextOrHtml`: the content type mentions `text/html` or `text/plain`. */
  predicate IsPlainTextOrHtml(contentType: string) {
    Contains(contentType, "text/html") || Contains(contentType, "text/plain")
  }

  /** A content type with parameters around it is still recognised; a short one never is. */
  lemma IsPlainTextOrHtmlMeaning(before: string, after: string, contentType: string)
    ensures IsPlainTextOrHtml(before + "text/html" + after) && IsPlainTextOrHtml(before + "text/plain" + after)
    ensures |contentType| < 9 ==> !IsPlainTextOrHtml(contentType)
  {
    ContainsPart(before, "text/html", after);
    ContainsPart(before, "text/plain", after);
    if |contentType| < 9 {
      ContainsShorter(contentType, "text/html");
      ContainsShorter(contentType, "text/plain");
    }
  }

  /** A string shorter than the part cannot contain it. */
  lemma {:induction false} ContainsShorter(s: string, part: string)
    requires |s| < |part|
    ensures !Contains(s, part)
    decreases |s|
  {
    if s != [] {
      ContainsShorter(s[1..], part);
    }
  }

  // ---------------------------------------------------------------------------
  // Cache reuse and validation of the downloaded file
  // ---------------------------------------------------------------------------

  /**
   * `ChecksumValidator.AssertChecksumValid`, which is not part of this model:
   * for the file's content, the expected checksum, its type and the URL, the
   * error it throws, or `None` when the file passes. `ChecksumValidator.IsValid`
   * is taken to hold exactly when the assertion would not throw.
   */
  type ChecksumCheck = (string, NString, Option<ChecksumType>, string) -> Option<Error>

  /** The response has a `Content-Length` equal to `length`, compared as text with `IsEqual`. */
  predicate LengthMatches(headers: map<string, string>, length: nat) {
    "Content-Length" in headers && IsEqual(Some(IntToString(length)), Some(headers["Content-Length"]))
  }

  /** At most one length matches a response's `Content-Length`. */
  lemma LengthMatchesUnique(headers: map<string, string>, m: nat, n: nat)
    requires LengthMatches(headers, m) && LengthMatches(headers, n)
    ensures m == n
  {
    ToLowerOfLower(IntToString(m));
    ToLowerOfLower(IntToString(n));
    IntToStringInjective(m, n);
  }

  /**
   * The cache decision for an http(s) URL: `fileExists`, `cachedValid` and
   * `cachedLength` describe the file already at the download path (whether it
   * passes the package checksum, and its length).
   */
  predicate NeedsDownload(fileExists: bool, forceDownload: bool, checksum: NString, cachedValid: bool,
                          headers: map<string, string>, cachedLength: nat) {
    if fileExists && !forceDownload then
      if !IsNullOrWhiteSpace(checksum) then !cachedValid
      else if |headers| != 0 && "Content-Length" in headers then
        !IsEqual(Some(IntToString(cachedLength)), Some(headers["Content-Length"]))
      else true
    else true
  }

  /**
   * The download is skipped exactly when the file exists, the download is not
   * forced, and either the package checksum is set and the cached file passes
   * it, or there is no checksum and the cached length matches `Content-Length`.
   */
  lemma NeedsDownloadMeaning(fileExists: bool, forceDownload: bool, checksum: NString, cachedValid: bool,
                             headers: map<string, string>, cachedLength: nat)
    ensures !NeedsDownload(fileExists, forceDownload, checksum, cachedValid, headers, cachedLength)
        <==> fileExists && !forceDownload
             && ((!IsNullOrWhiteSpace(checksum) && cachedValid)
                 || (IsNullOrWhiteSpace(checksum) && LengthMatches(headers, cachedLength)))
  {
    if "Content-Length" in headers {
      assert |headers| != 0;
    }
  }

  function ExpectedFileMissing(path: string): Error {
    Error(FileNotFound, "Chocolatey expected " + "a file to be " + "downloaded to '" + path + "', but nothing "
                        + "exists at that " + "location.")
  }

  function LengthMismatch(path: string, expected: string, actual: string): Error {
    Error(RuntimeError, "Chocolatey expected " + "a file at '" + path + "' to be of " + "length '" + expected
                        + "' but the " + "length was '" + actual + "'.")
  }

  /**
   * The checks after the transfer, `sha1Checksum` being what the
   * `X-Checksum-Sha1` step compares against: the file must exist; without a
   * package checksum but with response headers, a `Content-Length` must match
   * and an `X-Checksum-Sha1` must pass; then the package checksum must pass
   * when it is set or the file came from a remote URL.
   */
  function ValidateWith(sha1Checksum: NString, content: Option<string>, path: string, url: string, checksum: NString,
                        checksumType: Option<ChecksumType>, headers: map<string, string>, urlIsRemote: bool,
                        checksumError: ChecksumCheck): Result<string, Error> {
    if content.None? then Failure(ExpectedFileMissing(path))
    else
      var length := IntToString(|content.value|);
      var headerChecks := |headers| != 0 && IsNullOrWhiteSpace(checksum);
      var sha1Error := checksumError(content.value, sha1Checksum, Some(Sha1), url);
      var packageError := checksumError(content.value, checksum, checksumType, url);
      if headerChecks && "Content-Length" in headers && !IsEqual(Some(length), Some(headers["Content-Length"])) then
        Failure(LengthMismatch(path, headers["Content-Length"], length))
      else if headerChecks && "X-Checksum-Sha1" in headers && sha1Error.Some? then
        Failure(sha1Error.value)
      else if (!IsNullOrWhiteSpace(checksum) || urlIsRemote) && packageError.Some? then
        Failure(packageError.value)
      else Success(path)
  }

  /**
   * The validation as written: the `X-Checksum-Sha1` step reads the header's
   * value but hands the package checksum, blank at that point, to the check.
   */
  function ValidateAsWritten(content: Option<string>, path: string, url: string, checksum: NString,
                             checksumType: Option<ChecksumType>, headers: map<string, string>, urlIsRemote: bool,
                             checksumError: ChecksumCheck): Result<string, Error> {
    ValidateWith(checksum, content, path, url, checksum, checksumType, headers, urlIsRemote, checksumError)
  }

  /**
   * As written, the value of `X-Checksum-Sha1` never matters: two responses
   * that differ only in it are validated alike, so the step cannot catch a
   * file whose SHA-1 differs from the server's.
   */
  lemma ValidateAsWrittenIgnoresRemoteChecksum(content: Option<string>, path: string, url: string, checksum: NString,
                                               checksumType: Option<ChecksumType>, headers: map<string, string>,
                                               urlIsRemote: bool, checksumError: ChecksumCheck, v1: string, v2: string)
    ensures ValidateAsWritten(content, path, url, checksum, checksumType, headers["X-Checksum-Sha1" := v1], urlIsRemote,
                              checksumError)
         == ValidateAsWritten(content, path, url, checksum, checksumType, headers["X-Checksum-Sha1" := v2], urlIsRemote,
                              checksumError)
  {
    var h1, h2 := headers["X-Checksum-Sha1" := v1], headers["X-Checksum-Sha1" := v2];
    assert "Content-Length" != "X-Checksum-Sha1";
    assert ("Content-Length" in h1) == ("Content-Length" in h2);
    assert "Content-Length" in h1 ==> h1["Content-Length"] == h2["Content-Length"];
    assert |h1| != 0 && |h2| != 0 by {
      assert "X-Checksum-Sha1" in h1.Keys && "X-Checksum-Sha1" in h2.Keys;
    }
  }

  /** The validation with the `X-Checksum-Sha1` step checking the file against the header's value. */
  function Validate(content: Option<string>, path: string, url: string, checksum: NString,
                    checksumType: Option<ChecksumType>, headers: map<string, string>, urlIsRemote: bool,
                    checksumError: ChecksumCheck): Result<string, Error> {
    var sha1 := if "X-Checksum-Sha1" in headers then Some(headers["X-Checksum-Sha1"]) else None;
    ValidateWith(sha1, content, path, url, checksum, checksumType, headers, urlIsRemote, checksumError)
  }

  /**
   * The validation succeeds, returning the path, exactly when the file exists
   * and every check that applies passes: without a package checksum but with
   * response headers, the `Content-Length` matches and the file passes the
   * server's SHA-1; and the package checksum passes when it is set or the URL
   * is remote. A missing file is always the first error.
   */
  lemma ValidateMeaning(content: Option<string>, path: string, url: string, checksum: NString,
                        checksumType: Option<ChecksumType>, headers: map<string, string>, urlIsRemote: bool,
                        checksumError: ChecksumCheck)
    ensures var r := Validate(content, path, url, checksum, checksumType, headers, urlIsRemote, checksumError);
      var headerChecks := |headers| != 0 && IsNullOrWhiteSpace(checksum);
      (content.None? ==> r == Failure(ExpectedFileMissing(path)))
      && (r.Success? ==> r.value == path)
      && (r.Success? <==>
            content.Some?
            && (headerChecks && "Content-Length" in headers ==> LengthMatches(headers, |content.value|))
            && (headerChecks && "X-Checksum-Sha1" in headers ==>
                  checksumError(content.value, Some(headers["X-Checksum-Sha1"]), Some(Sha1), url).None?)
            && (!IsNullOrWhiteSpace(checksum) || urlIsRemote ==>
                  checksumError(content.value, checksum, checksumType, url).None?))
  {
  }

  // ---------------------------------------------------------------------------
  // `GetWebFile`
  // ---------------------------------------------------------------------------

  /** How a download request ended; a response carries its content type, whether the status was OK, the body and the size as the progress text writes it. */
  datatype FileReply = FileThrew(message: string) | NoFileResponse
                     | FileResponse(contentType: NString, ok: bool, body: string, sizeText: string)

  /** The marker written next to a download whose content type is text or HTML. */
  function IsTextFile(fileName: string): string {
    fileName + ".istext"
  }

  function ContentTypeMessage(fileName: string, contentType: string): string {
    "'" + GetFileName(fileName) + "' has content " + "type '" + contentType + "'"
  }

  /** The files after the marker step: the marker removed, then written again for a text content type. */
  function MarkedFiles(files: map<string, string>, fileName: string, contentType: string): map<string, string> {
    var cleared := files - {IsTextFile(fileName)};
    if IsPlainTextOrHtml(contentType)
    then cleared[IsTextFile(fileName) := ContentTypeMessage(fileName, contentType)]
    else cleared
  }

  /** The files after a response: the marker step, then the body saved when the status is OK. */
  function FilesAfterResponse(files: map<string, string>, fileName: string, contentType: string, ok: bool,
                              body: string): map<string, string> {
    var marked := MarkedFiles(files, fileName, contentType);
    if ok then marked[fileName := body] else marked
  }

  /**
   * After a response the body is saved at the file name when the status is
   * OK and the file is left alone otherwise; the marker exists exactly when
   * the content type is text or HTML, and then holds the warning; no other
   * file changes.
   */
  lemma FilesAfterResponseMeaning(files: map<string, string>, fileName: string, contentType: string, ok: bool,
                                  body: string)
    ensures var r := FilesAfterResponse(files, fileName, contentType, ok, body);
      var marker := IsTextFile(fileName);
      (ok ==> fileName in r && r[fileName] == body)
      && (!ok ==> (fileName in r <==> fileName in files) && (fileName in files ==> r[fileName] == files[fileName]))
      && (marker in r <==> IsPlainTextOrHtml(contentType))
      && (IsPlainTextOrHtml(contentType) ==> r[marker] == ContentTypeMessage(fileName, contentType))
      && r - {fileName, marker} == files - {fileName, marker}
  {
    assert |IsTextFile(fileName)| == |fileName| + 7;
  }

  /** What `GetWebFile` writes to the host for a reply. */
  function GetWebFileLog(url: string, fileName: string, reply: FileReply): seq<LogEntry> {
    if url == "" then []
    else match reply
      case FileThrew(_) => []
      case NoFileResponse => [NoResponseWarning(url)]
      case FileResponse(contentType, ok, _, sizeText) => ResponseLog(fileName, OrEmpty(contentType), ok, sizeText)
  }

  /**
   * `GetWebFile` for an http(s) URL, with the server's answer given as
   * `reply`: an empty URL does nothing; an exception sets the exit code to
   * 404 and is an error; no response is a warning; a response replaces the
   * marker file and, when the status is OK, saves the body in the file's
   * directory.
   */
  method GetWebFile(host: Host, url: string, fileName: string, reply: FileReply) returns (error: Option<Error>)
    modifies host`files, host`dirs, host`log, host`exitCode
    ensures error.Some? <==> url != "" && reply.FileThrew?
    ensures error.Some? ==> error.value == DownloadForbidden(url, reply.message) && host.exitCode == 404
    ensures error.None? ==> host.exitCode == old(host.exitCode)
    ensures host.files == (if url != "" && reply.FileResponse?
                           then FilesAfterResponse(old(host.files), fileName, OrEmpty(reply.contentType), reply.ok,
                                                   reply.body)
                           else old(host.files))
    ensures host.dirs == (if url != "" && reply.FileResponse? && reply.ok
                          then old(host.dirs) + {GetParentDirectory(fileName)}
                          else old(host.dirs))
    ensures host.log == old(host.log) + GetWebFileLog(url, fileName, reply)
  {
    error := None;
    if url == "" {
      return;
    }
    match reply {
      case FileThrew(message) =>
        host.SetExitCode(404);
        error := Some(DownloadForbidden(url, message));
      case NoFileResponse =>
        host.Warn("No response from " + "server at '" + url + "'.");
      case FileResponse(contentType, ok, body, sizeText) =>
        SaveResponse(host, fileName, OrEmpty(contentType), ok, body, sizeText);
    }
  }

  /** What `GetWebFile` writes to the host for a response. */
  function ResponseLog(fileName: string, contentType: string, ok: bool, sizeText: string): seq<LogEntry> {
    (if IsPlainTextOrHtml(contentType) then [Warning(ContentTypeMessage(fileName, contentType))] else [])
    + (if ok then [HostLine(""), HostLine("Download of '" + GetFileName(fileName) + "' (" + sizeText + ") completed.")]
       else [])
  }

  /** The response branch of `GetWebFile`. */
  method SaveResponse(host: Host, fileName: string, contentType: string, ok: bool, body: string, sizeText: string)
    modifies host`files, host`dirs, host`log
    ensures host.files == FilesAfterResponse(old(host.files), fileName, contentType, ok, body)
    ensures host.dirs == (if ok then old(host.dirs) + {GetParentDirectory(fileName)} else old(host.dirs))
    ensures host.log == old(host.log) + ResponseLog(fileName, contentType, ok, sizeText)
  {
    MarkResponse(host, fileName, contentType);
    if ok {
      SaveBody(host, fileName, body, sizeText);
    }
  }

  /** The marker step: the old marker is removed, and a text or HTML content type is warned about and recorded. */
  method MarkResponse(host: Host, fileName: string, contentType: string)
    modifies host`files, host`log
    ensures host.files == MarkedFiles(old(host.files), fileName, contentType)
    ensures host.log == old(host.log) + (if IsPlainTextOrHtml(contentType)
                                         then [Warning(ContentTypeMessage(fileName, contentType))] else [])
  {
    var marker := IsTextFile(fileName);
    if host.ItemExists(marker) {
      host.RemoveFile(marker);
    }
    assert host.files == old(host.files) - {marker};
    if IsPlainTextOrHtml(contentType) {
      var message := ContentTypeMessage(fileName, contentType);
      host.Warn(message);
      host.WriteFile(marker, message);
    }
  }

  /** A response with status OK: the directory is ensured, the body saved and the completion reported. */
  method SaveBody(host: Host, fileName: string, body: string, sizeText: string)
    modifies host`files, host`dirs, host`log
    ensures host.files == old(host.files)[fileName := body]
    ensures host.dirs == old(host.dirs) + {GetParentDirectory(fileName)}
    ensures host.log == old(host.log) + [HostLine(""), HostLine("Download of '" + GetFileName(fileName) + "' ("
                                                                 + sizeText + ") completed.")]
  {
    host.CreateDirectory(GetParentDirectory(fileName));
    host.WriteFile(fileName, body);
    host.WriteHost("");
    host.WriteHost("Download of '" + GetFileName(fileName) + "' (" + sizeText + ") completed.");
  }

  /**
   * What a write through `FileMode.OpenOrCreate` leaves: the body over the
   * start of the file that was there, whose longer tail survives.
   */
  function OpenOrCreateWrite(existing: Option<string>, body: string): string {
    if existing.Some? && |existing.value| > |body| then body + existing.value[|body|..] else body
  }

  /**
   * Saved that way, a download over a longer stale file keeps the stale tail:
   * the file is longer than the body and fails the `Content-Length` check
   * that the body itself passes.
   */
  lemma StaleTailFailsLengthCheck(existing: string, body: string, headers: map<string, string>)
    requires |existing| > |body| && LengthMatches(headers, |body|)
    ensures var saved := OpenOrCreateWrite(Some(existing), body);
      saved[..|body|] == body && saved[|body|..] == existing[|body|..] && !LengthMatches(headers, |saved|)
  {
    var saved := OpenOrCreateWrite(Some(existing), body);
    assert saved[..|body|] == body;
    if LengthMatches(headers, |saved|) {
      LengthMatchesUnique(headers, |body|, |saved|);
    }
  }

  /** A three-byte body over a ten-byte file leaves ten bytes, seven of them stale. */
  lemma StaleTailExample()
    ensures OpenOrCreateWrite(Some("0123456789"), "abc") == "abc3456789"
  {
    assert "0123456789"[3..] == "3456789";
  }

  /**
   * Saved with `FileMode.Create`, as `FilesAfterResponse` does, the file is the
   * body, so a body matching `Content-Length` gives a file that matches it.
   */
  lemma SavedBodyPassesLengthCheck(files: map<string, string>, fileName: string, contentType: string, body: string,
                                   headers: map<string, string>)
    requires LengthMatches(headers, |body|)
    ensures var after := FilesAfterResponse(files, fileName, contentType, true, body);
      fileName in after && after[fileName] == body && LengthMatches(headers, |after[fileName]|)
  {
    FilesAfterResponseMeaning(files, fileName, contentType, true, body);
  }

  // ---------------------------------------------------------------------------
  // `GetChocolateyWebFile`
  // ---------------------------------------------------------------------------

  /** Only the file at `path` and its marker may differ between the two file maps. */
  ghost predicate SameOutside(before: map<string, string>, after: map<string, string>, path: string) {
    forall p :: p != path && p != IsTextFile(path) ==>
      (p in after <==> p in before) && (p in after ==> after[p] == before[p])
  }

  /** The URL, checksum and type a download uses, from the caller's request and the process environment. */
  function Resolve(env: map<string, string>, is64Bit: bool, parseType: string -> Option<ChecksumType>,
                   req: Request): Result<Resolved, Error> {
    var ov := ReadOverrides(env, parseType);
    Select(Effective(req, ov), is64Bit, ov.forceX86)
  }

  /** The URL after the HTTPS upgrade; `probe` answers a header request for a URL. */
  function UpgradedUrl(url: string, probe: string -> HeaderReply): string {
    var https := HttpsUrl(url);
    UpgradeHttps(url, GetWebHeaders(Some(https), probe(https)))
  }

  /** How the file is fetched, by the URL's scheme ignoring case. */
  datatype Transport = Http | Ftp | Copy

  function TransportOf(url: string): Transport {
    var u := ToLower(url);
    if StartsWith(u, "http") then Http else if StartsWith(u, "ftp") then Ftp else Copy
  }

  /** What a copy reads: a `file:` URL's local path (`localPath` stands for `Uri.LocalPath`), any other URL as it is. */
  function CopySource(url: string, localPath: string -> string): string {
    if StartsWith(ToLower(url), "file:") then localPath(url) else url
  }

  /** The headers the http branch works with: the response's, or none when the request throws. */
  function ResponseHeaders(url: string, probe: string -> HeaderReply): map<string, string> {
    var h := GetWebHeaders(Some(url), probe(url));
    if h.Success? then h.value else map[]
  }

  /** Whether the http branch fetches the file, for the files as they were before it. */
  predicate Fetches(files: map<string, string>, path: string, url: string, checksum: NString,
                    checksumType: Option<ChecksumType>, forceDownload: bool, probe: string -> HeaderReply,
                    checksumError: ChecksumCheck) {
    var cached := path in files;
    NeedsDownload(cached, forceDownload, checksum,
                  cached && checksumError(files[path], checksum, checksumType, url).None?,
                  ResponseHeaders(url, probe), if cached then |files[path]| else 0)
  }

  /** What the HTTPS upgrade writes: the probe's own warning, then a warning when it switches. */
  function SwitchLog(url: string, probe: string -> HeaderReply): seq<LogEntry> {
    if IsHttpUrl(url) then
      var https := HttpsUrl(url);
      var h := GetWebHeaders(Some(https), probe(https));
      HeadersLog(Some(https), probe(https))
      + (if h.Success? && |h.value| != 0 then [Warning(SwitchWarning())] else [])
    else []
  }

  function SwitchWarning(): string {
    "Url has SSL/TLS available, switching to HTTPS for download."
  }

  /** What the header request of the http branch writes: the request's warning, or the failure on the host. */
  function ReadHeadersLog(url: string, probe: string -> HeaderReply): seq<LogEntry> {
    var h := GetWebHeaders(Some(url), probe(url));
    HeadersLog(Some(url), probe(url))
    + (if h.Failure? then [HostLine("Attempt to get " + "headers for '" + url + "' failed.\n  " + h.error.message)]
       else [])
  }

  /** The cache check announces itself when a file is there, not forced, and a package checksum can verify it. */
  function CheckCacheLog(files: map<string, string>, path: string, checksum: NString, forceDownload: bool)
    : seq<LogEntry> {
    if path in files && !forceDownload && !IsNullOrWhiteSpace(checksum) then [HostLine(CachedFileLine())] else []
  }

  function CachedFileLine(): string {
    "File appears to " + "be downloaded " + "already. Verifying " + "with package " + "checksum to " +
    "determine if it " + "needs to be " + "re-downloaded."
  }

  function DownloadingLine(packageName: string, bitPackage: string, url: string): string {
    "Downloading " + packageName + " " + bitPackage + NewLine + "  from '" + url + "'."
  }

  /** What the http branch writes: the header request, the cache check, then the download when it fetches. */
  function FetchLog(files: map<string, string>, packageName: string, path: string, url: string, bitPackage: string,
                    checksum: NString, checksumType: Option<ChecksumType>, forceDownload: bool,
                    probe: string -> HeaderReply, download: string -> FileReply, checksumError: ChecksumCheck)
    : seq<LogEntry> {
    ReadHeadersLog(url, probe) + CheckCacheLog(files, path, checksum, forceDownload)
    + (if Fetches(files, path, url, checksum, checksumType, forceDownload, probe, checksumError)
       then [HostLine(DownloadingLine(packageName, bitPackage, url))] + GetWebFileLog(url, path, download(url))
       else [])
  }

  /** What the transfer step writes, by the URL's scheme. */
  function TransferLog(files: map<string, string>, packageName: string, path: string, url: string, bitPackage: string,
                       checksum: NString, checksumType: Option<ChecksumType>, forceDownload: bool,
                       probe: string -> HeaderReply, download: string -> FileReply, localPath: string -> string,
                       checksumError: ChecksumCheck): seq<LogEntry> {
    match TransportOf(url)
    case Http => FetchLog(files, packageName, path, url, bitPackage, checksum, checksumType, forceDownload, probe,
                          download, checksumError)
    case Ftp => [HostLine("Ftp-ing " + packageName + NewLine + "  from '" + url + "'.")]
    case Copy => [HostLine("Copying " + packageName + NewLine + "  from '" + CopySource(url, localPath) + "'")]
  }

  /** The files after the transfer step, for the files before it. */
  function TransferredFiles(files: map<string, string>, path: string, url: string, checksum: NString,
                            checksumType: Option<ChecksumType>, forceDownload: bool, probe: string -> HeaderReply,
                            download: string -> FileReply, ftp: string -> Option<string>, localPath: string -> string,
                            checksumError: ChecksumCheck): map<string, string> {
    match TransportOf(url)
    case Http =>
      var reply := download(url);
      if Fetches(files, path, url, checksum, checksumType, forceDownload, probe, checksumError) && reply.FileResponse?
      then FilesAfterResponse(files, path, OrEmpty(reply.contentType), reply.ok, reply.body)
      else files
    case Ftp => if ftp(url).Some? then files[path := ftp(url).value] else files
    case Copy =>
      var from := CopySource(url, localPath);
      if from in files then files[path := files[from]] else files
  }

  /** The error that ends the transfer step: a download that throws, or a copy from a missing file. */
  function TransferError(files: map<string, string>, path: string, url: string, checksum: NString,
                         checksumType: Option<ChecksumType>, forceDownload: bool, probe: string -> HeaderReply,
                         download: string -> FileReply, localPath: string -> string, checksumError: ChecksumCheck)
    : Option<Error> {
    match TransportOf(url)
    case Http =>
      var reply := download(url);
      if Fetches(files, path, url, checksum, checksumType, forceDownload, probe, checksumError) && reply.FileThrew?
      then Some(DownloadForbidden(url, reply.message))
      else None
    case Ftp => None
    case Copy =>
      var from := CopySource(url, localPath);
      if from in files then None else Some(Error(FileNotFound, from))
  }

  /**
   * The transfer step for a resolved, non-blank URL: http(s) URLs read the
   * response headers and download unless the cached file can be reused, ftp
   * URLs run `Get-FtpFile` (whose saved content is `ftp(url)`), and anything
   * else is copied. Returns the error that ends the command, the headers the
   * validation uses, the URL it names, and whether that URL is remote.
   */
  method Transfer(host: Host, packageName: string, path: string, url: string, bitPackage: string, checksum: NString,
                  checksumType: Option<ChecksumType>, forceDownload: bool, probe: string -> HeaderReply,
                  download: string -> FileReply, ftp: string -> Option<string>, localPath: string -> string,
                  checksumError: ChecksumCheck)
    returns (error: Option<Error>, headers: map<string, string>, source: string, urlIsRemote: bool)
    modifies host`files, host`dirs, host`log, host`exitCode
    ensures error.None? ==> (urlIsRemote <==> TransportOf(url) != Copy)
    ensures source == (if TransportOf(url) == Copy then CopySource(url, localPath) else url)
    ensures headers == (if TransportOf(url) == Http then ResponseHeaders(url, probe) else map[])
    ensures TransportOf(url) == Http ==>
      var fetch := Fetches(old(host.files), path, url, checksum, checksumType, forceDownload, probe, checksumError);
      var reply := download(url);
      (error.Some? <==> fetch && reply.FileThrew?)
      && host.files == (if fetch && reply.FileResponse?
                        then FilesAfterResponse(old(host.files), path, OrEmpty(reply.contentType), reply.ok, reply.body)
                        else old(host.files))
      && host.dirs == (if fetch && reply.FileResponse? && reply.ok then old(host.dirs) + {GetParentDirectory(path)}
                       else old(host.dirs))
      && host.exitCode == (if error.Some? then 404 else old(host.exitCode))
    ensures TransportOf(url) == Ftp ==>
      error.None? && host.files == (if ftp(url).Some? then old(host.files)[path := ftp(url).value] else old(host.files))
    ensures TransportOf(url) == Copy ==>
      var from := CopySource(url, localPath);
      (from in old(host.files) ==> error.None? && host.files == old(host.files)[path := old(host.files)[from]])
      && (from !in old(host.files) ==> error == Some(Error(FileNotFound, from)) && host.files == old(host.files))
    ensures TransportOf(url) != Http ==> host.dirs == old(host.dirs) && host.exitCode == old(host.exitCode)
    ensures SameOutside(old(host.files), host.files, path)
    ensures error == TransferError(old(host.files), path, url, checksum, checksumType, forceDownload, probe, download,
                                   localPath, checksumError)
    ensures host.files == TransferredFiles(old(host.files), path, url, checksum, checksumType, forceDownload, probe,
                                           download, ftp, localPath, checksumError)
    ensures host.log == old(host.log) + TransferLog(old(host.files), packageName, path, url, bitPackage, checksum,
                                                    checksumType, forceDownload, probe, download, localPath,
                                                    checksumError)
  {
    error := None;
    headers := map[];
    source := url;
    urlIsRemote := true;
    var transport := TransportOf(url);
    if transport == Http {
      error, headers := FetchHttp(host, packageName, path, url, bitPackage, checksum, checksumType, forceDownload,
                                  probe, download, checksumError);
    } else if transport == Ftp {
      host.WriteHost("Ftp-ing " + packageName + NewLine + "  from '" + url + "'.");
      var saved := ftp(url);
      if saved.Some? {
        host.WriteFile(path, saved.value);
      }
    } else {
      // The URL is not blank here: the resolution fails on a blank one.
      source := CopySource(url, localPath);
      host.WriteHost("Copying " + packageName + NewLine + "  from '" + source + "'");
      if source in host.files {
        host.WriteFile(path, host.files[source]);
      } else {
        error := Some(Error(FileNotFound, source));
        return;
      }
      urlIsRemote := false;
    }
  }

  /** The HTTPS upgrade, warning when it switches. */
  method SwitchToHttps(host: Host, url: string, probe: string -> HeaderReply) returns (upgraded: string)
    modifies host`log
    ensures upgraded == UpgradedUrl(url, probe)
    ensures host.log == old(host.log) + SwitchLog(url, probe)
  {
    upgraded := url;
    if IsHttpUrl(url) {
      var https := HttpsUrl(url);
      var sslHeaders := RequestHeaders(host, Some(https), probe(https));
      if sslHeaders.Success? && |sslHeaders.value| != 0 {
        upgraded := https;
        host.Warn(SwitchWarning());
      }
    }
  }

  /** The http(s) branch of the transfer step. */
  method FetchHttp(host: Host, packageName: string, path: string, url: string, bitPackage: string, checksum: NString,
                   checksumType: Option<ChecksumType>, forceDownload: bool, probe: string -> HeaderReply,
                   download: string -> FileReply, checksumError: ChecksumCheck)
    returns (error: Option<Error>, headers: map<string, string>)
    requires TransportOf(url) == Http
    modifies host`files, host`dirs, host`log, host`exitCode
    ensures headers == ResponseHeaders(url, probe)
    ensures var fetch := Fetches(old(host.files), path, url, checksum, checksumType, forceDownload, probe, checksumError);
      var reply := download(url);
      error == (if fetch && reply.FileThrew? then Some(DownloadForbidden(url, reply.message)) else None)
      && host.files == (if fetch && reply.FileResponse?
                        then FilesAfterResponse(old(host.files), path, OrEmpty(reply.contentType), reply.ok, reply.body)
                        else old(host.files))
      && host.dirs == (if fetch && reply.FileResponse? && reply.ok then old(host.dirs) + {GetParentDirectory(path)}
                       else old(host.dirs))
    ensures host.exitCode == (if error.Some? then 404 else old(host.exitCode))
    ensures host.log == old(host.log) + FetchLog(old(host.files), packageName, path, url, bitPackage, checksum,
                                                 checksumType, forceDownload, probe, download, checksumError)
  {
    var needsDownload;
    headers, needsDownload := CheckHttp(host, path, url, checksum, checksumType, forceDownload, probe, checksumError);
    ghost var checkLog := ReadHeadersLog(url, probe) + CheckCacheLog(old(host.files), path, checksum, forceDownload);
    AppendRegroup(old(host.log), ReadHeadersLog(url, probe), CheckCacheLog(old(host.files), path, checksum, forceDownload));
    error := None;
    if needsDownload {
      ghost var checked := host.log;
      ghost var line := DownloadingLine(packageName, bitPackage, url);
      error := FetchFile(host, packageName, path, url, bitPackage, download(url));
      AppendRegroup(checked, [HostLine(line)], GetWebFileLog(url, path, download(url)));
      AppendRegroup(old(host.log), checkLog, [HostLine(line)] + GetWebFileLog(url, path, download(url)));
    }
  }

  /** The header request and the cache decision of the http branch. */
  method CheckHttp(host: Host, path: string, url: string, checksum: NString, checksumType: Option<ChecksumType>,
                   forceDownload: bool, probe: string -> HeaderReply, checksumError: ChecksumCheck)
    returns (headers: map<string, string>, needsDownload: bool)
    requires TransportOf(url) == Http
    modifies host`log
    ensures headers == ResponseHeaders(url, probe)
    ensures needsDownload == Fetches(host.files, path, url, checksum, checksumType, forceDownload, probe, checksumError)
    ensures host.log == old(host.log) + ReadHeadersLog(url, probe) + CheckCacheLog(host.files, path, checksum,
                                                                                  forceDownload)
  {
    headers := ReadHeaders(host, url, probe);
    needsDownload := CheckCache(host, path, url, checksum, checksumType, forceDownload, headers, checksumError);
  }

  /** The download of the http branch: announced on the host, then `GetWebFile`. */
  method FetchFile(host: Host, packageName: string, path: string, url: string, bitPackage: string, reply: FileReply)
    returns (error: Option<Error>)
    requires url != ""
    modifies host`files, host`dirs, host`log, host`exitCode
    ensures error == (if reply.FileThrew? then Some(DownloadForbidden(url, reply.message)) else None)
    ensures host.exitCode == (if reply.FileThrew? then 404 else old(host.exitCode))
    ensures host.files == (if reply.FileResponse?
                           then FilesAfterResponse(old(host.files), path, OrEmpty(reply.contentType), reply.ok,
                                                   reply.body)
                           else old(host.files))
    ensures host.dirs == (if reply.FileResponse? && reply.ok then old(host.dirs) + {GetParentDirectory(path)}
                          else old(host.dirs))
    ensures host.log == old(host.log) + [HostLine(DownloadingLine(packageName, bitPackage, url))]
                        + GetWebFileLog(url, path, reply)
  {
    var line := DownloadingLine(packageName, bitPackage, url);
    host.WriteHost(line);
    error := GetWebFile(host, url, path, reply);
    AppendRegroup(old(host.log), [HostLine(line)], GetWebFileLog(url, path, reply));
  }

  /** The header request of the http branch: a failure is reported on the host and leaves no headers. */
  method ReadHeaders(host: Host, url: string, probe: string -> HeaderReply) returns (headers: map<string, string>)
    requires TransportOf(url) == Http
    modifies host`log
    ensures headers == ResponseHeaders(url, probe)
    ensures host.log == old(host.log) + ReadHeadersLog(url, probe)
  {
    assert |url| >= 4;
    var h := RequestHeaders(host, Some(url), probe(url));
    headers := map[];
    if h.Success? {
      headers := h.value;
    } else {
      host.WriteHost("Attempt to get " + "headers for '" + url + "' failed.\n  " + h.error.message);
    }
  }

  /** The cache decision of the http branch, checking an existing file against the package checksum when there is one. */
  method CheckCache(host: Host, path: string, url: string, checksum: NString, checksumType: Option<ChecksumType>,
                    forceDownload: bool, headers: map<string, string>, checksumError: ChecksumCheck)
    returns (needsDownload: bool)
    modifies host`log
    ensures var cached := path in host.files;
      needsDownload == NeedsDownload(cached, forceDownload, checksum,
                                     cached && checksumError(host.files[path], checksum, checksumType, url).None?,
                                     headers, if cached then |host.files[path]| else 0)
    ensures host.log == old(host.log) + CheckCacheLog(host.files, path, checksum, forceDownload)
  {
    var cached := path in host.files;
    var cachedValid := false;
    if cached && !forceDownload && !IsNullOrWhiteSpace(checksum) {
      host.WriteHost(CachedFileLine());
      cachedValid := checksumError(host.files[path], checksum, checksumType, url).None?;
    }
    needsDownload := NeedsDownload(cached, forceDownload, checksum, cachedValid, headers,
                                   if cached then |host.files[path]| else 0);
  }

  /**
   * `GetChocolateyWebFile` (without `getOriginalFileName`): resolves the URL,
   * checksum and type, then downloads and validates the file. `parseType`
   * stands for `Enum.TryParse<ChecksumType>`; the other parameters are those
   * of `DownloadResolved`.
   */
  method GetChocolateyWebFile(host: Host, packageName: string, fileFullPath: string, req: Request,
                              parseType: string -> Option<ChecksumType>, forceDownload: bool,
                              probe: string -> HeaderReply, download: string -> FileReply,
                              ftp: string -> Option<string>, localPath: string -> string,
                              checksumError: ChecksumCheck)
    returns (r: Result<string, Error>)
    modifies host`files, host`dirs, host`log, host`exitCode
    ensures var res := Resolve(host.env, host.is64Bit, parseType, req);
      res.Failure? ==>
        r == Failure(res.error) && host.files == old(host.files) && host.dirs == old(host.dirs)
        && host.log == old(host.log) && host.exitCode == old(host.exitCode)
    ensures var res := Resolve(host.env, host.is64Bit, parseType, req);
      res.Success? ==>
        r == DownloadResult(old(host.files), fileFullPath, res.value, forceDownload, probe, download, ftp, localPath,
                            checksumError)
        && host.log == old(host.log) + DownloadLog(old(host.files), packageName, fileFullPath, res.value,
                                                   forceDownload, probe, download, localPath, checksumError)
        && Downloaded(old(host.files), host.files, r, fileFullPath, res.value, forceDownload, probe, localPath,
                      checksumError)
        && host.dirs == old(host.dirs) + {GetParentDirectory(fileFullPath)}
        && host.exitCode == DownloadExitCode(old(host.exitCode), old(host.files), fileFullPath, res.value,
                                             forceDownload, probe, download, localPath, checksumError)
    ensures SameOutside(old(host.files), host.files, fileFullPath)
  {
    var res := Resolve(host.env, host.is64Bit, parseType, req);
    if res.Failure? {
      return Failure(res.error);
    }
    r := DownloadResolved(host, packageName, fileFullPath, res.value, forceDownload, probe, download, ftp, localPath,
                          checksumError);
  }

  /**
   * What a download of a resolved request promises: on success the result is
   * the path and the file exists; it passes the package checksum whenever
   * that is set or the URL (after the HTTPS upgrade) is remote; and when an
   * http(s) download is skipped for the cached file, no file changes.
   */
  ghost predicate Downloaded(before: map<string, string>, after: map<string, string>, r: Result<string, Error>,
                             path: string, resolved: Resolved, forceDownload: bool, probe: string -> HeaderReply,
                             localPath: string -> string, checksumError: ChecksumCheck) {
    var url := UpgradedUrl(resolved.url, probe);
    var remote := TransportOf(url) != Copy;
    var source := if remote then url else CopySource(url, localPath);
    (r.Success? ==> r.value == path && path in after)
    && (r.Success? && (!IsNullOrWhiteSpace(resolved.checksum) || remote) ==>
          checksumError(after[path], resolved.checksum, resolved.checksumType, source).None?)
    && (TransportOf(url) == Http
        && !Fetches(before, path, url, resolved.checksum, resolved.checksumType, forceDownload, probe, checksumError)
        ==> after == before)
  }

  /**
   * The result of a download of a resolved request: the transfer's error, or
   * the validation of the file the transfer leaves behind.
   */
  function DownloadResult(files: map<string, string>, path: string, resolved: Resolved, forceDownload: bool,
                          probe: string -> HeaderReply, download: string -> FileReply, ftp: string -> Option<string>,
                          localPath: string -> string, checksumError: ChecksumCheck): Result<string, Error> {
    var url := UpgradedUrl(resolved.url, probe);
    var error := TransferError(files, path, url, resolved.checksum, resolved.checksumType, forceDownload, probe,
                               download, localPath, checksumError);
    var after := TransferredFiles(files, path, url, resolved.checksum, resolved.checksumType, forceDownload, probe,
                                  download, ftp, localPath, checksumError);
    var remote := TransportOf(url) != Copy;
    if error.Some? then Failure(error.value)
    else Validate(if path in after then Some(after[path]) else None, path,
                  if remote then url else CopySource(url, localPath), resolved.checksum, resolved.checksumType,
                  if TransportOf(url) == Http then ResponseHeaders(url, probe) else map[], remote, checksumError)
  }

  /** The exit code after a download of a resolved request: 404 when the http(s) download throws, else unchanged. */
  function DownloadExitCode(exitCode: int, files: map<string, string>, path: string, resolved: Resolved,
                            forceDownload: bool, probe: string -> HeaderReply, download: string -> FileReply,
                            localPath: string -> string, checksumError: ChecksumCheck): int {
    var url := UpgradedUrl(resolved.url, probe);
    var error := TransferError(files, path, url, resolved.checksum, resolved.checksumType, forceDownload, probe,
                               download, localPath, checksumError);
    if TransportOf(url) == Http && error.Some? then 404 else exitCode
  }

  /** What a download of a resolved request writes: the HTTPS upgrade, then the transfer from the URL it settles on. */
  function DownloadLog(files: map<string, string>, packageName: string, path: string, resolved: Resolved,
                       forceDownload: bool, probe: string -> HeaderReply, download: string -> FileReply,
                       localPath: string -> string, checksumError: ChecksumCheck): seq<LogEntry> {
    var url := UpgradedUrl(resolved.url, probe);
    SwitchLog(resolved.url, probe)
    + TransferLog(files, packageName, path, url, resolved.bitPackage, resolved.checksum, resolved.checksumType,
                  forceDownload, probe, download, localPath, checksumError)
  }

  /**
   * The download's result keeps the promises of `Downloaded` over the files
   * the transfer leaves; it fails exactly when the transfer fails or the
   * validation rejects the file.
   */
  lemma DownloadResultMeaning(files: map<string, string>, path: string, resolved: Resolved, forceDownload: bool,
                              probe: string -> HeaderReply, download: string -> FileReply,
                              ftp: string -> Option<string>, localPath: string -> string, checksumError: ChecksumCheck)
    ensures var url := UpgradedUrl(resolved.url, probe);
      var after := TransferredFiles(files, path, url, resolved.checksum, resolved.checksumType, forceDownload, probe,
                                    download, ftp, localPath, checksumError);
      var error := TransferError(files, path, url, resolved.checksum, resolved.checksumType, forceDownload, probe,
                                 download, localPath, checksumError);
      var r := DownloadResult(files, path, resolved, forceDownload, probe, download, ftp, localPath, checksumError);
      Downloaded(files, after, r, path, resolved, forceDownload, probe, localPath, checksumError)
      && (error.Some? ==> r == Failure(error.value))
      && (r.Success? <==> r == Success(path))
  {
    var url := UpgradedUrl(resolved.url, probe);
    var remote := TransportOf(url) != Copy;
    var after := TransferredFiles(files, path, url, resolved.checksum, resolved.checksumType, forceDownload, probe,
                                  download, ftp, localPath, checksumError);
    ValidateMeaning(if path in after then Some(after[path]) else None, path,
                    if remote then url else CopySource(url, localPath), resolved.checksum, resolved.checksumType,
                    if TransportOf(url) == Http then ResponseHeaders(url, probe) else map[], remote, checksumError);
  }

  /**
   * The download of a resolved request: switches to HTTPS when the server
   * answers there, makes sure the file's directory exists, fetches the file,
   * and validates it. `probe` answers header requests, `download` download
   * requests, `ftp` stands for `Get-FtpFile` and `localPath` for
   * `Uri.LocalPath`.
   */
  method DownloadResolved(host: Host, packageName: string, fileFullPath: string, resolved: Resolved,
                          forceDownload: bool, probe: string -> HeaderReply, download: string -> FileReply,
                          ftp: string -> Option<string>, localPath: string -> string, checksumError: ChecksumCheck)
    returns (r: Result<string, Error>)
    modifies host`files, host`dirs, host`log, host`exitCode
    ensures r == DownloadResult(old(host.files), fileFullPath, resolved, forceDownload, probe, download, ftp, localPath,
                                checksumError)
    ensures host.files == TransferredFiles(old(host.files), fileFullPath, UpgradedUrl(resolved.url, probe),
                                           resolved.checksum, resolved.checksumType, forceDownload, probe, download,
                                           ftp, localPath, checksumError)
    ensures host.log == old(host.log) + DownloadLog(old(host.files), packageName, fileFullPath, resolved, forceDownload,
                                                    probe, download, localPath, checksumError)
    ensures Downloaded(old(host.files), host.files, r, fileFullPath, resolved, forceDownload, probe, localPath,
                       checksumError)
    ensures SameOutside(old(host.files), host.files, fileFullPath)
    ensures host.dirs == old(host.dirs) + {GetParentDirectory(fileFullPath)}
    ensures host.exitCode == DownloadExitCode(old(host.exitCode), old(host.files), fileFullPath, resolved, forceDownload,
                                              probe, download, localPath, checksumError)
  {
    var url := SwitchToHttps(host, resolved.url, probe);
    host.CreateDirectory(GetParentDirectory(fileFullPath));
    assert host.files == old(host.files);
    ghost var switched := host.log;
    var error, headers, source, urlIsRemote :=
      Transfer(host, packageName, fileFullPath, url, resolved.bitPackage, resolved.checksum, resolved.checksumType,
               forceDownload, probe, download, ftp, localPath, checksumError);
    AppendRegroup(old(host.log), SwitchLog(resolved.url, probe), host.log[|switched|..]);
    DownloadResultMeaning(old(host.files), fileFullPath, resolved, forceDownload, probe, download, ftp, localPath,
                          checksumError);
    if error.Some? {
      return Failure(error.value);
    }
    var content := if fileFullPath in host.files then Some(host.files[fileFullPath]) else None;
    r := Validate(content, fileFullPath, source, resolved.checksum, resolved.checksumType, headers, urlIsRemote,
                  checksumError);
  }
}
