/**
 * `RemoteDownloader.GetRemoteFileName`: the file name a download is saved
 * under. A blank URL gives the default name and a `file:` URI the file name of
 * its local path. Otherwise the response is asked, in order, for the name in
 * `Content-Disposition`, the file name of the `Location` header, of the
 * response URL and of the request URL; the first candidate that is not blank
 * and has no character that is invalid in a file name, '=' or ';' wins, and
 * the default name is used when none does or when the request fails. A URI
 * whose request is not an HTTP request fails the cast to `HttpWebRequest`.
 */
module RemoteDownloader {
  import opened Wrappers
  import opened Text
  import opened Paths
  import opened Host

  /** The pattern `[<invalid file-name characters>\=\;]`. */
  predicate IsBadChar(c: char) {
    IsInvalidFileNameChar(c) || c == '=' || c == ';'
  }

  predicate HasBadChar(s: string) {
    exists i :: 0 <= i < |s| && IsBadChar(s[i])
  }

  /** A candidate the cascade accepts: not blank and free of bad characters. */
  predicate Usable(s: string) {
    !IsBlank(s) && !HasBadChar(s)
  }

  /** A candidate with a bad character is discarded. */
  function Clean(s: string): string {
    if HasBadChar(s) then "" else s
  }

  function FileNameKey(): string {
    "filename="
  }

  /**
   * The `Content-Disposition` candidate: the text after the last `filename=`,
   * compared ignoring case, with every '"' removed; "" when the header is
   * blank or has no such key.
   */
  function DispositionName(header: NString): string {
    if IsNullOrWhiteSpace(header) then ""
    else
      var index := LastIndexOfIgnoreCase(header.value, FileNameKey());
      if index > -1 then ReplaceAll(header.value[index + |FileNameKey()|..], "\"", "") else ""
  }

  /** The candidate never holds a '"'. */
  lemma DispositionNameUnquoted(header: NString)
    ensures '"' !in DispositionName(header)
  {
    if !IsNullOrWhiteSpace(header) {
      var index := LastIndexOfIgnoreCase(header.value, FileNameKey());
      if index > -1 {
        ReplaceCharEliminates(header.value[index + |FileNameKey()|..], '"', "");
      }
    }
  }

  /** Only '=' lowers to '='. */
  lemma LowerCharNotEquals(c: char)
    requires c != '='
    ensures LowerChar(c) != '='
  {
  }

  /**
   * When the key occurs (ignoring case) at `p` and no '=' follows it, that is
   * the last occurrence: every occurrence ends with '='.
   */
  lemma LastKeyAt(s: string, p: nat)
    requires p + |FileNameKey()| <= |s| && ToLower(s)[p..p + |FileNameKey()|] == FileNameKey()
    requires forall j :: p + |FileNameKey()| <= j < |s| ==> s[j] != '='
    ensures LastIndexOfIgnoreCase(s, FileNameKey()) == p
  {
    var key := FileNameKey();
    ToLowerOfLower(key);
    var ls := ToLower(s);
    var r := LastIndexOfFrom(ls, key, |s| - |key|);
    assert OccursAt(ls, key, p);
    forall j | p < j <= |s| - |key|
      ensures !OccursAt(ls, key, j)
    {
      LowerCharNotEquals(s[j + 8]);
      assert ls[j..j + |key|][8] != key[8];
    }
  }

  /**
   * A header that ends with `filename=` and a name holding neither '"' nor '='
   * (an unquoted name such as `attachment; filename=setup.exe`) yields exactly
   * that name, whatever comes before the key.
   */
  lemma DispositionNameOfUnquoted(prefix: string, name: string)
    requires '"' !in name && '=' !in name
    ensures DispositionName(Some(prefix + FileNameKey() + name)) == name
  {
    var key := FileNameKey();
    var s := prefix + key + name;
    var p := |prefix|;
    assert s[p..p + |key|] == key;
    assert !IsWhiteSpace(s[p]);
    var ls := ToLower(s);
    assert ls[p..p + |key|] == key by {
      forall i | 0 <= i < |key|
        ensures ls[p + i] == key[i]
      {
        assert s[p + i] == key[i];
      }
    }
    assert forall j :: p + |key| <= j < |s| ==> s[j] == name[j - p - |key|];
    LastKeyAt(s, p);
    assert s[p + |key|..] == name;
    ContainsChar(name, '"');
    ReplaceAllAbsent(name, "\"", "");
  }

  /** How the request ended. */
  datatype Reply =
    | Threw
    | NoResponse
    | Replied(contentDisposition: NString, location: NString, responseUri: NString)

  /**
   * What `new Uri(url)` reports: a `file:` URI with its local path, an http(s)
   * URI, or another scheme, whose `WebRequest.Create` gives a request of the
   * named type (`System.Net.FtpWebRequest` for `ftp:`).
   */
  datatype UriKind = FileUri(localPath: string) | WebUri | OtherUri(requestType: string)

  /** The `InvalidCastException` of `(HttpWebRequest)WebRequest.Create(url)` for another kind of request. */
  function CastError(requestType: string): Error {
    Error(InvalidCast, "Unable to cast object of type '" + requestType + "' to type 'System.Net.HttpWebRequest'.")
  }

  /** The name chosen from a response, step by step as the source reassigns it. */
  function FromResponse(url: string, defaultName: string, contentDisposition: NString, location: NString,
                        responseUri: NString): string
  {
    var fromHeader := Clean(DispositionName(contentDisposition));
    var fromLocation := Clean(if IsBlank(fromHeader) && !IsNullOrWhiteSpace(location)
                              then GetFileName(OrEmpty(location)) else fromHeader);
    var responseUrl := OrEmpty(responseUri);
    var fromResponse := Clean(if IsBlank(fromLocation) && '?' !in responseUrl
                              then GetFileName(responseUrl) else fromLocation);
    var fromRequest := if IsBlank(fromResponse) && '?' !in url && !IsBlank(GetExtension(url))
                       then GetFileName(url) else fromResponse;
    if IsBlank(fromRequest) || HasBadChar(fromRequest) then defaultName else fromRequest
  }

  /** `GetRemoteFileName`. */
  function RemoteFileName(url: NString, uri: UriKind, defaultName: string, reply: Reply): Result<string, Error> {
    if IsNullOrWhiteSpace(url) then Success(defaultName)
    else match uri
      case FileUri(localPath) => Success(GetFileName(localPath))
      case OtherUri(requestType) => Failure(CastError(requestType))
      case WebUri =>
        match reply
        case Replied(contentDisposition, location, responseUri) =>
          Success(FromResponse(url.value, defaultName, contentDisposition, location, responseUri))
        case _ => Success(defaultName)
  }

  /**
   * The four candidates in the order they are tried; a source that is absent,
   * or that its guard rules out, offers "".
   */
  function Candidates(url: string, contentDisposition: NString, location: NString, responseUri: NString): seq<string> {
    var responseUrl := OrEmpty(responseUri);
    [DispositionName(contentDisposition),
     if !IsNullOrWhiteSpace(location) then GetFileName(OrEmpty(location)) else "",
     if '?' !in responseUrl then GetFileName(responseUrl) else "",
     if '?' !in url && !IsBlank(GetExtension(url)) then GetFileName(url) else ""]
  }

  /** The first usable candidate, else the default. */
  function FirstUsable(candidates: seq<string>, defaultName: string): string {
    if candidates == [] then defaultName
    else if Usable(candidates[0]) then candidates[0]
    else FirstUsable(candidates[1..], defaultName)
  }

  /**
   * The first usable candidate is usable and every candidate before it is
   * not; when no candidate is usable the result is the default.
   */
  lemma {:induction false} FirstUsableMeaning(candidates: seq<string>, defaultName: string)
    ensures var r := FirstUsable(candidates, defaultName);
      (r == defaultName && forall i :: 0 <= i < |candidates| ==> !Usable(candidates[i]))
      || exists k :: 0 <= k < |candidates| && r == candidates[k] && Usable(r)
           && forall i :: 0 <= i < k ==> !Usable(candidates[i])
  {
    if candidates != [] && !Usable(candidates[0]) {
      FirstUsableMeaning(candidates[1..], defaultName);
      var r := FirstUsable(candidates, defaultName);
      if exists k :: 0 <= k < |candidates[1..]| && r == candidates[1..][k] && Usable(r)
                     && forall i :: 0 <= i < k ==> !Usable(candidates[1..][i]) {
        var k :| 0 <= k < |candidates[1..]| && r == candidates[1..][k] && Usable(r)
                 && forall i :: 0 <= i < k ==> !Usable(candidates[1..][i]);
        assert forall i :: 0 <= i < k + 1 ==> !Usable(candidates[i]) by {
          forall i | 0 <= i < k + 1
            ensures !Usable(candidates[i])
          {
            if i > 0 {
              assert candidates[i] == candidates[1..][i - 1];
            }
          }
        }
      } else {
        assert forall i :: 0 <= i < |candidates| ==> !Usable(candidates[i]) by {
          forall i | 0 <= i < |candidates|
            ensures !Usable(candidates[i])
          {
            if i > 0 {
              assert candidates[i] == candidates[1..][i - 1];
            }
          }
        }
      }
    }
  }

  /** A candidate that is not usable leaves a blank name once cleaned. */
  lemma CleanUnusable(s: string)
    requires !Usable(s)
    ensures IsBlank(Clean(s))
  {
  }

  /**
   * The cascade over four candidates, each later one offered only when its
   * guard holds, ends on the first usable offer.
   */
  lemma CascadeOfFour(h: string, a: string, takeA: bool, b: string, takeB: bool, d: string, takeD: bool,
                      defaultName: string)
    ensures var f1 := Clean(h);
      var f2 := Clean(if IsBlank(f1) && takeA then a else f1);
      var f3 := Clean(if IsBlank(f2) && takeB then b else f2);
      var f4 := if IsBlank(f3) && takeD then d else f3;
      (if IsBlank(f4) || HasBadChar(f4) then defaultName else f4)
      == FirstUsable([h, if takeA then a else "", if takeB then b else "", if takeD then d else ""], defaultName)
  {
    var c := [h, if takeA then a else "", if takeB then b else "", if takeD then d else ""];
    var c1, c2, c3 := c[1..], c[2..], c[3..];
    assert c1[1..] == c2 && c2[1..] == c3 && c3[1..] == [];
    assert FirstUsable(c3, defaultName) == if Usable(c[3]) then c[3] else defaultName;
    assert FirstUsable(c2, defaultName) == if Usable(c[2]) then c[2] else FirstUsable(c3, defaultName);
    assert FirstUsable(c1, defaultName) == if Usable(c[1]) then c[1] else FirstUsable(c2, defaultName);
    if !Usable(h) {
      CleanUnusable(h);
      if !Usable(c[1]) {
        CleanUnusable(c[1]);
        if !Usable(c[2]) {
          CleanUnusable(c[2]);
        }
      }
    }
  }

  /**
   * The step-by-step reassignment of the source picks the first usable
   * candidate in the order Content-Disposition, Location, response URL,
   * request URL, and the default name when there is none.
   */
  lemma FromResponseIsFirstUsable(url: string, defaultName: string, contentDisposition: NString,
                                  location: NString, responseUri: NString)
    ensures FromResponse(url, defaultName, contentDisposition, location, responseUri)
         == FirstUsable(Candidates(url, contentDisposition, location, responseUri), defaultName)
  {
    var responseUrl := OrEmpty(responseUri);
    CascadeOfFour(DispositionName(contentDisposition),
                  GetFileName(OrEmpty(location)), !IsNullOrWhiteSpace(location),
                  GetFileName(responseUrl), '?' !in responseUrl,
                  GetFileName(url), '?' !in url && !IsBlank(GetExtension(url)),
                  defaultName);
  }
  /**
   * `GetRemoteFileName`: a blank URL, a failed request and a missing response
   * give the default name; a `file:` URI gives its local file name; a URI
   * of another scheme fails the cast, and nothing else fails; a
   * response gives the first usable candidate or the default, so a usable
   * `Content-Disposition` name always wins, and whatever is not the default is
   * usable.
   */
  lemma RemoteFileNameMeaning(url: NString, uri: UriKind, defaultName: string, reply: Reply)
    ensures var res := RemoteFileName(url, uri, defaultName, reply);
      (res.Failure? <==> !IsNullOrWhiteSpace(url) && uri.OtherUri?)
      && (res.Failure? ==> res.error == CastError(uri.requestType))
      && var r := if res.Success? then res.value else defaultName;
      (IsNullOrWhiteSpace(url) ==> r == defaultName)
      && (!IsNullOrWhiteSpace(url) && uri.FileUri? ==> r == GetFileName(uri.localPath) && HasNoSeparator(r))
      && (!IsNullOrWhiteSpace(url) && uri.WebUri? && !reply.Replied? ==> r == defaultName)
      && (!IsNullOrWhiteSpace(url) && uri.WebUri? && reply.Replied? ==>
            r == FirstUsable(Candidates(url.value, reply.contentDisposition, reply.location, reply.responseUri), defaultName)
            && (r == defaultName || Usable(r))
            && (Usable(DispositionName(reply.contentDisposition)) ==> r == DispositionName(reply.contentDisposition)))
  {
    if !IsNullOrWhiteSpace(url) && uri.WebUri? && reply.Replied? {
      var c := Candidates(url.value, reply.contentDisposition, reply.location, reply.responseUri);
      FromResponseIsFirstUsable(url.value, defaultName, reply.contentDisposition, reply.location, reply.responseUri);
      FirstUsableMeaning(c, defaultName);
    }
  }
}
