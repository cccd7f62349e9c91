/**
 * `Get-ChocolateyConfigValue`: reads the global configuration file and returns
 * the value of the first `chocolatey/config/add` entry whose key matches.
 */
module ConfigValue {
  import opened Wrappers
  import opened Text
  import opened Host

  /** One `add` element; an attribute that is absent is `None`. */
  datatype ConfigEntry = ConfigEntry(key: NString, value: NString)

  /** What one content reader yields for `Read(1)`. */
  datatype ReadOutcome =
    /** `Read` threw, with this message. */
    | ReadThrows(message: string)
    /** No blocks. */
    | ReadsNothing
    /** At least one block; the first, converted to a string. */
    | ReadsBlock(first: NString)

  /** An entry that answers `key`: its key attribute equals `key` and it has a value. */
  predicate Answers(e: ConfigEntry, key: string) {
    e.key.Some? && IsEqual(e.key, Some(key)) && e.value.Some?
  }

  /** Entry `i` is the first that answers `key`. */
  predicate FirstAnswerAt(entries: seq<ConfigEntry>, key: string, i: int) {
    0 <= i < |entries| && Answers(entries[i], key) && forall j :: 0 <= j < i ==> !Answers(entries[j], key)
  }

  /** The value of the first entry that answers `key`; `null` when none does. */
  function FirstMatch(entries: seq<ConfigEntry>, key: string): (r: NString)
    ensures r.None? <==> forall i :: 0 <= i < |entries| ==> !Answers(entries[i], key)
    ensures r.Some? ==> exists i :: FirstAnswerAt(entries, key, i) && entries[i].value == r
  {
    if entries == [] then None
    else if Answers(entries[0], key) then entries[0].value
    else
      var r := FirstMatch(entries[1..], key);
      assert r.Some? ==> exists i :: FirstAnswerAt(entries, key, i) && entries[i].value == r by {
        if r.Some? {
          var i :| FirstAnswerAt(entries[1..], key, i) && entries[1..][i].value == r;
          assert FirstAnswerAt(entries, key, i + 1);
        }
      }
      r
  }

  /** The configuration text: the first block any reader yields, `null` when none does. */
  function FirstBlock(readers: seq<ReadOutcome>): NString {
    if readers == [] then None
    else if readers[0].ReadsBlock? then readers[0].first
    else FirstBlock(readers[1..])
  }

  /** The warnings written while looking for a block: one per reader that threw before it. */
  function ReadWarnings(readers: seq<ReadOutcome>): seq<string> {
    if readers == [] || readers[0].ReadsBlock? then []
    else if readers[0].ReadThrows? then
      ["Could not read configuration file: " + readers[0].message] + ReadWarnings(readers[1..])
    else ReadWarnings(readers[1..])
  }

  const MissingConfig := Error(RuntimeError, "Config file is missing or empty.")

  /**
   * The reader loop of `GetConfigValue`: each reader is asked for one block; the
   * first block ends the loop, and a reader that throws only adds a warning.
   */
  method ReadConfig(readers: seq<ReadOutcome>) returns (configString: NString, warnings: seq<string>)
    ensures configString == FirstBlock(readers)
    ensures warnings == ReadWarnings(readers)
  {
    configString := None;
    warnings := [];
    var i := 0;
    while i < |readers|
      invariant 0 <= i <= |readers|
      invariant forall j :: 0 <= j < i ==> !readers[j].ReadsBlock?
      invariant FirstBlock(readers) == FirstBlock(readers[i..])
      invariant warnings + ReadWarnings(readers[i..]) == ReadWarnings(readers)
      invariant configString == None
    {
      assert readers[i..][1..] == readers[i + 1..];
      match readers[i] {
        case ReadsBlock(first) =>
          configString := first;
          return;
        case ReadThrows(message) =>
          warnings := warnings + ["Could not read configuration file: " + message];
        case ReadsNothing =>
      }
      i := i + 1;
    }
  }

  /**
   * `GetConfigValue(key)`: a null key gives null without reading; no block (or a
   * null one) is a terminating error; otherwise the first answering entry's value.
   * `parse` stands for `XmlDocument.LoadXml` and the `chocolatey/config/add` query,
   * `None` when the text is not well-formed XML.
   */
  method GetConfigValue(key: NString, readers: seq<ReadOutcome>, parse: string -> Option<seq<ConfigEntry>>)
    returns (r: Result<NString, Error>, warnings: seq<string>)
    ensures key.None? ==> r == Success(None) && warnings == []
    ensures key.Some? ==> warnings == ReadWarnings(readers)
    ensures key.Some? && FirstBlock(readers).None? ==> r == Failure(MissingConfig)
    ensures key.Some? && FirstBlock(readers).Some? && parse(FirstBlock(readers).value).None? ==> r.Failure? && r.error.kind == XmlError
    ensures key.Some? && FirstBlock(readers).Some? && parse(FirstBlock(readers).value).Some? ==>
      r == Success(FirstMatch(parse(FirstBlock(readers).value).value, key.value))
  {
    if key.None? {
      return Success(None), [];
    }
    var configString;
    configString, warnings := ReadConfig(readers);
    if configString.None? {
      return Failure(MissingConfig), warnings;
    }
    var entries := parse(configString.value);
    if entries.None? {
      return Failure(Error(XmlError, "The configuration file is not well-formed XML.")), warnings;
    }
    r := Success(FirstMatch(entries.value, key.value));
  }

  /** An entry with the right key but no value does not stop the search. */
  lemma KeyWithoutValueIsSkipped(e: ConfigEntry, rest: seq<ConfigEntry>, key: string)
    requires e.value.None?
    ensures FirstMatch([e] + rest, key) == FirstMatch(rest, key)
  {
    assert ([e] + rest)[1..] == rest;
  }

  /** Key matching ignores case: an entry for "CacheLocation" answers "cachelocation". */
  lemma KeyMatchIgnoresCase(k: string, v: string, key: string)
    requires ToLower(k) == ToLower(key)
    ensures FirstMatch([ConfigEntry(Some(k), Some(v))], key) == Some(v)
  {
  }
}
