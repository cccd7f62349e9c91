/** `StringExtensions.ToSecureStringSafe`, with the secure string seen as its characters. */
module StringExtensions {
  import opened Wrappers
  import opened Text

  /** What the secure string holds: nothing for a null or blank input, otherwise every character. */
  function SecureCopy(input: NString): (r: seq<char>)
    ensures |r| == 0 || (input.Some? && |r| == |input.value|)
  {
    if IsNullOrWhiteSpace(input) then [] else input.value
  }

  /**
   * `ToSecureStringSafe`: starts from an empty secure string and, unless the input
   * is null or white space, appends the input's characters one by one.
   */
  method ToSecureStringSafe(input: NString) returns (secure: seq<char>)
    ensures IsNullOrWhiteSpace(input) ==> secure == []
    ensures !IsNullOrWhiteSpace(input) ==> |secure| == |input.value|
    ensures !IsNullOrWhiteSpace(input) ==> forall i :: 0 <= i < |secure| ==> secure[i] == input.value[i]
    ensures secure == SecureCopy(input)
  {
    secure := [];
    if IsNullOrWhiteSpace(input) {
      return;
    }
    var s := input.value;
    var i := 0;
    while i < |s|
      invariant 0 <= i <= |s|
      invariant secure == s[..i]
    {
      secure := secure + [s[i]];
      i := i + 1;
    }
    assert s[..|s|] == s;
  }

  /** Blank text of any length, white space of any kind, gives an empty secure string. */
  lemma BlankGivesEmpty(s: string)
    requires IsBlank(s)
    ensures SecureCopy(Some(s)) == []
  {
  }

  /** Text with a non-blank character keeps its surrounding and inner white space. */
  lemma NonBlankIsKeptWhole(s: string, i: nat)
    requires i < |s| && !IsWhiteSpace(s[i])
    ensures SecureCopy(Some(s)) == s
  {
  }
}
