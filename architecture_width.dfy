/** The bit width of the running process (`ArchitectureWidth`). */
module ArchitectureWidth {

  /** `Get`: 64 for a 64-bit process, 32 otherwise. */
  function Get(is64Bit: bool): (width: int)
    ensures width == 64 <==> is64Bit
    ensures width == 32 <==> !is64Bit
  {
    if is64Bit then 64 else 32
  }

  /** `Matches`: the process has the given width. */
  predicate Matches(is64Bit: bool, compareTo: int)
  {
    Get(is64Bit) == compareTo
  }

  /** Exactly one of the two widths matches, and they match the process's bitness. */
  lemma MatchesExactlyOneWidth(is64Bit: bool)
    ensures Matches(is64Bit, 64) <==> is64Bit
    ensures Matches(is64Bit, 32) <==> !is64Bit
    ensures Matches(is64Bit, 32) != Matches(is64Bit, 64)
  {
  }

  /** No width other than 32 and 64 ever matches. */
  lemma MatchesOnlyKnownWidths(is64Bit: bool, compareTo: int)
    requires compareTo != 32 && compareTo != 64
    ensures !Matches(is64Bit, compareTo)
  {
  }
}
