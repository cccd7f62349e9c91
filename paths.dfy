/**
 * Windows path handling as the cmdlets use it: `Path.GetFileName`,
 * `Path.GetExtension`, a parent-directory split, and the `CombinePaths`
 * helper, which is not part of this model and is taken to join with a
 * single backslash the way `Join-Path` does.
 */
module Paths {
  import opened Text

  /** Directory and volume separators recognised by `System.IO.Path` on Windows. */
  predicate IsSeparator(c: char) {
    c == '\\' || c == '/' || c == ':'
  }

  predicate IsDirectorySeparator(c: char) {
    c == '\\' || c == '/'
  }

  predicate HasNoSeparator(s: string) {
    forall i :: 0 <= i < |s| ==> !IsSeparator(s[i])
  }

  lemma HasNoSeparatorConcat(a: string, b: string)
    requires HasNoSeparator(a) && HasNoSeparator(b)
    ensures HasNoSeparator(a + b)
  {
    assert forall i :: 0 <= i < |a + b| ==> (a + b)[i] == if i < |a| then a[i] else b[i - |a|];
  }

  /** The index just after the last separator of `p`, or 0 when there is none. */
  function NameStart(p: string): (k: nat)
    ensures k <= |p|
    ensures k > 0 ==> IsSeparator(p[k - 1])
    ensures HasNoSeparator(p[k..])
    decreases |p|
  {
    if p == [] then 0
    else if IsSeparator(p[|p| - 1]) then |p|
    else
      var k := NameStart(p[..|p| - 1]);
      assert p[k..] == p[..|p| - 1][k..] + [p[|p| - 1]];
      k
  }

  /**
   * `Path.GetFileName`: the text after the last separator; the whole path when
   * there is no separator.
   */
  function GetFileName(p: string): (r: string)
    ensures HasNoSeparator(r)
    ensures EndsWith(p, r)
    ensures |r| == |p| || IsSeparator(p[|p| - |r| - 1])
  {
    p[NameStart(p)..]
  }

  /** The index of the last '.' in `s`, or -1. */
  function LastDot(s: string): (k: int)
    ensures -1 <= k < |s|
    ensures k >= 0 ==> s[k] == '.'
    ensures forall i :: k < i < |s| ==> s[i] != '.'
  {
    if s == [] then -1
    else if s[|s| - 1] == '.' then |s| - 1
    else LastDot(s[..|s| - 1])
  }

  /**
   * `Path.GetExtension`: from the last '.' of the file name to its end, the dot
   * included; empty when the name has no '.' or ends with one.
   */
  function GetExtension(p: string): (r: string)
    ensures r != [] ==> |r| >= 2 && r[0] == '.' && EndsWith(GetFileName(p), r)
    ensures r != [] ==> '.' !in r[1..] && HasNoSeparator(r)
  {
    var name := GetFileName(p);
    var k := LastDot(name);
    if k < 0 || k == |name| - 1 then ""
    else name[k..]
  }

  /**
   * The parent directory of a path (`Split-Path -Parent`): everything before the
   * last directory separator, "" when there is none.
   */
  function GetParentDirectory(p: string): (r: string)
    ensures StartsWith(p, r)
  {
    var k := NameStart(p);
    if k == 0 then "" else p[..k - 1]
  }

  /**
   * `CombinePaths` (not part of this model), taken as `Join-Path`: an empty part
   * yields the other; otherwise the parts are joined by exactly one backslash.
   */
  function Combine(parent: string, child: string): (r: string)
    ensures parent == "" ==> r == child
    ensures child == "" ==> r == parent
  {
    if parent == "" then child
    else if child == "" then parent
    else TrimEndWhere(parent, IsDirectorySeparator) + "\\" + TrimStartWhere(child, IsDirectorySeparator)
  }

  /** A name combined under a directory is that path's file name. */
  lemma FileNameOfCombine(dir: string, name: string)
    requires name != "" && HasNoSeparator(name)
    ensures GetFileName(Combine(dir, name)) == name
  {
    var p := Combine(dir, name);
    assert !IsDirectorySeparator(name[0]);
    if dir != "" {
      assert p == TrimEndWhere(dir, IsDirectorySeparator) + "\\" + name;
    }
    NameStartOfSuffix(p, name);
  }

  /** A directory with no trailing separator is the parent of any name combined under it. */
  lemma ParentOfCombine(dir: string, name: string)
    requires dir != "" && !IsDirectorySeparator(dir[|dir| - 1])
    requires name != "" && HasNoSeparator(name)
    ensures GetParentDirectory(Combine(dir, name)) == dir
  {
    assert !IsDirectorySeparator(name[0]);
    assert TrimEndWhere(dir, IsDirectorySeparator) == dir;
    assert TrimStartWhere(name, IsDirectorySeparator) == name;
    var p := dir + "\\" + name;
    assert Combine(dir, name) == p;
    NameStartOfSuffix(p, name);
    assert p[..|dir|] == dir;
  }

  lemma {:induction false} NameStartOfSuffix(p: string, name: string)
    requires name != "" && HasNoSeparator(name) && EndsWith(p, name)
    requires |p| == |name| || IsSeparator(p[|p| - |name| - 1])
    ensures NameStart(p) == |p| - |name|
    decreases |name|
  {
    var n := |name|;
    var q := p[..|p| - 1];
    assert p[|p| - 1] == name[n - 1];
    assert !IsSeparator(p[|p| - 1]);
    assert NameStart(p) == NameStart(q);
    if n > 1 {
      var init := name[..n - 1];
      assert q[|q| - (n - 1)..] == init;
      assert HasNoSeparator(init);
      if |p| != n {
        assert q[|q| - (n - 1) - 1] == p[|p| - n - 1];
      }
      NameStartOfSuffix(q, init);
    } else if |q| > 0 {
      assert IsSeparator(q[|q| - 1]);
    }
  }

  /**
   * Characters `Path.GetInvalidFileNameChars` reports on Windows: the control
   * characters, '"', '<', '>', '|', ':', '*', '?', '\' and '/'.
   */
  predicate IsInvalidFileNameChar(c: char) {
    c < ' ' || c == '"' || c == '<' || c == '>' || c == '|' || c == ':' || c == '*' || c == '?'
    || c == '\\' || c == '/'
  }
}
