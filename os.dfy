/** Platform/OS.cpp: `GetAbsolutePath` keeps the directory part of the full
    path of a file. Resolving the full path (`GetFullPathName`) is not
    modelled: its outcome is a parameter, `None` when it fails. */
module OS {
  import opened Wrappers

  /** the characters `find_last_of("\\/")` looks for */
  predicate IsSeparator(c: char) {
    c == '\\' || c == '/'
  }

  /** `find_last_of("\\/")`: the index of the last separator, if any */
  function LastSeparator(s: string): (r: Option<nat>)
    ensures r.None? <==> forall j :: 0 <= j < |s| ==> !IsSeparator(s[j])
    ensures r.Some? ==> r.value < |s| && IsSeparator(s[r.value])
                        && forall j :: r.value < j < |s| ==> !IsSeparator(s[j])
  {
    if s == [] then None
    else if IsSeparator(s[|s| - 1]) then Some(|s| - 1)
    else LastSeparator(s[..|s| - 1])
  }

  /** the path with its file name removed: up to the last separator, then a
      backslash; a path without a separator is kept whole */
  function Directory(path: string): (r: string)
    ensures (forall j :: 0 <= j < |path| ==> !IsSeparator(path[j])) ==> r == path
    ensures (exists j :: 0 <= j < |path| && IsSeparator(path[j])) ==>
      0 < |r| <= |path| && r[|r| - 1] == '\\' && r[..|r| - 1] == path[..|r| - 1]
  {
    match LastSeparator(path)
    case None => path
    case Some(pos) => path[..pos] + "\\"
  }

  /** `GetAbsolutePath`: `resolved` is `None` when `GetFullPathName`
      returns 0 and otherwise the text its buffer holds. `false` with
      `result` untouched in the first case; otherwise `true` with the
      directory of that text */
  method GetAbsolutePath(resolved: Option<string>, result: string) returns (ok: bool, newResult: string)
    ensures ok <==> resolved.Some?
    ensures !ok ==> newResult == result
    ensures ok ==> newResult == Directory(resolved.value)
  {
    if resolved.None? {
      return false, result;
    }
    newResult := resolved.value;
    var pos := LastSeparator(newResult);
    if pos.Some? {
      newResult := newResult[..pos.value];
      newResult := newResult + "\\";
    }
    return true, newResult;
  }

  /** a path with a separator keeps exactly the text before its last
      separator, followed by a backslash */
  lemma {:induction false} DirectoryWithSeparator(path: string, k: nat)
    requires k < |path| && IsSeparator(path[k])
    requires forall j :: k < j < |path| ==> !IsSeparator(path[j])
    ensures Directory(path) == path[..k] + "\\"
  {
    var last := LastSeparator(path);
    assert last.Some?;
    assert IsSeparator(path[last.value]);
  }

  /** a path without a separator is its own directory */
  lemma DirectoryWithoutSeparator(path: string)
    requires forall j :: 0 <= j < |path| ==> !IsSeparator(path[j])
    ensures Directory(path) == path
  {}

  /** stripping is idempotent: the directory of a directory with a separator
      is itself */
  lemma {:induction false} DirectoryIdempotent(path: string)
    requires exists j :: 0 <= j < |path| && IsSeparator(path[j])
    ensures Directory(Directory(path)) == Directory(path)
  {
    var pos := LastSeparator(path).value;
    var d := Directory(path);
    assert d == path[..pos] + "\\";
    assert |d| == pos + 1 && IsSeparator(d[pos]);
    DirectoryWithSeparator(d, pos);
    assert d[..pos] == path[..pos];
  }
}
