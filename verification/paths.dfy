/**
 * Joining of path strings as System.IO.Path.Combine does it: an empty
 * argument yields the other one, a rooted second argument replaces the first,
 * and otherwise a directory separator is inserted unless the first argument
 * already ends in one of the separator characters.
 */
module Paths {

  /** The separator Path.Combine inserts (the Windows directory separator). */
  const DirectorySeparator: char := '\\'

  /** Directory separator, alternative separator or volume separator. */
  predicate IsSeparator(c: char)
  {
    c == '\\' || c == '/' || c == ':'
  }

  predicate EndsInSeparator(p: string)
  {
    |p| > 0 && IsSeparator(p[|p| - 1])
  }

  /** Path.IsPathRooted: starts with a directory separator or has a volume
      separator as its second character. */
  predicate IsRooted(p: string)
  {
    (|p| >= 1 && (p[0] == '\\' || p[0] == '/')) || (|p| >= 2 && p[1] == ':')
  }

  /** The second argument is always a suffix of the result. A rooted second
      argument is the result; otherwise the first argument is a prefix and at
      most one separator is placed between the two. */
  function Combine(first: string, second: string): (r: string)
    ensures |second| <= |r| && r[|r| - |second|..] == second
    ensures IsRooted(second) ==> r == second
    ensures !IsRooted(second) ==> first <= r
    ensures !IsRooted(second) ==> r == first + second || r == first + [DirectorySeparator] + second
    ensures !IsRooted(second) ==> (r == first + second <==> second == [] || first == [] || EndsInSeparator(first))
  {
    if second == [] then first
    else if first == [] then second
    else if IsRooted(second) then second
    else if EndsInSeparator(first) then first + second
    else first + [DirectorySeparator] + second
  }

  /** Joining a name that is not rooted onto the root "/" gives the same
      string as prefixing it with "/". */
  lemma RootJoin(name: string)
    requires !IsRooted(name)
    ensures Combine("/", name) == "/" + name
  {
    if name != [] {
      assert EndsInSeparator("/");
    }
  }

  /** A rooted name joined onto "/" is the name itself, which is never the
      name prefixed with "/". */
  lemma RootedJoin(name: string)
    requires IsRooted(name)
    ensures Combine("/", name) == name
    ensures Combine("/", name) != "/" + name
  {
    assert |"/" + name| == |name| + 1;
  }
}
