/**
 * Finding the database user that belongs to a server login: the first user,
 * in collection order, whose login name equals the given one ignoring case.
 */
module SqlServer {
  import opened Wrappers

  /** A database user: its own name and the server login it is mapped to. */
  datatype User = User(name: string, login: string)

  /** Upper-case mapping of the ASCII letters; every other character maps to
      itself. */
  function UpperInvariant(c: char): char
  {
    if 'a' <= c <= 'z' then (c as int - 32) as char else c
  }

  /** Ordinal comparison ignoring case: equal length and equal characters
      after upper-casing. */
  predicate EqualsIgnoreCase(a: string, b: string)
  {
    |a| == |b| && forall i | 0 <= i < |a| :: UpperInvariant(a[i]) == UpperInvariant(b[i])
  }

  /** The comparison is an equivalence relation. */
  lemma EqualsIgnoreCaseIsEquivalence(a: string, b: string, c: string)
    ensures EqualsIgnoreCase(a, a)
    ensures EqualsIgnoreCase(a, b) ==> EqualsIgnoreCase(b, a)
    ensures EqualsIgnoreCase(a, b) && EqualsIgnoreCase(b, c) ==> EqualsIgnoreCase(a, c)
  {
  }

  /** The index of the first user whose login matches, if any. */
  function FirstMatch(users: seq<User>, loginName: string): (k: Option<nat>)
    ensures k.Some? ==> k.value < |users| && EqualsIgnoreCase(users[k.value].login, loginName)
    ensures k.Some? ==> forall j | 0 <= j < k.value :: !EqualsIgnoreCase(users[j].login, loginName)
    ensures k.None? <==> forall j | 0 <= j < |users| :: !EqualsIgnoreCase(users[j].login, loginName)
    decreases |users|
  {
    if |users| == 0 then None
    else if EqualsIgnoreCase(users[0].login, loginName) then Some(0)
    else
      match FirstMatch(users[1..], loginName)
      case None => None
      case Some(k) => Some(k + 1)
  }

  /** The user for a login, or None (C#'s null) when no user's login
      matches. */
  method UserForLogin(users: seq<User>, loginName: string) returns (r: Option<User>)
    ensures r.None? <==> forall j | 0 <= j < |users| :: !EqualsIgnoreCase(users[j].login, loginName)
    ensures r.Some? ==> EqualsIgnoreCase(r.value.login, loginName)
    ensures r == match FirstMatch(users, loginName)
                 case None => None
                 case Some(k) => Some(users[k])
  {
    var i := 0;
    while i < |users|
      invariant 0 <= i <= |users|
      invariant forall j | 0 <= j < i :: !EqualsIgnoreCase(users[j].login, loginName)
    {
      if EqualsIgnoreCase(users[i].login, loginName) {
        return Some(users[i]);
      }
      i := i + 1;
    }
    return None;
  }

  /** Two login names that differ only in letter case find the same user. */
  lemma {:induction false} FirstMatchIgnoresCase(users: seq<User>, a: string, b: string)
    requires EqualsIgnoreCase(a, b)
    ensures FirstMatch(users, a) == FirstMatch(users, b)
    decreases |users|
  {
    if |users| > 0 {
      EqualsIgnoreCaseIsEquivalence(users[0].login, a, b);
      EqualsIgnoreCaseIsEquivalence(users[0].login, b, a);
      FirstMatchIgnoresCase(users[1..], a, b);
    }
  }
}
