/** Vocabulary shared by every component of the model. */
module Common {

  datatype Option<+T> = None | Some(value: T)

  function Max(a: int, b: int): int {
    if a >= b then a else b
  }

  function Min(a: int, b: int): int {
    if a <= b then a else b
  }

  // Splitting the last element off a sequence, the way logs and runs grow.
  function Init<T>(s: seq<T>): seq<T>
    requires s != []
  {
    s[..|s| - 1]
  }

  function Last<T>(s: seq<T>): T
    requires s != []
  {
    s[|s| - 1]
  }

  lemma SplitLast<T>(s: seq<T>)
    requires s != []
    ensures s == Init(s) + [Last(s)]
  {
  }

  lemma PrefixOfInit<T>(s: seq<T>, n: nat)
    requires s != [] && n < |s|
    ensures s[..n] == Init(s)[..n]
  {
  }

  lemma SplitOver<T>(first: seq<T>, second: seq<T>)
    requires second != []
    ensures first + second == first + Init(second) + [Last(second)]
  {
  }

  ghost predicate Distinct<T>(s: seq<T>) {
    forall i, j :: 0 <= i < j < |s| ==> s[i] != s[j]
  }

  /** `order` lists every element of `s` exactly once. */
  ghost predicate Enumerates<T>(order: seq<T>, s: set<T>) {
    && Distinct(order)
    && (forall x | x in s :: x in order)
    && (forall x | x in order :: x in s)
  }

  // `max(1, min(int(limit or dflt), cap))`: zero counts as absent.
  function ClampLimit(limit: int, dflt: int, cap: int): int {
    Max(1, Min(if limit == 0 then dflt else limit, cap))
  }
}
