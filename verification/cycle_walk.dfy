/** Cycle-walking: restricting a permutation of [0, n) to [0, d) by applying it again
    while the result is outside.  Nothing here depends on which permutation it is. */
module CycleWalk {

  /** `f` and `g` are inverse permutations of [0, n). */
  ghost predicate Inverse(f: nat -> nat, g: nat -> nat, n: nat) {
    && (forall x: nat :: x < n ==> f(x) < n && g(f(x)) == x)
    && (forall x: nat :: x < n ==> g(x) < n && f(g(x)) == x)
  }

  function Iterate(f: nat -> nat, k: nat, x: nat): nat {
    if k == 0 then x else f(Iterate(f, k - 1, x))
  }

  /** Walking from `p` first lands inside [0, d) after `k >= 1` applications, at `q`. */
  ghost predicate Walks(f: nat -> nat, d: nat, p: nat, k: nat, q: nat) {
    && k >= 1 && q == Iterate(f, k, p) && q < d
    && forall j :: 1 <= j < k ==> Iterate(f, j, p) >= d
  }

  /** A set of naturals below `n` has at most `n` members. */
  lemma {:induction false} BoundedSet(s: set<nat>, n: nat)
    requires forall x :: x in s ==> x < n
    ensures |s| <= n
  {
    if n == 0 {
      assert s == {};
    } else {
      BoundedSet(s - {n - 1}, n - 1);
    }
  }

  /** The values met so far on a walk that started at `p` and is now at `last`: each but
      the start came from another of them, and none came from `last`. */
  ghost predicate Orbit(g: nat -> nat, n: nat, p: nat, last: nat, seen: set<nat>) {
    && p in seen && last in seen
    && (forall x :: x in seen ==> x < n)
    && (forall x :: x in seen && x != p ==> g(x) in seen && g(x) != last)
  }

  lemma ExtendOrbit(g: nat -> nat, n: nat, p: nat, last: nat, q: nat, seen: set<nat>)
    requires Orbit(g, n, p, last, seen) && q < n && g(q) == last && q != p
    ensures q !in seen && Orbit(g, n, p, q, seen + {q})
    ensures |seen| < n
  {
    assert q !in seen;
    BoundedSet(seen + {q}, n);
  }

  /** Every walk ends.  The orbit cannot repeat a value before it returns to its start
      (`g` would map the repetition back to an earlier one), and it lives in a finite
      set; its start is inside, so it lands inside no later than when it returns. */
  lemma WalkEnds(f: nat -> nat, g: nat -> nat, n: nat, d: nat, p: nat) returns (k: nat, q: nat)
    requires Inverse(f, g, n) && d <= n && p < d
    ensures Walks(f, d, p, k, q)
  {
    k, q := 1, f(p);
    assert Iterate(f, 0, p) == p;
    var seen, last := {p}, p;
    while q >= d
      invariant k >= 1 && q == Iterate(f, k, p) && q < n && g(q) == last
      invariant forall j :: 1 <= j < k ==> Iterate(f, j, p) >= d
      invariant Orbit(g, n, p, last, seen)
      decreases n - |seen|
    {
      ExtendOrbit(g, n, p, last, q, seen);
      seen, last := seen + {q}, q;
      k, q := k + 1, f(q);
    }
  }

  lemma {:induction false} IterateBelow(f: nat -> nat, g: nat -> nat, n: nat, k: nat, x: nat)
    requires Inverse(f, g, n) && x < n
    ensures Iterate(f, k, x) < n
  {
    if k > 0 {
      IterateBelow(f, g, n, k - 1, x);
    }
  }

  /** Undoing the last `j` of `k` applications. */
  lemma {:induction false} IterateBack(f: nat -> nat, g: nat -> nat, n: nat, k: nat, j: nat, x: nat)
    requires Inverse(f, g, n) && x < n && j <= k
    ensures Iterate(g, j, Iterate(f, k, x)) == Iterate(f, k - j, x)
  {
    if j > 0 {
      IterateBack(f, g, n, k, j - 1, x);
      IterateBelow(f, g, n, k - j, x);
    }
  }

  /** Walking back with the inverse retraces the walk. */
  lemma WalkBack(f: nat -> nat, g: nat -> nat, n: nat, d: nat, p: nat, k: nat, q: nat)
    requires Inverse(f, g, n) && d <= n && p < d && Walks(f, d, p, k, q)
    ensures Walks(g, d, q, k, p)
  {
    IterateBack(f, g, n, k, k, p);
    forall j | 1 <= j < k ensures Iterate(g, j, q) >= d {
      IterateBack(f, g, n, k, j, p);
    }
  }

  lemma WalkUnique(f: nat -> nat, d: nat, p: nat, k: nat, q: nat, k': nat, q': nat)
    requires Walks(f, d, p, k, q) && Walks(f, d, p, k', q')
    ensures k == k' && q == q'
  {
  }

  /** Where the walk from `p` lands. */
  ghost function Walked(f: nat -> nat, g: nat -> nat, n: nat, d: nat, p: nat): (q: nat)
    requires Inverse(f, g, n) && d <= n && p < d
    ensures q < d
  {
    assert exists k, q :: Walks(f, d, p, k, q) by {
      var k, q := WalkEnds(f, g, n, d, p);
    }
    var k, q :| Walks(f, d, p, k, q);
    q
  }

  lemma WalkedIs(f: nat -> nat, g: nat -> nat, n: nat, d: nat, p: nat, k: nat, q: nat)
    requires Inverse(f, g, n) && d <= n && p < d && Walks(f, d, p, k, q)
    ensures Walked(f, g, n, d, p) == q
  {
    var k', q' :| Walks(f, d, p, k', q') && q' == Walked(f, g, n, d, p);
    WalkUnique(f, d, p, k, q, k', q');
  }

  /** Cycle-walking the two inverses gives inverse permutations of [0, d). */
  lemma WalkedInverse(f: nat -> nat, g: nat -> nat, n: nat, d: nat, p: nat)
    requires Inverse(f, g, n) && d <= n && p < d
    ensures Walked(g, f, n, d, Walked(f, g, n, d, p)) == p
    ensures Walked(f, g, n, d, Walked(g, f, n, d, p)) == p
  {
    var k, q := WalkEnds(f, g, n, d, p);
    WalkedIs(f, g, n, d, p, k, q);
    WalkBack(f, g, n, d, p, k, q);
    WalkedIs(g, f, n, d, q, k, p);
    var k', q' := WalkEnds(g, f, n, d, p);
    WalkedIs(g, f, n, d, p, k', q');
    WalkBack(g, f, n, d, p, k', q');
    WalkedIs(f, g, n, d, q', k', p);
  }
}
